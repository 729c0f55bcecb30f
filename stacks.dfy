/** Stack grouping: services are partitioned by their namespace label, and
    the labelled ones are indexed by ID. */
module Stacks {
  import opened Wrappers
  import opened Swarm

  /** The IDs of the services labelled with stack s, in input order. */
  function Members(services: seq<Service>, s: string): (ids: seq<string>)
    ensures |ids| <= |services|
    decreases |services|
  {
    if services == [] then []
    else
      var n := |services| - 1;
      Members(services[..n], s) + (if Namespace(services[n]) == Some(s) then [services[n].id] else [])
  }

  /** The index after the loop: every labelled service stored under its ID
      (a later one overwriting an earlier one), on top of what was there. */
  function Indexed(services: seq<Service>, byID: map<string, Service>): (r: map<string, Service>)
    decreases |services|
  {
    if services == [] then byID
    else
      var n := |services| - 1;
      var m := Indexed(services[..n], byID);
      if Namespace(services[n]).Some? then m[services[n].id := services[n]] else m
  }

  /** The stacks map after the loop, built the way the loop builds it: each
      labelled service appended to its stack's list. */
  function Grouped(services: seq<Service>): (r: map<string, seq<string>>)
    decreases |services|
  {
    if services == [] then map[]
    else
      var n := |services| - 1;
      var m := Grouped(services[..n]);
      match Namespace(services[n])
      case None => m
      case Some(name) => m[name := (if name in m then m[name] else []) + [services[n].id]]
  }

  /** The map the loop builds lists, for each stack, exactly its members. */
  lemma {:induction false} GroupedMembers(services: seq<Service>)
    ensures forall s :: s in Grouped(services) <==> Members(services, s) != []
    ensures forall s | s in Grouped(services) :: Grouped(services)[s] == Members(services, s)
    decreases |services|
  {
    if services != [] {
      var n := |services| - 1;
      GroupedMembers(services[..n]);
    }
  }

  /** buildStacks: the stacks map has an entry exactly for the stacks some
      service is labelled with, each listing its members' IDs in input order;
      the caller's index gains the labelled services. Go's in-place update of
      the caller's map is the returned map `indexed`. */
  method BuildStacks(services: seq<Service>, byID: map<string, Service>)
    returns (stacks: map<string, seq<string>>, indexed: map<string, Service>)
    ensures forall s :: s in stacks <==> Members(services, s) != []
    ensures forall s | s in stacks :: stacks[s] == Members(services, s)
    ensures indexed == Indexed(services, byID)
  {
    stacks := map[];
    indexed := byID;
    for i := 0 to |services|
      invariant stacks == Grouped(services[..i])
      invariant indexed == Indexed(services[..i], byID)
    {
      var service := services[i];
      assert services[..i + 1][..i] == services[..i];
      if NamespaceLabel !in service.labels {
        continue;
      } else {
        var name := service.labels[NamespaceLabel];
        stacks := stacks[name := (if name in stacks then stacks[name] else []) + [service.id]];
      }
      indexed := indexed[service.id := service];
    }
    assert services[..|services|] == services;
    GroupedMembers(services);
  }

  /** An ID is listed under stack s exactly when some service with that ID is
      labelled s. */
  lemma {:induction false} MembersIff(services: seq<Service>, s: string, id: string)
    ensures id in Members(services, s) <==>
            exists j | 0 <= j < |services| :: services[j].id == id && Namespace(services[j]) == Some(s)
    decreases |services|
  {
    if services != [] {
      var n := |services| - 1;
      MembersIff(services[..n], s, id);
      if exists j | 0 <= j < |services| :: services[j].id == id && Namespace(services[j]) == Some(s) {
        var j :| 0 <= j < |services| && services[j].id == id && Namespace(services[j]) == Some(s);
        if j < n {
          assert services[..n][j] == services[j];
        }
      }
    }
  }

  /** Grouping keeps input order: the members of a concatenation are the
      members of the first part followed by those of the second. */
  lemma {:induction false} MembersConcat(a: seq<Service>, b: seq<Service>, s: string)
    ensures Members(a + b, s) == Members(a, s) + Members(b, s)
    decreases |b|
  {
    if b == [] {
      assert a + b == a;
    } else {
      var n := |b| - 1;
      MembersConcat(a, b[..n], s);
      var last := if Namespace(b[n]) == Some(s) then [b[n].id] else [];
      assert (a + b)[..|a + b| - 1] == a + b[..n];
      assert (a + b)[|a + b| - 1] == b[n];
      assert Members(a + b, s) == Members(a, s) + Members(b[..n], s) + last;
      assert Members(b, s) == Members(b[..n], s) + last;
    }
  }

  /** Service IDs are unique in a swarm. */
  predicate DistinctIDs(services: seq<Service>) {
    forall i, j | 0 <= i < j < |services| :: services[i].id != services[j].id
  }

  /** A service without the namespace label appears in no stack. */
  lemma UnlabelledInNoStack(services: seq<Service>, k: int, s: string)
    requires DistinctIDs(services)
    requires 0 <= k < |services| && Namespace(services[k]) == None
    ensures services[k].id !in Members(services, s)
  {
    MembersIff(services, s, services[k].id);
  }

  /** An ID is in the index exactly when it was there before or some
      labelled service has it. */
  lemma {:induction false} IndexedIff(services: seq<Service>, byID: map<string, Service>, id: string)
    ensures id in Indexed(services, byID) <==>
            id in byID || exists j | 0 <= j < |services| :: services[j].id == id && Namespace(services[j]).Some?
    decreases |services|
  {
    if services != [] {
      var n := |services| - 1;
      IndexedIff(services[..n], byID, id);
      if exists j | 0 <= j < |services| :: services[j].id == id && Namespace(services[j]).Some? {
        var j :| 0 <= j < |services| && services[j].id == id && Namespace(services[j]).Some?;
        if j < n {
          assert services[..n][j] == services[j];
        }
      }
    }
  }

  /** Because the loop skips the indexing step for an unlabelled service, such
      a service is not indexed either (unless its ID was already there). */
  lemma UnlabelledNotIndexed(services: seq<Service>, byID: map<string, Service>, k: int)
    requires DistinctIDs(services)
    requires 0 <= k < |services| && Namespace(services[k]) == None && services[k].id !in byID
    ensures services[k].id !in Indexed(services, byID)
  {
    IndexedIff(services, byID, services[k].id);
  }

  /** A labelled service is found under its own ID. */
  lemma {:induction false} LabelledIndexed(services: seq<Service>, byID: map<string, Service>, k: int)
    requires DistinctIDs(services)
    requires 0 <= k < |services| && Namespace(services[k]).Some?
    ensures var m := Indexed(services, byID); services[k].id in m && m[services[k].id] == services[k]
    decreases |services|
  {
    var n := |services| - 1;
    if k < n {
      assert DistinctIDs(services[..n]);
      assert services[..n][k] == services[k];
      LabelledIndexed(services[..n], byID, k);
    }
  }
}
