/** The networks section (processNetworkInfo): one entry per network the
    stack's services attach to. A network that carries the stack's
    namespace label is defined in the document, with its driver, options
    and access label; any other is declared external. */
module Networks {
  import opened Strings
  import opened Iteration
  import opened Swarm

  const SectionHeader := "networks:"
  const DriverOptsHeader := "    driver_opts:"
  const ExternalLine := "    external: true"
  const AccessHeader := "    labels:"
  const AccessItem := "       - com.docker.ucp.access.label = "
  const OptionIndent := "        "
  /** The option written to force encryption on a managed network. */
  const EncryptedLine := "        encrypted: \"\""
  /** Option names containing this are dropped: Docker assigns the VXLAN IDs. */
  const VxlanName := "vxlanid_list"
  const EncryptedName := "encrypted"

  /** One driver option: an empty value is written as a quoted empty string. */
  function OptionLine(name: string, value: string): (r: string)
    ensures HasPrefix(r, OptionIndent + name + ": ")
    ensures value != "" ==> r == OptionIndent + name + ": " + value
  {
    if value == "" then OptionIndent + name + ": \"\"" else OptionIndent + name + ": " + value
  }

  /** The options kept, in the order visited: every one whose name does not
      contain "vxlanid_list". */
  function OptionLines(opts: map<string, string>, order: seq<string>): (r: seq<string>)
    requires forall i | 0 <= i < |order| :: order[i] in opts
    ensures |r| <= |order|
  {
    if order == [] then []
    else
      var n := |order| - 1;
      OptionLines(opts, order[..n]) + (if Contains(order[n], VxlanName) then [] else [OptionLine(order[n], opts[order[n]])])
  }

  /** Some option name contains "encrypted". */
  predicate NamesEncrypted(names: set<string>) {
    exists k | k in names :: Contains(k, EncryptedName)
  }

  /** The encrypted option is forced when the switch is on and no option
      name mentions encryption. */
  predicate ForceEncryption(opts: map<string, string>, encrypt: bool) {
    encrypt && !NamesEncrypted(opts.Keys)
  }

  /** The driver options a managed network's entry writes, without their header. */
  function OptionsBody(opts: map<string, string>, order: seq<string>, encrypt: bool): (r: seq<string>)
    requires forall i | 0 <= i < |order| :: order[i] in opts
  {
    OptionLines(opts, order) + (if ForceEncryption(opts, encrypt) then [EncryptedLine] else [])
  }

  /** The driver_opts block: only for a network with options, and only when
      something is left to write. */
  function DriverOptsLines(opts: map<string, string>, order: seq<string>, encrypt: bool): (r: seq<string>)
    requires forall i | 0 <= i < |order| :: order[i] in opts
  {
    if |opts| == 0 then []
    else
      var body := OptionsBody(opts, order, encrypt);
      if body == [] then [] else [DriverOptsHeader] + body
  }

  /** The option loop of processNetworkInfo (lines 312-329). */
  method OptionsOut(opts: map<string, string>, encrypt: bool) returns (body: seq<string>, ghost order: seq<string>)
    ensures Enumerates(order, opts.Keys)
    ensures body == OptionsBody(opts, order, encrypt)
  {
    body, order := [], [];
    var matchEncrypted := false;
    ghost var done: set<string> := {};
    var rest := opts.Keys;
    while rest != {}
      invariant rest == opts.Keys - done && done <= opts.Keys
      invariant Enumerates(order, done)
      invariant body == OptionLines(opts, order)
      invariant matchEncrypted <==> NamesEncrypted(done)
      decreases rest
    {
      var name :| name in rest;
      var value := opts[name];
      matchEncrypted := matchEncrypted || Contains(name, EncryptedName);
      if !Contains(name, VxlanName) {
        body := body + [OptionLine(name, value)];
      }
      Extend(order, done, name);
      assert (order + [name])[..|order|] == order;
      order := order + [name];
      done := done + {name};
      rest := rest - {name};
    }
    if !matchEncrypted && encrypt {
      body := body + [EncryptedLine];
    }
  }

  /** The stack defines the network (it carries the stack's namespace label). */
  predicate Managed(net: Network, stack: string) {
    Label(net.labels, NamespaceLabel) == stack
  }

  /** The access-label lines, when the label is set. */
  function AccessLines(net: Network): (r: seq<string>) {
    var access := Label(net.labels, AccessLabel);
    if |access| != 0 then [AccessHeader, AccessItem + access] else []
  }

  /** The entry for one network, recorded under name by the service blocks. */
  function NetworkEntry(id: string, name: string, stack: string, networks: map<string, Network>,
                        flags: Flags, optOrder: seq<string>): (r: seq<string>)
    requires var net := NetworkAt(networks, id);
      Managed(net, stack) ==> forall i | 0 <= i < |optOrder| :: optOrder[i] in net.options
  {
    var net := NetworkAt(networks, id);
    if Managed(net, stack) then
      var shown := if flags.stripPrefix then TrimPrefix(name, stack + "_") else name;
      ["  " + shown + ":", "    driver: " + net.driver]
      + DriverOptsLines(net.options, optOrder, flags.encrypt)
      + AccessLines(net)
    else
      ["  " + name + ":", ExternalLine]
  }

  /** optOrders[i] is the order the options of the i-th network were visited. */
  predicate OptionOrders(ids: seq<string>, optOrders: seq<seq<string>>, stack: string, networks: map<string, Network>) {
    && |optOrders| == |ids|
    && forall i | 0 <= i < |ids| ::
         var net := NetworkAt(networks, ids[i]);
         Managed(net, stack) ==> Enumerates(optOrders[i], net.options.Keys)
  }

  /** The entries, one per network in the order visited. */
  function NetworkEntries(ids: seq<string>, found: map<string, string>, optOrders: seq<seq<string>>,
                          stack: string, networks: map<string, Network>, flags: Flags): (r: seq<string>)
    requires forall i | 0 <= i < |ids| :: ids[i] in found
    requires OptionOrders(ids, optOrders, stack, networks)
  {
    if ids == [] then []
    else
      var n := |ids| - 1;
      assert OptionOrders(ids[..n], optOrders[..n], stack, networks) by {
        forall i | 0 <= i < n ensures ids[..n][i] == ids[i] && optOrders[..n][i] == optOrders[i] {}
      }
      NetworkEntries(ids[..n], found, optOrders[..n], stack, networks, flags)
      + NetworkEntry(ids[n], found[ids[n]], stack, networks, flags, optOrders[n])
  }

  /** The section appended to the document: nothing when no network was
      found, else the header and the entries. */
  function NetworkSection(ids: seq<string>, found: map<string, string>, optOrders: seq<seq<string>>,
                          stack: string, networks: map<string, Network>, flags: Flags): (r: seq<string>)
    requires forall i | 0 <= i < |ids| :: ids[i] in found
    requires OptionOrders(ids, optOrders, stack, networks)
  {
    if |found| == 0 then [] else [SectionHeader] + NetworkEntries(ids, found, optOrders, stack, networks, flags)
  }

  /** The body of processNetworkInfo's loop for one network (lines 303-342). */
  method NetworkEntryOut(id: string, name: string, stack: string, networks: map<string, Network>, flags: Flags)
    returns (entry: seq<string>, ghost optOrder: seq<string>)
    ensures var net := NetworkAt(networks, id);
      Managed(net, stack) ==> Enumerates(optOrder, net.options.Keys)
    ensures entry == NetworkEntry(id, name, stack, networks, flags, optOrder)
  {
    var net := if id in networks then networks[id] else ZeroNetwork;
    optOrder := [];
    if Label(net.labels, NamespaceLabel) == stack {
      var shown := if flags.stripPrefix then TrimPrefix(name, stack + "_") else name;
      entry := ["  " + shown + ":", "    driver: " + net.driver];
      var opts: seq<string> := [];
      if |net.options| != 0 {
        var body;
        body, optOrder := OptionsOut(net.options, flags.encrypt);
        if |body| > 0 {
          opts := [DriverOptsHeader] + body;
        }
      } else {
        assert net.options.Keys == {};
      }
      var access := Label(net.labels, AccessLabel);
      var labels := if |access| != 0 then [AccessHeader, AccessItem + access] else [];
      entry := entry + opts + labels;
    } else {
      entry := ["  " + name + ":", ExternalLine];
    }
  }

  lemma EntriesSnoc(ids: seq<string>, found: map<string, string>, optOrders: seq<seq<string>>, id: string,
                    optOrder: seq<string>, stack: string, networks: map<string, Network>, flags: Flags)
    requires forall i | 0 <= i < |ids| :: ids[i] in found
    requires id in found
    requires OptionOrders(ids, optOrders, stack, networks)
    requires Managed(NetworkAt(networks, id), stack) ==> Enumerates(optOrder, NetworkAt(networks, id).options.Keys)
    ensures OptionOrders(ids + [id], optOrders + [optOrder], stack, networks)
    ensures NetworkEntries(ids + [id], found, optOrders + [optOrder], stack, networks, flags)
         == NetworkEntries(ids, found, optOrders, stack, networks, flags)
            + NetworkEntry(id, found[id], stack, networks, flags, optOrder)
  {
    assert (ids + [id])[..|ids|] == ids;
    assert (optOrders + [optOrder])[..|ids|] == optOrders;
  }

  /** processNetworkInfo (lines 296-346): the networks section appended to
      the document built so far. */
  method ProcessNetworkInfo(stack: string, out: seq<string>, networks: map<string, Network>,
                            found: map<string, string>, flags: Flags)
    returns (result: seq<string>, ghost order: seq<string>, ghost optOrders: seq<seq<string>>)
    ensures Enumerates(order, found.Keys)
    ensures OptionOrders(order, optOrders, stack, networks)
    ensures result == out + NetworkSection(order, found, optOrders, stack, networks, flags)
  {
    order, optOrders := [], [];
    result := out;
    if |found| != 0 {
      var entries;
      entries, order, optOrders := SectionEntriesOut(stack, networks, found, flags);
      result := out + ([SectionHeader] + entries);
    } else {
      assert found.Keys == {};
    }
  }

  /** The loop of processNetworkInfo over the recorded networks (lines 302-343). */
  method SectionEntriesOut(stack: string, networks: map<string, Network>, found: map<string, string>, flags: Flags)
    returns (entries: seq<string>, ghost order: seq<string>, ghost optOrders: seq<seq<string>>)
    ensures Enumerates(order, found.Keys)
    ensures OptionOrders(order, optOrders, stack, networks)
    ensures entries == NetworkEntries(order, found, optOrders, stack, networks, flags)
  {
    order, optOrders := [], [];
    entries := [];
    ghost var done: set<string> := {};
    var rest := found.Keys;
    while rest != {}
      invariant rest == found.Keys - done && done <= found.Keys
      invariant Enumerates(order, done)
      invariant OptionOrders(order, optOrders, stack, networks)
      invariant entries == NetworkEntries(order, found, optOrders, stack, networks, flags)
      decreases rest
    {
      var id :| id in rest;
      var entry, optOrder := NetworkEntryOut(id, found[id], stack, networks, flags);
      EntriesSnoc(order, found, optOrders, id, optOrder, stack, networks, flags);
      Extend(order, done, id);
      entries := entries + entry;
      order := order + [id];
      optOrders := optOrders + [optOrder];
      done := done + {id};
      rest := rest - {id};
    }
  }

  /** The i-th visited option is kept and written as line. */
  predicate KeptAt(opts: map<string, string>, order: seq<string>, i: int, line: string) {
    && 0 <= i < |order| && order[i] in opts
    && !Contains(order[i], VxlanName)
    && line == OptionLine(order[i], opts[order[i]])
  }

  /** line is the line of some kept option. */
  ghost predicate IsKeptLine(opts: map<string, string>, order: seq<string>, line: string) {
    exists i :: KeptAt(opts, order, i, line)
  }

  /** Exactly the options whose name avoids "vxlanid_list" are written:
      each kept option has its line, and every line is a kept option's. */
  lemma {:induction false} OptionLinesKept(opts: map<string, string>, order: seq<string>)
    requires forall i | 0 <= i < |order| :: order[i] in opts
    ensures forall i | 0 <= i < |order| && !Contains(order[i], VxlanName) :: OptionLine(order[i], opts[order[i]]) in OptionLines(opts, order)
    ensures forall j | 0 <= j < |OptionLines(opts, order)| :: IsKeptLine(opts, order, OptionLines(opts, order)[j])
    decreases |order|
  {
    var r := OptionLines(opts, order);
    if order != [] {
      var n := |order| - 1;
      var init := order[..n];
      var before := OptionLines(opts, init);
      OptionLinesKept(opts, init);
      assert r == before + (if Contains(order[n], VxlanName) then [] else [OptionLine(order[n], opts[order[n]])]);
      forall i | 0 <= i < |order| && !Contains(order[i], VxlanName)
        ensures OptionLine(order[i], opts[order[i]]) in r
      {
        if i < n {
          assert init[i] == order[i];
          assert OptionLine(init[i], opts[init[i]]) in before;
        } else {
          assert r[|before|] == OptionLine(order[n], opts[order[n]]);
        }
      }
    }
    forall j | 0 <= j < |r|
      ensures IsKeptLine(opts, order, r[j])
    {
      OptionLineIsKept(opts, order, j);
    }
  }

  lemma {:induction false} OptionLineIsKept(opts: map<string, string>, order: seq<string>, j: int)
    requires forall i | 0 <= i < |order| :: order[i] in opts
    requires 0 <= j < |OptionLines(opts, order)|
    ensures exists i :: KeptAt(opts, order, i, OptionLines(opts, order)[j])
    decreases |order|
  {
    var n := |order| - 1;
    var init := order[..n];
    var r := OptionLines(opts, order);
    var before := OptionLines(opts, init);
    assert r == before + (if Contains(order[n], VxlanName) then [] else [OptionLine(order[n], opts[order[n]])]);
    if j < |before| {
      OptionLineIsKept(opts, init, j);
      var i :| KeptAt(opts, init, i, before[j]);
      assert init[i] == order[i] && r[j] == before[j];
      assert KeptAt(opts, order, i, r[j]);
    } else {
      assert KeptAt(opts, order, n, r[j]);
    }
  }

  /** The driver_opts block is written exactly when the network has an
      option to keep or encryption is forced; without the switch nothing is
      added to the options. */
  lemma DriverOptsPresence(opts: map<string, string>, order: seq<string>, encrypt: bool)
    requires Enumerates(order, opts.Keys)
    ensures var r := DriverOptsLines(opts, order, encrypt);
      && (r != [] <==> (exists i :: 0 <= i < |order| && !Contains(order[i], VxlanName)) || (|opts| != 0 && ForceEncryption(opts, encrypt)))
      && (r != [] ==> r[0] == DriverOptsHeader)
      && (!encrypt && r != [] ==> r[1..] == OptionLines(opts, order))
  {
    OptionLinesNonEmpty(opts, order);
    if exists i :: 0 <= i < |order| && !Contains(order[i], VxlanName) {
      var i :| 0 <= i < |order| && !Contains(order[i], VxlanName);
      assert order[i] in opts.Keys;
    }
  }

  /** Some option line is written exactly when some option is kept. */
  lemma OptionLinesNonEmpty(opts: map<string, string>, order: seq<string>)
    requires forall i | 0 <= i < |order| :: order[i] in opts
    ensures OptionLines(opts, order) != [] <==> exists i :: 0 <= i < |order| && !Contains(order[i], VxlanName)
  {
    OptionLinesKept(opts, order);
    var lines := OptionLines(opts, order);
    if exists i :: 0 <= i < |order| && !Contains(order[i], VxlanName) {
      var i :| 0 <= i < |order| && !Contains(order[i], VxlanName);
      assert OptionLine(order[i], opts[order[i]]) in lines;
    }
    if lines != [] {
      assert IsKeptLine(opts, order, lines[0]);
      var i :| KeptAt(opts, order, i, lines[0]);
    }
  }

  /** With the switch on, every managed network with options ends up
      encrypted: some option already names encryption, or the forced
      encrypted option closes its driver options. */
  lemma EncryptionForced(opts: map<string, string>, order: seq<string>)
    requires Enumerates(order, opts.Keys) && |opts| != 0
    ensures var r := DriverOptsLines(opts, order, true);
      NamesEncrypted(opts.Keys) || (|r| >= 2 && r[0] == DriverOptsHeader && r[|r| - 1] == EncryptedLine)
  {
  }

  lemma VxlanNotEncrypted()
    ensures !Contains(VxlanName, EncryptedName)
  {
    var s := VxlanName;
    assert !HasPrefix(s, EncryptedName) by { assert s[0] != EncryptedName[0]; }
    assert !HasPrefix(s[1..], EncryptedName) by { assert s[1..][0] != EncryptedName[0]; }
    assert !HasPrefix(s[2..], EncryptedName) by { assert s[2..][0] != EncryptedName[0]; }
    assert !HasPrefix(s[3..], EncryptedName) by { assert s[3..][0] != EncryptedName[0]; }
    assert s[1..][1..] == s[2..];
    assert s[2..][1..] == s[3..];
    NotContainsLonger(s[4..], EncryptedName);
    assert s[3..][1..] == s[4..];
  }

  lemma VxlanContainsItself()
    ensures Contains(VxlanName, VxlanName)
  {
    assert VxlanName[..|VxlanName|] == VxlanName;
  }

  lemma OptionLinesPair(opts: map<string, string>, a: string, b: string)
    requires a in opts && b in opts
    ensures OptionLines(opts, [a, b])
         == (if Contains(a, VxlanName) then [] else [OptionLine(a, opts[a])])
            + (if Contains(b, VxlanName) then [] else [OptionLine(b, opts[b])])
  {
    assert [a, b][..1] == [a];
    assert [a][..0] == [];
  }

  lemma MtuLine()
    ensures OptionLine("mtu", "1450") == "        mtu: 1450"
  {
    assert OptionIndent + "mtu" + ": " + "1450" == OptionIndent + ("mtu" + ": " + "1450");
  }

  /** Of a VXLAN ID list and an MTU, only the MTU is kept, in either order. */
  lemma VxlanDropped(opts: map<string, string>, order: seq<string>)
    requires opts == map[VxlanName := "256", "mtu" := "1450"]
    requires Enumerates(order, opts.Keys)
    ensures OptionLines(opts, order) == [OptionLine("mtu", "1450")]
  {
    assert opts.Keys == {VxlanName, "mtu"};
    EnumerationSize(order, opts.Keys);
    VxlanContainsItself();
    NotContainsLonger("mtu", VxlanName);
    assert order == [order[0], order[1]];
    OptionLinesPair(opts, order[0], order[1]);
    if order[0] == VxlanName {
      assert order[1] == "mtu";
    } else {
      assert order[0] == "mtu" && order[1] == VxlanName;
    }
  }

  /** A managed overlay network with a VXLAN ID list and an MTU, under the
      encryption switch: the ID list is dropped, the MTU kept and the
      encrypted option forced, whichever order the options are visited in. */
  lemma VxlanExample(order: seq<string>)
    requires Enumerates(order, map[VxlanName := "256", "mtu" := "1450"].Keys)
    ensures DriverOptsLines(map[VxlanName := "256", "mtu" := "1450"], order, true)
         == [DriverOptsHeader, "        mtu: 1450", EncryptedLine]
  {
    var opts := map[VxlanName := "256", "mtu" := "1450"];
    ExampleBody(opts, order);
    assert VxlanName in opts;
    DriverOptsOfBody(opts, order, true);
  }

  lemma ExampleBody(opts: map<string, string>, order: seq<string>)
    requires opts == map[VxlanName := "256", "mtu" := "1450"]
    requires Enumerates(order, opts.Keys)
    ensures OptionsBody(opts, order, true) == ["        mtu: 1450", EncryptedLine]
  {
    ExampleNotEncrypted(opts);
    VxlanDropped(opts, order);
    MtuLine();
  }

  /** Options that leave something to write are written under the header. */
  lemma DriverOptsOfBody(opts: map<string, string>, order: seq<string>, encrypt: bool)
    requires forall i | 0 <= i < |order| :: order[i] in opts
    requires |opts| != 0 && OptionsBody(opts, order, encrypt) != []
    ensures DriverOptsLines(opts, order, encrypt) == [DriverOptsHeader] + OptionsBody(opts, order, encrypt)
  {
  }

  lemma ExampleNotEncrypted(opts: map<string, string>)
    requires opts == map[VxlanName := "256", "mtu" := "1450"]
    ensures !NamesEncrypted(opts.Keys)
  {
    assert opts.Keys == {VxlanName, "mtu"};
    VxlanNotEncrypted();
    NotContainsLonger("mtu", EncryptedName);
  }

  /** A network is declared external exactly when it does not carry the
      stack's namespace label; a managed one is written under its recorded
      name, "<stack>_" stripped when the switch is on, with its driver, and
      closes with its access label when it has one. */
  lemma EntryKinds(id: string, name: string, stack: string, networks: map<string, Network>, flags: Flags, optOrder: seq<string>)
    requires var net := NetworkAt(networks, id);
      Managed(net, stack) ==> Enumerates(optOrder, net.options.Keys)
    ensures var net := NetworkAt(networks, id);
      var r := NetworkEntry(id, name, stack, networks, flags, optOrder);
      && |r| >= 2
      && (r[1] == ExternalLine <==> !Managed(net, stack))
      && (!Managed(net, stack) ==> r == ["  " + name + ":", ExternalLine])
      && (Managed(net, stack) ==> r[1] == "    driver: " + net.driver)
      && (Managed(net, stack) && !flags.stripPrefix ==> r[0] == "  " + name + ":")
      && (Managed(net, stack) && flags.stripPrefix && HasPrefix(name, stack + "_") ==>
            exists shown :: r[0] == "  " + shown + ":" && stack + "_" + shown == name)
      && (Managed(net, stack) && flags.stripPrefix && !HasPrefix(name, stack + "_") ==> r[0] == "  " + name + ":")
      && (Managed(net, stack) && |Label(net.labels, AccessLabel)| != 0 ==>
            r[|r| - 2] == AccessHeader && r[|r| - 1] == AccessItem + Label(net.labels, AccessLabel))
  {
    var net := NetworkAt(networks, id);
    if Managed(net, stack) {
      var r := NetworkEntry(id, name, stack, networks, flags, optOrder);
      assert r[1][4] != ExternalLine[4];
      if flags.stripPrefix && HasPrefix(name, stack + "_") {
        var shown := TrimPrefix(name, stack + "_");
        assert r[0] == "  " + shown + ":";
      }
    }
  }

  /** The entry written at off in lines is e. */
  predicate EntryAt(lines: seq<string>, off: int, e: seq<string>) {
    0 <= off && off + |e| <= |lines| && lines[off..off + |e|] == e
  }

  lemma EntryAtConcat(a: seq<string>, b: seq<string>, e: seq<string>)
    ensures forall off | EntryAt(a, off, e) :: EntryAt(a + b, off, e)
    ensures EntryAt(a + b, |a|, b)
  {
    forall off | EntryAt(a, off, e)
      ensures EntryAt(a + b, off, e)
    {
      assert (a + b)[off..off + |e|] == a[off..off + |e|];
    }
    assert (a + b)[|a|..|a| + |b|] == b;
  }

  lemma EntryAtShift(a: seq<string>, b: seq<string>, off: int, e: seq<string>)
    requires EntryAt(b, off, e)
    ensures EntryAt(a + b, |a| + off, e)
  {
    assert (a + b)[|a| + off..|a| + off + |e|] == b[off..off + |e|];
  }

  /** The section holds an entry for every network found, the one its
      recorded name and options call for. */
  lemma {:induction false} EntriesCoverFound(ids: seq<string>, found: map<string, string>, optOrders: seq<seq<string>>,
                                            stack: string, networks: map<string, Network>, flags: Flags, i: int)
    requires forall k | 0 <= k < |ids| :: ids[k] in found
    requires OptionOrders(ids, optOrders, stack, networks) && 0 <= i < |ids|
    ensures exists off :: EntryAt(NetworkEntries(ids, found, optOrders, stack, networks, flags), off,
                                  NetworkEntry(ids[i], found[ids[i]], stack, networks, flags, optOrders[i]))
    decreases |ids|
  {
    var n := |ids| - 1;
    assert OptionOrders(ids[..n], optOrders[..n], stack, networks) by {
      forall k | 0 <= k < n ensures ids[..n][k] == ids[k] && optOrders[..n][k] == optOrders[k] {}
    }
    var before := NetworkEntries(ids[..n], found, optOrders[..n], stack, networks, flags);
    var last := NetworkEntry(ids[n], found[ids[n]], stack, networks, flags, optOrders[n]);
    var e := NetworkEntry(ids[i], found[ids[i]], stack, networks, flags, optOrders[i]);
    assert NetworkEntries(ids, found, optOrders, stack, networks, flags) == before + last;
    EntryAtConcat(before, last, e);
    if i < n {
      EntriesCoverFound(ids[..n], found, optOrders[..n], stack, networks, flags, i);
      assert ids[..n][i] == ids[i] && optOrders[..n][i] == optOrders[i];
    }
  }

  /** The entry for the network found under id is in the section. */
  ghost predicate HasEntry(r: seq<string>, order: seq<string>, found: map<string, string>, optOrders: seq<seq<string>>,
                     stack: string, networks: map<string, Network>, flags: Flags, id: string)
    requires id in found && |optOrders| == |order|
    requires OptionOrders(order, optOrders, stack, networks)
  {
    exists i, off :: 0 <= i < |order| && order[i] == id
      && EntryAt(r, off, NetworkEntry(id, found[id], stack, networks, flags, optOrders[i]))
  }

  lemma SectionHasEntry(order: seq<string>, found: map<string, string>, optOrders: seq<seq<string>>,
                        stack: string, networks: map<string, Network>, flags: Flags, id: string)
    requires Enumerates(order, found.Keys) && OptionOrders(order, optOrders, stack, networks) && id in found
    ensures HasEntry(NetworkSection(order, found, optOrders, stack, networks, flags), order, found, optOrders, stack, networks, flags, id)
  {
    var i :| 0 <= i < |order| && order[i] == id;
    var e := NetworkEntry(id, found[id], stack, networks, flags, optOrders[i]);
    var entries := NetworkEntries(order, found, optOrders, stack, networks, flags);
    EntriesCoverFound(order, found, optOrders, stack, networks, flags, i);
    var off :| EntryAt(entries, off, e);
    EntryAtShift([SectionHeader], entries, off, e);
    assert NetworkSection(order, found, optOrders, stack, networks, flags) == [SectionHeader] + entries;
  }

  /** The section is absent exactly when no network was found; otherwise it
      opens with its header and holds an entry for each network found. */
  lemma SectionShape(order: seq<string>, found: map<string, string>, optOrders: seq<seq<string>>,
                     stack: string, networks: map<string, Network>, flags: Flags)
    requires Enumerates(order, found.Keys) && OptionOrders(order, optOrders, stack, networks)
    ensures var r := NetworkSection(order, found, optOrders, stack, networks, flags);
      && (r == [] <==> |found| == 0)
      && (r != [] ==> r[0] == SectionHeader)
      && forall id | id in found :: HasEntry(r, order, found, optOrders, stack, networks, flags, id)
  {
    forall id | id in found
      ensures HasEntry(NetworkSection(order, found, optOrders, stack, networks, flags), order, found, optOrders, stack, networks, flags, id)
    {
      SectionHasEntry(order, found, optOrders, stack, networks, flags, id);
    }
  }
}
