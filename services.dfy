/** Service block assembly (processStack): the document header, then one
    block per member of the stack, while collecting the networks the stack
    uses. */
module Services {
  import opened Wrappers
  import opened Strings
  import opened Lines
  import opened Iteration
  import opened Swarm
  import opened Fields

  /** memandcpuOut, whose floating-point formatting is not part of this
      model: the lines it writes for one set of resource values. */
  type ResourceFormat = ResourceValues -> seq<string>

  /** The nil pointer a service block dereferences without checking: Go
      panics there and no document is written. */
  datatype Fault = NilReplicas(service: string) | NilPlacement(service: string) | NilResources(service: string)

  /** The order Go's map iteration happened to take for each map of a service. */
  datatype Orders = Orders(deployLabels: seq<string>, containerLabels: seq<string>, logOptions: seq<string>)

  /** processStack's two results: the document so far and the networks used. */
  datatype Rendered = Rendered(lines: seq<string>, networks: map<string, string>)

  const DocumentHeader := ["version: '3.3'", "", "services:"]
  const NetworkMarker := "      - "
  const PortMarker := "     - "

  /** The key a service is written under: the first alias of its first
      service-level network attachment when there is one, else its name. */
  function ServiceKey(svc: Service): (r: string) {
    if |svc.specNetworks| != 0 && |svc.specNetworks[0].aliases| != 0 then svc.specNetworks[0].aliases[0]
    else svc.name
  }

  /** The attachments listed: the task-level ones when there are any, else
      the service-level ones. */
  function Attachments(svc: Service): (r: seq<Attachment>) {
    if |svc.taskNetworks| != 0 then svc.taskNetworks else svc.specNetworks
  }

  /** The name a service block lists for a network: "<stack>_" trimmed off
      when the switch is on and the network carries a namespace label. */
  function DisplayName(net: Network, stack: string, strip: bool): (r: string) {
    if Label(net.labels, NamespaceLabel) != "" then
      if strip then TrimPrefix(net.name, stack + "_") else net.name
    else net.name
  }

  function NetworkNames(atts: seq<Attachment>, stack: string, networks: map<string, Network>, strip: bool): (r: seq<string>)
    ensures |r| == |atts|
  {
    seq(|atts|, i requires 0 <= i < |atts| => DisplayName(NetworkAt(networks, atts[i].target), stack, strip))
  }

  function NetworksLines(svc: Service, stack: string, networks: map<string, Network>, strip: bool): (r: seq<string>) {
    var atts := Attachments(svc);
    if |atts| == 0 then [] else ["    networks:"] + ListLines(NetworkMarker, NetworkNames(atts, stack, networks, strip))
  }

  /** What the network loops leave in myNetworks: each attachment's target
      set, in order, to its network's raw name. */
  function Record(used: map<string, string>, atts: seq<Attachment>, networks: map<string, Network>): (r: map<string, string>) {
    if |atts| == 0 then used
    else
      var last := atts[|atts| - 1];
      Record(used, atts[..|atts| - 1], networks)[last.target := NetworkAt(networks, last.target).name]
  }

  predicate Attached(atts: seq<Attachment>, t: string) {
    exists i :: 0 <= i < |atts| && atts[i].target == t
  }

  /** Recording keeps every earlier entry of a target no attachment names,
      and adds every target, mapped to its network's name. */
  lemma {:induction false} RecordEntries(used: map<string, string>, atts: seq<Attachment>, networks: map<string, Network>, t: string)
    ensures var r := Record(used, atts, networks);
      && (t in r <==> t in used || Attached(atts, t))
      && (Attached(atts, t) ==> r[t] == NetworkAt(networks, t).name)
      && (!Attached(atts, t) && t in used ==> r[t] == used[t])
  {
    if |atts| != 0 {
      var init := atts[..|atts| - 1];
      RecordEntries(used, init, networks, t);
      if Attached(init, t) {
        var i :| 0 <= i < |init| && init[i].target == t;
        assert atts[i].target == t;
      }
      if Attached(atts, t) && atts[|atts| - 1].target != t {
        var i :| 0 <= i < |atts| && atts[i].target == t;
        assert init[i].target == t;
      }
    }
  }

  lemma RecordSnoc(used: map<string, string>, atts: seq<Attachment>, j: nat, networks: map<string, Network>)
    requires j < |atts|
    ensures Record(used, atts[..j + 1], networks) == Record(used, atts[..j], networks)[atts[j].target := NetworkAt(networks, atts[j].target).name]
  {
    assert atts[..j + 1][..j] == atts[..j];
  }

  /** One of the two network loops of processStack: a list item per
      attachment, each target recorded as used. */
  method AttachmentsOut(atts: seq<Attachment>, stack: string, networks: map<string, Network>, strip: bool,
                        used: map<string, string>)
    returns (items: seq<string>, used': map<string, string>)
    ensures items == ListLines(NetworkMarker, NetworkNames(atts, stack, networks, strip))
    ensures used' == Record(used, atts, networks)
  {
    items, used' := [], used;
    for j := 0 to |atts|
      invariant |items| == j
      invariant forall k | 0 <= k < j :: items[k] == NetworkMarker + DisplayName(NetworkAt(networks, atts[k].target), stack, strip)
      invariant used' == Record(used, atts[..j], networks)
    {
      var net := NetworkAt(networks, atts[j].target);
      items := items + [NetworkMarker + DisplayName(net, stack, strip)];
      used' := used'[atts[j].target := net.name];
      RecordSnoc(used, atts, j, networks);
    }
    assert atts[..|atts|] == atts;
  }

  /** The network part of processStack (lines 236-268): the task-level
      attachments when there are any, else the service-level ones. */
  method NetworksOut(svc: Service, stack: string, networks: map<string, Network>, strip: bool, used: map<string, string>)
    returns (out: seq<string>, used': map<string, string>)
    ensures out == NetworksLines(svc, stack, networks, strip)
    ensures used' == Record(used, Attachments(svc), networks)
  {
    out, used' := [], used;
    if |svc.taskNetworks| != 0 {
      var items;
      items, used' := AttachmentsOut(svc.taskNetworks, stack, networks, strip, used);
      out := ["    networks:"] + items;
    } else if |svc.specNetworks| != 0 {
      var items;
      items, used' := AttachmentsOut(svc.specNetworks, stack, networks, strip, used);
      out := ["    networks:"] + items;
    }
  }

  /** One published port as the evidently intended list item. */
  function PortItem(p: Port): (r: string) {
    "\"" + Decimal(p.published) + ":" + Decimal(p.target) + "\""
  }

  /** The two lines lines 230-231 write for a port: the list marker alone,
      then the quoted pair at the start of the next line. */
  function PortLinesAsWritten(p: Port): (r: seq<string>) {
    [PortMarker, PortItem(p)]
  }

  /** The ports block, with each port on its list marker's line. */
  function PortsLines(ports: seq<Port>): (r: seq<string>) {
    if |ports| == 0 then []
    else ["    ports:"] + ListLines(PortMarker, seq(|ports|, i requires 0 <= i < |ports| => PortItem(ports[i])))
  }

  /** The ports loop, with each port on its list marker's line. */
  method PortsOut(ports: seq<Port>) returns (out: seq<string>)
    ensures out == PortsLines(ports)
  {
    out := [];
    if |ports| != 0 {
      var items := ListOut(PortMarker, seq(|ports|, i requires 0 <= i < |ports| => PortItem(ports[i])));
      out := ["    ports:"] + items;
    }
  }

  /** As written, a port's lines do not read as a list at all (the pair
      sits outside any list item); the corrected lines read back as exactly
      the quoted pairs, in order. */
  lemma PortsFinding(ports: seq<Port>)
    requires ports != []
    ensures ListItems(PortLinesAsWritten(ports[0]), PortMarker) == None
    ensures var r := PortsLines(ports);
      ListItems(r[1..], PortMarker) == Some(seq(|ports|, i requires 0 <= i < |ports| => PortItem(ports[i])))
  {
    var w := PortLinesAsWritten(ports[0]);
    Differ(w[1], PortMarker, 0);
    ListItemsNeedMarker(w, PortMarker, 1);
    var items := seq(|ports|, i requires 0 <= i < |ports| => PortItem(ports[i]));
    assert PortsLines(ports)[1..] == ListLines(PortMarker, items);
    ListRoundTrip(PortMarker, items);
  }

  function MountItem(m: Mount): (r: string) {
    m.source + ":" + m.target
  }

  function VolumesLines(mounts: seq<Mount>): (r: seq<string>) {
    if |mounts| == 0 then []
    else ["    volumes:"] + ListLines(NetworkMarker, seq(|mounts|, i requires 0 <= i < |mounts| => MountItem(mounts[i])))
  }

  function EnvironmentLines(env: seq<string>): (r: seq<string>) {
    if |env| == 0 then [] else ["    environment:"] + ListLines(NetworkMarker, env)
  }

  /** The resources block: a limits and a reservations part, each only when
      present, under a header written when either is. */
  function ResourcesLines(res: Resources, memAndCpu: ResourceFormat): (r: seq<string>) {
    if res.limits.None? && res.reservations.None? then []
    else
      ["      resources: "]
      + (if res.limits.Some? then ["        limits:"] + memAndCpu(res.limits.value) else [])
      + (if res.reservations.Some? then ["        reservations:"] + memAndCpu(res.reservations.value) else [])
  }

  /** The first nil pointer a block for svc would dereference, in the order
      the source reaches them (lines 194, 208 and 211). */
  function ServiceFault(id: string, svc: Service): (r: Option<Fault>) {
    if svc.replicas.None? then Some(NilReplicas(id))
    else if svc.placement.None? then Some(NilPlacement(id))
    else if svc.resources.None? then Some(NilResources(id))
    else None
  }

  predicate Renderable(svc: Service) {
    svc.replicas.Some? && svc.placement.Some? && svc.resources.Some?
  }

  function LogOptionKeys(svc: Service): (r: set<string>) {
    if svc.logDriver.Some? then svc.logDriver.value.options.Keys else {}
  }

  /** ord records an iteration order for each map of svc. */
  predicate ValidOrders(svc: Service, ord: Orders) {
    && Enumerates(ord.deployLabels, svc.labels.Keys)
    && Enumerates(ord.containerLabels, svc.containerLabels.Keys)
    && Enumerates(ord.logOptions, LogOptionKeys(svc))
  }

  /** The deploy section of a block: replicas, the policies, placement,
      resources and the service's own labels (lines 193-224). */
  function DeployLines(svc: Service, memAndCpu: ResourceFormat, labelOrder: seq<string>): (r: seq<string>)
    requires Renderable(svc) && Enumerates(labelOrder, svc.labels.Keys)
  {
    ["    deploy:", "      replicas: " + Decimal(svc.replicas.value)]
    + (if svc.restart.Some? then RestartPolicyOut(svc.restart.value) else [])
    + (if svc.update.Some? then ["      update_config:"] + UpdateConfigOut(svc.update.value) else [])
    + (if svc.rollback.Some? then ["      rollback_config:"] + UpdateConfigOut(svc.rollback.value) else [])
    + (if |svc.placement.value| != 0 then ConstraintsLines(svc.placement.value) else [])
    + ResourcesLines(svc.resources.value, memAndCpu)
    + (if |svc.labels| != 0 then LabelsLines(svc.labels, 6, labelOrder) else [])
  }

  /** The container part of a block: its labels, mounts, environment and
      log driver (lines 270-291). */
  function ContainerLines(svc: Service, labelOrder: seq<string>, logOrder: seq<string>): (r: seq<string>)
    requires Enumerates(labelOrder, svc.containerLabels.Keys) && Enumerates(logOrder, LogOptionKeys(svc))
  {
    (if |svc.containerLabels| != 0 then LabelsLines(svc.containerLabels, 4, labelOrder) else [])
    + VolumesLines(svc.mounts)
    + EnvironmentLines(svc.env)
    + (if svc.logDriver.Some? then LogInfoLines(svc.logDriver.value, logOrder) else [])
  }

  /** The block processStack writes for one service. */
  function ServiceLines(svc: Service, stack: string, networks: map<string, Network>, strip: bool,
                        memAndCpu: ResourceFormat, ord: Orders): (r: seq<string>)
    requires Renderable(svc) && ValidOrders(svc, ord)
  {
    ["  " + ServiceKey(svc) + ":", "    image: " + svc.image]
    + DeployLines(svc, memAndCpu, ord.deployLabels)
    + PortsLines(svc.ports)
    + NetworksLines(svc, stack, networks, strip)
    + ContainerLines(svc, ord.containerLabels, ord.logOptions)
    + [""]
  }

  method DeployOut(svc: Service, memAndCpu: ResourceFormat) returns (out: seq<string>, ghost labelOrder: seq<string>)
    requires Renderable(svc)
    ensures Enumerates(labelOrder, svc.labels.Keys)
    ensures out == DeployLines(svc, memAndCpu, labelOrder)
  {
    var restart := if svc.restart.Some? then RestartPolicyOut(svc.restart.value) else [];
    var update := if svc.update.Some? then ["      update_config:"] + UpdateConfigOut(svc.update.value) else [];
    var rollback := if svc.rollback.Some? then ["      rollback_config:"] + UpdateConfigOut(svc.rollback.value) else [];
    var placement: seq<string> := [];
    if |svc.placement.value| != 0 {
      placement := ConstraintsOut(svc.placement.value);
    }
    var labels: seq<string> := [];
    labelOrder := [];
    if |svc.labels| != 0 {
      labels, labelOrder := LabelsOut(svc.labels, 6);
    } else {
      assert svc.labels.Keys == {};
    }
    out := ["    deploy:", "      replicas: " + Decimal(svc.replicas.value)] + restart + update + rollback
      + placement + ResourcesLines(svc.resources.value, memAndCpu) + labels;
  }

  method ContainerOut(svc: Service) returns (out: seq<string>, ghost labelOrder: seq<string>, ghost logOrder: seq<string>)
    ensures Enumerates(labelOrder, svc.containerLabels.Keys)
    ensures Enumerates(logOrder, LogOptionKeys(svc))
    ensures out == ContainerLines(svc, labelOrder, logOrder)
  {
    var labels: seq<string> := [];
    labelOrder := [];
    if |svc.containerLabels| != 0 {
      labels, labelOrder := LabelsOut(svc.containerLabels, 4);
    } else {
      assert svc.containerLabels.Keys == {};
    }
    var volumes: seq<string> := [];
    if |svc.mounts| != 0 {
      var items := ListOut(NetworkMarker, seq(|svc.mounts|, i requires 0 <= i < |svc.mounts| => MountItem(svc.mounts[i])));
      volumes := ["    volumes:"] + items;
    }
    assert volumes == VolumesLines(svc.mounts);
    var env: seq<string> := [];
    if |svc.env| > 0 {
      var items := ListOut(NetworkMarker, svc.env);
      env := ["    environment:"] + items;
    }
    assert env == EnvironmentLines(svc.env);
    var logging: seq<string> := [];
    logOrder := [];
    if svc.logDriver.Some? {
      logging, logOrder := LogInfoOut(svc.logDriver.value);
    }
    out := labels + volumes + env + logging;
  }

  /** The body of processStack's loop for one service. */
  method ServiceOut(svc: Service, stack: string, networks: map<string, Network>, strip: bool,
                    memAndCpu: ResourceFormat, used: map<string, string>)
    returns (out: seq<string>, used': map<string, string>, ghost ord: Orders)
    requires Renderable(svc)
    ensures ValidOrders(svc, ord)
    ensures out == ServiceLines(svc, stack, networks, strip, memAndCpu, ord)
    ensures used' == Record(used, Attachments(svc), networks)
  {
    var deploy, deployOrder := DeployOut(svc, memAndCpu);
    var ports := PortsOut(svc.ports);
    var nets;
    nets, used' := NetworksOut(svc, stack, networks, strip, used);
    var container, containerOrder, logOrder := ContainerOut(svc);
    ord := Orders(deployOrder, containerOrder, logOrder);
    out := ["  " + ServiceKey(svc) + ":", "    image: " + svc.image] + deploy + ports + nets + container + [""];
  }

  /** The service IDs recorded for a stack; a stack that is not there has
      none (ranging over a missing map entry visits nothing). */
  function StackIDs(stacks: map<string, seq<string>>, stack: string): (r: seq<string>) {
    if stack in stacks then stacks[stack] else []
  }

  /** The fault processStack stops at: the first member whose block would
      dereference a nil pointer. */
  function FirstFault(ids: seq<string>, services: map<string, Service>): (r: Option<Fault>) {
    if ids == [] then None
    else
      var f := ServiceFault(ids[0], ServiceAt(services, ids[0]));
      if f.Some? then f else FirstFault(ids[1..], services)
  }

  /** Every member can be rendered, each with the map orders recorded for it. */
  predicate RenderableAll(ids: seq<string>, services: map<string, Service>, ords: seq<Orders>) {
    && |ords| == |ids|
    && forall i | 0 <= i < |ids| :: Renderable(ServiceAt(services, ids[i])) && ValidOrders(ServiceAt(services, ids[i]), ords[i])
  }

  /** The service blocks, one after the other, each with its own map orders. */
  function Blocks(ids: seq<string>, services: map<string, Service>, ords: seq<Orders>, stack: string,
                  networks: map<string, Network>, strip: bool, memAndCpu: ResourceFormat): (r: seq<string>)
    requires RenderableAll(ids, services, ords)
  {
    if ids == [] then []
    else
      var n := |ids| - 1;
      Blocks(ids[..n], services, ords[..n], stack, networks, strip, memAndCpu)
      + ServiceLines(ServiceAt(services, ids[n]), stack, networks, strip, memAndCpu, ords[n])
  }

  lemma BlocksSnoc(ids: seq<string>, services: map<string, Service>, ords: seq<Orders>, id: string, ord: Orders,
                   stack: string, networks: map<string, Network>, strip: bool, memAndCpu: ResourceFormat)
    requires RenderableAll(ids, services, ords)
    requires Renderable(ServiceAt(services, id)) && ValidOrders(ServiceAt(services, id), ord)
    ensures RenderableAll(ids + [id], services, ords + [ord])
    ensures Blocks(ids + [id], services, ords + [ord], stack, networks, strip, memAndCpu)
         == Blocks(ids, services, ords, stack, networks, strip, memAndCpu)
            + ServiceLines(ServiceAt(services, id), stack, networks, strip, memAndCpu, ord)
  {
    assert (ids + [id])[..|ids|] == ids;
    assert (ords + [ord])[..|ids|] == ords;
  }

  /** myNetworks after the given members: every attachment recorded in turn. */
  function UsedNetworks(ids: seq<string>, services: map<string, Service>, networks: map<string, Network>): (r: map<string, string>) {
    if ids == [] then map[]
    else
      var n := |ids| - 1;
      Record(UsedNetworks(ids[..n], services, networks), Attachments(ServiceAt(services, ids[n])), networks)
  }

  lemma PrefixSnoc<T>(s: seq<T>, i: int)
    requires 0 <= i < |s|
    ensures s[..i + 1] == s[..i] + [s[i]]
  {
  }

  lemma ConcatAssoc<T>(a: seq<T>, b: seq<T>, c: seq<T>)
    ensures a + b + c == a + (b + c)
  {
  }

  /** One turn of processStack's loop keeps its invariants. */
  lemma StackStep(ids: seq<string>, i: int, services: map<string, Service>, ords: seq<Orders>, ord: Orders,
                  lines: seq<string>, block: seq<string>, used: map<string, string>, used': map<string, string>,
                  stack: string, networks: map<string, Network>, strip: bool, memAndCpu: ResourceFormat)
    requires 0 <= i < |ids| && RenderableAll(ids[..i], services, ords)
    requires Renderable(ServiceAt(services, ids[i])) && ValidOrders(ServiceAt(services, ids[i]), ord)
    requires lines == DocumentHeader + Blocks(ids[..i], services, ords, stack, networks, strip, memAndCpu)
    requires block == ServiceLines(ServiceAt(services, ids[i]), stack, networks, strip, memAndCpu, ord)
    requires used == UsedNetworks(ids[..i], services, networks)
    requires used' == Record(used, Attachments(ServiceAt(services, ids[i])), networks)
    ensures RenderableAll(ids[..i + 1], services, ords + [ord])
    ensures lines + block == DocumentHeader + Blocks(ids[..i + 1], services, ords + [ord], stack, networks, strip, memAndCpu)
    ensures used' == UsedNetworks(ids[..i + 1], services, networks)
  {
    BlocksSnoc(ids[..i], services, ords, ids[i], ord, stack, networks, strip, memAndCpu);
    PrefixSnoc(ids, i);
    ConcatAssoc(DocumentHeader, Blocks(ids[..i], services, ords, stack, networks, strip, memAndCpu), block);
  }

  /** processStack (lines 180-294): the document header and one block per
      member of the stack, or the fault of the first member that has a nil
      replica count, placement or resources. */
  method ProcessStack(stack: string, stacks: map<string, seq<string>>, services: map<string, Service>,
                      networks: map<string, Network>, strip: bool, memAndCpu: ResourceFormat)
    returns (r: Result<Rendered, Fault>, ghost ords: seq<Orders>)
    ensures var ids := StackIDs(stacks, stack);
      && (r.Failure? <==> FirstFault(ids, services).Some?)
      && (r.Failure? ==> r.error == FirstFault(ids, services).value)
    ensures r.Success? ==>
      var ids := StackIDs(stacks, stack);
      && RenderableAll(ids, services, ords)
      && r.value.lines == DocumentHeader + Blocks(ids, services, ords, stack, networks, strip, memAndCpu)
      && r.value.networks == UsedNetworks(ids, services, networks)
  {
    var ids := if stack in stacks then stacks[stack] else [];
    var lines := DocumentHeader;
    var used: map<string, string> := map[];
    ords := [];
    for i := 0 to |ids|
      invariant FirstFault(ids, services) == FirstFault(ids[i..], services)
      invariant RenderableAll(ids[..i], services, ords)
      invariant lines == DocumentHeader + Blocks(ids[..i], services, ords, stack, networks, strip, memAndCpu)
      invariant used == UsedNetworks(ids[..i], services, networks)
    {
      var svc := if ids[i] in services then services[ids[i]] else ZeroService;
      assert svc == ServiceAt(services, ids[i]);
      var fault := ServiceFault(ids[i], svc);
      if fault.Some? {
        return Failure(fault.value), ords;
      }
      assert ids[i..][1..] == ids[i + 1..];
      var block, used', ord := ServiceOut(svc, stack, networks, strip, memAndCpu, used);
      StackStep(ids, i, services, ords, ord, lines, block, used, used', stack, networks, strip, memAndCpu);
      lines := lines + block;
      used := used';
      ords := ords + [ord];
    }
    assert ids[..|ids|] == ids;
    return Success(Rendered(lines, used)), ords;
  }

  /** A service is rendered exactly when none of the three pointers is nil,
      and a nil pointer is reported for the service's own ID. */
  lemma ServiceFaultCases(id: string, svc: Service)
    ensures ServiceFault(id, svc).None? <==> Renderable(svc)
    ensures svc.replicas.None? ==> ServiceFault(id, svc) == Some(NilReplicas(id))
    ensures svc.replicas.Some? && svc.placement.None? ==> ServiceFault(id, svc) == Some(NilPlacement(id))
  {
  }

  /** A stack renders exactly when every member can be rendered. */
  lemma {:induction false} FirstFaultNone(ids: seq<string>, services: map<string, Service>)
    ensures FirstFault(ids, services).None? <==> forall i | 0 <= i < |ids| :: Renderable(ServiceAt(services, ids[i]))
    decreases |ids|
  {
    if ids != [] {
      FirstFaultNone(ids[1..], services);
      if FirstFault(ids, services).None? {
        forall i | 0 <= i < |ids|
          ensures Renderable(ServiceAt(services, ids[i]))
        {
          if i > 0 {
            assert ids[i] == ids[1..][i - 1];
          }
        }
      }
      if forall i | 0 <= i < |ids| :: Renderable(ServiceAt(services, ids[i])) {
        assert Renderable(ServiceAt(services, ids[0]));
        forall i | 0 <= i < |ids| - 1
          ensures Renderable(ServiceAt(services, ids[1..][i]))
        {
          assert ids[1..][i] == ids[i + 1];
        }
      }
    }
  }

  /** The member at i is the first one that cannot be rendered, for reason f. */
  predicate FaultAt(ids: seq<string>, services: map<string, Service>, i: int, f: Fault) {
    && 0 <= i < |ids|
    && (forall k | 0 <= k < i :: Renderable(ServiceAt(services, ids[k])))
    && ServiceFault(ids[i], ServiceAt(services, ids[i])) == Some(f)
  }

  /** The fault reported is the first member's that cannot be rendered. */
  lemma {:induction false} FirstFaultIsFirst(ids: seq<string>, services: map<string, Service>)
    requires FirstFault(ids, services).Some?
    ensures exists i :: FaultAt(ids, services, i, FirstFault(ids, services).value)
    decreases |ids|
  {
    var f := FirstFault(ids, services).value;
    if ServiceFault(ids[0], ServiceAt(services, ids[0])).Some? {
      assert FaultAt(ids, services, 0, f);
    } else {
      FirstFaultIsFirst(ids[1..], services);
      var i :| FaultAt(ids[1..], services, i, f);
      forall k | 0 <= k < i + 1
        ensures Renderable(ServiceAt(services, ids[k]))
      {
        if k > 0 {
          assert ids[k] == ids[1..][k - 1];
        }
      }
      assert FaultAt(ids, services, i + 1, f);
    }
  }

  /** A member ID with no service behind it stops the stack at that member,
      for want of a replica count. */
  lemma MissingServiceFaults(ids: seq<string>, services: map<string, Service>, i: int)
    requires 0 <= i < |ids| && ids[i] !in services
    requires forall k | 0 <= k < i :: Renderable(ServiceAt(services, ids[k]))
    ensures FirstFault(ids, services) == Some(NilReplicas(ids[i]))
    decreases i
  {
    if i > 0 {
      forall k | 0 <= k < i - 1
        ensures Renderable(ServiceAt(services, ids[1..][k]))
      {
        assert ids[1..][k] == ids[k + 1];
      }
      MissingServiceFaults(ids[1..], services, i - 1);
    }
  }

  /** The first lines of a block: the service's key, its image and its
      replica count, which reads back as the count itself; the block ends
      with a blank line. */
  lemma ServiceHead(svc: Service, stack: string, networks: map<string, Network>, strip: bool,
                    memAndCpu: ResourceFormat, ord: Orders)
    requires Renderable(svc) && ValidOrders(svc, ord)
    ensures var r := ServiceLines(svc, stack, networks, strip, memAndCpu, ord);
      && |r| >= 5
      && r[0] == "  " + ServiceKey(svc) + ":"
      && r[1] == "    image: " + svc.image
      && r[2] == "    deploy:"
      && HasPrefix(r[3], "      replicas: ")
      && IsDigits(TrimPrefix(r[3], "      replicas: "))
      && ParseDecimal(TrimPrefix(r[3], "      replicas: ")) == svc.replicas.value
      && r[|r| - 1] == ""
  {
    var r := ServiceLines(svc, stack, networks, strip, memAndCpu, ord);
    var n := svc.replicas.value;
    assert r[3] == "      replicas: " + Decimal(n);
    assert r[3][..|"      replicas: "|] == "      replicas: ";
    assert TrimPrefix(r[3], "      replicas: ") == Decimal(n);
    DecimalRoundTrip(n);
  }

  /** A service is keyed by the first alias of its first service-level
      attachment, and by its name when that attachment has no alias. */
  lemma ServiceKeyChoice(svc: Service)
    ensures |svc.specNetworks| == 0 ==> ServiceKey(svc) == svc.name
    ensures |svc.specNetworks| != 0 && |svc.specNetworks[0].aliases| == 0 ==> ServiceKey(svc) == svc.name
    ensures |svc.specNetworks| != 0 && |svc.specNetworks[0].aliases| != 0 ==> ServiceKey(svc) == svc.specNetworks[0].aliases[0]
  {
  }

  /** The names a block lists: the prefix is stripped only from a network
      carrying a namespace label when the switch is on, only when the name
      has it, and a target with no network behind it lists an empty name. */
  lemma DisplayNameCases(networks: map<string, Network>, t: string, stack: string, strip: bool)
    ensures var net := NetworkAt(networks, t);
      var d := DisplayName(net, stack, strip);
      && (strip && Label(net.labels, NamespaceLabel) != "" && HasPrefix(net.name, stack + "_") ==> stack + "_" + d == net.name)
      && (!strip || Label(net.labels, NamespaceLabel) == "" || !HasPrefix(net.name, stack + "_") ==> d == net.name)
      && (t !in networks ==> d == "")
  {
  }

  /** The networks section lists every attachment of the chosen kind, in
      order, and is absent when there is none. */
  lemma NetworksRead(svc: Service, stack: string, networks: map<string, Network>, strip: bool)
    ensures var r := NetworksLines(svc, stack, networks, strip);
      && (r == [] <==> |svc.taskNetworks| == 0 && |svc.specNetworks| == 0)
      && (r != [] ==> r[0] == "    networks:" && ListItems(r[1..], NetworkMarker) == Some(NetworkNames(Attachments(svc), stack, networks, strip)))
      && (|svc.taskNetworks| != 0 ==> |r| == |svc.taskNetworks| + 1)
      && (|svc.taskNetworks| == 0 ==> |r| == if |svc.specNetworks| == 0 then 0 else |svc.specNetworks| + 1)
  {
    var atts := Attachments(svc);
    if |atts| != 0 {
      var r := NetworksLines(svc, stack, networks, strip);
      assert r[1..] == ListLines(NetworkMarker, NetworkNames(atts, stack, networks, strip));
      ListRoundTrip(NetworkMarker, NetworkNames(atts, stack, networks, strip));
    }
  }

  /** Some member of the stack is attached to t. */
  predicate Uses(ids: seq<string>, services: map<string, Service>, t: string) {
    exists i :: 0 <= i < |ids| && Attached(Attachments(ServiceAt(services, ids[i])), t)
  }

  /** The networks processStack reports are exactly those some member is
      attached to, each mapped to its network's name. */
  lemma {:induction false} UsedNetworksIff(ids: seq<string>, services: map<string, Service>, networks: map<string, Network>, t: string)
    ensures t in UsedNetworks(ids, services, networks) <==> Uses(ids, services, t)
    ensures t in UsedNetworks(ids, services, networks) ==> UsedNetworks(ids, services, networks)[t] == NetworkAt(networks, t).name
    decreases |ids|
  {
    if ids != [] {
      var n := |ids| - 1;
      var init := ids[..n];
      UsedNetworksIff(init, services, networks, t);
      RecordEntries(UsedNetworks(init, services, networks), Attachments(ServiceAt(services, ids[n])), networks, t);
      if Uses(init, services, t) {
        var i :| 0 <= i < |init| && Attached(Attachments(ServiceAt(services, init[i])), t);
        assert ids[i] == init[i];
      }
      if Uses(ids, services, t) && !Attached(Attachments(ServiceAt(services, ids[n])), t) {
        var i :| 0 <= i < |ids| && Attached(Attachments(ServiceAt(services, ids[i])), t);
        assert i < n;
        assert init[i] == ids[i];
      }
    }
  }

  lemma RenderableAllPrefix(ids: seq<string>, services: map<string, Service>, ords: seq<Orders>, n: nat)
    requires RenderableAll(ids, services, ords) && n <= |ids|
    ensures RenderableAll(ids[..n], services, ords[..n])
  {
    forall k | 0 <= k < n
      ensures ids[..n][k] == ids[k] && ords[..n][k] == ords[k]
    {
    }
  }

  /** The line that opens the block of svc is at index off. */
  predicate KeyLineAt(lines: seq<string>, off: int, svc: Service) {
    0 <= off < |lines| && lines[off] == "  " + ServiceKey(svc) + ":"
  }

  lemma KeyLineConcat(a: seq<string>, b: seq<string>, svc: Service)
    ensures forall off | KeyLineAt(a, off, svc) :: KeyLineAt(a + b, off, svc)
    ensures KeyLineAt(b, 0, svc) ==> KeyLineAt(a + b, |a|, svc)
  {
  }

  lemma BlocksLast(ids: seq<string>, services: map<string, Service>, ords: seq<Orders>,
                   stack: string, networks: map<string, Network>, strip: bool, memAndCpu: ResourceFormat)
    requires RenderableAll(ids, services, ords) && ids != []
    ensures var n := |ids| - 1;
      RenderableAll(ids[..n], services, ords[..n])
      && Blocks(ids, services, ords, stack, networks, strip, memAndCpu)
         == Blocks(ids[..n], services, ords[..n], stack, networks, strip, memAndCpu)
            + ServiceLines(ServiceAt(services, ids[n]), stack, networks, strip, memAndCpu, ords[n])
  {
    RenderableAllPrefix(ids, services, ords, |ids| - 1);
  }

  /** Every member of the stack gets a block, opened by its key line. */
  lemma {:induction false} BlocksCoverMembers(ids: seq<string>, services: map<string, Service>, ords: seq<Orders>,
                                             stack: string, networks: map<string, Network>, strip: bool,
                                             memAndCpu: ResourceFormat, i: int)
    requires RenderableAll(ids, services, ords) && 0 <= i < |ids|
    ensures exists off :: KeyLineAt(Blocks(ids, services, ords, stack, networks, strip, memAndCpu), off, ServiceAt(services, ids[i]))
    decreases |ids|
  {
    var n := |ids| - 1;
    var svc := ServiceAt(services, ids[i]);
    BlocksLast(ids, services, ords, stack, networks, strip, memAndCpu);
    var before := Blocks(ids[..n], services, ords[..n], stack, networks, strip, memAndCpu);
    var block := ServiceLines(ServiceAt(services, ids[n]), stack, networks, strip, memAndCpu, ords[n]);
    KeyLineConcat(before, block, svc);
    if i == n {
      ServiceHead(svc, stack, networks, strip, memAndCpu, ords[n]);
      assert KeyLineAt(block, 0, svc);
      assert KeyLineAt(before + block, |before|, svc);
    } else {
      BlocksCoverMembers(ids[..n], services, ords[..n], stack, networks, strip, memAndCpu, i);
      assert ids[..n][i] == ids[i];
      var off :| KeyLineAt(before, off, svc);
      assert KeyLineAt(before + block, off, svc);
    }
  }
}
