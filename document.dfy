/** One stack's compose document, as the main loop assembles it (lines
    395-396): the service blocks, then the networks section for the
    networks they attach to. */
module Document {
  import opened Wrappers
  import opened Iteration
  import opened Swarm
  import opened Services
  import opened Networks

  /** The document processStack and processNetworkInfo produce for a stack. */
  method StackDocument(stack: string, stacks: map<string, seq<string>>, services: map<string, Service>,
                       networks: map<string, Network>, flags: Flags, memAndCpu: ResourceFormat)
    returns (r: Result<seq<string>, Fault>, ghost ords: seq<Orders>,
             ghost order: seq<string>, ghost optOrders: seq<seq<string>>)
    ensures var ids := StackIDs(stacks, stack);
      && (r.Failure? <==> FirstFault(ids, services).Some?)
      && (r.Failure? ==> r.error == FirstFault(ids, services).value)
    ensures r.Success? ==>
      var ids := StackIDs(stacks, stack);
      && RenderableAll(ids, services, ords)
      && Enumerates(order, UsedNetworks(ids, services, networks).Keys)
      && OptionOrders(order, optOrders, stack, networks)
      && r.value == DocumentHeader + Blocks(ids, services, ords, stack, networks, flags.stripPrefix, memAndCpu)
                    + NetworkSection(order, UsedNetworks(ids, services, networks), optOrders, stack, networks, flags)
  {
    var rendered;
    rendered, ords := ProcessStack(stack, stacks, services, networks, flags.stripPrefix, memAndCpu);
    order, optOrders := [], [];
    if rendered.Failure? {
      return Failure(rendered.error), ords, order, optOrders;
    }
    var used := rendered.value.networks;
    var lines;
    lines, order, optOrders := ProcessNetworkInfo(stack, rendered.value.lines, networks, used, flags);
    r := Success(lines);
  }

  /** Every network a member of the stack attaches to has its entry in the
      document's networks section. */
  lemma AttachedNetworksListed(ids: seq<string>, services: map<string, Service>, networks: map<string, Network>,
                               order: seq<string>, optOrders: seq<seq<string>>, stack: string, flags: Flags, t: string)
    requires Enumerates(order, UsedNetworks(ids, services, networks).Keys)
    requires OptionOrders(order, optOrders, stack, networks)
    requires Uses(ids, services, t)
    ensures var used := UsedNetworks(ids, services, networks);
      t in used && HasEntry(NetworkSection(order, used, optOrders, stack, networks, flags), order, used, optOrders, stack, networks, flags, t)
  {
    UsedNetworksIff(ids, services, networks, t);
    SectionHasEntry(order, UsedNetworks(ids, services, networks), optOrders, stack, networks, flags, t);
  }

  /** A stack whose members attach to no network gets no networks section. */
  lemma NoNetworksNoSection(ids: seq<string>, services: map<string, Service>, networks: map<string, Network>,
                            order: seq<string>, optOrders: seq<seq<string>>, stack: string, flags: Flags)
    requires Enumerates(order, UsedNetworks(ids, services, networks).Keys)
    requires OptionOrders(order, optOrders, stack, networks)
    requires forall t :: !Uses(ids, services, t)
    ensures NetworkSection(order, UsedNetworks(ids, services, networks), optOrders, stack, networks, flags) == []
  {
    var used := UsedNetworks(ids, services, networks);
    forall t | t in used
      ensures false
    {
      UsedNetworksIff(ids, services, networks, t);
    }
    assert used.Keys == {};
  }
}
