/** The registry of live chains (chain_of_responsibility/chain_manager.py)
    and `BaseHandler.remove_chain`, which takes a finished chain out of it.
    The process-wide unique manager of the source is one explicit
    `ChainManager` object, handed out by an explicit `SingletonMeta`. */
module ChainManagement {
  import opened Wrappers
  import opened Collections
  import opened Models
  import opened Lookup
  import opened Config
  import opened Handlers

  /** The handlers of a standard chain, in link order: tier zero, then one,
      two and three, with nothing after tier three. */
  ghost predicate TierChain(nodes: seq<Handler>)
    reads nodes
  {
    && |nodes| == 4 && IsChain(nodes)
    && nodes[0].kind == TierZero && nodes[1].kind == TierOne
    && nodes[2].kind == TierTwo && nodes[3].kind == TierThree
  }

  /** A chain as the manager builds it: every handler has the tier-zero
      handler as its head, and nothing is pending yet. */
  ghost predicate ManagedChain(nodes: seq<Handler>, levels: seq<CaregiverLevel>, settings: Settings)
    reads nodes
  {
    && TierChain(nodes)
    && (forall i :: 0 <= i < 4 ==> nodes[i].head == nodes[0])
    && (forall i :: 0 <= i < 4 ==> nodes[i].generated == {} && nodes[i].timer == Idle)
    && nodes[0].waitTime == Some(ZeroWaitTime)
    && nodes[1].waitTime == Some(settings.caregiverOneWaitTime)
    && GetLevel(levels, 2).Success? && nodes[2].waitTime == Some(GetLevel(levels, 2).value.waitTime)
    && nodes[3].waitTime == None
  }

  /** Creates the handlers of tiers one to three, passing them `headArg` as
      their head argument, and links `zero.set_next(one).set_next(two)
      .set_next(three)`. Fails, before any link is made, when the level-2 row
      cannot be fetched. */
  method BuildTiers(zero: Handler, headArg: Handler?, levels: seq<CaregiverLevel>, settings: Settings)
    returns (r: Result<seq<Handler>, LookupError>)
    requires zero.kind == TierZero && zero.waitTime == Some(ZeroWaitTime)
    requires zero.generated == {} && zero.timer == Idle
    modifies zero`next
    ensures r.Failure? <==> GetLevel(levels, 2).Failure?
    ensures r.Failure? ==> r.error == GetLevel(levels, 2).error && zero.next == old(zero.next)
    ensures r.Success? ==>
      var nodes := r.value;
      && TierChain(nodes) && nodes[0] == zero
      && (forall i :: 1 <= i < 4 ==> fresh(nodes[i]))
      && (forall i :: 1 <= i < 4 ==> nodes[i].head == (if headArg == null then nodes[i] else headArg))
      && (forall i :: 0 <= i < 4 ==> nodes[i].generated == {} && nodes[i].timer == Idle)
      && nodes[1].waitTime == Some(settings.caregiverOneWaitTime)
      && GetLevel(levels, 2).Success? && nodes[2].waitTime == Some(GetLevel(levels, 2).value.waitTime)
      && nodes[3].waitTime == None
  {
    var one := NewCaregiverOneHandler(headArg, settings);
    var two := NewCaregiverTwoHandler(headArg, levels);
    if two.Failure? {
      r := Failure(two.error);
      return;
    }
    var three := NewCaregiverThreeHandler(headArg);
    var linked := zero.SetNext(one);
    linked := linked.SetNext(two.value);
    linked := linked.SetNext(three);
    r := Success([zero, one, two.value, three]);
  }

  class ChainManager {
    /** `_chains`: the heads of the chains in flight, oldest first. */
    var chains: seq<Handler>

    /** Heads are fresh when registered, so none is registered twice. */
    ghost predicate Valid()
      reads this
    {
      Distinct(chains)
    }

    /** `ChainManager.__init__`: an empty registry. */
    constructor ()
      ensures Valid() && chains == []
    {
      chains := [];
    }

    /** `initialize_chain_of_responsibility`: builds tier 0 -> 1 -> 2 -> 3
        with the tier-zero handler as every handler's head, registers that
        head after the existing ones and returns it. Building fails, and
        nothing is registered, when the level-2 row cannot be fetched. */
    method InitializeChainOfResponsibility(levels: seq<CaregiverLevel>, settings: Settings)
      returns (r: Result<Handler, LookupError>, ghost nodes: seq<Handler>)
      requires Valid()
      modifies this
      ensures Valid()
      ensures r.Failure? <==> GetLevel(levels, 2).Failure?
      ensures r.Failure? ==> r.error == GetLevel(levels, 2).error && chains == old(chains)
      ensures r.Success? ==>
        && ManagedChain(nodes, levels, settings)
        && (forall n :: n in nodes ==> fresh(n))
        && r.value == nodes[0]
        && chains == old(chains) + [nodes[0]]
    {
      nodes := [];
      var zero := NewCaregiverZeroHandler(null);
      var built := BuildTiers(zero, zero, levels, settings);
      if built.Failure? {
        r := Failure(built.error);
        return;
      }
      nodes := built.value;
      chains := chains + [zero];
      r := Success(zero);
    }

    /** `get_chain_of_responsibility`: always builds and registers a new chain. */
    method GetChainOfResponsibility(levels: seq<CaregiverLevel>, settings: Settings)
      returns (r: Result<Handler, LookupError>, ghost nodes: seq<Handler>)
      requires Valid()
      modifies this
      ensures Valid()
      ensures r.Failure? <==> GetLevel(levels, 2).Failure?
      ensures r.Failure? ==> chains == old(chains)
      ensures r.Success? ==>
        && ManagedChain(nodes, levels, settings)
        && (forall n :: n in nodes ==> fresh(n))
        && r.value == nodes[0]
        && chains == old(chains) + [nodes[0]]
        && |chains| == |old(chains)| + 1
    {
      r, nodes := InitializeChainOfResponsibility(levels, settings);
    }

    /** `get_chains_of_responsibility`: the registered heads. */
    method GetChainsOfResponsibility() returns (r: seq<Handler>)
      ensures r == chains
    {
      r := chains;
    }

    /** `remove_chain`: takes the head out when it is registered and does
        nothing otherwise; the other heads keep their order. */
    method RemoveChain(chain: Handler?)
      requires Valid()
      modifies this
      ensures Valid()
      ensures chain in old(chains) ==> chains == RemoveFirst(old(chains), chain)
      ensures chain !in old(chains) ==> chains == old(chains)
      ensures forall h :: h in chains <==> h in old(chains) && h != chain
    {
      if chain in chains {
        RemoveFirstDistinct(chains, chain);
        chains := RemoveFirst(chains, chain);
      }
    }
  }

  /** `SingletonMeta`: its `_instances` entry for the manager class. */
  class SingletonMeta {
    var instance: ChainManager?

    constructor ()
      ensures instance == null
    {
      instance := null;
    }

    /** `SingletonMeta.__call__`: the first call creates the manager, every
        later call returns that same manager untouched. */
    method Call() returns (m: ChainManager)
      requires instance != null ==> instance.Valid()
      modifies this
      ensures instance == m && m.Valid()
      ensures old(instance) != null ==> m == old(instance) && m.chains == old(m.chains)
      ensures old(instance) == null ==> fresh(m) && m.chains == []
    {
      if instance == null {
        instance := new ChainManager();
      }
      m := instance;
    }
  }

  /** Two constructions give one and the same manager. */
  method CallTwice(meta: SingletonMeta) returns (first: ChainManager, second: ChainManager)
    requires meta.instance != null ==> meta.instance.Valid()
    modifies meta
    ensures first == second == meta.instance
  {
    first := meta.Call();
    second := meta.Call();
  }

  /** `BaseHandler.remove_chain`: asks the (possibly new) manager to remove
      this handler's head, not the handler itself. */
  method RemoveHandlerChain(handler: Handler, meta: SingletonMeta)
    requires meta.instance != null ==> meta.instance.Valid()
    modifies meta, meta.instance
    ensures meta.instance != null && meta.instance.Valid()
    ensures old(meta.instance) == null ==> fresh(meta.instance) && meta.instance.chains == []
    ensures old(meta.instance) != null ==>
      && meta.instance == old(meta.instance)
      && (handler.head in old(meta.instance.chains) ==>
            meta.instance.chains == RemoveFirst(old(meta.instance.chains), handler.head))
      && (handler.head !in old(meta.instance.chains) ==> meta.instance.chains == old(meta.instance.chains))
  {
    var manager := meta.Call();
    manager.RemoveChain(handler.head);
  }
}
