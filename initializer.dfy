/** The application-wide chain built at start-up
    (chain_of_responsibility/initializer.py). Unlike the manager's chains,
    its handlers are built without a head argument, so each one is its own
    head, and it is stored rather than registered. */
module Initialization {
  import opened Wrappers
  import opened Lookup
  import opened Models
  import opened Config
  import opened Handlers
  import opened ChainManagement

  /** The start-up chain: tiers 0 -> 1 -> 2 -> 3, each handler its own head. */
  ghost predicate StandaloneChain(nodes: seq<Handler>)
    reads nodes
  {
    && TierChain(nodes)
    && (forall i :: 0 <= i < 4 ==> nodes[i].head == nodes[i])
    && (forall i :: 0 <= i < 4 ==> nodes[i].generated == {} && nodes[i].timer == Idle)
    && nodes[0].waitTime == Some(ZeroWaitTime)
    && nodes[3].waitTime == None
  }

  class ApplicationInitializer {
    /** `_chain_of_responsibility`. */
    var chain: Handler?
    /** The handlers of the stored chain, in link order. */
    ghost var nodes: seq<Handler>

    /** Whenever a head is stored, `nodes` is the chain that starts at it. */
    ghost predicate Valid()
      reads this, nodes
    {
      chain != null ==> IsChain(nodes) && nodes[0] == chain
    }

    /** The first statement of `ApplicationInitializer.__init__`: no chain
        yet. `ApplicationInitializerMeta.Call` then runs the initialisation. */
    constructor ()
      ensures chain == null && nodes == []
      ensures Valid()
    {
      chain := null;
      nodes := [];
    }

    /** `initialize_chain_of_responsibility`: stores the head of a new chain,
        replacing any earlier one. The head is stored before the level-2 row
        is fetched, so when that fetch raises (reported as `raised`) the
        stored head is a fresh tier-zero handler with no successor. */
    method InitializeChainOfResponsibility(levels: seq<CaregiverLevel>, settings: Settings)
      returns (raised: Option<LookupError>)
      modifies this
      ensures raised.Some? <==> GetLevel(levels, 2).Failure?
      ensures chain != null && fresh(chain) && chain.kind == TierZero && chain.head == chain
      ensures Valid()
      ensures raised.Some? ==> raised.value == GetLevel(levels, 2).error && chain.next == null && nodes == [chain]
      ensures raised.None? ==>
        && StandaloneChain(nodes) && chain == nodes[0]
        && (forall n :: n in nodes ==> fresh(n))
        && nodes[1].waitTime == Some(settings.caregiverOneWaitTime)
        && nodes[2].waitTime == Some(GetLevel(levels, 2).value.waitTime)
    {
      var zero := NewCaregiverZeroHandler(null);
      chain := zero;
      var built := BuildTiers(zero, null, levels, settings);
      if built.Failure? {
        nodes := [zero];
        raised := Some(built.error);
        return;
      }
      nodes := built.value;
      raised := None;
    }

    /** `get_chain_of_responsibility`: the stored head. */
    method GetChainOfResponsibility() returns (r: Handler?)
      ensures r == chain
    {
      r := chain;
    }
  }

  /** `ApplicationInitializerMeta`: its `_instances` entry for the initializer. */
  class ApplicationInitializerMeta {
    var instance: ApplicationInitializer?

    constructor ()
      ensures instance == null
    {
      instance := null;
    }

    /** `ApplicationInitializerMeta.__call__`. The first successful call
        builds the initializer, whose construction builds the chain; later
        calls return that same initializer untouched. A construction that
        raises stores nothing. */
    method Call(levels: seq<CaregiverLevel>, settings: Settings)
      returns (r: Result<ApplicationInitializer, LookupError>)
      modifies this
      ensures old(instance) != null ==>
        r == Success(old(instance)) && instance == old(instance) && instance.chain == old(instance.chain)
      ensures old(instance) == null && GetLevel(levels, 2).Failure? ==>
        r == Failure(GetLevel(levels, 2).error) && instance == null
      ensures old(instance) == null && GetLevel(levels, 2).Success? ==>
        && r.Success? && instance == r.value && fresh(r.value)
        && r.value.Valid() && StandaloneChain(r.value.nodes) && r.value.chain == r.value.nodes[0]
    {
      if instance != null {
        r := Success(instance);
        return;
      }
      var created := new ApplicationInitializer();
      var raised := created.InitializeChainOfResponsibility(levels, settings);
      if raised.Some? {
        r := Failure(raised.value);
        return;
      }
      instance := created;
      r := Success(created);
    }
  }
}
