/** How an alert travels a standard tier chain (tier 0 -> 1 -> 2 -> 3), put
    together from the handlers' `handle` and the tier-zero timers. */
module Escalation {
  import opened Wrappers
  import opened Models
  import opened Lookup
  import opened Handlers
  import opened ChainManagement

  /** Tier zero keeps the alert exactly when the resident has an assignment
      of their own; otherwise every tier is reached, in order. */
  lemma {:induction false} TierChainReach(nodes: seq<Handler>, request: SensorAlert, db: seq<Caregiver>)
    requires TierChain(nodes)
    ensures PrimaryCaregiver(db, request).Some? ==> Visited(nodes, request, db) == nodes[..1]
    ensures PrimaryCaregiver(db, request).None? ==> Visited(nodes, request, db) == nodes
  {
    if PrimaryCaregiver(db, request).Some? {
      VisitedUpToStop(nodes, request, db, 0);
    } else {
      VisitedAll(nodes, request, db);
    }
  }

  /** Escalating past tier zero reaches tiers one, two and three, in order:
      none of them keeps the alert. */
  lemma {:induction false} EscalationReachesUpperTiers(nodes: seq<Handler>, request: SensorAlert, db: seq<Caregiver>)
    requires TierChain(nodes)
    ensures Visited(nodes[1..], request, db) == nodes[1..]
  {
    var upper := nodes[1..];
    assert forall i :: 0 <= i < |upper| ==> upper[i].kind != TierZero;
    VisitedAll(upper, request, db);
  }

  /** An alert on a freshly built chain whose resident has an assignment of
      their own: `handle` notifies that assignment and arms the first timer,
      whose expiry arms the reminder. Tiers one to three are not involved. */
  method RaiseAlert(zero: Handler, ghost nodes: seq<Handler>, request: SensorAlert, db: seq<Caregiver>, token: string)
    returns (ghost handled: seq<Handler>, ghost firstExpiry: seq<Handler>)
    requires TierChain(nodes) && nodes[0] == zero
    requires forall i :: 0 <= i < 4 ==> nodes[i].generated == {} && nodes[i].timer == Idle
    requires PrimaryCaregiver(db, request).Some?
    modifies nodes
    ensures handled == nodes[..1] && firstExpiry == []
    ensures nodes[0].generated == {NewNotification(PrimaryCaregiver(db, request).value, request, token)}
    ensures nodes[0].timer == Armed(ZeroWaitTime - ReminderOffset, SecondExpiry(request))
    ensures forall i :: 1 <= i < 4 ==> nodes[i].generated == {} && nodes[i].timer == Idle
    ensures TierChain(nodes)
    ensures forall i :: 0 <= i < 4 ==> nodes[i].head == old(nodes[i].head)
  {
    TierChainReach(nodes, request, db);
    handled := zero.Handle(request, db, token, nodes);
    assert TierChain(nodes);
    firstExpiry := zero.Fire(db, token, nodes);
  }

  /** The life of one alert on a freshly built chain whose resident has an
      assignment of their own: `handle` notifies that assignment and arms the
      first timer; its expiry arms the reminder; the reminder's expiry hands
      the alert to tiers one, two and three, which pass it on, and leaves no
      timer pending. One notification is recorded in all. */
  method AlertLifecycle(zero: Handler, ghost nodes: seq<Handler>, request: SensorAlert, db: seq<Caregiver>, token: string)
    returns (ghost handled: seq<Handler>, ghost firstExpiry: seq<Handler>, ghost secondExpiry: seq<Handler>)
    requires TierChain(nodes) && nodes[0] == zero
    requires forall i :: 0 <= i < 4 ==> nodes[i].generated == {} && nodes[i].timer == Idle
    requires PrimaryCaregiver(db, request).Some?
    modifies nodes
    ensures handled == nodes[..1] && firstExpiry == [] && secondExpiry == nodes[1..]
    ensures nodes[0].generated == {NewNotification(PrimaryCaregiver(db, request).value, request, token)}
    ensures forall i :: 0 <= i < 4 ==> nodes[i].timer == Idle
    ensures forall i :: 1 <= i < 4 ==> nodes[i].generated == {}
    ensures TierChain(nodes)
    ensures forall i :: 0 <= i < 4 ==> nodes[i].head == old(nodes[i].head)
  {
    handled, firstExpiry := RaiseAlert(zero, nodes, request, db, token);
    ChainDistinct(nodes);
    EscalationReachesUpperTiers(nodes, request, db);
    assert FreshToken(nodes[1..], token);
    secondExpiry := zero.Fire(db, token, nodes);
  }

  /** When the resident has no assignment of their own, one `handle` passes
      the alert through all four tiers and changes nothing. */
  method AlertWithoutPrimary(zero: Handler, ghost nodes: seq<Handler>, request: SensorAlert, db: seq<Caregiver>, token: string)
    returns (ghost handled: seq<Handler>)
    requires TierChain(nodes) && nodes[0] == zero
    requires PrimaryCaregiver(db, request).None?
    requires FreshToken(nodes, token)
    modifies nodes
    ensures handled == nodes
    ensures forall i :: 0 <= i < 4 ==> nodes[i].generated == old(nodes[i].generated) && nodes[i].timer == old(nodes[i].timer)
    ensures TierChain(nodes)
    ensures forall i :: 0 <= i < 4 ==> nodes[i].head == old(nodes[i].head)
  {
    TierChainReach(nodes, request, db);
    handled := zero.Handle(request, db, token, nodes);
  }
}
