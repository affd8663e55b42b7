/** The chain of caregiver-tier handlers an alert travels along
    (chain_of_responsibility/handlers). Each handler links to the next one and
    remembers the head of its chain. Tiers one to three only pass the alert
    on; tier zero notifies the resident's own assignment and escalates only
    after two successive timer expiries.

    The four handler classes of the source are one class here, tagged with
    its tier. A chain is a finite, acyclic run of `next` links; the methods
    that travel it take the run as a ghost sequence `nodes` (`IsChain`) and
    report, as a ghost result, the handlers whose `handle` ran. */
module Handlers {
  import opened Wrappers
  import opened Collections
  import opened Models
  import opened Lookup
  import opened Config

  datatype Kind = TierZero | TierOne | TierTwo | TierThree {
    /** The `CaregiverLevel.level` the tier serves. */
    function Level(): int {
      match this
      case TierZero => 0
      case TierOne => 1
      case TierTwo => 2
      case TierThree => 3
    }
  }

  /** `CaregiverZeroHandler.WAIT_TIME`, in seconds. */
  const ZeroWaitTime: int := 30

  /** What the tier-zero reminder timer is shorter by. */
  const ReminderOffset: int := 20

  /** The callback a running timer will invoke, with the values it captured. */
  datatype TimerEvent =
    | FirstExpiry(request: SensorAlert, notification: Notification)
    | SecondExpiry(request: SensorAlert)

  /** The single timer slot `_timer`: nothing pending, or one timer armed
      for `delay` seconds. */
  datatype Timer = Idle | Armed(delay: int, event: TimerEvent)

  class Handler {
    const kind: Kind
    /** `WAIT_TIME`; tier three defines none. */
    const waitTime: Option<int>
    var next: Handler?
    var head: Handler?
    /** Tier zero's `_generated_notifications`. */
    var generated: set<Notification>
    var timer: Timer

    /** `BaseHandler.__init__`: no successor yet; the head is the given one,
        or the handler itself when none is given. */
    constructor (kind: Kind, waitTime: Option<int>, headOfChain: Handler?)
      ensures this.kind == kind && this.waitTime == waitTime
      ensures next == null
      ensures head == (if headOfChain == null then this else headOfChain)
      ensures generated == {} && timer == Idle
    {
      this.kind := kind;
      this.waitTime := waitTime;
      next := null;
      head := headOfChain;
      generated := {};
      timer := Idle;
      new;
      if headOfChain == null {
        head := this;
      }
    }

    /** `get_next`. */
    function GetNext(): (r: Handler?)
      reads this`next
      ensures r == next
    {
      next
    }

    /** `set_next`: links `handler` after this one and returns it, so that
        calls can be chained. Nothing but the link changes. */
    method SetNext(handler: Handler?) returns (r: Handler?)
      modifies this`next
      ensures r == handler && GetNext() == handler
    {
      next := handler;
      r := handler;
    }

    /** `get_caregivers` of tiers one to three: all assignments of this tier
        for the alert home's resident. */
    function GetCaregivers(db: seq<Caregiver>, request: SensorAlert): (r: seq<Caregiver>)
      requires kind != TierZero
      ensures forall c :: c in r <==> c in db && AtTier(c, request, kind.Level())
    {
      TierAssignments(db, request, kind.Level())
    }

    /** `get_caregiver` of tier zero: the resident's own level-0 assignment. */
    function GetCaregiver(db: seq<Caregiver>, request: SensorAlert): (r: Option<Caregiver>)
      ensures r.Some? ==> r.value in db && IsPrimary(r.value, request) && r.value.level.level == 0
      ensures r.None? <==> forall i :: 0 <= i < |db| ==> !IsPrimary(db[i], request)
    {
      PrimaryCaregiver(db, request)
    }

    /** `handle`. Tiers one to three only pass the request on. Tier zero,
        when the resident has an assignment of their own, records one new
        notification and arms the first timer instead of passing it on. */
    method Handle(request: SensorAlert, db: seq<Caregiver>, token: string, ghost nodes: seq<Handler>)
      returns (ghost visited: seq<Handler>)
      requires IsChain(nodes) && nodes[0] == this
      requires FreshToken(nodes, token)
      modifies nodes
      decreases |nodes|, 1
      ensures visited == Visited(nodes, request, db)
      ensures forall n :: n in nodes ==> n.next == old(n.next) && n.head == old(n.head)
      ensures forall n :: n in nodes ==>
        if n in visited && Stops(n, request, db) then
          var note := NewNotification(PrimaryCaregiver(db, request).value, request, token);
          && n.generated == old(n.generated) + {note} && |n.generated| == |old(n.generated)| + 1
          && n.timer == Armed(ZeroWaitTime, FirstExpiry(request, note))
        else
          n.generated == old(n.generated) && n.timer == old(n.timer)
    {
      ChainDistinct(nodes);
      if kind == TierZero {
        var caregiver := GetCaregiver(db, request);
        if caregiver.Some? {
          var notification := NewNotification(caregiver.value, request, token);
          generated := generated + {notification};
          timer := Armed(ZeroWaitTime, FirstExpiry(request, notification));
          visited := [this];
          return;
        }
      }
      var rest := Forward(request, db, token, nodes);
      visited := [this] + rest;
    }

    /** `BaseHandler.handle`: hands the same request to the next handler,
        if there is one, and does nothing otherwise. */
    method Forward(request: SensorAlert, db: seq<Caregiver>, token: string, ghost nodes: seq<Handler>)
      returns (ghost visited: seq<Handler>)
      requires IsChain(nodes) && nodes[0] == this
      requires FreshToken(nodes[1..], token)
      modifies nodes
      decreases |nodes|, 0
      ensures visited == (if next == null then [] else Visited(nodes[1..], request, db))
      ensures next == null <==> visited == []
      ensures forall n :: n in visited ==> n in nodes[1..]
      ensures forall n :: n in nodes ==> n.next == old(n.next) && n.head == old(n.head)
      ensures forall n :: n in nodes ==>
        if n in visited && Stops(n, request, db) then
          var note := NewNotification(PrimaryCaregiver(db, request).value, request, token);
          && n.generated == old(n.generated) + {note} && |n.generated| == |old(n.generated)| + 1
          && n.timer == Armed(ZeroWaitTime, FirstExpiry(request, note))
        else
          n.generated == old(n.generated) && n.timer == old(n.timer)
    {
      ChainDistinct(nodes);
      if next == null {
        visited := [];
      } else {
        assert nodes[1] == next;
        visited := next.Handle(request, db, token, nodes[1..]);
        VisitedPrefix(nodes[1..], request, db);
        assert forall n :: n in visited ==> n in nodes[1..];
      }
    }

    /** Tier zero's `timer_callback`: arms the shorter reminder timer. */
    method TimerCallback(request: SensorAlert, notification: Notification)
      modifies this`timer
      ensures timer == Armed(ZeroWaitTime - ReminderOffset, SecondExpiry(request))
      ensures 0 < timer.delay < ZeroWaitTime
    {
      timer := Armed(ZeroWaitTime - ReminderOffset, SecondExpiry(request));
    }

    /** Tier zero's `second_timer_callback`: escalates to the next handler. */
    method SecondTimerCallback(request: SensorAlert, db: seq<Caregiver>, token: string, ghost nodes: seq<Handler>)
      returns (ghost visited: seq<Handler>)
      requires IsChain(nodes) && nodes[0] == this
      requires FreshToken(nodes[1..], token)
      modifies nodes
      ensures visited == (if next == null then [] else Visited(nodes[1..], request, db))
      ensures this.generated == old(this.generated) && this.timer == old(this.timer)
      ensures forall n :: n in nodes ==> n.next == old(n.next) && n.head == old(n.head)
      ensures forall n :: n in nodes ==>
        if n in visited && Stops(n, request, db) then
          var note := NewNotification(PrimaryCaregiver(db, request).value, request, token);
          && n.generated == old(n.generated) + {note} && |n.generated| == |old(n.generated)| + 1
          && n.timer == Armed(ZeroWaitTime, FirstExpiry(request, note))
        else
          n.generated == old(n.generated) && n.timer == old(n.timer)
    {
      ChainDistinct(nodes);
      visited := Forward(request, db, token, nodes);
    }

    /** The pending timer expires: the slot is emptied and the callback it
        was armed with runs. The first expiry only arms the reminder; the
        second passes the request on. */
    method Fire(db: seq<Caregiver>, token: string, ghost nodes: seq<Handler>)
      returns (ghost visited: seq<Handler>)
      requires IsChain(nodes) && nodes[0] == this
      requires timer.Armed?
      requires FreshToken(nodes[1..], token)
      modifies nodes
      ensures forall n :: n in nodes ==> n.next == old(n.next) && n.head == old(n.head)
      ensures generated == old(generated)
      ensures old(timer).event.FirstExpiry? ==>
        && visited == []
        && timer == Armed(ZeroWaitTime - ReminderOffset, SecondExpiry(old(timer).event.request))
        && forall n :: n in nodes && n != this ==> n.generated == old(n.generated) && n.timer == old(n.timer)
      ensures old(timer).event.SecondExpiry? ==>
        var request := old(timer).event.request;
        && timer == Idle
        && visited == (if next == null then [] else Visited(nodes[1..], request, db))
        && forall n :: n in nodes && n != this ==>
          if n in visited && Stops(n, request, db) then
            var note := NewNotification(PrimaryCaregiver(db, request).value, request, token);
            && n.generated == old(n.generated) + {note} && |n.generated| == |old(n.generated)| + 1
            && n.timer == Armed(ZeroWaitTime, FirstExpiry(request, note))
          else
            n.generated == old(n.generated) && n.timer == old(n.timer)
    {
      ChainDistinct(nodes);
      var event := timer.event;
      timer := Idle;
      match event
      case FirstExpiry(request, notification) =>
        TimerCallback(request, notification);
        visited := [];
      case SecondExpiry(request) =>
        visited := SecondTimerCallback(request, db, token, nodes);
    }
  }

  // -----------------------------------------------------------------------
  // Chains and their traversal

  /** `nodes` is a chain: each handler links to the following one and the
      last has no successor. */
  ghost predicate IsChain(nodes: seq<Handler>)
    reads nodes
  {
    && |nodes| > 0
    && (forall i :: 0 <= i < |nodes| - 1 ==> nodes[i].next == nodes[i + 1])
    && nodes[|nodes| - 1].next == null
  }

  /** No handler of `nodes` has recorded a notification with `token`: what
      `generate_token` guarantees by drawing until the token is unused. */
  ghost predicate FreshToken(nodes: seq<Handler>, token: string)
    reads nodes
  {
    forall n, g :: n in nodes && g in n.generated ==> g.token != token
  }

  /** A handler keeps the request to itself: tier zero with an assignment of
      the resident's own. */
  predicate Stops(h: Handler, request: SensorAlert, db: seq<Caregiver>) {
    h.kind == TierZero && PrimaryCaregiver(db, request).Some?
  }

  /** The handlers whose `handle` runs, in order, when the chain `nodes`
      receives a request. */
  ghost function Visited(nodes: seq<Handler>, request: SensorAlert, db: seq<Caregiver>): seq<Handler>
  {
    if nodes == [] then []
    else if Stops(nodes[0], request, db) then [nodes[0]]
    else [nodes[0]] + Visited(nodes[1..], request, db)
  }

  /** Links only ever point forward, so a chain never revisits a handler. */
  lemma ChainDistinct(nodes: seq<Handler>)
    requires IsChain(nodes)
    ensures Distinct(nodes)
  {
    forall i, j | 0 <= i < j < |nodes| ensures nodes[i] != nodes[j] {
      NoRepeat(nodes, i, j);
    }
  }

  lemma {:induction false} NoRepeat(nodes: seq<Handler>, i: nat, j: nat)
    requires IsChain(nodes) && i < j < |nodes|
    ensures nodes[i] != nodes[j]
    decreases |nodes| - j
  {
    assert nodes[i].next == nodes[i + 1];
    if j < |nodes| - 1 {
      NoRepeat(nodes, i + 1, j + 1);
      assert nodes[j].next == nodes[j + 1];
    } else {
      assert nodes[j].next == null;
    }
  }

  /** The handlers reached are a non-empty prefix of the chain. */
  lemma {:induction false} VisitedPrefix(nodes: seq<Handler>, request: SensorAlert, db: seq<Caregiver>)
    requires |nodes| > 0
    ensures var v := Visited(nodes, request, db); 0 < |v| <= |nodes| && v == nodes[..|v|]
  {
    if !Stops(nodes[0], request, db) && |nodes| > 1 {
      VisitedPrefix(nodes[1..], request, db);
    }
  }

  /** On a chain where nobody keeps the request, every handler is reached,
      in link order, down to the tail. */
  lemma {:induction false} VisitedAll(nodes: seq<Handler>, request: SensorAlert, db: seq<Caregiver>)
    requires forall i :: 0 <= i < |nodes| ==> !Stops(nodes[i], request, db)
    ensures Visited(nodes, request, db) == nodes
  {
    if nodes != [] {
      VisitedAll(nodes[1..], request, db);
    }
  }

  /** Travel ends at the first handler that keeps the request. */
  lemma {:induction false} VisitedUpToStop(nodes: seq<Handler>, request: SensorAlert, db: seq<Caregiver>, k: nat)
    requires k < |nodes| && Stops(nodes[k], request, db)
    requires forall i :: 0 <= i < k ==> !Stops(nodes[i], request, db)
    ensures Visited(nodes, request, db) == nodes[..k + 1]
  {
    if k > 0 {
      VisitedUpToStop(nodes[1..], request, db, k - 1);
      assert nodes[..k + 1] == [nodes[0]] + nodes[1..][..k];
    }
  }

  // -----------------------------------------------------------------------
  // Constructing the tier handlers

  /** `CaregiverZeroHandler(head_of_chain)`. */
  method NewCaregiverZeroHandler(headOfChain: Handler?) returns (h: Handler)
    ensures fresh(h) && h.kind == TierZero && h.waitTime == Some(ZeroWaitTime)
    ensures h.next == null && h.head == (if headOfChain == null then h else headOfChain)
    ensures h.generated == {} && h.timer == Idle
  {
    h := new Handler(TierZero, Some(ZeroWaitTime), headOfChain);
  }

  /** `CaregiverOneHandler(head_of_chain)`; its wait time is the class-wide setting. */
  method NewCaregiverOneHandler(headOfChain: Handler?, settings: Settings) returns (h: Handler)
    ensures fresh(h) && h.kind == TierOne && h.waitTime == Some(settings.caregiverOneWaitTime)
    ensures h.next == null && h.head == (if headOfChain == null then h else headOfChain)
    ensures h.generated == {} && h.timer == Idle
  {
    h := new Handler(TierOne, Some(settings.caregiverOneWaitTime), headOfChain);
  }

  /** `CaregiverTwoHandler(head_of_chain)`: reads its wait time from the
      level-2 row, and raises when `get` does. */
  method NewCaregiverTwoHandler(headOfChain: Handler?, levels: seq<CaregiverLevel>)
    returns (r: Result<Handler, LookupError>)
    ensures GetLevel(levels, 2).Failure? ==> r == Failure(GetLevel(levels, 2).error)
    ensures GetLevel(levels, 2).Success? ==> r.Success?
    ensures r.Success? ==>
      var h := r.value;
      && fresh(h) && h.kind == TierTwo && h.waitTime == Some(GetLevel(levels, 2).value.waitTime)
      && h.next == null && h.head == (if headOfChain == null then h else headOfChain)
      && h.generated == {} && h.timer == Idle
  {
    match GetLevel(levels, 2)
    case Failure(e) =>
      r := Failure(e);
    case Success(row) =>
      var h := new Handler(TierTwo, Some(row.waitTime), headOfChain);
      r := Success(h);
  }

  /** `CaregiverThreeHandler(head_of_chain)`; it defines no wait time. */
  method NewCaregiverThreeHandler(headOfChain: Handler?) returns (h: Handler)
    ensures fresh(h) && h.kind == TierThree && h.waitTime == None
    ensures h.next == null && h.head == (if headOfChain == null then h else headOfChain)
    ensures h.generated == {} && h.timer == Idle
  {
    h := new Handler(TierThree, None, headOfChain);
  }
}
