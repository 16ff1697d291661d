/** One endpoint's pipeline: receivers offering events to their rings at any moment, and the
    dispatcher visiting the rings in turn with a budget per visit. */
module Pipeline {
  import opened Types
  import opened Rings

  const DRAIN_BUDGET: nat := 1024

  // ----- state -----

  /** A ring with its statistics and its history: every offer, every accepted event, every
      drained event. */
  datatype Lane = Lane(ring: Ring, received: nat, offered: nat, lost: nat, accepted: seq<Event>, drained: seq<Event>)

  datatype Counters = Counters(accounts: nat, transactions: nat, blocks: nat, entries: nat,
                               lastCountedSlot: nat, totalSlots: nat)

  const NO_COUNTS := Counters(0, 0, 0, 0, 0, 0)

  /** `cursor` is the ring being visited and `budget` how many events this visit has taken.
      `log` is what has been dispatched, and `sources` the ring each of its events came from. */
  datatype Sys = Sys(lanes: seq<Lane>, cursor: nat, budget: nat, gotAny: bool, passes: nat,
                     shutdown: bool, running: bool, counters: Counters, log: seq<Event>, sources: seq<nat>)

  datatype Action =
    | Offer(lane: nat, e: Event)
    | Signal
    | Poll(expired: bool)

  function FreshLane(capacity: nat): Lane {
    Lane(EmptyRing(capacity), 0, 0, 0, [], [])
  }

  function Init(capacities: seq<nat>): Sys {
    Sys(seq(|capacities|, i requires 0 <= i < |capacities| => FreshLane(capacities[i])),
        0, 0, false, 0, false, true, NO_COUNTS, [], [])
  }

  // ----- steps -----

  function OfferTo(l: Lane, e: Event, connected: bool): Lane {
    l.(offered := l.offered + 1, ring := Send(l.ring, e, connected),
       lost := if connected then l.lost else l.lost + 1,
       accepted := if Accepts(l.ring, connected) then l.accepted + [e] else l.accepted)
  }

  function TakeFrom(l: Lane): Lane
    requires l.ring.queue != []
  {
    l.(ring := Receive(l.ring), received := l.received + 1, drained := l.drained + [l.ring.queue[0]])
  }

  /** The per-event bookkeeping of the dispatcher. */
  function CountEvent(c: Counters, e: Event): Counters {
    match e.payload
    case SlotUpdate(slot, stage) =>
      if e.subscription.ep == One && stage == StageProcessed && slot > c.lastCountedSlot
      then c.(lastCountedSlot := slot, totalSlots := c.totalSlots + 1)
      else c
    case AccountUpdate(_, _, _, _, _) => c.(accounts := c.accounts + 1)
    case TransactionUpdate(_, _) => c.(transactions := c.transactions + 1)
    case BlockUpdate(_, _) => c.(blocks := c.blocks + 1)
    case EntryUpdate(_, _) => c.(entries := c.entries + 1)
  }

  /** The dispatcher is about to take an event. */
  predicate Takes(s: Sys) {
    s.running && s.cursor < |s.lanes| && s.budget < DRAIN_BUDGET && s.lanes[s.cursor].ring.queue != []
  }

  /** One event leaves the ring being visited and is dispatched. */
  function Take(s: Sys): Sys
    requires Takes(s)
  {
    var e := s.lanes[s.cursor].ring.queue[0];
    s.(lanes := s.lanes[s.cursor := TakeFrom(s.lanes[s.cursor])], budget := s.budget + 1, gotAny := true,
       counters := CountEvent(s.counters, e), log := s.log + [e], sources := s.sources + [s.cursor])
  }

  /** The dispatcher's next move: take one event, leave the ring, or end the pass. */
  function PollStep(s: Sys, expired: bool): Sys {
    if !s.running then s
    else if Takes(s) then Take(s)
    else if s.cursor < |s.lanes| then s.(cursor := s.cursor + 1, budget := 0)
    else
      var next := s.(cursor := 0, budget := 0, passes := s.passes + 1);
      if s.shutdown && (!s.gotAny || expired) then next.(running := false) else next.(gotAny := false)
  }

  function Next(s: Sys, a: Action): Sys {
    match a
    case Offer(i, e) =>
      if i < |s.lanes| then s.(lanes := s.lanes[i := OfferTo(s.lanes[i], e, s.running)]) else s
    case Signal => s.(shutdown := true)
    case Poll(expired) => PollStep(s, expired)
  }

  function Exec(s: Sys, acts: seq<Action>): Sys {
    if acts == [] then s else Next(Exec(s, acts[..|acts| - 1]), acts[|acts| - 1])
  }

  // ----- conservation -----

  /** Every offer is accepted, dropped, or came after disconnection; accepted events are the
      drained ones followed by those still queued. */
  ghost predicate LaneOk(l: Lane, connected: bool) {
    && |l.ring.queue| <= l.ring.capacity
    && l.accepted == l.drained + l.ring.queue
    && l.received == |l.drained|
    && l.offered == |l.accepted| + l.ring.dropped + l.lost
    && (connected ==> l.lost == 0)
  }

  /** The dispatched events that came from ring `i`, in dispatch order. */
  function Dispatched(log: seq<Event>, sources: seq<nat>, i: nat): seq<Event>
    requires |log| == |sources|
  {
    if log == [] then []
    else
      var n := |log| - 1;
      var before := Dispatched(log[..n], sources[..n], i);
      if sources[n] == i then before + [log[n]] else before
  }

  /** The dispatch log is the rings' drained events, merged: nothing else was dispatched, and
      each ring's events in the ring's order. */
  ghost predicate LogMerges(s: Sys) {
    && |s.sources| == |s.log|
    && (forall k :: 0 <= k < |s.sources| ==> s.sources[k] < |s.lanes|)
    && (forall i :: 0 <= i < |s.lanes| ==> Dispatched(s.log, s.sources, i) == s.lanes[i].drained)
  }

  function Total(ns: seq<nat>): nat {
    if ns == [] then 0 else Total(ns[..|ns| - 1]) + ns[|ns| - 1]
  }

  lemma {:induction false} TotalUpdate(ns: seq<nat>, i: nat, v: nat)
    requires i < |ns|
    ensures Total(ns[i := v]) == Total(ns) - ns[i] + v
  {
    var n := |ns| - 1;
    if i == n {
      assert ns[i := v][..n] == ns[..n];
    } else {
      assert ns[i := v][..n] == ns[..n][i := v];
      TotalUpdate(ns[..n], i, v);
    }
  }

  function Received(lanes: seq<Lane>): (r: seq<nat>)
    ensures |r| == |lanes|
  {
    seq(|lanes|, i requires 0 <= i < |lanes| => lanes[i].received)
  }

  function CountAll(log: seq<Event>): Counters {
    if log == [] then NO_COUNTS else CountEvent(CountAll(log[..|log| - 1]), log[|log| - 1])
  }

  /** How many events of the log satisfy `p`. */
  function CountOf(log: seq<Event>, p: Event -> bool): nat {
    if log == [] then 0 else CountOf(log[..|log| - 1], p) + (if p(log[|log| - 1]) then 1 else 0)
  }

  ghost predicate CountsKinds(c: Counters, log: seq<Event>) {
    && c.accounts == CountOf(log, (e: Event) => e.payload.AccountUpdate?)
    && c.transactions == CountOf(log, (e: Event) => e.payload.TransactionUpdate?)
    && c.blocks == CountOf(log, (e: Event) => e.payload.BlockUpdate?)
    && c.entries == CountOf(log, (e: Event) => e.payload.EntryUpdate?)
  }

  function SlotEvents(log: seq<Event>): nat {
    CountOf(log, (e: Event) => e.payload.SlotUpdate?)
  }

  /** The dispatcher's place in its pass makes sense. */
  predicate Placed(s: Sys) {
    s.cursor <= |s.lanes| && s.budget <= DRAIN_BUDGET && (s.budget > 0 ==> s.gotAny && s.cursor < |s.lanes|)
  }

  ghost predicate Inv(s: Sys) {
    && (forall i :: 0 <= i < |s.lanes| ==> LaneOk(s.lanes[i], s.running))
    && Placed(s)
    && LogMerges(s)
    && Total(Received(s.lanes)) == |s.log|
    && s.counters == CountAll(s.log)
    && (!s.running ==> s.shutdown)
  }

  lemma ReceivedUpdate(lanes: seq<Lane>, i: nat, l: Lane)
    requires i < |lanes|
    ensures Total(Received(lanes[i := l])) == Total(Received(lanes)) - lanes[i].received + l.received
  {
    assert Received(lanes[i := l]) == Received(lanes)[i := l.received];
    TotalUpdate(Received(lanes), i, l.received);
  }

  lemma OfferKeepsLane(l: Lane, e: Event, connected: bool)
    requires LaneOk(l, connected)
    ensures LaneOk(OfferTo(l, e, connected), connected)
    ensures l.accepted <= OfferTo(l, e, connected).accepted
  {
    assert l.accepted + [e] == l.drained + (l.ring.queue + [e]);
  }

  lemma TakeKeepsLane(l: Lane, connected: bool)
    requires LaneOk(l, connected) && l.ring.queue != []
    ensures LaneOk(TakeFrom(l), connected)
  {
    var q := l.ring.queue;
    assert q == [q[0]] + q[1..];
    assert l.drained + q == (l.drained + [q[0]]) + q[1..];
  }

  lemma OfferKeepsInv(s: Sys, i: nat, e: Event)
    requires Inv(s) && i < |s.lanes|
    ensures Inv(Next(s, Offer(i, e)))
  {
    OfferKeepsLane(s.lanes[i], e, s.running);
    ReceivedUpdate(s.lanes, i, OfferTo(s.lanes[i], e, s.running));
  }

  lemma DispatchedSnoc(log: seq<Event>, sources: seq<nat>, e: Event, from: nat, i: nat)
    requires |log| == |sources|
    ensures Dispatched(log + [e], sources + [from], i)
            == if from == i then Dispatched(log, sources, i) + [e] else Dispatched(log, sources, i)
  {
    assert (log + [e])[..|log|] == log && (sources + [from])[..|log|] == sources;
  }

  lemma TakeMerges(s: Sys)
    requires LogMerges(s) && Takes(s)
    ensures LogMerges(Take(s))
  {
    var next := Take(s);
    forall i | 0 <= i < |s.lanes| ensures Dispatched(next.log, next.sources, i) == next.lanes[i].drained {
      DispatchedSnoc(s.log, s.sources, s.lanes[s.cursor].ring.queue[0], s.cursor, i);
    }
  }

  lemma TakeKeepsInv(s: Sys)
    requires Inv(s) && Takes(s)
    ensures Inv(Take(s))
  {
    var l := s.lanes[s.cursor];
    TakeKeepsLane(l, s.running);
    TakeMerges(s);
    ReceivedUpdate(s.lanes, s.cursor, TakeFrom(l));
    assert Take(s).log[..|s.log|] == s.log;
  }

  lemma NextKeepsInv(s: Sys, a: Action)
    requires Inv(s)
    ensures Inv(Next(s, a)) && |Next(s, a).lanes| == |s.lanes|
  {
    match a
    case Offer(i, e) =>
      if i < |s.lanes| {
        OfferKeepsInv(s, i, e);
      }
    case Signal =>
    case Poll(expired) =>
      if Takes(s) {
        TakeKeepsInv(s);
      }
  }

  lemma {:induction false} InitTotal(ns: seq<nat>)
    requires forall i :: 0 <= i < |ns| ==> ns[i] == 0
    ensures Total(ns) == 0
  {
    if ns != [] {
      InitTotal(ns[..|ns| - 1]);
    }
  }

  /** Each kind counter is the number of dispatched events of its own kind, and together with
      the slot events they are all. */
  lemma {:induction false} KindsPartition(log: seq<Event>)
    ensures var c := CountAll(log);
            && CountsKinds(c, log)
            && c.accounts + c.transactions + c.blocks + c.entries + SlotEvents(log) == |log|
  {
    if log != [] {
      KindsPartition(log[..|log| - 1]);
    }
  }

  lemma InitInv(capacities: seq<nat>)
    ensures Inv(Init(capacities))
  {
    InitTotal(Received(Init(capacities).lanes));
  }

  lemma {:induction false} ExecKeepsInv(s: Sys, acts: seq<Action>)
    requires Inv(s)
    ensures Inv(Exec(s, acts)) && |Exec(s, acts).lanes| == |s.lanes|
  {
    if acts != [] {
      ExecKeepsInv(s, acts[..|acts| - 1]);
      NextKeepsInv(Exec(s, acts[..|acts| - 1]), acts[|acts| - 1]);
    }
  }

  /** In every reachable state: no ring exceeds its capacity; while connected every offer is
      received, pending or dropped; the events dispatched from a ring are a prefix of those it
      accepted, in order, and nothing else was dispatched; and the received counts add up to the
      kind counters plus the slot events dispatched. */
  lemma PipelineConservation(capacities: seq<nat>, acts: seq<Action>)
    ensures var s := Exec(Init(capacities), acts);
            && Inv(s) && |s.lanes| == |capacities|
            && (forall i :: 0 <= i < |s.lanes| ==>
                  var l := s.lanes[i];
                  && |l.ring.queue| <= capacities[i]
                  && (l.ring.dropped > 0 ==> |l.accepted| >= capacities[i])
                  && Dispatched(s.log, s.sources, i) + l.ring.queue == l.accepted
                  && l.received == |Dispatched(s.log, s.sources, i)|
                  && (s.running ==> l.offered == l.received + |l.ring.queue| + l.ring.dropped))
            && (forall k :: 0 <= k < |s.log| ==> s.sources[k] < |s.lanes|)
            && CountsKinds(s.counters, s.log)
            && Total(Received(s.lanes)) == s.counters.accounts + s.counters.transactions + s.counters.blocks
                                           + s.counters.entries + SlotEvents(s.log)
  {
    InitInv(capacities);
    ExecKeepsInv(Init(capacities), acts);
    var s := Exec(Init(capacities), acts);
    KindsPartition(s.log);
    forall i | 0 <= i < |s.lanes|
      ensures Dispatched(s.log, s.sources, i) + s.lanes[i].ring.queue == s.lanes[i].accepted
      ensures |s.lanes[i].ring.queue| <= capacities[i] && (s.lanes[i].ring.dropped > 0 ==> |s.lanes[i].accepted| >= capacities[i])
      ensures s.running ==> s.lanes[i].offered == s.lanes[i].received + |s.lanes[i].ring.queue| + s.lanes[i].ring.dropped
    {
      assert LaneOk(s.lanes[i], s.running);
      CapacityKept(capacities, acts, i);
    }
  }

  /** The ring's size is fixed, and it only drops once it has been full. */
  ghost predicate FullBeforeDrop(l: Lane, capacity: nat) {
    l.ring.capacity == capacity && (l.ring.dropped > 0 ==> |l.accepted| >= capacity)
  }

  lemma NextKeepsCapacity(s: Sys, a: Action, i: nat, capacity: nat)
    requires i < |s.lanes| && LaneOk(s.lanes[i], s.running) && FullBeforeDrop(s.lanes[i], capacity)
    ensures |Next(s, a).lanes| == |s.lanes| && FullBeforeDrop(Next(s, a).lanes[i], capacity)
  {
  }

  lemma {:induction false} CapacityKept(capacities: seq<nat>, acts: seq<Action>, i: nat)
    requires i < |capacities|
    ensures var s := Exec(Init(capacities), acts); |s.lanes| == |capacities| && FullBeforeDrop(s.lanes[i], capacities[i])
  {
    if acts != [] {
      var n := |acts| - 1;
      CapacityKept(capacities, acts[..n], i);
      LanesOk(capacities, acts[..n], i);
      NextKeepsCapacity(Exec(Init(capacities), acts[..n]), acts[n], i, capacities[i]);
    }
  }

  lemma LanesOk(capacities: seq<nat>, acts: seq<Action>, i: nat)
    requires i < |capacities|
    ensures var s := Exec(Init(capacities), acts); |s.lanes| == |capacities| && LaneOk(s.lanes[i], s.running)
  {
    InitInv(capacities);
    ExecKeepsInv(Init(capacities), acts);
  }

  /** What becomes of one offer to a connected ring: below its capacity it is queued, at its
      capacity it is dropped and counted. */
  lemma OfferOutcome(s: Sys, i: nat, e: Event)
    requires s.running && i < |s.lanes|
    ensures var l, l' := s.lanes[i], Next(s, Offer(i, e)).lanes[i];
            if |l.ring.queue| < l.ring.capacity
            then l'.ring.queue == l.ring.queue + [e] && l'.accepted == l.accepted + [e] && l'.ring.dropped == l.ring.dropped
            else l'.ring.queue == l.ring.queue && l'.accepted == l.accepted && l'.ring.dropped == l.ring.dropped + 1
    ensures forall j :: 0 <= j < |s.lanes| && j != i ==> Next(s, Offer(i, e)).lanes[j] == s.lanes[j]
  {
  }

  // ----- when the dispatcher stops -----

  /** The poll that ends the dispatcher: shutdown has been signalled and the pass that is over
      found nothing, or the time budget is used up. */
  predicate StopsAt(s: Sys, a: Action) {
    a.Poll? && s.running && s.cursor >= |s.lanes| && s.shutdown && (!s.gotAny || a.expired)
  }

  ghost predicate Stop(s: Sys, acts: seq<Action>, n: nat) {
    n < |acts| && StopsAt(Exec(s, acts[..n]), acts[n])
  }

  lemma NextStops(s: Sys, a: Action)
    ensures Next(s, a).running <==> s.running && !StopsAt(s, a)
  {
  }

  lemma StopBefore(s: Sys, acts: seq<Action>, n: nat)
    requires n < |acts| - 1
    ensures Stop(s, acts, n) <==> Stop(s, acts[..|acts| - 1], n)
  {
    assert acts[..|acts| - 1][..n] == acts[..n];
  }

  /** In every run the dispatcher has stopped exactly when there was such a poll. */
  lemma {:induction false} StopsExactlyWhen(s: Sys, acts: seq<Action>)
    requires s.running
    ensures !Exec(s, acts).running <==> exists n :: Stop(s, acts, n)
  {
    if acts != [] {
      var m := |acts| - 1;
      StopsExactlyWhen(s, acts[..m]);
      NextStops(Exec(s, acts[..m]), acts[m]);
      if n: nat :| Stop(s, acts[..m], n) {
        StopBefore(s, acts, n);
      }
      if n: nat :| Stop(s, acts, n) && n != m {
        StopBefore(s, acts, n);
      }
      assert Stop(s, acts, m) <==> StopsAt(Exec(s, acts[..m]), acts[m]);
    }
  }

  // ----- per-endpoint totals -----

  function MinLen<A, B>(a: seq<A>, b: seq<B>): (n: nat)
    ensures n <= |a| && n <= |b| && (n == |a| || n == |b|)
  {
    if |a| < |b| then |a| else |b|
  }

  /** Sum of the first `n` statistics that belong to an endpoint. */
  function SumFor(roles: seq<SubscriptionRole>, stats: seq<U64>, n: nat, ep: EndpointRole): nat
    requires n <= MinLen(roles, stats)
  {
    if n == 0 then 0 else SumFor(roles, stats, n - 1, ep) + (if roles[n - 1].ep == ep then stats[n - 1] else 0)
  }

  lemma {:induction false} SumOfNothing(roles: seq<SubscriptionRole>, stats: seq<U64>, n: nat, ep: EndpointRole)
    requires n <= MinLen(roles, stats) && forall i :: 0 <= i < n ==> stats[i] == 0
    ensures SumFor(roles, stats, n, ep) == 0
  {
    if n > 0 {
      SumOfNothing(roles, stats, n - 1, ep);
    }
  }

  /** Each paired statistic counts towards its own endpoint's sum, whatever the role's stream,
      and towards no other. */
  lemma {:induction false} StatisticCounts(roles: seq<SubscriptionRole>, stats: seq<U64>, n: nat, i: nat, v: U64, ep: EndpointRole)
    requires i < n <= MinLen(roles, stats)
    ensures SumFor(roles, stats[i := v], n, ep) == SumFor(roles, stats, n, ep) + (if roles[i].ep == ep then v - stats[i] else 0)
  {
    if i < n - 1 {
      StatisticCounts(roles, stats, n - 1, i, v, ep);
    } else {
      SumByValue(roles, stats, stats[i := v], n - 1, ep);
    }
  }

  lemma {:induction false} SumByValue(roles: seq<SubscriptionRole>, a: seq<U64>, b: seq<U64>, n: nat, ep: EndpointRole)
    requires n <= MinLen(roles, a) && n <= MinLen(roles, b) && a[..n] == b[..n]
    ensures SumFor(roles, a, n, ep) == SumFor(roles, b, n, ep)
  {
    if n > 0 {
      assert a[n - 1] == a[..n][n - 1] == b[n - 1];
      assert a[..n][..n - 1] == a[..n - 1] && b[..n][..n - 1] == b[..n - 1];
      SumByValue(roles, a, b, n - 1, ep);
    }
  }

  function Saturate(x: nat): (r: U64)
    ensures x < 0x1_0000_0000_0000_0000 ==> r == x
    ensures x >= 0x1_0000_0000_0000_0000 ==> r == 0xFFFF_FFFF_FFFF_FFFF
  {
    if x < U64_SIZE then x else U64_SIZE - 1
  }

  /** Capture and dropped totals: each endpoint's statistics summed with saturation, one pair of
      role and statistic at a time. */
  method EndpointTotals(roles: seq<SubscriptionRole>, stats: seq<U64>) returns (ep1: U64, ep2: U64)
    ensures ep1 == Saturate(SumFor(roles, stats, MinLen(roles, stats), One))
    ensures ep2 == Saturate(SumFor(roles, stats, MinLen(roles, stats), Two))
  {
    ep1, ep2 := 0, 0;
    for i := 0 to MinLen(roles, stats)
      invariant ep1 == Saturate(SumFor(roles, stats, i, One))
      invariant ep2 == Saturate(SumFor(roles, stats, i, Two))
    {
      if roles[i].ep == One {
        ep1 := Saturate(ep1 + stats[i]);
      } else {
        ep2 := Saturate(ep2 + stats[i]);
      }
    }
  }
}
