/** How long an accepted event can wait, what is left behind when the dispatcher stops, and the
    drain loop itself. */
module Drain {
  import opened Types
  import opened Pipeline
  import opened Arith

  function Min(a: nat, b: nat): (m: nat)
    ensures m <= a && m <= b && (m == a || m == b)
  {
    if a < b then a else b
  }

  // ----- every pass ends -----

  function PollCount(a: Action): nat {
    if a.Poll? then 1 else 0
  }

  function Polls(acts: seq<Action>): nat {
    if acts == [] then 0 else Polls(acts[..|acts| - 1]) + PollCount(acts[|acts| - 1])
  }

  /** A whole pass: up to a full budget and one more poll to leave each ring, and one poll to
      end the pass. */
  function PassPolls(rings: nat): nat {
    rings * 1025 + 1
  }

  function PollsOf(passes: nat, rings: nat): nat {
    if passes == 0 then 0 else PollsOf(passes - 1, rings) + PassPolls(rings)
  }

  lemma {:induction false} PollsOfTimes(passes: nat, rings: nat)
    ensures PollsOf(passes, rings) == passes * PassPolls(rings)
  {
    if passes > 0 {
      PollsOfTimes(passes - 1, rings);
      MulSucc(passes - 1, PassPolls(rings));
    }
  }

  /** How many polls the current pass can still take. */
  function PassLeft(s: Sys): int {
    (|s.lanes| - s.cursor) * 1025 - s.budget + 1
  }

  /** After `polls` polls since `s0` the dispatcher is not behind: each pass has taken at most
      its share. */
  ghost predicate OnSchedule(s0: Sys, s: Sys, polls: nat) {
    && Placed(s) && |s.lanes| == |s0.lanes| && s.passes >= s0.passes
    && (s.running ==> PassLeft(s) + polls <= PassLeft(s0) + PollsOf(s.passes - s0.passes, |s0.lanes|))
    && (!s.running ==> s.passes > s0.passes)
  }

  /** One poll of a running dispatcher either uses up one of the pass's polls or ends the pass. */
  lemma PollProgress(s: Sys, expired: bool)
    requires Placed(s) && s.running
    ensures var next := PollStep(s, expired);
            && Placed(next) && |next.lanes| == |s.lanes|
            && if next.passes == s.passes then next.running && PassLeft(next) < PassLeft(s)
               else next.passes == s.passes + 1 && PassLeft(s) == 1 && PassLeft(next) == PassPolls(|s.lanes|)
  {
  }

  lemma NextOnSchedule(s0: Sys, s: Sys, polls: nat, a: Action)
    requires OnSchedule(s0, s, polls)
    ensures OnSchedule(s0, Next(s, a), polls + PollCount(a))
  {
    if a.Poll? && s.running {
      PollProgress(s, a.expired);
    }
  }

  lemma {:induction false} ExecOnSchedule(s0: Sys, acts: seq<Action>)
    requires Placed(s0) && s0.running
    ensures OnSchedule(s0, Exec(s0, acts), Polls(acts))
  {
    if acts != [] {
      var n := |acts| - 1;
      ExecOnSchedule(s0, acts[..n]);
      NextOnSchedule(s0, Exec(s0, acts[..n]), Polls(acts[..n]), acts[n]);
    }
  }

  /** However fast receivers offer, a running dispatcher ends its pass within
      (rings left) * 1025 - (taken in this visit) + 1 polls: no ring can hold it. */
  lemma PassEnds(s0: Sys, acts: seq<Action>)
    requires Placed(s0) && s0.running && Polls(acts) >= PassLeft(s0)
    ensures Exec(s0, acts).passes > s0.passes
  {
    ExecOnSchedule(s0, acts);
  }

  // ----- bounded wait -----

  /** What the current pass has already granted ring `i`. */
  function Credit(s: Sys, i: nat): nat {
    if s.cursor > i then 1024 else if s.cursor == i then s.budget else 0
  }

  /** Since `s0`, ring `i` has been drained of everything it held then, or of a full budget for
      each pass. */
  ghost predicate Served(s0: Sys, s: Sys, i: nat)
    requires i < |s0.lanes|
  {
    && |s.lanes| == |s0.lanes| && s.passes >= s0.passes
    && s0.lanes[i].accepted <= s.lanes[i].accepted
    && (|| |s.lanes[i].drained| >= |s0.lanes[i].accepted|
        || |s.lanes[i].drained| >= |s0.lanes[i].drained| + DRAIN_BUDGET * (s.passes - s0.passes) + Credit(s, i) - Credit(s0, i))
  }

  lemma OfferServes(s0: Sys, s: Sys, i: nat, j: nat, e: Event)
    requires i < |s0.lanes| && Inv(s) && Served(s0, s, i)
    ensures Served(s0, Next(s, Offer(j, e)), i)
  {
    if i < |s.lanes| && j == i {
      OfferKeepsLane(s.lanes[i], e, s.running);
    }
  }

  lemma PollServes(s0: Sys, s: Sys, i: nat, expired: bool)
    requires i < |s0.lanes| && Inv(s) && Served(s0, s, i)
    ensures Served(s0, PollStep(s, expired), i)
  {
    assert LaneOk(s.lanes[i], s.running);
  }

  lemma {:induction false} ExecServes(s0: Sys, acts: seq<Action>, i: nat)
    requires i < |s0.lanes| && Inv(s0)
    ensures Served(s0, Exec(s0, acts), i)
  {
    if acts != [] {
      var n := |acts| - 1;
      ExecServes(s0, acts[..n], i);
      ExecKeepsInv(s0, acts[..n]);
      match acts[n]
      case Offer(j, e) => OfferServes(s0, Exec(s0, acts[..n]), i, j, e);
      case Signal =>
      case Poll(expired) => PollServes(s0, Exec(s0, acts[..n]), i, expired);
    }
  }

  /** The current pass will still see ring `i`, or has found an event and so is not the last. */
  predicate Ahead(s: Sys, i: nat) {
    s.gotAny || s.cursor <= i
  }

  /** A pass that has found nothing has emptied ring `i` of what it held at `s0`, and so has a
      dispatcher that stopped. */
  ghost predicate Emptied(s0: Sys, s: Sys, i: nat)
    requires i < |s0.lanes|
  {
    |s.lanes| == |s0.lanes| && (s.running ==> Ahead(s, i) || |s.lanes[i].drained| >= |s0.lanes[i].accepted|)
    && (!s.running ==> |s.lanes[i].drained| >= |s0.lanes[i].accepted|)
  }

  ghost predicate NoExpiry(acts: seq<Action>) {
    forall k :: 0 <= k < |acts| ==> acts[k] != Poll(true)
  }

  lemma PollEmpties(s0: Sys, s: Sys, i: nat)
    requires i < |s0.lanes| && Inv(s) && Served(s0, s, i) && Emptied(s0, s, i)
    ensures Emptied(s0, PollStep(s, false), i)
  {
    assert LaneOk(s.lanes[i], s.running);
  }

  lemma {:induction false} ExecEmpties(s0: Sys, acts: seq<Action>, i: nat)
    requires i < |s0.lanes| && Inv(s0) && s0.running && Ahead(s0, i) && NoExpiry(acts)
    ensures Emptied(s0, Exec(s0, acts), i)
  {
    if acts != [] {
      var n := |acts| - 1;
      ExecEmpties(s0, acts[..n], i);
      ExecKeepsInv(s0, acts[..n]);
      ExecServes(s0, acts[..n], i);
      match acts[n]
      case Offer(j, e) =>
      case Signal =>
      case Poll(expired) => PollEmpties(s0, Exec(s0, acts[..n]), i);
    }
  }

  /** The event at position p of ring i at `s0`, and all before it, have been dispatched at `s`,
      in ring order. */
  ghost predicate DispatchedBy(s0: Sys, s: Sys, i: nat, p: nat)
    requires i < |s0.lanes| && p < |s0.lanes[i].ring.queue|
  {
    && |s0.log| == |s0.sources| && |s.log| == |s.sources|
    && Dispatched(s0.log, s0.sources, i) + s0.lanes[i].ring.queue[..p + 1] <= Dispatched(s.log, s.sources, i)
  }

  lemma DrainedFar(s0: Sys, s: Sys, i: nat, p: nat)
    requires Inv(s0) && Inv(s) && i < |s0.lanes| && p < |s0.lanes[i].ring.queue| && Served(s0, s, i)
    requires |s.lanes[i].drained| >= |s0.lanes[i].drained| + p + 1
    ensures DispatchedBy(s0, s, i, p)
  {
    var l0, l := s0.lanes[i], s.lanes[i];
    assert LaneOk(l0, s0.running) && LaneOk(l, s.running);
    var k := |l0.drained| + p + 1;
    assert l.drained[..k] == l.accepted[..k] == l0.accepted[..k];
    assert l0.accepted[..k] == l0.drained + l0.ring.queue[..p + 1];
  }

  /** How many full passes must still follow the current one before the event at position p. */
  function PassesBefore(s: Sys, i: nat, p: nat): nat {
    (p + Credit(s, i)) / 1024
  }

  /** Counted in passes: from the start of a pass, p/1024 + 1 of them are enough. */
  lemma DrainWithinPasses(s0: Sys, acts: seq<Action>, i: nat, p: nat)
    requires Inv(s0) && i < |s0.lanes| && p < |s0.lanes[i].ring.queue|
    requires Exec(s0, acts).passes >= s0.passes + PassesBefore(s0, i, p) + 1
    ensures DispatchedBy(s0, Exec(s0, acts), i, p)
  {
    var s := Exec(s0, acts);
    ExecServes(s0, acts, i);
    ExecKeepsInv(s0, acts);
    assert LaneOk(s0.lanes[i], s0.running);
    assert DRAIN_BUDGET * (s.passes - s0.passes) >= DRAIN_BUDGET * (PassesBefore(s0, i, p) + 1) >= p + 1 + Credit(s0, i);
    DrainedFar(s0, s, i, p);
  }

  /** Whatever the receivers do meanwhile and wherever the dispatcher stands, the event at
      position p of ring i is dispatched, in ring order, within the rest of the current pass and
      p/1024 whole passes more (one more if the current pass has visited the ring), counted in
      polls. Only an expired time budget, or a last pass that has left the ring behind, can stop
      the dispatcher before. */
  lemma DrainFairness(s0: Sys, acts: seq<Action>, i: nat, p: nat)
    requires Inv(s0) && s0.running && i < |s0.lanes| && p < |s0.lanes[i].ring.queue|
    requires Polls(acts) >= PassLeft(s0) + PassesBefore(s0, i, p) * PassPolls(|s0.lanes|)
    requires Exec(s0, acts).running || (NoExpiry(acts) && Ahead(s0, i))
    ensures DispatchedBy(s0, Exec(s0, acts), i, p)
  {
    var s := Exec(s0, acts);
    ExecKeepsInv(s0, acts);
    if s.running {
      ExecOnSchedule(s0, acts);
      var made, enough := s.passes - s0.passes, PassesBefore(s0, i, p);
      PollsOfTimes(made, |s0.lanes|);
      if made <= enough {
        NotMoreTimes(made, enough, PassPolls(|s0.lanes|));
        assert false;
      }
      DrainWithinPasses(s0, acts, i, p);
    } else {
      ExecServes(s0, acts, i);
      ExecEmpties(s0, acts, i);
      assert LaneOk(s0.lanes[i], s0.running);
      DrainedFar(s0, s, i, p);
    }
  }

  // ----- what a quiet shutdown leaves behind -----

  ghost predicate AllEmpty(s: Sys) {
    forall i :: 0 <= i < |s.lanes| ==> s.lanes[i].ring.queue == []
  }

  /** A pass that has found nothing so far, will find nothing in the rings still ahead, but has
      events behind it that arrived after their ring was visited. */
  ghost predicate Stranded(s: Sys) {
    && !s.gotAny
    && (forall i :: s.cursor <= i < |s.lanes| ==> s.lanes[i].ring.queue == [])
    && (exists i :: 0 <= i < s.cursor && i < |s.lanes| && s.lanes[i].ring.queue != [])
  }

  function Queued(lanes: seq<Lane>): (r: seq<nat>)
    ensures |r| == |lanes|
  {
    seq(|lanes|, i requires 0 <= i < |lanes| => |lanes[i].ring.queue|)
  }

  function PollN(s: Sys, n: nat): Sys
    decreases n
  {
    if n == 0 then s else PollN(PollStep(s, false), n - 1)
  }

  lemma TakeShrinks(s: Sys)
    requires Takes(s)
    ensures Total(Queued(PollStep(s, false).lanes)) == Total(Queued(s.lanes)) - 1
  {
    var l := s.lanes[s.cursor];
    assert Queued(s.lanes[s.cursor := TakeFrom(l)]) == Queued(s.lanes)[s.cursor := |l.ring.queue| - 1];
    TotalUpdate(Queued(s.lanes), s.cursor, |l.ring.queue| - 1);
  }

  ghost predicate SameAccepted(s: Sys, f: Sys) {
    |f.lanes| == |s.lanes| && forall i :: 0 <= i < |s.lanes| ==> f.lanes[i].accepted == s.lanes[i].accepted
  }

  /** The signalled dispatcher's pass is over and found nothing: the next step is the last. */
  predicate Stopping(s: Sys) {
    s.running && s.shutdown && s.cursor == |s.lanes| && !s.gotAny
  }

  /** Being stranded is decided before the pass ends: no quiet step changes it. */
  lemma PollKeepsStranded(s: Sys)
    requires Inv(s) && s.running && s.shutdown && !Stopping(s)
    ensures Stranded(PollStep(s, false)) <==> Stranded(s)
  {
    var next := PollStep(s, false);
    if Takes(s) {
      assert next.gotAny && !Stranded(s);
    } else if s.cursor < |s.lanes| && !s.gotAny {
      assert s.lanes[s.cursor].ring.queue == [] && next.lanes == s.lanes && next.cursor == s.cursor + 1;
      if Stranded(s) {
        var i :| 0 <= i < s.cursor && i < |s.lanes| && s.lanes[i].ring.queue != [];
        assert 0 <= i < next.cursor && next.lanes[i].ring.queue != [];
      }
      if Stranded(next) {
        var i :| 0 <= i < next.cursor && i < |next.lanes| && next.lanes[i].ring.queue != [];
        assert i != s.cursor;
      }
    }
  }

  lemma StopLeaves(s: Sys)
    requires Inv(s) && Stopping(s)
    ensures var f := PollStep(s, false);
            !f.running && f.lanes == s.lanes && (AllEmpty(f) <==> !Stranded(s))
  {
  }

  lemma PollAccepts(s: Sys, expired: bool)
    requires Inv(s)
    ensures SameAccepted(s, PollStep(s, expired))
  {
    if Takes(s) {
      TakeKeepsLane(s.lanes[s.cursor], s.running);
    }
  }

  /** What a quiet dispatcher comes to. */
  ghost predicate Outcome(s: Sys, f: Sys) {
    !f.running && SameAccepted(s, f) && (AllEmpty(f) <==> !Stranded(s))
  }

  lemma {:induction false} PollNKeepsInv(s: Sys, n: nat)
    requires Inv(s)
    ensures Inv(PollN(s, n))
    decreases n
  {
    if n > 0 {
      NextKeepsInv(s, Poll(false));
      PollNKeepsInv(PollStep(s, false), n - 1);
    }
  }

  lemma OutcomeBack(s: Sys, next: Sys, f: Sys)
    requires Outcome(next, f) && SameAccepted(s, next) && (Stranded(next) <==> Stranded(s))
    ensures Outcome(s, f)
  {
  }

  lemma StopOutcome(s: Sys)
    requires Inv(s) && Stopping(s)
    ensures Outcome(s, PollN(s, 1))
  {
    NextKeepsInv(s, Poll(false));
    StopLeaves(s);
    assert PollN(s, 1) == PollN(PollStep(s, false), 0);
  }

  /** Nothing is lost by looking from the next step, which is nearer to the end. */
  ghost predicate Nearer(s: Sys, next: Sys) {
    && Inv(next) && next.running && next.shutdown && SameAccepted(s, next) && (Stranded(next) <==> Stranded(s))
    && (forall m: nat :: PollN(next, m) == PollN(s, m + 1))
    && (|| Total(Queued(next.lanes)) < Total(Queued(s.lanes))
        || (Total(Queued(next.lanes)) == Total(Queued(s.lanes)) && s.gotAny && !next.gotAny)
        || (Total(Queued(next.lanes)) == Total(Queued(s.lanes)) && s.gotAny == next.gotAny
            && s.cursor < next.cursor <= |s.lanes|))
  }

  /** A quiet step that does not stop makes progress. */
  lemma QuietProgress(s: Sys) returns (next: Sys)
    requires Inv(s) && s.running && s.shutdown && !Stopping(s)
    ensures Nearer(s, next)
  {
    next := PollStep(s, false);
    NextKeepsInv(s, Poll(false));
    PollAccepts(s, false);
    PollKeepsStranded(s);
    if Takes(s) {
      TakeShrinks(s);
    }
  }

  lemma {:induction false} QuietSteps(s: Sys) returns (n: nat)
    requires Inv(s) && s.running && s.shutdown
    ensures Outcome(s, PollN(s, n))
    decreases Total(Queued(s.lanes)), s.gotAny, |s.lanes| - s.cursor
  {
    if Stopping(s) {
      StopOutcome(s);
      n := 1;
    } else {
      var next := QuietProgress(s);
      var m := QuietSteps(next);
      n := m + 1;
      OutcomeBack(s, next, PollN(next, m));
    }
  }

  /** With the receivers quiet and the time budget not hit, a signalled dispatcher stops after
      finitely many steps, and it leaves nothing behind exactly when it was not stranded when
      the receivers went quiet; then the events it dispatched are, ring by ring and in order,
      exactly those the rings accepted. */
  lemma QuietDrain(s: Sys) returns (n: nat)
    requires Inv(s) && s.running && s.shutdown
    ensures var f := PollN(s, n);
            && !f.running && |f.lanes| == |s.lanes| && LogMerges(f)
            && (AllEmpty(f) <==> !Stranded(s))
            && (!Stranded(s) <==> forall i :: 0 <= i < |f.lanes| ==> Dispatched(f.log, f.sources, i) == s.lanes[i].accepted)
  {
    n := QuietSteps(s);
    var f := PollN(s, n);
    PollNKeepsInv(s, n);
    forall i | 0 <= i < |f.lanes|
      ensures Dispatched(f.log, f.sources, i) == s.lanes[i].accepted <==> f.lanes[i].ring.queue == []
    {
      assert LaneOk(f.lanes[i], f.running);
      assert Dispatched(f.log, f.sources, i) == f.lanes[i].drained && f.lanes[i].accepted == s.lanes[i].accepted;
    }
  }

  /** A dispatcher at the start of a pass is never stranded, so it drains everything. */
  lemma PassStartNeverStranded(s: Sys)
    requires s.cursor == 0
    ensures !Stranded(s)
  {
  }

  /** The bad case is reachable: an event that arrives behind the cursor, a shutdown signal, and
      the pass ends without seeing it. */
  lemma StrandedEventLeft(e: Event)
    ensures var s := Exec(Init([1]), [Poll(false), Offer(0, e), Signal, Poll(false)]);
            !s.running && |s.lanes| == 1 && s.lanes[0].ring.queue == [e] && s.log == []
  {
    var acts := [Poll(false), Offer(0, e), Signal, Poll(false)];
    assert acts[..3][..2] == acts[..2] && acts[..2][..1] == acts[..1] && acts[..1][..0] == [];
    var s0 := Init([1]);
    assert |s0.lanes| == 1 && s0.lanes[0] == FreshLane(1);
    var s1, s2, s3 := Exec(s0, acts[..1]), Exec(s0, acts[..2]), Exec(s0, acts[..3]);
    assert Exec(s0, acts[..1][..0]) == s0;
    assert s1 == PollStep(s0, false) == s0.(cursor := 1);
    assert s2 == Next(s1, Offer(0, e)) && s2.lanes[0].ring.queue == [e];
    assert s3 == s2.(shutdown := true);
    assert Exec(s0, acts) == PollStep(s3, false);
  }

  // ----- the drain loop itself -----

  /** The first k queued events taken. */
  function TakeMany(l: Lane, k: nat): Lane
    requires k <= |l.ring.queue|
  {
    var q := l.ring.queue;
    l.(ring := l.ring.(queue := q[k..]), received := l.received + k, drained := l.drained + q[..k])
  }

  function Visited(l: Lane): Lane {
    TakeMany(l, Min(DRAIN_BUDGET, |l.ring.queue|))
  }

  /** The rings before `r` visited, the others untouched. */
  function VisitedTo(lanes: seq<Lane>, r: nat): (v: seq<Lane>)
    ensures |v| == |lanes|
  {
    seq(|lanes|, i requires 0 <= i < |lanes| => if i < r then Visited(lanes[i]) else lanes[i])
  }

  /** Some ring before `r` holds an event. */
  ghost predicate AnyBefore(lanes: seq<Lane>, r: nat) {
    exists i :: 0 <= i < r && i < |lanes| && lanes[i].ring.queue != []
  }

  lemma VisitNext(lanes: seq<Lane>, r: nat)
    requires r < |lanes|
    ensures VisitedTo(lanes, 0) == lanes && VisitedTo(lanes, r)[r] == lanes[r]
    ensures VisitedTo(lanes, r)[r := Visited(lanes[r])] == VisitedTo(lanes, r + 1)
    ensures AnyBefore(lanes, r + 1) <==> AnyBefore(lanes, r) || lanes[r].ring.queue != []
  {
  }

  lemma NoneBefore(lanes: seq<Lane>, i: nat)
    requires !AnyBefore(lanes, |lanes|) && i < |lanes|
    ensures VisitedTo(lanes, |lanes|)[i].ring.queue == []
  {
  }

  lemma TakeManyNext(l: Lane, k: nat)
    requires k < |l.ring.queue|
    ensures TakeMany(l, 0) == l && TakeFrom(TakeMany(l, k)) == TakeMany(l, k + 1)
  {
    var q := l.ring.queue;
    assert q[..k + 1] == q[..k] + [q[k]];
    assert l.drained + q[..k] + [q[k]] == l.drained + q[..k + 1];
  }

  lemma {:induction false} PollNext(s: Sys, n: nat)
    ensures PollN(s, n + 1) == PollStep(PollN(s, n), false)
    decreases n
  {
    if n == 0 {
      assert PollN(PollStep(s, false), 0) == PollStep(s, false);
    } else {
      PollNext(PollStep(s, false), n - 1);
    }
  }

  lemma {:induction false} PollNPlus(s: Sys, n: nat, m: nat)
    ensures PollN(s, n + m) == PollN(PollN(s, n), m)
    decreases n
  {
    if n > 0 {
      PollNPlus(PollStep(s, false), n - 1, m);
    }
  }

  lemma {:induction false} SmallerTotal(a: seq<nat>, b: seq<nat>)
    requires |a| == |b| && forall i :: 0 <= i < |a| ==> a[i] <= b[i]
    ensures Total(a) <= Total(b)
    ensures (exists i :: 0 <= i < |a| && a[i] < b[i]) ==> Total(a) < Total(b)
  {
    if a != [] {
      SmallerTotal(a[..|a| - 1], b[..|b| - 1]);
    }
  }

  /** A pass that finds an event leaves less behind. */
  lemma PassShrinks(lanes: seq<Lane>)
    requires AnyBefore(lanes, |lanes|)
    ensures Total(Queued(VisitedTo(lanes, |lanes|))) < Total(Queued(lanes))
  {
    var a, b := Queued(VisitedTo(lanes, |lanes|)), Queued(lanes);
    var i :| 0 <= i < |lanes| && lanes[i].ring.queue != [];
    assert a[i] < b[i];
    SmallerTotal(a, b);
  }

  /** Quiet polls are a run like any other. */
  lemma {:induction false} PollNIsExec(s: Sys, n: nat)
    ensures PollN(s, n) == Exec(s, seq(n, _ => Poll(false)))
  {
    if n > 0 {
      var acts := seq(n, _ => Poll(false));
      assert acts[..n - 1] == seq(n - 1, _ => Poll(false));
      PollNIsExec(s, n - 1);
      PollNext(s, n - 1);
    }
  }

  /** Polls dispatch what the rings had accepted, ring by ring from the front. */
  lemma PollsDispatch(s: Sys, n: nat, expired: bool)
    requires Inv(s) && PollN(s, n).running
    ensures var f := PollStep(PollN(s, n), expired);
            && LogMerges(f) && SameAccepted(s, f)
            && forall i :: 0 <= i < |f.lanes| ==> Dispatched(f.log, f.sources, i) + f.lanes[i].ring.queue == s.lanes[i].accepted
  {
    PollNKeepsInv(s, n);
    PollNAccepts(s, n);
    var m, f := PollN(s, n), PollStep(PollN(s, n), expired);
    NextKeepsInv(m, Poll(expired));
    PollAccepts(m, expired);
    forall i | 0 <= i < |f.lanes| ensures Dispatched(f.log, f.sources, i) + f.lanes[i].ring.queue == s.lanes[i].accepted {
      assert LaneOk(f.lanes[i], f.running);
      assert f.lanes[i].accepted == m.lanes[i].accepted == s.lanes[i].accepted;
    }
  }

  lemma {:induction false} PollNAccepts(s: Sys, n: nat)
    requires Inv(s)
    ensures SameAccepted(s, PollN(s, n))
    decreases n
  {
    if n > 0 {
      NextKeepsInv(s, Poll(false));
      PollAccepts(s, false);
      PollNAccepts(PollStep(s, false), n - 1);
    }
  }

  /** The end of a pass that goes on to the next one, and of the last pass. */
  function NewPass(s: Sys): Sys {
    s.(cursor := 0, budget := 0, passes := s.passes + 1, gotAny := false)
  }

  function Halted(s: Sys): Sys {
    s.(cursor := 0, budget := 0, passes := s.passes + 1, running := false)
  }

  lemma PassOver(s0: Sys, n: nat, m: nat, s: Sys, expired: bool)
    requires s == PollN(PollN(s0, n), m) && s.running && s.shutdown && s.cursor == |s.lanes|
    ensures if !s.gotAny || expired then PollN(s0, n + m).running && PollStep(PollN(s0, n + m), expired) == Halted(s)
            else PollN(s0, n + m + 1) == NewPass(s)
  {
    PollNPlus(s0, n, m);
    PollNext(s0, n + m);
  }

  /** The dispatcher's loop after shutdown, with quiet receivers. */
  class Dispatcher {
    var lanes: seq<Lane>
    var counters: Counters
    var log: seq<Event>
    var sources: seq<nat>

    /** The machine's state with the loop at a given place. */
    ghost function At(cursor: nat, budget: nat, gotAny: bool, passes: nat): Sys
      reads this
    {
      Sys(lanes, cursor, budget, gotAny, passes, true, true, counters, log, sources)
    }

    /** The machine has stopped after `passes` passes with what this dispatcher holds. */
    ghost predicate Ended(f: Sys, passes: nat)
      reads this
    {
      f == At(0, 0, f.gotAny, passes).(running := false)
    }

    ghost predicate AllTaken()
      reads this
    {
      forall i :: 0 <= i < |lanes| ==> lanes[i].ring.queue == []
    }

    /** Runs the machine to its stop. `expired` answers whether the time budget is used up after
        each pass. The loop ends with empty rings or an expired budget, and from each ring it
        has dispatched, in order, what the ring no longer holds. */
    method DrainAfterShutdown(expired: nat -> bool) returns (passes: nat, ghost n: nat)
      requires Inv(At(0, 0, false, 0))
      modifies this
      ensures passes > 0 && Ended(PollStep(PollN(old(At(0, 0, false, 0)), n), expired(passes)), passes)
      ensures expired(passes) || AllTaken()
      ensures |lanes| == |old(lanes)| && |log| == |sources|
      ensures forall i :: 0 <= i < |lanes| ==>
                Dispatched(log, sources, i) + lanes[i].ring.queue == old(lanes)[i].accepted
    {
      passes, n := 0, 0;
      ghost var s0 := At(0, 0, false, 0);
      var stop := false;
      while !stop
        invariant !stop ==> At(0, 0, false, passes) == PollN(s0, n)
        invariant stop ==> passes > 0 && Ended(PollStep(PollN(s0, n), expired(passes)), passes)
        invariant stop ==> PollN(s0, n).running && (expired(passes) || AllTaken())
        decreases !stop, Total(Queued(lanes))
      {
        passes := passes + 1;
        stop, n := PassAndCheck(s0, n, passes, expired(passes));
      }
      PollsDispatch(s0, n, expired(passes));
    }

    /** One pass and the stop test after it. */
    method PassAndCheck(ghost s0: Sys, ghost k: nat, passes: nat, expired: bool) returns (stop: bool, ghost n: nat)
      requires passes > 0 && At(0, 0, false, passes - 1) == PollN(s0, k)
      modifies this
      ensures !stop ==> At(0, 0, false, passes) == PollN(s0, n) && Total(Queued(lanes)) < Total(Queued(old(lanes)))
      ensures stop ==> PollN(s0, n).running && Ended(PollStep(PollN(s0, n), expired), passes) && (expired || AllTaken())
    {
      ghost var before := lanes;
      var gotAny, m := DrainPass(passes - 1);
      PassOver(s0, k, m, At(|lanes|, 0, gotAny, passes - 1), expired);
      n := k + m;
      stop := !gotAny || expired;
      if !stop {
        n := n + 1;
        PassShrinks(before);
      } else if !gotAny {
        forall i | 0 <= i < |before| ensures lanes[i].ring.queue == [] {
          NoneBefore(before, i);
        }
      }
    }

    /** One pass: the first 1024 events of each ring, or all of them. */
    method DrainPass(ghost passes: nat) returns (gotAny: bool, ghost n: nat)
      modifies this
      ensures At(|lanes|, 0, gotAny, passes) == PollN(old(At(0, 0, false, passes)), n)
      ensures lanes == VisitedTo(old(lanes), |old(lanes)|)
      ensures gotAny <==> AnyBefore(old(lanes), |old(lanes)|)
    {
      gotAny, n := false, 0;
      ghost var s0 := At(0, 0, false, passes);
      assert lanes == VisitedTo(lanes, 0);
      for r := 0 to |lanes|
        invariant lanes == VisitedTo(old(lanes), r)
        invariant At(r, 0, gotAny, passes) == PollN(s0, n)
        invariant gotAny <==> AnyBefore(old(lanes), r)
      {
        VisitNext(old(lanes), r);
        var taken := DrainRing(r, gotAny, passes);
        PollNPlus(s0, n, taken + 1);
        n := n + taken + 1;
        if taken > 0 {
          gotAny := true;
        }
      }
    }

    /** One visit: the front of one ring, up to the budget. */
    method DrainRing(r: nat, ghost gotAny: bool, ghost passes: nat) returns (taken: nat)
      requires r < |lanes|
      modifies this
      ensures taken == Min(1024, |old(lanes)[r].ring.queue|)
      ensures lanes == old(lanes)[r := Visited(old(lanes)[r])]
      ensures At(r + 1, 0, gotAny || taken > 0, passes) == PollN(old(At(r, 0, gotAny, passes)), taken + 1)
    {
      ghost var s0, l := At(r, 0, gotAny, passes), lanes[r];
      taken := 0;
      assert TakeMany(l, 0) == l;
      while taken < DRAIN_BUDGET && lanes[r].ring.queue != []
        invariant taken <= DRAIN_BUDGET && taken <= |l.ring.queue|
        invariant lanes == old(lanes)[r := TakeMany(l, taken)]
        invariant At(r, taken, gotAny || taken > 0, passes) == PollN(s0, taken)
        decreases DRAIN_BUDGET - taken
      {
        PollNext(s0, taken);
        TakeManyNext(l, taken);
        TakeFront(r);
        taken := taken + 1;
      }
      PollNext(s0, taken);
    }

    method TakeFront(r: nat)
      requires r < |lanes| && lanes[r].ring.queue != []
      modifies this
      ensures lanes == old(lanes)[r := TakeFrom(old(lanes)[r])]
      ensures counters == CountEvent(old(counters), old(lanes)[r].ring.queue[0])
      ensures log == old(log) + [old(lanes)[r].ring.queue[0]] && sources == old(sources) + [r]
    {
      var e := lanes[r].ring.queue[0];
      lanes := lanes[r := TakeFrom(lanes[r])];
      counters := CountEvent(counters, e);
      log, sources := log + [e], sources + [r];
    }
  }
}
