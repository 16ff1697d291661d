/** The eviction cadence and the interleaving do not change what a healthy run reports. A
    trace is in-window when each arrival's slot is no further behind the highest slot seen
    so far than the window allows. */
module MatcherWindow {
  import opened Types
  import opened PairMatching
  import opened MatcherLaws
  import opened Sequences

  // ----- the window, as a property of the trace alone -----

  function HighWater<K>(t: seq<Obs<K>>): nat {
    if t == [] then 0 else Max(HighWater(t[..|t| - 1]), t[|t| - 1].slot)
  }

  predicate InWindow<K>(window: U64, t: seq<Obs<K>>, i: nat)
    requires i < |t|
  {
    t[i].slot + window >= HighWater(t[..i + 1])
  }

  predicate AllInWindow<K>(window: U64, t: seq<Obs<K>>) {
    forall i :: 0 <= i < |t| ==> InWindow(window, t, i)
  }

  /** The slot is part of every stream's key, so it is a function of the key. */
  ghost predicate SlotOfKey<K>(t: seq<Obs<K>>, slotOf: K -> U64) {
    forall i :: 0 <= i < |t| ==> t[i].slot == slotOf(t[i].key)
  }

  lemma AllInWindowPrefix<K>(window: U64, t: seq<Obs<K>>, n: nat)
    requires n <= |t| && AllInWindow(window, t)
    ensures AllInWindow(window, t[..n])
  {
    forall i | 0 <= i < n ensures InWindow(window, t[..n], i) {
      assert t[..n][..i + 1] == t[..i + 1];
      assert InWindow(window, t, i);
    }
  }

  lemma {:induction false} HighWaterTracked<K>(every: nat, window: U64, t: seq<Obs<K>>)
    ensures var m := Run(every, Fresh(window), t);
            m.highWater == HighWater(t) && m.window == window
  {
    if t != [] {
      HighWaterTracked(every, window, t[..|t| - 1]);
    }
  }

  /** The cutoff in force when the last event of a trace arrives. */
  lemma ArrivalCutoff<K>(every: nat, window: U64, t: seq<Obs<K>>, i: nat)
    requires i < |t|
    ensures var a := Arrive(every, Run(every, Fresh(window), t[..i]), t[i].slot);
            t[i].slot >= Cutoff(a) <==> InWindow(window, t, i)
  {
    HighWaterTracked(every, window, t[..i]);
    assert t[..i + 1][..i] == t[..i];
  }

  // ----- how stale the pending maps get, by position -----

  lemma StepCounts<K>(every: nat, m: Matcher<K>, o: Obs<K>)
    ensures Step(every, m, o).obsCount == if m.obsCount == 0xFFFF_FFFF_FFFF_FFFF then 0 else m.obsCount + 1
    ensures Step(every, m, o).obsCount % 256 == (m.obsCount + 1) % 256
  {
    CadenceSurvivesWrap(m.obsCount);
  }

  lemma {:induction false} ObserveCounts<K>(every: nat, window: U64, t: seq<Obs<K>>)
    ensures Run(every, Fresh(window), t).obsCount % 256 == |t| % 256
  {
    if t != [] {
      var n := |t| - 1;
      ObserveCounts(every, window, t[..n]);
      StepCounts(every, Run(every, Fresh(window), t[..n]), t[n]);
      AddModulo(Run(every, Fresh(window), t[..n]).obsCount, n);
    }
  }

  lemma AddModulo(a: nat, b: nat)
    requires a % 256 == b % 256
    ensures (a + 1) % 256 == (b + 1) % 256
  {
  }

  /** The arrivals up to the last pass: every 256th one runs it. */
  function PassedTo<K>(t: seq<Obs<K>>): seq<Obs<K>> {
    t[..|t| - |t| % 256]
  }

  lemma PassDue<K>(m: Matcher<K>, slot: U64)
    ensures var a := Arrive(EVICT_EVERY, m, slot);
            && (Due(EVICT_EVERY, a.obsCount) <==> m.obsCount % 256 == 255)
            && Cutoff(a) == SaturatingSub(Max(m.highWater, slot), m.window)
  {
    CadenceSurvivesWrap(m.obsCount);
  }

  lemma LastCutoffNext<K>(window: U64, t: seq<Obs<K>>)
    requires t != []
    ensures LastCutoff(window, t) == if |t| % 256 == 0 then SaturatingSub(HighWater(t), window) else LastCutoff(window, t[..|t| - 1])
  {
    var n := |t| - 1;
    var m := Run(EVICT_EVERY, Fresh(window), t[..n]);
    ObserveCounts(EVICT_EVERY, window, t[..n]);
    HighWaterTracked(EVICT_EVERY, window, t[..n]);
    PassDue(m, t[n].slot);
    LengthModulo(n);
  }

  lemma LengthModulo(n: nat)
    ensures n % 256 == 255 <==> (n + 1) % 256 == 0
  {
  }

  lemma PassedToNext<K>(t: seq<Obs<K>>)
    requires t != []
    ensures PassedTo(t) == if |t| % 256 == 0 then t else PassedTo(t[..|t| - 1])
  {
  }

  lemma {:induction false} LastCutoffByPosition<K>(window: U64, t: seq<Obs<K>>)
    ensures LastCutoff(window, t) == SaturatingSub(HighWater(PassedTo(t)), window)
  {
    if t != [] {
      LastCutoffByPosition(window, t[..|t| - 1]);
      LastCutoffNext(window, t);
      PassedToNext(t);
    }
  }

  /** Read off the trace alone: of the pending entries at most 256 are behind the window of the
      last multiple of 256 arrivals. */
  lemma StaleByPosition<K>(window: U64, t: seq<Obs<K>>)
    ensures StaleCount(Run(256, Fresh(window), t), SaturatingSub(HighWater(PassedTo(t)), window)) <= |t| % 256 + 1 <= 256
  {
    BoundedStaleness(window, t);
    ObserveCounts(EVICT_EVERY, window, t);
    LastCutoffByPosition(window, t);
  }

  // ----- two matchers that differ only in cadence -----

  ghost predicate PendingSlots<K>(m: Matcher<K>, slotOf: K -> U64) {
    && (forall k :: k in m.pending1 ==> m.pending1[k].slot == slotOf(k))
    && (forall k :: k in m.pending2 ==> m.pending2[k].slot == slotOf(k))
  }

  /** Same high water, and the same pending entries once those below the cutoff are dropped. */
  ghost predicate AgreeAbove<K>(m: Matcher<K>, n: Matcher<K>, cutoff: nat) {
    && Retain(m.pending1, cutoff) == Retain(n.pending1, cutoff)
    && Retain(m.pending2, cutoff) == Retain(n.pending2, cutoff)
  }

  ghost predicate Agree<K>(m: Matcher<K>, n: Matcher<K>, slotOf: K -> U64) {
    && (m.window, m.highWater) == (n.window, n.highWater)
    && AgreeAbove(m, n, Cutoff(m))
    && PendingSlots(m, slotOf) && PendingSlots(n, slotOf)
  }

  lemma RetainTwice<K>(pending: map<K, Pending>, low: nat, high: nat)
    requires low <= high
    ensures Retain(Retain(pending, low), high) == Retain(pending, high)
  {
  }

  lemma AgreeAboveHigher<K>(m: Matcher<K>, n: Matcher<K>, low: nat, high: nat)
    requires low <= high && AgreeAbove(m, n, low)
    ensures AgreeAbove(m, n, high)
  {
    RetainTwice(m.pending1, low, high);
    RetainTwice(m.pending2, low, high);
    RetainTwice(n.pending1, low, high);
    RetainTwice(n.pending2, low, high);
  }

  lemma ArriveKeeps<K>(every: nat, m: Matcher<K>, slot: U64, slotOf: K -> U64)
    requires PendingSlots(m, slotOf)
    ensures var a := Arrive(every, m, slot);
            && PendingSlots(a, slotOf)
            && Retain(a.pending1, Cutoff(a)) == Retain(m.pending1, Cutoff(a))
            && Retain(a.pending2, Cutoff(a)) == Retain(m.pending2, Cutoff(a))
            && (a.window, a.highWater) == (m.window, Max(m.highWater, slot))
  {
  }

  lemma ArriveAgree<K>(e1: nat, e2: nat, m: Matcher<K>, n: Matcher<K>, slot: U64, slotOf: K -> U64)
    requires Agree(m, n, slotOf)
    ensures Agree(Arrive(e1, m, slot), Arrive(e2, n, slot), slotOf)
  {
    ArriveKeeps(e1, m, slot, slotOf);
    ArriveKeeps(e2, n, slot, slotOf);
    AgreeAboveHigher(m, n, Cutoff(m), Cutoff(Arrive(e1, m, slot)));
  }

  lemma RetainWithout<K>(p: map<K, Pending>, cutoff: nat, key: K)
    ensures Retain(p - {key}, cutoff) == Retain(p, cutoff) - {key}
  {
  }

  lemma RetainInsert<K>(p: map<K, Pending>, cutoff: nat, key: K, v: Pending)
    ensures Retain(p[key := v], cutoff)
            == if v.slot >= cutoff then Retain(p, cutoff)[key := v] else Retain(p, cutoff) - {key}
  {
  }

  /** What a rendezvous leaves above a cutoff is determined by what was above it before. */
  lemma RendezvousAbove<K>(m: Matcher<K>, o: Obs<K>, cutoff: nat, slotOf: K -> U64)
    requires PendingSlots(m, slotOf) && o.slot == slotOf(o.key)
    ensures var m' := Rendezvous(m, o);
            var own, waiting := Retain(OwnPending(m, o.ep), cutoff), Retain(OwnPending(m, o.ep.Other()), cutoff);
            var own', waiting' := Retain(OwnPending(m', o.ep), cutoff), Retain(OwnPending(m', o.ep.Other()), cutoff);
            && (o.slot < cutoff ==> own' == own && waiting' == waiting)
            && (o.slot >= cutoff && o.key in waiting ==> own' == own && waiting' == waiting - {o.key})
            && (o.slot >= cutoff && o.key !in waiting ==> own' == own[o.key := Pending(o.ts, o.slot)] && waiting' == waiting)
  {
    var m' := Rendezvous(m, o);
    var own, waiting := OwnPending(m, o.ep), OwnPending(m, o.ep.Other());
    var kept := Retain(waiting, cutoff);
    if o.key in waiting {
      assert OwnPending(m', o.ep) == own && OwnPending(m', o.ep.Other()) == waiting - {o.key};
      RetainWithout(waiting, cutoff, o.key);
      assert o.key in kept <==> o.slot >= cutoff;
    } else {
      assert OwnPending(m', o.ep) == own[o.key := Pending(o.ts, o.slot)] && OwnPending(m', o.ep.Other()) == waiting;
      RetainInsert(own, cutoff, o.key, Pending(o.ts, o.slot));
      assert o.key in own ==> own[o.key].slot == o.slot;
    }
  }

  lemma RendezvousAgree<K>(m: Matcher<K>, n: Matcher<K>, o: Obs<K>, slotOf: K -> U64)
    requires Agree(m, n, slotOf) && o.slot == slotOf(o.key)
    ensures Agree(Rendezvous(m, o), Rendezvous(n, o), slotOf)
    ensures o.slot >= Cutoff(m) ==> Meets(m, o) == Meets(n, o)
    ensures o.slot >= Cutoff(m) ==> (o.key in OwnPending(m, o.ep) <==> o.key in OwnPending(n, o.ep))
  {
    var c := Cutoff(m);
    RendezvousAbove(m, o, c, slotOf);
    RendezvousAbove(n, o, c, slotOf);
    if o.slot >= c {
      SameLookup(OwnPending(m, o.ep), OwnPending(n, o.ep), c, o.key, slotOf);
      SameLookup(OwnPending(m, o.ep.Other()), OwnPending(n, o.ep.Other()), c, o.key, slotOf);
    }
    RendezvousKeepsSlots(m, o, slotOf);
    RendezvousKeepsSlots(n, o, slotOf);
  }

  lemma SameLookup<K>(p: map<K, Pending>, q: map<K, Pending>, cutoff: nat, key: K, slotOf: K -> U64)
    requires key in p ==> p[key].slot == slotOf(key)
    requires key in q ==> q[key].slot == slotOf(key)
    requires Retain(p, cutoff) == Retain(q, cutoff) && slotOf(key) >= cutoff
    ensures key in p <==> key in q
    ensures key in p ==> p[key] == q[key]
  {
    assert key in Retain(p, cutoff) <==> key in Retain(q, cutoff);
  }

  lemma RendezvousKeepsSlots<K>(m: Matcher<K>, o: Obs<K>, slotOf: K -> U64)
    requires PendingSlots(m, slotOf) && o.slot == slotOf(o.key)
    ensures PendingSlots(Rendezvous(m, o), slotOf)
    ensures (Rendezvous(m, o).window, Rendezvous(m, o).highWater) == (m.window, m.highWater)
  {
  }

  /** The step: whatever the two cadences, agreement is kept, and an in-window arrival gets
      the same answer and does the same overwriting. */
  lemma StepAgree<K>(e1: nat, e2: nat, m: Matcher<K>, n: Matcher<K>, o: Obs<K>, slotOf: K -> U64)
    requires Agree(m, n, slotOf) && o.slot == slotOf(o.key)
    ensures Agree(Step(e1, m, o), Step(e2, n, o), slotOf)
    ensures o.slot >= Cutoff(Arrive(e1, m, o.slot)) ==>
              && StepResult(e1, m, o) == StepResult(e2, n, o)
              && Overwrites(e1, m, o) == Overwrites(e2, n, o)
  {
    ArriveAgree(e1, e2, m, n, o.slot, slotOf);
    RendezvousAgree(Arrive(e1, m, o.slot), Arrive(e2, n, o.slot), o, slotOf);
  }

  lemma {:induction false} RunsAgree<K>(e1: nat, e2: nat, window: U64, t: seq<Obs<K>>, slotOf: K -> U64)
    requires SlotOfKey(t, slotOf)
    ensures Agree(Run(e1, Fresh(window), t), Run(e2, Fresh(window), t), slotOf)
  {
    if t != [] {
      var n := |t| - 1;
      RunsAgree(e1, e2, window, t[..n], slotOf);
      StepAgree(e1, e2, Run(e1, Fresh(window), t[..n]), Run(e2, Fresh(window), t[..n]), t[n], slotOf);
    }
  }

  // ----- lazy against eager -----

  /** The eager matcher evicts before it looks, so a late arrival meets nothing. */
  lemma EagerIgnoresLate<K>(m: Matcher<K>, o: Obs<K>, slotOf: K -> U64)
    requires PendingSlots(m, slotOf) && o.slot == slotOf(o.key)
    requires o.slot < Cutoff(Arrive(1, m, o.slot))
    ensures StepResult(1, m, o) == None
  {
    var obs := (m.obsCount + 1) % U64_SIZE;
    assert obs % 1 == 0;
    assert Due(1, obs);
  }

  /** Position by position, on every trace: the eager matcher answers what any other cadence
      answers when the arrival is in-window, and nothing otherwise. */
  lemma EagerPointwise<K>(every: nat, window: U64, t: seq<Obs<K>>, slotOf: K -> U64, i: nat)
    requires SlotOfKey(t, slotOf) && i < |t|
    ensures ResultAt(1, Fresh(window), t, i)
            == if InWindow(window, t, i) then ResultAt(every, Fresh(window), t, i) else None
  {
    var eager, other := Run(1, Fresh(window), t[..i]), Run(every, Fresh(window), t[..i]);
    RunsAgree(1, every, window, t[..i], slotOf);
    ArrivalCutoff(1, window, t, i);
    if InWindow(window, t, i) {
      StepAgree(1, every, eager, other, t[i], slotOf);
    } else {
      EagerIgnoresLate(eager, t[i], slotOf);
    }
  }

  /** On every trace, the eager matches are a subsequence of those of any lazier cadence. */
  lemma {:induction false} EagerSubsequence<K(!new)>(every: nat, window: U64, t: seq<Obs<K>>, slotOf: K -> U64)
    requires SlotOfKey(t, slotOf)
    ensures Subsequence(Log(1, Fresh(window), t), Log(every, Fresh(window), t))
  {
    if t != [] {
      var n := |t| - 1;
      EagerSubsequence(every, window, t[..n], slotOf);
      EagerPointwise(every, window, t, slotOf, n);
      var eager, other := Log(1, Fresh(window), t[..n]), Log(every, Fresh(window), t[..n]);
      match ResultAt(every, Fresh(window), t, n)
      case None =>
      case Some(r) =>
        var x := Match(t[n].key, r);
        assert (other + [x])[..|other|] == other && (eager + [x])[..|eager|] == eager;
    }
  }

  lemma {:induction false} LogsAgree<K>(e1: nat, e2: nat, window: U64, t: seq<Obs<K>>, slotOf: K -> U64)
    requires SlotOfKey(t, slotOf) && AllInWindow(window, t)
    ensures Log(e1, Fresh(window), t) == Log(e2, Fresh(window), t)
    ensures forall ep :: Overwritten(e1, Fresh(window), t, ep) == Overwritten(e2, Fresh(window), t, ep)
  {
    if t != [] {
      var n := |t| - 1;
      AllInWindowPrefix(window, t, n);
      LogsAgree(e1, e2, window, t[..n], slotOf);
      RunsAgree(e1, e2, window, t[..n], slotOf);
      ArrivalCutoff(e1, window, t, n);
      assert InWindow(window, t, n);
      StepAgree(e1, e2, Run(e1, Fresh(window), t[..n]), Run(e2, Fresh(window), t[..n]), t[n], slotOf);
    }
  }

  lemma EvictedAgree<K>(e1: nat, e2: nat, window: U64, t: seq<Obs<K>>, slotOf: K -> U64, ep: EndpointRole)
    requires SlotOfKey(t, slotOf) && AllInWindow(window, t)
    ensures var m, n := Run(e1, Fresh(window), t), Run(e2, Fresh(window), t);
            EvictedOn(m.counts, ep) + |OwnPending(m, ep)| == EvictedOn(n.counts, ep) + |OwnPending(n, ep)|
  {
    LogsAgree(e1, e2, window, t, slotOf);
    SampleAccounting(e1, window, t);
    SampleAccounting(e2, window, t);
    Conservation(e1, window, t, ep);
    Conservation(e2, window, t, ep);
  }

  lemma EvictSettles<K>(m: Matcher<K>, n: Matcher<K>, slotOf: K -> U64)
    requires Agree(m, n, slotOf)
    requires (m.counts.matched, m.counts.ep1Faster, m.counts.ep2Faster) == (n.counts.matched, n.counts.ep1Faster, n.counts.ep2Faster)
    requires m.counts.ep1Evicted + |m.pending1| == n.counts.ep1Evicted + |n.pending1|
    requires m.counts.ep2Evicted + |m.pending2| == n.counts.ep2Evicted + |n.pending2|
    ensures Evict(m).pending1 == Evict(n).pending1 && Evict(m).pending2 == Evict(n).pending2
    ensures Evict(m).counts == Evict(n).counts
  {
  }

  /** On in-window traces the cadence is invisible: the same matches in the same order, and
      after the final eviction the same pending maps and all five counters. */
  lemma CadenceInvisible<K>(e1: nat, e2: nat, window: U64, t: seq<Obs<K>>, slotOf: K -> U64)
    requires SlotOfKey(t, slotOf) && AllInWindow(window, t)
    ensures Log(e1, Fresh(window), t) == Log(e2, Fresh(window), t)
    ensures var m, n := Evict(Run(e1, Fresh(window), t)), Evict(Run(e2, Fresh(window), t));
            m.pending1 == n.pending1 && m.pending2 == n.pending2 && m.counts == n.counts
  {
    LogsAgree(e1, e2, window, t, slotOf);
    RunsAgree(e1, e2, window, t, slotOf);
    SampleAccounting(e1, window, t);
    SampleAccounting(e2, window, t);
    EvictedAgree(e1, e2, window, t, slotOf, One);
    EvictedAgree(e1, e2, window, t, slotOf, Two);
    EvictSettles(Run(e1, Fresh(window), t), Run(e2, Fresh(window), t), slotOf);
  }

  function LateTrace(ts: Timestamp): seq<Obs<U64>> {
    [Obs(One, 0, ts, 0), Obs(One, 100, ts, 100), Obs(Two, 0, ts, 0)]
  }

  /** Out of the window the cadences do differ: the lazy matcher still pairs a late arrival
      that the eager one has already given up on. */
  lemma EagerLosesLateMatch(ts: Timestamp)
    ensures var t := LateTrace(ts);
            && ResultAt(EVICT_EVERY, Fresh(64), t, 2) == Some(MatchResult(0, ts, ts))
            && ResultAt(1, Fresh(64), t, 2) == None
  {
    LazyPairsLate(ts);
    LateIsLate(ts);
    EagerPointwise(EVICT_EVERY, 64, LateTrace(ts), k => k, 2);
  }

  lemma LateIsLate(ts: Timestamp)
    ensures !InWindow(64, LateTrace(ts), 2)
  {
    var t := LateTrace(ts);
    assert t[..3][..2] == [t[0], t[1]] && [t[0], t[1]][..1] == [t[0]];
    assert HighWater([t[0]]) == 0 && HighWater([t[0], t[1]]) == 100;
  }

  lemma LazyPairsLate(ts: Timestamp)
    ensures ResultAt(EVICT_EVERY, Fresh(64), LateTrace(ts), 2) == Some(MatchResult(0, ts, ts))
  {
    var t := LateTrace(ts);
    LazyKeepsBoth(ts);
    assert t[..2] == [t[0], t[1]];
    LateMeets(Run(EVICT_EVERY, Fresh(64), t[..2]), ts);
  }

  lemma LateMeets(m: Matcher<U64>, ts: Timestamp)
    requires m.pending1 == map[0 := Pending(ts, 0), 100 := Pending(ts, 100)] && m.obsCount == 2
    ensures StepResult(EVICT_EVERY, m, Obs(Two, 0, ts, 0)) == Some(MatchResult(0, ts, ts))
  {
    assert !Due(EVICT_EVERY, 3);
    assert Arrive(EVICT_EVERY, m, 0).pending1 == m.pending1;
  }

  lemma FirstWaits(m: Matcher<U64>, slot: U64, ts: Timestamp)
    requires m.pending2 == map[] && m.obsCount < 100
    ensures var m' := Step(EVICT_EVERY, m, Obs(One, slot, ts, slot));
            m'.pending1 == m.pending1[slot := Pending(ts, slot)] && m'.pending2 == map[] && m'.obsCount == m.obsCount + 1
  {
    assert !Due(EVICT_EVERY, m.obsCount + 1);
    var a := Arrive(EVICT_EVERY, m, slot);
    assert a.pending1 == m.pending1 && a.pending2 == map[];
    assert Meets(a, Obs(One, slot, ts, slot)) == None;
  }

  lemma LazyKeepsBoth(ts: Timestamp)
    ensures var t := LateTrace(ts);
            var m := Run(EVICT_EVERY, Fresh(64), [t[0], t[1]]);
            m.pending1 == map[0 := Pending(ts, 0), 100 := Pending(ts, 100)] && m.obsCount == 2
  {
    var t := LateTrace(ts);
    RunSnoc(EVICT_EVERY, Fresh(64), [], t[0]);
    RunSnoc(EVICT_EVERY, Fresh(64), [t[0]], t[1]);
    assert [t[0]] == [] + [t[0]] && [t[0], t[1]] == [t[0]] + [t[1]];
    FirstWaits(Fresh(64), 0, ts);
    FirstWaits(Run(EVICT_EVERY, Fresh(64), [t[0]]), 100, ts);
  }
}
