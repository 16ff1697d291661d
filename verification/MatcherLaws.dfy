/** Laws of every run of a matcher, whatever the trace: where each observation went, what
    the digest holds, how stale the pending maps can get, and what exchanging the two
    endpoints does. */
module MatcherLaws {
  import opened Types
  import opened Digests
  import opened PairMatching

  // ----- sample accounting -----

  function Deltas<K>(log: seq<Match<K>>): (d: seq<int>)
    ensures |d| == |log|
  {
    if log == [] then [] else Deltas(log[..|log| - 1]) + [log[|log| - 1].result.deltaNs]
  }

  function Positives(d: seq<int>): nat {
    if d == [] then 0 else Positives(d[..|d| - 1]) + (if d[|d| - 1] > 0 then 1 else 0)
  }

  function Negatives(d: seq<int>): nat {
    if d == [] then 0 else Negatives(d[..|d| - 1]) + (if d[|d| - 1] < 0 then 1 else 0)
  }

  /** The matcher's samples and directional counters account for exactly the deltas `d`. */
  ghost predicate Accounts<K>(m: Matcher<K>, d: seq<int>) {
    && m.digest.All() == multiset(d)
    && |m.digest.buffer| < 1024
    && m.counts.matched == |d|
    && m.counts.ep1Faster == Positives(d)
    && m.counts.ep2Faster == Negatives(d)
  }

  lemma StepAccounts<K>(every: nat, m: Matcher<K>, o: Obs<K>, d: seq<int>)
    requires Accounts(m, d)
    ensures match StepResult(every, m, o)
            case None => Accounts(Step(every, m, o), d)
            case Some(r) => Accounts(Step(every, m, o), d + [r.deltaNs])
  {
    var a := Arrive(every, m, o.slot);
    assert Accounts(a, d);
    match Meets(a, o)
    case None =>
    case Some(r) =>
      var d' := d + [r.deltaNs];
      assert d'[..|d|] == d;
      assert multiset(d') == multiset(d) + multiset{r.deltaNs};
      PushAddsSample(a.digest, r.deltaNs);
  }

  /** Merged plus buffered samples are exactly the deltas of the matches made, fewer than a
      full buffer is ever left unmerged, and the counters are the signs of those deltas. */
  lemma {:induction false} SampleAccounting<K>(every: nat, window: U64, t: seq<Obs<K>>)
    ensures Accounts(Run(every, Fresh(window), t), Deltas(Log(every, Fresh(window), t)))
  {
    if t != [] {
      var n := |t| - 1;
      SampleAccounting(every, window, t[..n]);
      var log := Log(every, Fresh(window), t[..n]);
      StepAccounts(every, Run(every, Fresh(window), t[..n]), t[n], Deltas(log));
      match ResultAt(every, Fresh(window), t, n)
      case None =>
      case Some(r) => assert (log + [Match(t[n].key, r)])[..|log|] == log;
    }
  }

  // ----- one partner each -----

  /** How often an endpoint reported a key. */
  function TimesReported<K(==)>(t: seq<Obs<K>>, ep: EndpointRole, k: K): nat {
    if t == [] then 0 else TimesReported(t[..|t| - 1], ep, k) + (if t[|t| - 1].ep == ep && t[|t| - 1].key == k then 1 else 0)
  }

  function MatchesOf<K(==)>(log: seq<Match<K>>, k: K): nat {
    if log == [] then 0 else MatchesOf(log[..|log| - 1], k) + (if log[|log| - 1].key == k then 1 else 0)
  }

  /** An arrival is used once: either it waits, or it is in one match. */
  lemma {:induction false} OnePartner<K>(every: nat, window: U64, t: seq<Obs<K>>, ep: EndpointRole, k: K)
    ensures MatchesOf(Log(every, Fresh(window), t), k)
            + (if k in OwnPending(Run(every, Fresh(window), t), ep) then 1 else 0) <= TimesReported(t, ep, k)
  {
    if t != [] {
      var n := |t| - 1;
      OnePartner(every, window, t[..n], ep, k);
      OnePartnerStep(every, Run(every, Fresh(window), t[..n]), t[n], ep, k);
      var log := Log(every, Fresh(window), t[..n]);
      match ResultAt(every, Fresh(window), t, n)
      case None =>
      case Some(r) => assert (log + [Match(t[n].key, r)])[..|log|] == log;
    }
  }

  lemma OnePartnerStep<K>(every: nat, m: Matcher<K>, o: Obs<K>, ep: EndpointRole, k: K)
    ensures (if StepResult(every, m, o).Some? && o.key == k then 1 else 0)
            + (if k in OwnPending(Step(every, m, o), ep) then 1 else 0)
            <= (if k in OwnPending(m, ep) then 1 else 0) + (if o.ep == ep && o.key == k then 1 else 0)
  {
    assert ep == o.ep || ep == o.ep.Other();
  }

  // ----- conservation -----

  function EvictedOn(c: Counts, ep: EndpointRole): nat {
    if ep == One then c.ep1Evicted else c.ep2Evicted
  }

  /** Observations an endpoint contributed to a trace. */
  function Observed<K>(t: seq<Obs<K>>, ep: EndpointRole): nat {
    if t == [] then 0 else Observed(t[..|t| - 1], ep) + (if t[|t| - 1].ep == ep then 1 else 0)
  }

  /** An arrival that finds its own key already waiting on its own side replaces it. */
  predicate Overwrites<K>(every: nat, m: Matcher<K>, o: Obs<K>) {
    StepResult(every, m, o) == None && o.key in OwnPending(Arrive(every, m, o.slot), o.ep)
  }

  function Overwritten<K>(every: nat, m: Matcher<K>, t: seq<Obs<K>>, ep: EndpointRole): nat
    decreases |t|
  {
    if t == [] then 0
    else
      var n := |t| - 1;
      Overwritten(every, m, t[..n], ep)
      + (if t[n].ep == ep && Overwrites(every, Run(every, m, t[..n]), t[n]) then 1 else 0)
  }

  /** What an endpoint's observations have become, apart from the overwritten ones. */
  function Settled<K>(m: Matcher<K>, ep: EndpointRole): nat {
    m.counts.matched + |OwnPending(m, ep)| + EvictedOn(m.counts, ep)
  }

  predicate DisjointPending<K>(m: Matcher<K>) {
    m.pending1.Keys !! m.pending2.Keys
  }

  lemma ArriveSettles<K>(every: nat, m: Matcher<K>, slot: U64, ep: EndpointRole)
    requires DisjointPending(m)
    ensures DisjointPending(Arrive(every, m, slot))
    ensures Settled(Arrive(every, m, slot), ep) == Settled(m, ep)
  {
  }

  lemma MeetSettles<K>(m: Matcher<K>, o: Obs<K>)
    requires DisjointPending(m) && o.key in OwnPending(m, o.ep.Other())
    ensures var m' := Rendezvous(m, o);
            && DisjointPending(m')
            && Settled(m', o.ep) == Settled(m, o.ep) + 1
            && Settled(m', o.ep.Other()) == Settled(m, o.ep.Other())
  {
    var waiting := OwnPending(m, o.ep.Other());
    assert (waiting - {o.key}).Keys == waiting.Keys - {o.key};
    assert Meets(m, o).Some?;
  }

  lemma WaitSettles<K>(m: Matcher<K>, o: Obs<K>)
    requires DisjointPending(m) && o.key !in OwnPending(m, o.ep.Other())
    ensures var m' := Rendezvous(m, o);
            && DisjointPending(m')
            && Settled(m', o.ep) == Settled(m, o.ep) + (if o.key in OwnPending(m, o.ep) then 0 else 1)
            && Settled(m', o.ep.Other()) == Settled(m, o.ep.Other())
  {
    var own := OwnPending(m, o.ep);
    assert own[o.key := Pending(o.ts, o.slot)].Keys == own.Keys + {o.key};
    assert Meets(m, o) == None;
  }

  lemma RendezvousSettles<K>(m: Matcher<K>, o: Obs<K>, ep: EndpointRole)
    requires DisjointPending(m)
    ensures DisjointPending(Rendezvous(m, o))
    ensures Settled(Rendezvous(m, o), ep) - Settled(m, ep)
            == if o.ep == ep && !(Meets(m, o) == None && o.key in OwnPending(m, o.ep)) then 1 else 0
  {
    assert ep == o.ep || ep == o.ep.Other();
    if o.key in OwnPending(m, o.ep.Other()) {
      MeetSettles(m, o);
    } else {
      WaitSettles(m, o);
    }
  }

  /** Every observation of an endpoint is matched, still pending, evicted, or was replaced by
      a later one with the same key; and no key ever waits on both sides. */
  lemma {:induction false} Conservation<K>(every: nat, window: U64, t: seq<Obs<K>>, ep: EndpointRole)
    ensures var m := Run(every, Fresh(window), t);
            && DisjointPending(m)
            && Observed(t, ep) == m.counts.matched + |OwnPending(m, ep)| + EvictedOn(m.counts, ep)
                                  + Overwritten(every, Fresh(window), t, ep)
  {
    if t != [] {
      var n := |t| - 1;
      Conservation(every, window, t[..n], ep);
      var m := Run(every, Fresh(window), t[..n]);
      ArriveSettles(every, m, t[n].slot, ep);
      RendezvousSettles(Arrive(every, m, t[n].slot), t[n], ep);
    }
  }

  // ----- bounded staleness -----

  function Below<K>(pending: map<K, Pending>, cutoff: nat): set<K> {
    set k | k in pending && pending[k].slot < cutoff
  }

  function StaleCount<K>(m: Matcher<K>, cutoff: nat): nat {
    |Below(m.pending1, cutoff)| + |Below(m.pending2, cutoff)|
  }

  /** Cutoff of the most recent eviction pass, 0 before the first. */
  ghost function LastCutoff<K>(window: U64, t: seq<Obs<K>>): nat {
    if t == [] then 0
    else
      var n := |t| - 1;
      var arrived := Arrive(EVICT_EVERY, Run(EVICT_EVERY, Fresh(window), t[..n]), t[n].slot);
      if Due(EVICT_EVERY, arrived.obsCount) then Cutoff(arrived) else LastCutoff(window, t[..n])
  }

  /** The cadence is unaffected by the counter's wrap at 2^64, because 256 divides it. */
  lemma CadenceSurvivesWrap(obs: U64)
    ensures var next: U64 := (obs + 1) % U64_SIZE;
            && next % 256 == (obs + 1) % 256
            && (Due(EVICT_EVERY, next) <==> obs % 256 == 255)
            && (!Due(EVICT_EVERY, next) ==> next % 256 == obs % 256 + 1)
  {
  }

  lemma RendezvousAddsOneStale<K>(m: Matcher<K>, o: Obs<K>, cutoff: nat)
    ensures StaleCount(Rendezvous(m, o), cutoff) <= StaleCount(m, cutoff) + 1
  {
    var m' := Rendezvous(m, o);
    var own, waiting := OwnPending(m, o.ep), OwnPending(m, o.ep.Other());
    var own', waiting' := OwnPending(m', o.ep), OwnPending(m', o.ep.Other());
    CardinalitySubset(Below(waiting', cutoff), Below(waiting, cutoff));
    CardinalitySubset(Below(own', cutoff), Below(own, cutoff) + {o.key});
  }

  lemma EvictLeavesNoneStale<K>(m: Matcher<K>)
    ensures StaleCount(Evict(m), Cutoff(m)) == 0
  {
    var e := Evict(m);
    assert Below(e.pending1, Cutoff(m)) == {};
    assert Below(e.pending2, Cutoff(m)) == {};
  }

  /** The invariant's step: `last` is the cutoff of the last pass before this observe. */
  lemma StepStaleness<K>(m: Matcher<K>, o: Obs<K>, last: nat)
    requires StaleCount(m, last) <= m.obsCount % EVICT_EVERY + 1
    ensures var a := Arrive(EVICT_EVERY, m, o.slot);
            var last' := if Due(EVICT_EVERY, a.obsCount) then Cutoff(a) else last;
            StaleCount(Step(EVICT_EVERY, m, o), last') <= a.obsCount % EVICT_EVERY + 1
  {
    var a := Arrive(EVICT_EVERY, m, o.slot);
    CadenceSurvivesWrap(m.obsCount);
    if Due(EVICT_EVERY, a.obsCount) {
      EvictLeavesNoneStale(m.(highWater := Max(m.highWater, o.slot), obsCount := a.obsCount));
      RendezvousAddsOneStale(a, o, Cutoff(a));
    } else {
      RendezvousAddsOneStale(a, o, last);
    }
  }

  /** After every observe at most 256 pending entries lie below the cutoff of the last
      eviction pass: one for each observe since that pass, itself included. */
  lemma {:induction false} BoundedStaleness<K>(window: U64, t: seq<Obs<K>>)
    ensures var m := Run(EVICT_EVERY, Fresh(window), t);
            StaleCount(m, LastCutoff(window, t)) <= m.obsCount % 256 + 1 <= 256
  {
    if t != [] {
      var n := |t| - 1;
      BoundedStaleness(window, t[..n]);
      StepStaleness(Run(EVICT_EVERY, Fresh(window), t[..n]), t[n], LastCutoff(window, t[..n]));
    }
  }

  // ----- endpoint-swap duality -----

  function SwapObs<K>(o: Obs<K>): Obs<K> {
    o.(ep := o.ep.Other())
  }

  function SwapTrace<K>(t: seq<Obs<K>>): (r: seq<Obs<K>>)
    ensures |r| == |t|
  {
    seq(|t|, i requires 0 <= i < |t| => SwapObs(t[i]))
  }

  function SwapCounts(c: Counts): Counts {
    Counts(c.matched, c.ep2Faster, c.ep1Faster, c.ep2Evicted, c.ep1Evicted)
  }

  function SwapResult(r: Option<MatchResult>): Option<MatchResult> {
    match r
    case None => None
    case Some(m) => Some(MatchResult(-m.deltaNs, m.ep2Ts, m.ep1Ts))
  }

  ghost predicate Negated(a: multiset<int>, b: multiset<int>) {
    forall x :: a[x] == b[-x]
  }

  ghost predicate NegatedSeq(a: seq<int>, b: seq<int>) {
    |a| == |b| && forall i :: 0 <= i < |a| ==> a[i] == -b[i]
  }

  lemma MultisetSnoc(s: seq<int>, v: int, x: int)
    ensures multiset(s + [v])[x] == multiset(s)[x] + (if v == x then 1 else 0)
  {
  }

  lemma {:induction false} NegatedAt(a: seq<int>, b: seq<int>, x: int)
    requires NegatedSeq(a, b)
    ensures multiset(a)[x] == multiset(b)[-x]
  {
    if a != [] {
      var n := |a| - 1;
      NegatedAt(a[..n], b[..n], x);
      assert a == a[..n] + [a[n]] && b == b[..n] + [b[n]];
      MultisetSnoc(a[..n], a[n], x);
      MultisetSnoc(b[..n], b[n], -x);
    }
  }

  lemma NegatedSeqMultiset(a: seq<int>, b: seq<int>)
    requires NegatedSeq(a, b)
    ensures Negated(multiset(a), multiset(b))
  {
    forall x { NegatedAt(a, b, x); }
  }

  /** Everything of the matcher but the merged samples, with the endpoints exchanged. */
  ghost predicate Dual<K>(a: Matcher<K>, b: Matcher<K>) {
    && a.pending1 == b.pending2
    && a.pending2 == b.pending1
    && a.counts == SwapCounts(b.counts)
    && (a.window, a.highWater, a.obsCount) == (b.window, b.highWater, b.obsCount)
    && NegatedSeq(a.digest.buffer, b.digest.buffer)
  }

  lemma StepDual<K>(every: nat, a: Matcher<K>, b: Matcher<K>, o: Obs<K>)
    requires Dual(a, b)
    ensures Dual(Step(every, a, SwapObs(o)), Step(every, b, o))
    ensures StepResult(every, a, SwapObs(o)) == SwapResult(StepResult(every, b, o))
  {
    var a', b' := Arrive(every, a, o.slot), Arrive(every, b, o.slot);
    assert Dual(a', b');
    RendezvousDual(a', b', o);
  }

  lemma RendezvousDual<K>(a: Matcher<K>, b: Matcher<K>, o: Obs<K>)
    requires Dual(a, b)
    ensures Dual(Rendezvous(a, SwapObs(o)), Rendezvous(b, o))
    ensures Meets(a, SwapObs(o)) == SwapResult(Meets(b, o))
  {
    assert OwnPending(a, o.ep) == OwnPending(b, o.ep.Other());
    if Meets(b, o).Some? {
      MeetDual(a, b, o);
    } else {
      WaitDual(a, b, o);
    }
  }

  lemma WaitDual<K>(a: Matcher<K>, b: Matcher<K>, o: Obs<K>)
    requires Dual(a, b) && o.key !in OwnPending(b, o.ep.Other())
    ensures Dual(Rendezvous(a, SwapObs(o)), Rendezvous(b, o))
  {
    assert Meets(a, SwapObs(o)) == None && Meets(b, o) == None;
  }

  lemma MeetDual<K>(a: Matcher<K>, b: Matcher<K>, o: Obs<K>)
    requires Dual(a, b) && o.key in OwnPending(b, o.ep.Other())
    ensures Dual(Rendezvous(a, SwapObs(o)), Rendezvous(b, o))
  {
    var waiting := OwnPending(b, o.ep.Other());
    var r := PairOf(o, waiting[o.key]);
    assert Meets(b, o) == Some(r) && Meets(a, SwapObs(o)) == SwapResult(Some(r));
  }

  lemma {:induction false} SwapRun<K>(every: nat, window: U64, t: seq<Obs<K>>)
    ensures Dual(Run(every, Fresh(window), SwapTrace(t)), Run(every, Fresh(window), t))
  {
    if t != [] {
      var n := |t| - 1;
      SwapRun(every, window, t[..n]);
      assert SwapTrace(t[..n]) == SwapTrace(t)[..n];
      StepDual(every, Run(every, Fresh(window), SwapTrace(t[..n])), Run(every, Fresh(window), t[..n]), t[n]);
    }
  }

  lemma SwapResultAt<K>(every: nat, window: U64, t: seq<Obs<K>>, i: nat)
    requires i < |t|
    ensures ResultAt(every, Fresh(window), SwapTrace(t), i) == SwapResult(ResultAt(every, Fresh(window), t, i))
  {
    SwapRun(every, window, t[..i]);
    assert SwapTrace(t[..i]) == SwapTrace(t)[..i];
    StepDual(every, Run(every, Fresh(window), SwapTrace(t[..i])), Run(every, Fresh(window), t[..i]), t[i]);
  }

  lemma {:induction false} SwapLog<K>(every: nat, window: U64, t: seq<Obs<K>>)
    ensures NegatedSeq(Deltas(Log(every, Fresh(window), SwapTrace(t))), Deltas(Log(every, Fresh(window), t)))
  {
    if t != [] {
      var n := |t| - 1;
      SwapLog(every, window, t[..n]);
      assert SwapTrace(t[..n]) == SwapTrace(t)[..n];
      SwapResultAt(every, window, t, n);
      var log, swapped := Log(every, Fresh(window), t[..n]), Log(every, Fresh(window), SwapTrace(t[..n]));
      match ResultAt(every, Fresh(window), t, n)
      case None =>
      case Some(r) =>
        assert (log + [Match(t[n].key, r)])[..|log|] == log;
        var r' := MatchResult(-r.deltaNs, r.ep2Ts, r.ep1Ts);
        assert (swapped + [Match(t[n].key, r')])[..|log|] == swapped;
    }
  }

  /** Exchanging the endpoints of every event negates every result and every sample, and
      exchanges the pending maps, the faster counts and the evicted counts. */
  lemma EndpointSwap<K>(every: nat, window: U64, t: seq<Obs<K>>)
    ensures var a, b := Run(every, Fresh(window), SwapTrace(t)), Run(every, Fresh(window), t);
            Dual(a, b) && Negated(a.digest.All(), b.digest.All())
    ensures forall i :: 0 <= i < |t| ==>
              ResultAt(every, Fresh(window), SwapTrace(t), i) == SwapResult(ResultAt(every, Fresh(window), t, i))
  {
    SwapRun(every, window, t);
    forall i | 0 <= i < |t| { SwapResultAt(every, window, t, i); }
    SwapLog(every, window, t);
    SampleAccounting(every, window, t);
    SampleAccounting(every, window, SwapTrace(t));
    NegatedSeqMultiset(Deltas(Log(every, Fresh(window), SwapTrace(t))), Deltas(Log(every, Fresh(window), t)));
  }
}
