/** Every in-window interleaving of the two endpoint streams reports the same thing: the
    join of the two streams on the key. */
module Confluence {
  import opened Types
  import opened PairMatching
  import opened MatcherLaws
  import opened MatcherWindow

  // ----- the declarative join -----

  /** When an endpoint reported each key (the last report, if there are several). */
  function Seen<K>(t: seq<Obs<K>>, ep: EndpointRole): map<K, Timestamp> {
    if t == [] then map[]
    else
      var n := |t| - 1;
      if t[n].ep == ep then Seen(t[..n], ep)[t[n].key := t[n].ts] else Seen(t[..n], ep)
  }

  ghost predicate AtMostOnce<K>(t: seq<Obs<K>>) {
    forall i, j :: 0 <= i < j < |t| && t[i].ep == t[j].ep ==> t[i].key != t[j].key
  }

  /** Each key that both endpoints reported, with the delta between the two reports. */
  function JoinOf<K>(s1: map<K, Timestamp>, s2: map<K, Timestamp>): map<K, int> {
    map k | k in s1 && k in s2 :: DeltaNs(s1[k], s2[k])
  }

  function Join<K>(t: seq<Obs<K>>): map<K, int> {
    JoinOf(Seen(t, One), Seen(t, Two))
  }

  function KeysWithDelta<K>(j: map<K, int>, d: int): set<K> {
    set k | k in j && j[k] == d
  }

  function Sign(d: int): int {
    if d > 0 then 1 else if d < 0 then -1 else 0
  }

  function KeysWithSign<K>(j: map<K, int>, s: int): set<K> {
    set k | k in j && Sign(j[k]) == s
  }

  /** `deltas` lists the join: one sample per common key, with that key's delta. */
  ghost predicate ListsJoin<K>(deltas: seq<int>, j: map<K, int>) {
    && |deltas| == |j|
    && Positives(deltas) == |KeysWithSign(j, 1)|
    && Negatives(deltas) == |KeysWithSign(j, -1)|
    && forall d :: multiset(deltas)[d] == |KeysWithDelta(j, d)|
  }

  lemma KeysWithDeltaGrows<K>(j: map<K, int>, k: K, x: int, d: int)
    requires k !in j
    ensures |KeysWithDelta(j[k := x], d)| == |KeysWithDelta(j, d)| + (if x == d then 1 else 0)
  {
    if x == d {
      assert KeysWithDelta(j[k := x], d) == KeysWithDelta(j, d) + {k};
    } else {
      assert KeysWithDelta(j[k := x], d) == KeysWithDelta(j, d);
    }
  }

  lemma KeysWithSignGrows<K>(j: map<K, int>, k: K, x: int, s: int)
    requires k !in j
    ensures |KeysWithSign(j[k := x], s)| == |KeysWithSign(j, s)| + (if Sign(x) == s then 1 else 0)
  {
    if Sign(x) == s {
      assert KeysWithSign(j[k := x], s) == KeysWithSign(j, s) + {k};
    } else {
      assert KeysWithSign(j[k := x], s) == KeysWithSign(j, s);
    }
  }

  lemma ListsGrows<K>(deltas: seq<int>, j: map<K, int>, k: K, x: int)
    requires ListsJoin(deltas, j) && k !in j
    ensures ListsJoin(deltas + [x], j[k := x])
  {
    var deltas' := deltas + [x];
    assert deltas'[..|deltas|] == deltas;
    assert j[k := x].Keys == j.Keys + {k};
    KeysWithSignGrows(j, k, x, 1);
    KeysWithSignGrows(j, k, x, -1);
    forall d ensures multiset(deltas')[d] == |KeysWithDelta(j[k := x], d)| {
      KeysWithDeltaGrows(j, k, x, d);
      assert multiset(deltas')[d] == multiset(deltas)[d] + (if x == d then 1 else 0);
    }
  }

  // ----- the matcher that never evicts computes it -----

  /** What waits is what its own endpoint has reported and the other has not. */
  ghost predicate Waits<K>(own: map<K, Pending>, seen: map<K, Timestamp>, seenOther: map<K, Timestamp>) {
    && own.Keys == seen.Keys - seenOther.Keys
    && forall k :: k in own ==> own[k].ts == seen[k]
  }

  ghost predicate WaitsForOther<K>(m: Matcher<K>, t: seq<Obs<K>>, ep: EndpointRole) {
    Waits(OwnPending(m, ep), Seen(t, ep), Seen(t, ep.Other()))
  }

  lemma WaitsReport<K>(own: map<K, Pending>, other: map<K, Pending>, seen: map<K, Timestamp>,
                       seenOther: map<K, Timestamp>, k: K, p: Pending)
    requires Waits(own, seen, seenOther) && Waits(other, seenOther, seen) && k !in seen
    ensures k in seenOther ==> Waits(own, seen[k := p.ts], seenOther) && Waits(other - {k}, seenOther, seen[k := p.ts])
    ensures k !in seenOther ==> Waits(own[k := p], seen[k := p.ts], seenOther) && Waits(other, seenOther, seen[k := p.ts])
  {
  }

  lemma {:induction false} SeenKeys<K>(t: seq<Obs<K>>, ep: EndpointRole, k: K)
    requires k in Seen(t, ep)
    ensures exists i :: 0 <= i < |t| && t[i].ep == ep && t[i].key == k
  {
    var n := |t| - 1;
    if t[n].ep != ep || t[n].key != k {
      SeenKeys(t[..n], ep, k);
      var i :| 0 <= i < n && t[..n][i].ep == ep && t[..n][i].key == k;
      assert t[i] == t[..n][i];
    }
  }

  lemma FirstReport<K>(t: seq<Obs<K>>, o: Obs<K>)
    requires AtMostOnce(t + [o])
    ensures AtMostOnce(t) && o.key !in Seen(t, o.ep)
    ensures Seen(t + [o], o.ep) == Seen(t, o.ep)[o.key := o.ts]
    ensures Seen(t + [o], o.ep.Other()) == Seen(t, o.ep.Other())
  {
    var t' := t + [o];
    assert t'[..|t|] == t;
    forall i, j | 0 <= i < j < |t| && t[i].ep == t[j].ep ensures t[i].key != t[j].key {
      assert t'[i] == t[i] && t'[j] == t[j];
    }
    assert forall i :: 0 <= i < |t| && t[i].ep == o.ep ==> t'[i].key != t'[|t|].key;
    if o.key in Seen(t, o.ep) {
      SeenKeys(t, o.ep, o.key);
      assert false;
    }
  }

  lemma JoinOfInsert<K>(s1: map<K, Timestamp>, s2: map<K, Timestamp>, k: K, ts: Timestamp)
    ensures k !in s1 ==> JoinOf(s1[k := ts], s2) == if k in s2 then JoinOf(s1, s2)[k := DeltaNs(ts, s2[k])] else JoinOf(s1, s2)
    ensures k !in s2 ==> JoinOf(s1, s2[k := ts]) == if k in s1 then JoinOf(s1, s2)[k := DeltaNs(s1[k], ts)] else JoinOf(s1, s2)
  {
  }

  /** A first report adds its key to the join exactly when the other endpoint has it already. */
  lemma JoinStep<K>(t: seq<Obs<K>>, o: Obs<K>)
    requires AtMostOnce(t + [o])
    ensures o.key !in Join(t)
    ensures var other := Seen(t, o.ep.Other());
            Join(t + [o]) == if o.key in other
                             then Join(t)[o.key := PairOf(o, Pending(other[o.key], o.slot)).deltaNs]
                             else Join(t)
  {
    FirstReport(t, o);
    JoinOfInsert(Seen(t, One), Seen(t, Two), o.key, o.ts);
  }

  /** The never-evicting matcher's step on its two sides. */
  lemma NeverEvictingStep<K>(m: Matcher<K>, o: Obs<K>)
    ensures var own, other := OwnPending(m, o.ep), OwnPending(m, o.ep.Other());
            var own', other' := OwnPending(Step(0, m, o), o.ep), OwnPending(Step(0, m, o), o.ep.Other());
            if o.key in other
            then own' == own && other' == other - {o.key} && StepResult(0, m, o) == Some(PairOf(o, other[o.key]))
            else own' == own[o.key := Pending(o.ts, o.slot)] && other' == other && StepResult(0, m, o) == None
  {
  }

  /** The step, read against the two streams. */
  lemma WaitsStep<K>(m: Matcher<K>, t: seq<Obs<K>>, o: Obs<K>)
    requires AtMostOnce(t + [o]) && WaitsForOther(m, t, One) && WaitsForOther(m, t, Two)
    ensures WaitsForOther(Step(0, m, o), t + [o], One)
    ensures WaitsForOther(Step(0, m, o), t + [o], Two)
    ensures var other := Seen(t, o.ep.Other());
            StepResult(0, m, o) == if o.key in other then Some(PairOf(o, Pending(other[o.key], o.slot))) else None
  {
    FirstReport(t, o);
    NeverEvictingStep(m, o);
    assert WaitsForOther(m, t, o.ep) && WaitsForOther(m, t, o.ep.Other());
    WaitsReport(OwnPending(m, o.ep), OwnPending(m, o.ep.Other()), Seen(t, o.ep), Seen(t, o.ep.Other()), o.key, Pending(o.ts, o.slot));
    assert WaitsForOther(Step(0, m, o), t + [o], o.ep) && WaitsForOther(Step(0, m, o), t + [o], o.ep.Other());
  }

  lemma {:induction false} NeverEvictingJoins<K>(window: U64, t: seq<Obs<K>>)
    requires AtMostOnce(t)
    ensures WaitsForOther(Run(0, Fresh(window), t), t, One)
    ensures WaitsForOther(Run(0, Fresh(window), t), t, Two)
    ensures ListsJoin(Deltas(Log(0, Fresh(window), t)), Join(t))
  {
    if t == [] {
      assert forall d :: KeysWithDelta(Join(t), d) == {};
    } else {
      var n := |t| - 1;
      var before, o := t[..n], t[n];
      assert t == before + [o];
      FirstReport(before, o);
      NeverEvictingJoins(window, before);
      var m, log := Run(0, Fresh(window), before), Log(0, Fresh(window), before);
      WaitsStep(m, before, o);
      JoinStep(before, o);
      match StepResult(0, m, o)
      case None =>
      case Some(r) =>
        assert (log + [Match(o.key, r)])[..|log|] == log;
        ListsGrows(Deltas(log), Join(before), o.key, r.deltaNs);
    }
  }

  // ----- the theorems -----

  /** The matcher reports the join `j`: matched is the number of common keys, each delta is a
      sample as often as there are keys with it, and the faster counts are their signs. */
  ghost predicate Reports<K>(m: Matcher<K>, j: map<K, int>) {
    && m.counts.matched == |j|
    && m.counts.ep1Faster == |KeysWithSign(j, 1)|
    && m.counts.ep2Faster == |KeysWithSign(j, -1)|
    && forall d :: m.digest.All()[d] == |KeysWithDelta(j, d)|
  }

  /** With each key reported at most once per endpoint, any cadence and any in-window
      interleaving report the join of the two streams. */
  lemma InterleavingJoins<K>(every: nat, window: U64, t: seq<Obs<K>>, slotOf: K -> U64)
    requires SlotOfKey(t, slotOf) && AllInWindow(window, t) && AtMostOnce(t)
    ensures Reports(Run(every, Fresh(window), t), Join(t))
  {
    NeverEvictingJoins(window, t);
    LogsAgree(every, 0, window, t, slotOf);
    SampleAccounting(every, window, t);
  }

  /** Keys that both endpoints reported with the given difference of readings. */
  function KeysApart<K>(s1: map<K, Timestamp>, s2: map<K, Timestamp>, d: int): set<K> {
    set k | k in s1 && k in s2 && s2[k].monoNs - s1[k].monoNs == d
  }

  function KeysFirstOn<K>(s: map<K, Timestamp>, other: map<K, Timestamp>): set<K> {
    set k | k in s && k in other && s[k].monoNs < other[k].monoNs
  }

  ghost predicate AllReadable<K>(t: seq<Obs<K>>) {
    forall i :: 0 <= i < |t| ==> Readable(t[i].ts)
  }

  lemma {:induction false} SeenReadable<K>(t: seq<Obs<K>>, ep: EndpointRole, k: K)
    requires AllReadable(t) && k in Seen(t, ep)
    ensures Readable(Seen(t, ep)[k])
  {
    var n := |t| - 1;
    if t[n].ep != ep || t[n].key != k {
      SeenReadable(t[..n], ep, k);
    }
  }

  /** The join on the clock readings themselves: each common key is a sample of endpoint two's
      nanosecond reading minus endpoint one's, and an endpoint is faster on the keys it read
      earlier. */
  lemma JoinOnReadings<K>(every: nat, window: U64, t: seq<Obs<K>>, slotOf: K -> U64)
    requires SlotOfKey(t, slotOf) && AllInWindow(window, t) && AtMostOnce(t) && AllReadable(t)
    ensures var m, s1, s2 := Run(every, Fresh(window), t), Seen(t, One), Seen(t, Two);
            && m.counts.matched == |s1.Keys * s2.Keys|
            && m.counts.ep1Faster == |KeysFirstOn(s1, s2)|
            && m.counts.ep2Faster == |KeysFirstOn(s2, s1)|
            && forall d :: m.digest.All()[d] == |KeysApart(s1, s2, d)|
  {
    InterleavingJoins(every, window, t, slotOf);
    var s1, s2, j := Seen(t, One), Seen(t, Two), Join(t);
    forall k | k in j ensures j[k] == s2[k].monoNs - s1[k].monoNs {
      SeenReadable(t, One, k);
      SeenReadable(t, Two, k);
    }
    assert j.Keys == s1.Keys * s2.Keys;
    assert KeysWithSign(j, 1) == KeysFirstOn(s1, s2);
    assert KeysWithSign(j, -1) == KeysFirstOn(s2, s1);
    forall d ensures KeysWithDelta(j, d) == KeysApart(s1, s2, d) {
      assert forall k :: k in KeysWithDelta(j, d) <==> k in KeysApart(s1, s2, d);
    }
  }

  /** The report is determined by the join. */
  lemma ReportsDetermined<K>(m: Matcher<K>, n: Matcher<K>, j: map<K, int>)
    requires Reports(m, j) && Reports(n, j)
    ensures m.digest.All() == n.digest.All()
    ensures m.counts.(ep1Evicted := 0, ep2Evicted := 0) == n.counts.(ep1Evicted := 0, ep2Evicted := 0)
  {
    var a, b := m.digest.All(), n.digest.All();
    forall d: int ensures a[d] == b[d] {
      assert a[d] == |KeysWithDelta(j, d)| && b[d] == |KeysWithDelta(j, d)|;
    }
    assert forall d :: d in a || d in b ==> a[d] == b[d];
    assert a == b;
  }

  /** The part of a trace that one endpoint's dispatcher delivered. */
  function Only<K>(t: seq<Obs<K>>, ep: EndpointRole): seq<Obs<K>> {
    if t == [] then []
    else
      var n := |t| - 1;
      if t[n].ep == ep then Only(t[..n], ep) + [t[n]] else Only(t[..n], ep)
  }

  lemma {:induction false} SeenOfOnly<K>(t: seq<Obs<K>>, ep: EndpointRole)
    ensures Seen(Only(t, ep), ep) == Seen(t, ep)
  {
    if t != [] {
      var n := |t| - 1;
      SeenOfOnly(t[..n], ep);
      var only := Only(t[..n], ep);
      assert (only + [t[n]])[..|only|] == only;
    }
  }

  // ----- what is left waiting -----

  lemma {:induction false} NeverEvicts<K>(window: U64, t: seq<Obs<K>>)
    ensures var m := Run(0, Fresh(window), t); m.counts.ep1Evicted == 0 && m.counts.ep2Evicted == 0
  {
    if t != [] {
      NeverEvicts(window, t[..|t| - 1]);
    }
  }

  lemma {:induction false} HighWaterOfBoth<K>(t: seq<Obs<K>>)
    ensures HighWater(t) == Max(HighWater(Only(t, One)), HighWater(Only(t, Two)))
  {
    if t != [] {
      var n := |t| - 1;
      HighWaterOfBoth(t[..n]);
      var only := Only(t[..n], t[n].ep);
      assert (only + [t[n]])[..|only|] == only;
    }
  }

  lemma SameWaiting<K>(p: map<K, Pending>, q: map<K, Pending>, seen: map<K, Timestamp>, seenOther: map<K, Timestamp>,
                       slotOf: K -> U64)
    requires Waits(p, seen, seenOther) && Waits(q, seen, seenOther)
    requires forall k :: k in p ==> p[k].slot == slotOf(k)
    requires forall k :: k in q ==> q[k].slot == slotOf(k)
    ensures p == q
  {
    assert p.Keys == q.Keys;
    forall k | k in p ensures p[k] == q[k] {
      assert p[k].ts == seen[k] && q[k].ts == seen[k];
    }
  }

  ghost predicate SameStreams<K>(t: seq<Obs<K>>, u: seq<Obs<K>>) {
    forall ep :: Only(t, ep) == Only(u, ep)
  }

  lemma SameSeen<K>(t: seq<Obs<K>>, u: seq<Obs<K>>)
    requires SameStreams(t, u)
    ensures forall ep :: Seen(t, ep) == Seen(u, ep)
    ensures HighWater(t) == HighWater(u)
  {
    forall ep ensures Seen(t, ep) == Seen(u, ep) {
      SeenOfOnly(t, ep);
      SeenOfOnly(u, ep);
      assert Only(t, ep) == Only(u, ep);
    }
    HighWaterOfBoth(t);
    HighWaterOfBoth(u);
    assert Only(t, One) == Only(u, One) && Only(t, Two) == Only(u, Two);
  }

  /** Without eviction the two interleavings leave the same entries waiting. */
  lemma SameLeftWaiting<K>(window: U64, t: seq<Obs<K>>, u: seq<Obs<K>>, slotOf: K -> U64)
    requires SlotOfKey(t, slotOf) && AtMostOnce(t) && SlotOfKey(u, slotOf) && AtMostOnce(u) && SameStreams(t, u)
    ensures var m, n := Run(0, Fresh(window), t), Run(0, Fresh(window), u);
            && m.pending1 == n.pending1 && m.pending2 == n.pending2
            && (m.window, m.highWater) == (n.window, n.highWater)
  {
    var m, n := Run(0, Fresh(window), t), Run(0, Fresh(window), u);
    SameSeen(t, u);
    NeverEvictingJoins(window, t);
    NeverEvictingJoins(window, u);
    RunsAgree(0, 0, window, t, slotOf);
    RunsAgree(0, 0, window, u, slotOf);
    SameWaiting(m.pending1, n.pending1, Seen(t, One), Seen(t, Two), slotOf);
    SameWaiting(m.pending2, n.pending2, Seen(t, Two), Seen(t, One), slotOf);
    HighWaterTracked(0, window, t);
    HighWaterTracked(0, window, u);
  }

  lemma EvictAlike<K>(m: Matcher<K>, n: Matcher<K>)
    requires m.pending1 == n.pending1 && m.pending2 == n.pending2 && (m.window, m.highWater) == (n.window, n.highWater)
    requires m.counts == n.counts
    ensures Evict(m).pending1 == Evict(n).pending1 && Evict(m).pending2 == Evict(n).pending2 && Evict(m).counts == Evict(n).counts
  {
  }

  lemma SameReport<K>(e1: nat, e2: nat, window: U64, t: seq<Obs<K>>, u: seq<Obs<K>>, slotOf: K -> U64)
    requires SlotOfKey(t, slotOf) && AllInWindow(window, t) && AtMostOnce(t)
    requires SlotOfKey(u, slotOf) && AllInWindow(window, u) && AtMostOnce(u)
    requires SameStreams(t, u)
    ensures var m, n := Run(e1, Fresh(window), t), Run(e2, Fresh(window), u);
            && m.digest.All() == n.digest.All()
            && m.counts.(ep1Evicted := 0, ep2Evicted := 0) == n.counts.(ep1Evicted := 0, ep2Evicted := 0)
  {
    InterleavingJoins(e1, window, t, slotOf);
    InterleavingJoins(e2, window, u, slotOf);
    SameSeen(t, u);
    assert Join(t) == Join(u);
    ReportsDetermined(Run(e1, Fresh(window), t), Run(e2, Fresh(window), u), Join(t));
  }

  lemma SameWithoutEviction<K>(window: U64, t: seq<Obs<K>>, u: seq<Obs<K>>, slotOf: K -> U64)
    requires SlotOfKey(t, slotOf) && AllInWindow(window, t) && AtMostOnce(t)
    requires SlotOfKey(u, slotOf) && AllInWindow(window, u) && AtMostOnce(u)
    requires SameStreams(t, u)
    ensures var m, n := Evict(Run(0, Fresh(window), t)), Evict(Run(0, Fresh(window), u));
            m.pending1 == n.pending1 && m.pending2 == n.pending2 && m.counts == n.counts
  {
    SameReport(0, 0, window, t, u, slotOf);
    SameLeftWaiting(window, t, u, slotOf);
    NeverEvicts(window, t);
    NeverEvicts(window, u);
    EvictAlike(Run(0, Fresh(window), t), Run(0, Fresh(window), u));
  }

  /** Two interleavings of the same two endpoint streams cannot be told apart, even under
      different cadences: same samples, and after the final eviction the same pending maps and
      all five counters. */
  lemma InterleavingConfluence<K>(e1: nat, e2: nat, window: U64, t: seq<Obs<K>>, u: seq<Obs<K>>, slotOf: K -> U64)
    requires SlotOfKey(t, slotOf) && AllInWindow(window, t) && AtMostOnce(t)
    requires SlotOfKey(u, slotOf) && AllInWindow(window, u) && AtMostOnce(u)
    requires SameStreams(t, u)
    ensures Run(e1, Fresh(window), t).digest.All() == Run(e2, Fresh(window), u).digest.All()
    ensures var m, n := Evict(Run(e1, Fresh(window), t)), Evict(Run(e2, Fresh(window), u));
            m.pending1 == n.pending1 && m.pending2 == n.pending2 && m.counts == n.counts
  {
    SameReport(e1, e2, window, t, u, slotOf);
    CadenceInvisible(e1, 0, window, t, slotOf);
    CadenceInvisible(e2, 0, window, u, slotOf);
    SameWithoutEviction(window, t, u, slotOf);
  }
}
