/** The cross-endpoint rendezvous: a value-level account of every step of the matcher,
    and the mutable matcher proved to perform exactly those steps. */
module PairMatching {
  import opened Types
  import opened Digests

  const EVICT_EVERY: nat := 256

  datatype Pending = Pending(ts: Timestamp, slot: U64)

  datatype Counts = Counts(matched: nat, ep1Faster: nat, ep2Faster: nat, ep1Evicted: nat, ep2Evicted: nat)

  /** One arrival. `slot` travels beside the key, as in the code. */
  datatype Obs<K> = Obs(ep: EndpointRole, key: K, ts: Timestamp, slot: U64)

  datatype MatchResult = MatchResult(deltaNs: int, ep1Ts: Timestamp, ep2Ts: Timestamp)

  /** The matcher's fields. The t-digest is the multiset of samples merged into it. */
  datatype Matcher<K> = Matcher(
    pending1: map<K, Pending>, pending2: map<K, Pending>,
    digest: Digest, counts: Counts, window: U64, highWater: U64, obsCount: U64)

  const ZERO_COUNTS := Counts(0, 0, 0, 0, 0)

  function Fresh<K>(window: U64): Matcher<K> {
    Matcher(map[], map[], EMPTY, ZERO_COUNTS, window, 0, 0)
  }

  // ----- one step -----

  /** Entries a slot-window pass keeps. */
  function Retain<K>(pending: map<K, Pending>, cutoff: nat): map<K, Pending> {
    map k | k in pending && pending[k].slot >= cutoff :: pending[k]
  }

  function Cutoff<K>(m: Matcher<K>): nat {
    SaturatingSub(m.highWater, m.window)
  }

  function Evict<K>(m: Matcher<K>): Matcher<K> {
    var kept1, kept2 := Retain(m.pending1, Cutoff(m)), Retain(m.pending2, Cutoff(m));
    RetainShrinks(m.pending1, Cutoff(m));
    RetainShrinks(m.pending2, Cutoff(m));
    m.(pending1 := kept1, pending2 := kept2,
       counts := m.counts.(ep1Evicted := m.counts.ep1Evicted + (|m.pending1| - |kept1|),
                           ep2Evicted := m.counts.ep2Evicted + (|m.pending2| - |kept2|)))
  }

  lemma RetainShrinks<K>(pending: map<K, Pending>, cutoff: nat)
    ensures |Retain(pending, cutoff)| <= |pending|
  {
    var kept := Retain(pending, cutoff);
    CardinalitySubset(kept.Keys, pending.Keys);
  }

  lemma {:induction false} CardinalitySubset<T>(a: set<T>, b: set<T>)
    requires a <= b
    ensures |a| <= |b|
  {
    if a != {} {
      var x :| x in a;
      CardinalitySubset(a - {x}, b - {x});
    }
  }

  function CountMatch(c: Counts, delta: int): Counts {
    c.(matched := c.matched + 1,
       ep1Faster := c.ep1Faster + (if delta > 0 then 1 else 0),
       ep2Faster := c.ep2Faster + (if delta < 0 then 1 else 0))
  }

  function OwnPending<K>(m: Matcher<K>, ep: EndpointRole): map<K, Pending> {
    if ep == One then m.pending1 else m.pending2
  }

  /** The pair an arrival forms with the entry waiting on the other side. */
  function PairOf<K>(o: Obs<K>, other: Pending): MatchResult {
    var (ts1, ts2) := if o.ep == One then (o.ts, other.ts) else (other.ts, o.ts);
    MatchResult(DeltaNs(ts1, ts2), ts1, ts2)
  }

  /** What an arrival meets: the waiting entry of the other endpoint, if there is one. */
  function Meets<K>(m: Matcher<K>, o: Obs<K>): Option<MatchResult> {
    var waiting := OwnPending(m, o.ep.Other());
    if o.key in waiting then Some(PairOf(o, waiting[o.key])) else None
  }

  /** A met entry leaves the other side; an arrival that meets nothing waits on its own. */
  function Rendezvous<K>(m: Matcher<K>, o: Obs<K>): Matcher<K> {
    match Meets(m, o)
    case Some(r) =>
      m.(pending1 := if o.ep == One then m.pending1 else m.pending1 - {o.key},
         pending2 := if o.ep == One then m.pending2 - {o.key} else m.pending2,
         digest := m.digest.Push(r.deltaNs),
         counts := CountMatch(m.counts, r.deltaNs))
    case None =>
      m.(pending1 := if o.ep == One then m.pending1[o.key := Pending(o.ts, o.slot)] else m.pending1,
         pending2 := if o.ep == One then m.pending2 else m.pending2[o.key := Pending(o.ts, o.slot)])
  }

  /** Whether an eviction pass runs at this observe count. `every` is 256 in the code; 1 is
      the eager matcher that the code replaced, and 0 never evicts. */
  predicate Due(every: nat, obsCount: U64) {
    every > 0 && obsCount % every == 0
  }

  /** High-water bump, counter bump, and the eviction pass when it is due. */
  function Arrive<K>(every: nat, m: Matcher<K>, slot: U64): Matcher<K> {
    var bumped := m.(highWater := Max(m.highWater, slot), obsCount := (m.obsCount + 1) % U64_SIZE);
    if Due(every, bumped.obsCount) then Evict(bumped) else bumped
  }

  function Step<K>(every: nat, m: Matcher<K>, o: Obs<K>): Matcher<K> {
    Rendezvous(Arrive(every, m, o.slot), o)
  }

  function StepResult<K>(every: nat, m: Matcher<K>, o: Obs<K>): Option<MatchResult> {
    Meets(Arrive(every, m, o.slot), o)
  }

  // ----- whole traces -----

  function Run<K>(every: nat, m: Matcher<K>, t: seq<Obs<K>>): Matcher<K>
    decreases |t|
  {
    if t == [] then m else Step(every, Run(every, m, t[..|t| - 1]), t[|t| - 1])
  }

  /** What the i-th arrival of the trace returned to its caller. */
  function ResultAt<K>(every: nat, m: Matcher<K>, t: seq<Obs<K>>, i: nat): Option<MatchResult>
    requires i < |t|
  {
    StepResult(every, Run(every, m, t[..i]), t[i])
  }

  datatype Match<K> = Match(key: K, result: MatchResult)

  /** All matches of a trace, in the order they were made. */
  function Log<K>(every: nat, m: Matcher<K>, t: seq<Obs<K>>): seq<Match<K>>
    decreases |t|
  {
    if t == [] then []
    else
      var n := |t| - 1;
      var earlier := Log(every, m, t[..n]);
      match ResultAt(every, m, t, n)
      case None => earlier
      case Some(r) => earlier + [Match(t[n].key, r)]
  }

  lemma RunSnoc<K>(every: nat, m: Matcher<K>, t: seq<Obs<K>>, o: Obs<K>)
    ensures Run(every, m, t + [o]) == Step(every, Run(every, m, t), o)
    ensures Log(every, m, t + [o]) == match StepResult(every, Run(every, m, t), o)
                                      case None => Log(every, m, t)
                                      case Some(r) => Log(every, m, t) + [Match(o.key, r)]
  {
    assert (t + [o])[..|t|] == t;
  }

  // ----- the mutable matcher -----

  class PairMatcher<K(==)> {
    var pending1: map<K, Pending>
    var pending2: map<K, Pending>
    var digest: Digest
    var counts: Counts
    const window: U64
    var highWater: U64
    var obsCount: U64

    ghost function View(): Matcher<K>
      reads this
    {
      Matcher(pending1, pending2, digest, counts, window, highWater, obsCount)
    }

    constructor (window: U64)
      ensures View() == Fresh(window)
    {
      pending1, pending2, digest := map[], map[], EMPTY;
      counts, highWater, obsCount := ZERO_COUNTS, 0, 0;
      this.window := window;
    }

    method Observe(ep: EndpointRole, key: K, ts: Timestamp, slot: U64) returns (r: Option<MatchResult>)
      modifies this
      ensures View() == Step(EVICT_EVERY, old(View()), Obs(ep, key, ts, slot))
      ensures r == StepResult(EVICT_EVERY, old(View()), Obs(ep, key, ts, slot))
    {
      if slot > highWater {
        highWater := slot;
      }
      obsCount := (obsCount + 1) % U64_SIZE;
      assert Due(EVICT_EVERY, obsCount) <==> obsCount % EVICT_EVERY == 0;
      if obsCount % EVICT_EVERY == 0 {
        EvictStale();
      }
      assert View() == Arrive(EVICT_EVERY, old(View()), slot);
      r := MeetOrWait(ep, key, ts, slot);
    }

    method MeetOrWait(ep: EndpointRole, key: K, ts: Timestamp, slot: U64) returns (r: Option<MatchResult>)
      modifies this
      ensures View() == Rendezvous(old(View()), Obs(ep, key, ts, slot))
      ensures r == Meets(old(View()), Obs(ep, key, ts, slot))
    {
      ghost var o := Obs(ep, key, ts, slot);
      var other := if ep == One then pending2 else pending1;
      if key !in other {
        if ep == One {
          pending1 := pending1[key := Pending(ts, slot)];
        } else {
          pending2 := pending2[key := Pending(ts, slot)];
        }
        return None;
      }
      var ts1, ts2 := ts, other[key].ts;
      if ep == One {
        pending2 := pending2 - {key};
      } else {
        ts1, ts2 := other[key].ts, ts;
        pending1 := pending1 - {key};
      }
      var delta := DeltaNs(ts1, ts2);
      r := Some(MatchResult(delta, ts1, ts2));
      assert r == Meets(old(View()), o);
      digest := digest.Push(delta);
      CountDelta(delta);
    }

    method CountDelta(delta: int)
      modifies this`counts
      ensures counts == CountMatch(old(counts), delta)
    {
      counts := counts.(matched := counts.matched + 1);
      if delta > 0 {
        counts := counts.(ep1Faster := counts.ep1Faster + 1);
      } else if delta < 0 {
        counts := counts.(ep2Faster := counts.ep2Faster + 1);
      }
    }

    method EvictStale()
      modifies this`pending1, this`pending2, this`counts
      ensures View() == Evict(old(View()))
    {
      var cutoff := SaturatingSub(highWater, window);
      var before1, before2 := |pending1|, |pending2|;
      RetainShrinks(pending1, cutoff);
      RetainShrinks(pending2, cutoff);
      pending1 := Retain(pending1, cutoff);
      counts := counts.(ep1Evicted := counts.ep1Evicted + (before1 - |pending1|));
      pending2 := Retain(pending2, cutoff);
      counts := counts.(ep2Evicted := counts.ep2Evicted + (before2 - |pending2|));
    }

    /** The end-of-run summary: a final eviction pass, then every buffered sample merged. */
    method Summarize() returns (c: Counts, samples: multiset<int>)
      modifies this
      ensures var evicted := Evict(old(View()));
              View() == evicted.(digest := evicted.digest.Flush())
      ensures c == View().counts && samples == View().digest.merged == old(View().digest.All())
    {
      EvictStale();
      c := counts;
      digest := digest.Flush();
      samples := digest.merged;
    }
  }
}
