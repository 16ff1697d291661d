/** What a matcher reports, and sums of such reports over a finite map. */
module Tallies {
  import opened Types
  import opened Digests
  import opened PairMatching

  datatype Tally = Tally(matched: nat, ep1Faster: nat, ep2Faster: nat, samples: multiset<int>) {
    function Add(t: Tally): Tally {
      Tally(matched + t.matched, ep1Faster + t.ep1Faster, ep2Faster + t.ep2Faster, samples + t.samples)
    }
  }

  const ZERO := Tally(0, 0, 0, multiset{})

  ghost function TallyOf<K>(m: Matcher<K>): Tally {
    Tally(m.counts.matched, m.counts.ep1Faster, m.counts.ep2Faster, m.digest.All())
  }

  /** What one answer adds to a report. */
  function Gain(r: Option<MatchResult>): Tally {
    match r
    case None => ZERO
    case Some(m) => Tally(1, if m.deltaNs > 0 then 1 else 0, if m.deltaNs < 0 then 1 else 0, multiset{m.deltaNs})
  }

  lemma StepGains<K>(every: nat, m: Matcher<K>, o: Obs<K>)
    ensures TallyOf(Step(every, m, o)) == TallyOf(m).Add(Gain(StepResult(every, m, o)))
  {
    var a := Arrive(every, m, o.slot);
    assert TallyOf(a) == TallyOf(m);
    if Meets(a, o).Some? {
      MeetGains(a, o);
    } else {
      assert a.digest.All() + multiset{} == a.digest.All();
    }
  }

  lemma MeetGains<K>(m: Matcher<K>, o: Obs<K>)
    requires Meets(m, o).Some?
    ensures TallyOf(Rendezvous(m, o)) == TallyOf(m).Add(Gain(Meets(m, o)))
  {
    PushAddsSample(m.digest, Meets(m, o).value.deltaNs);
  }

  ghost function Pick<A, B>(f: map<A, B>): (a: A)
    requires f != map[]
    ensures a in f
  {
    var a :| a in f;
    a
  }

  /** Sum of a finite map's tallies, in whatever order they are visited. */
  ghost function Sum<A>(f: map<A, Tally>): Tally
    decreases |f|
  {
    if f == map[] then ZERO
    else
      var a := Pick(f);
      RemovalShrinks(f, a);
      f[a].Add(Sum(f - {a}))
  }

  lemma RemovalShrinks<A, B>(f: map<A, B>, a: A)
    requires a in f
    ensures |f - {a}| == |f| - 1
  {
    assert (f - {a}).Keys == f.Keys - {a};
  }

  lemma AddLaws(x: Tally, y: Tally, z: Tally)
    ensures ZERO.Add(x) == x == x.Add(ZERO)
    ensures x.Add(y) == y.Add(x)
    ensures x.Add(y).Add(z) == x.Add(y.Add(z))
  {
    assert multiset{} + x.samples == x.samples && x.samples + multiset{} == x.samples;
    assert x.samples + y.samples + z.samples == x.samples + (y.samples + z.samples);
  }

  lemma AddExchange(x: Tally, y: Tally, z: Tally)
    ensures x.Add(y.Add(z)) == y.Add(x.Add(z))
  {
    assert x.samples + (y.samples + z.samples) == y.samples + (x.samples + z.samples);
  }

  /** Any key may be taken out first. */
  lemma {:induction false} SumTakeOut<A>(f: map<A, Tally>, k: A)
    requires k in f
    ensures Sum(f) == f[k].Add(Sum(f - {k}))
    decreases |f|
  {
    var a := Pick(f);
    if a != k {
      RemovalShrinks(f, a);
      RemovalShrinks(f, k);
      SumTakeOut(f - {a}, k);
      SumTakeOut(f - {k}, a);
      assert f - {a} - {k} == f - {k} - {a};
      AddExchange(f[a], f[k], Sum(f - {a} - {k}));
    }
  }

  /** Replacing one entry, or adding it, changes the sum by that entry alone. */
  lemma SumUpdate<A>(f: map<A, Tally>, k: A, t: Tally)
    ensures Sum(f[k := t]) == t.Add(Sum(f - {k}))
    ensures k in f ==> Sum(f) == f[k].Add(Sum(f - {k}))
    ensures k !in f ==> Sum(f) == Sum(f - {k})
  {
    SumTakeOut(f[k := t], k);
    assert f[k := t] - {k} == f - {k};
    if k in f {
      SumTakeOut(f, k);
    } else {
      assert f - {k} == f;
    }
  }
}
