/** When exactly a match is made, said without mentioning the matcher's state: also for keys
    that an endpoint reports many times. */
module RendezvousSpec {
  import opened Types
  import opened PairMatching
  import opened MatcherLaws
  import opened MatcherWindow

  /** The latest arrival of key `k`, or -1. */
  ghost function Latest<K>(t: seq<Obs<K>>, k: K): (j: int)
    ensures -1 <= j < |t|
    ensures j >= 0 ==> t[j].key == k
    ensures forall i :: j < i < |t| ==> t[i].key != k
  {
    if t == [] then -1 else if t[|t| - 1].key == k then |t| - 1 else Latest(t[..|t| - 1], k)
  }

  /** Without eviction, a key waits on a side exactly when its latest arrival came from that
      side and was not matched. */
  ghost predicate WaitsLatest<K>(m: Matcher<K>, t: seq<Obs<K>>, k: K, ep: EndpointRole) {
    var j, own := Latest(t, k), OwnPending(m, ep);
    if j >= 0 && t[j].ep == ep && ResultAt(0, Fresh(0), t, j) == None
    then k in own && own[k] == Pending(t[j].ts, t[j].slot)
    else k !in own
  }

  lemma ResultAtPrefix<K>(every: nat, window: U64, t: seq<Obs<K>>, n: nat, j: nat)
    requires j < n <= |t|
    ensures ResultAt(every, Fresh(window), t[..n], j) == ResultAt(every, Fresh(window), t, j)
  {
    assert t[..n][..j] == t[..j];
  }

  lemma StepOtherKey<K>(m: Matcher<K>, o: Obs<K>, k: K, ep: EndpointRole)
    requires k != o.key
    ensures k in OwnPending(Step(0, m, o), ep) <==> k in OwnPending(m, ep)
    ensures k in OwnPending(m, ep) ==> OwnPending(Step(0, m, o), ep)[k] == OwnPending(m, ep)[k]
  {
  }

  lemma StepOwnKey<K>(m: Matcher<K>, o: Obs<K>, ep: EndpointRole)
    requires o.key !in m.pending1 || o.key !in m.pending2
    ensures var own := OwnPending(Step(0, m, o), ep);
            if o.ep == ep && StepResult(0, m, o) == None
            then o.key in own && own[o.key] == Pending(o.ts, o.slot) else o.key !in own
  {
  }

  lemma {:induction false} NeverEvictingWaits<K>(t: seq<Obs<K>>, k: K, ep: EndpointRole)
    ensures WaitsLatest(Run(0, Fresh(0), t), t, k, ep)
  {
    if t != [] {
      var n := |t| - 1;
      var before, o := t[..n], t[n];
      var m := Run(0, Fresh(0), before);
      if k != o.key {
        NeverEvictingWaits(before, k, ep);
        StepOtherKey(m, o, k, ep);
        if Latest(before, k) >= 0 {
          ResultAtPrefix(0, 0, t, n, Latest(before, k));
        }
      } else {
        Conservation(0, 0, before, ep);
        StepOwnKey(m, o, ep);
      }
    }
  }

  /** The partner of arrival `i`: the previous arrival of its key, if that came from the other
      endpoint and was itself not matched. */
  ghost predicate HasPartner<K>(every: nat, window: U64, t: seq<Obs<K>>, i: nat)
    requires i < |t|
  {
    var j := Latest(t[..i], t[i].key);
    j >= 0 && t[j].ep != t[i].ep && ResultAt(every, Fresh(window), t, j) == None
  }

  lemma NeverEvictingPairs<K>(t: seq<Obs<K>>, i: nat)
    requires i < |t|
    ensures ResultAt(0, Fresh(0), t, i)
            == if HasPartner(0, 0, t, i)
               then var j := Latest(t[..i], t[i].key); Some(PairOf(t[i], Pending(t[j].ts, t[j].slot)))
               else None
  {
    var o := t[i];
    NeverEvictingWaits(t[..i], o.key, o.ep.Other());
    var j := Latest(t[..i], o.key);
    if j >= 0 {
      ResultAtPrefix(0, 0, t, i, j);
    }
  }

  lemma StepIgnoresWindow<K>(m: Matcher<K>, window: U64, o: Obs<K>)
    ensures Step(0, m.(window := window), o) == Step(0, m, o).(window := window)
  {
    var a, b := Arrive(0, m, o.slot), Arrive(0, m.(window := window), o.slot);
    assert b == a.(window := window);
    assert Meets(b, o) == Meets(a, o);
  }

  lemma {:induction false} WindowUnusedWithoutEviction<K>(window: U64, t: seq<Obs<K>>)
    ensures Run(0, Fresh(window), t) == Run(0, Fresh(0), t).(window := window)
  {
    if t != [] {
      var n := |t| - 1;
      WindowUnusedWithoutEviction(window, t[..n]);
      StepIgnoresWindow(Run(0, Fresh(0), t[..n]), window, t[n]);
    }
  }

  lemma InWindowResult<K>(every: nat, window: U64, t: seq<Obs<K>>, slotOf: K -> U64, i: nat)
    requires SlotOfKey(t, slotOf) && i < |t| && InWindow(window, t, i)
    ensures ResultAt(every, Fresh(window), t, i) == ResultAt(0, Fresh(0), t, i)
  {
    RunsAgree(every, 0, window, t[..i], slotOf);
    ArrivalCutoff(every, window, t, i);
    StepAgree(every, 0, Run(every, Fresh(window), t[..i]), Run(0, Fresh(window), t[..i]), t[i], slotOf);
    WindowUnusedWithoutEviction(window, t[..i]);
  }

  lemma {:induction false} HighWaterGrows<K>(t: seq<Obs<K>>, m: nat, n: nat)
    requires m <= n <= |t|
    ensures HighWater(t[..m]) <= HighWater(t[..n])
  {
    if m < n {
      HighWaterGrows(t, m, n - 1);
      assert t[..n][..n - 1] == t[..n - 1];
    }
  }

  /** On every trace and under every cadence, an in-window arrival is matched exactly when the
      previous arrival of its key came from the other endpoint and was not matched, and then
      with that arrival. */
  lemma MatchedExactlyWhen<K>(every: nat, window: U64, t: seq<Obs<K>>, slotOf: K -> U64, i: nat)
    requires SlotOfKey(t, slotOf) && i < |t| && InWindow(window, t, i)
    ensures ResultAt(every, Fresh(window), t, i)
            == if HasPartner(every, window, t, i)
               then var j := Latest(t[..i], t[i].key); Some(PairOf(t[i], Pending(t[j].ts, t[j].slot)))
               else None
  {
    InWindowResult(every, window, t, slotOf, i);
    NeverEvictingPairs(t, i);
    var j := Latest(t[..i], t[i].key);
    if j >= 0 {
      HighWaterGrows(t, j + 1, i + 1);
      assert t[j].slot == t[i].slot;
      assert InWindow(window, t, j);
      InWindowResult(every, window, t, slotOf, j);
    }
  }
}
