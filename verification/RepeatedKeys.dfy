/** Streams whose keys are reported more than once by an endpoint: the same update delivered at
    two commitments, a burst of writes under one key, slot updates on an entries subscription.
    What is matched then depends on how the two endpoints' reports of the key alternate. */
module RepeatedKeys {
  import opened Types
  import opened PairMatching
  import opened MatcherLaws
  import opened MatcherWindow
  import opened RendezvousSpec

  // ----- position by position -----

  /** The endpoints of a key's arrivals, in order. */
  function KeyEps<K(==)>(t: seq<Obs<K>>, k: K): seq<EndpointRole> {
    if t == [] then []
    else
      var n := |t| - 1;
      if t[n].key == k then KeyEps(t[..n], k) + [t[n].ep] else KeyEps(t[..n], k)
  }

  /** Length of the longest alternating run that ends the sequence. */
  function TailRun(s: seq<EndpointRole>): nat {
    if s == [] then 0
    else
      var n := |s| - 1;
      if n > 0 && s[n - 1] != s[n] then TailRun(s[..n]) + 1 else 1
  }

  /** How many elements stand at an even place of their alternating run: half of each run's
      length, rounded down. */
  function Evens(s: seq<EndpointRole>): nat {
    if s == [] then 0 else Evens(s[..|s| - 1]) + (if TailRun(s) % 2 == 0 then 1 else 0)
  }

  /** The place of arrival `i` in the run of its key's arrivals that alternate between the
      endpoints: 1 at the start of such a run. */
  function Pos<K(==)>(t: seq<Obs<K>>, i: nat): nat
    requires i < |t|
  {
    TailRun(KeyEps(t[..i + 1], t[i].key))
  }

  lemma {:induction false} KeyEpsFromLatest<K>(t: seq<Obs<K>>, k: K)
    ensures var j := Latest(t, k);
            if j < 0 then KeyEps(t, k) == []
            else var s := KeyEps(t[..j + 1], k); KeyEps(t, k) == s && s != [] && s[|s| - 1] == t[j].ep
  {
    if t != [] {
      var n := |t| - 1;
      if t[n].key == k {
        assert t[..n + 1] == t;
      } else {
        KeyEpsFromLatest(t[..n], k);
        var j := Latest(t, k);
        if j >= 0 {
          assert t[..n][..j + 1] == t[..j + 1];
        }
      }
    }
  }

  lemma KeyEpsNext<K>(t: seq<Obs<K>>, i: nat)
    requires i < |t|
    ensures KeyEps(t[..i + 1], t[i].key) == KeyEps(t[..i], t[i].key) + [t[i].ep]
  {
    assert t[..i + 1][..i] == t[..i];
  }

  lemma TailRunNext(s: seq<EndpointRole>, ep: EndpointRole)
    ensures TailRun(s + [ep]) == if s != [] && s[|s| - 1] != ep then TailRun(s) + 1 else 1
    ensures Evens(s + [ep]) == Evens(s) + (if TailRun(s + [ep]) % 2 == 0 then 1 else 0)
  {
    assert (s + [ep])[..|s|] == s;
  }

  /** The place of an arrival follows from the previous arrival of its key. */
  lemma PosStep<K>(t: seq<Obs<K>>, i: nat)
    requires i < |t|
    ensures var j := Latest(t[..i], t[i].key);
            Pos(t, i) == if j >= 0 && t[j].ep != t[i].ep then Pos(t, j) + 1 else 1
  {
    var k := t[i].key;
    var j, s := Latest(t[..i], k), KeyEps(t[..i], k);
    KeyEpsNext(t, i);
    TailRunNext(s, t[i].ep);
    KeyEpsFromLatest(t[..i], k);
    if j >= 0 {
      assert t[..i][..j + 1] == t[..j + 1];
    }
  }

  /** What arrival `i` forms by the trace alone: arrivals at even places pair with the one
      before them. */
  ghost function PairAt<K>(t: seq<Obs<K>>, i: nat): Option<MatchResult>
    requires i < |t|
  {
    var j := Latest(t[..i], t[i].key);
    if j >= 0 && Pos(t, i) % 2 == 0 then Some(PairOf(t[i], Pending(t[j].ts, t[j].slot))) else None
  }

  lemma EarlierInWindow<K>(window: U64, t: seq<Obs<K>>, slotOf: K -> U64, j: nat, i: nat)
    requires SlotOfKey(t, slotOf) && j <= i < |t| && t[j].key == t[i].key && InWindow(window, t, i)
    ensures InWindow(window, t, j)
  {
    HighWaterGrows(t, j + 1, i + 1);
    assert t[j].slot == t[i].slot;
  }

  lemma {:induction false} UnmatchedIffOdd<K>(every: nat, window: U64, t: seq<Obs<K>>, slotOf: K -> U64, i: nat)
    requires SlotOfKey(t, slotOf) && i < |t| && InWindow(window, t, i)
    ensures ResultAt(every, Fresh(window), t, i) == None <==> Pos(t, i) % 2 == 1
    decreases i
  {
    MatchedExactlyWhen(every, window, t, slotOf, i);
    PosStep(t, i);
    var j := Latest(t[..i], t[i].key);
    if j >= 0 {
      EarlierInWindow(window, t, slotOf, j, i);
      UnmatchedIffOdd(every, window, t, slotOf, j);
    }
  }

  /** On every trace and under every cadence, an in-window arrival is matched exactly when its
      place in the alternation is even, and then with the previous arrival of its key. */
  lemma MatchedIffEven<K>(every: nat, window: U64, t: seq<Obs<K>>, slotOf: K -> U64, i: nat)
    requires SlotOfKey(t, slotOf) && i < |t| && InWindow(window, t, i)
    ensures ResultAt(every, Fresh(window), t, i) == PairAt(t, i)
    ensures ResultAt(every, Fresh(window), t, i).Some? <==> Pos(t, i) % 2 == 0
  {
    MatchedExactlyWhen(every, window, t, slotOf, i);
    UnmatchedIffOdd(every, window, t, slotOf, i);
  }

  /** All pairs of a trace, in the order they are completed. */
  ghost function PairsOf<K>(t: seq<Obs<K>>): seq<Match<K>> {
    if t == [] then []
    else
      var n := |t| - 1;
      match PairAt(t, n)
      case None => PairsOf(t[..n])
      case Some(r) => PairsOf(t[..n]) + [Match(t[n].key, r)]
  }

  /** On in-window traces the matches made are those pairs, whatever is repeated. */
  lemma {:induction false} LogIsPairs<K>(every: nat, window: U64, t: seq<Obs<K>>, slotOf: K -> U64)
    requires SlotOfKey(t, slotOf) && AllInWindow(window, t)
    ensures Log(every, Fresh(window), t) == PairsOf(t)
  {
    if t != [] {
      var n := |t| - 1;
      AllInWindowPrefix(window, t, n);
      LogIsPairs(every, window, t[..n], slotOf);
      assert InWindow(window, t, n);
      MatchedIffEven(every, window, t, slotOf, n);
    }
  }

  /** The arrivals that complete a pair. */
  function EvenPlaces<K(==)>(t: seq<Obs<K>>): set<nat> {
    set i | 0 <= i < |t| && Pos(t, i) % 2 == 0
  }

  lemma EvenPlacesNext<K>(t: seq<Obs<K>>)
    requires t != []
    ensures var n := |t| - 1;
            |EvenPlaces(t)| == |EvenPlaces(t[..n])| + (if Pos(t, n) % 2 == 0 then 1 else 0)
  {
    var n := |t| - 1;
    var before := EvenPlaces(t[..n]);
    forall i | 0 <= i < n ensures i in EvenPlaces(t) <==> i in before {
      assert t[..n][..i + 1] == t[..i + 1] && t[..n][i] == t[i];
    }
    assert EvenPlaces(t) == before + (if Pos(t, n) % 2 == 0 then {n} else {});
  }

  lemma PairIffEven<K>(t: seq<Obs<K>>, i: nat)
    requires i < |t|
    ensures PairAt(t, i).Some? <==> Pos(t, i) % 2 == 0
    ensures Pos(t, i) % 2 == 0 ==> var j := Latest(t[..i], t[i].key); j >= 0 && t[j].ep != t[i].ep
  {
    PosStep(t, i);
  }

  lemma {:induction false} PairsAtEvenPlaces<K>(t: seq<Obs<K>>)
    ensures |PairsOf(t)| == |EvenPlaces(t)|
  {
    if t != [] {
      PairsAtEvenPlaces(t[..|t| - 1]);
      PairIffEven(t, |t| - 1);
      EvenPlacesNext(t);
    }
  }

  /** The report of an in-window trace: as many matches as there are even places, the samples and
      the faster counts those of the pairs. */
  lemma RepeatedReport<K>(every: nat, window: U64, t: seq<Obs<K>>, slotOf: K -> U64)
    requires SlotOfKey(t, slotOf) && AllInWindow(window, t)
    ensures MatcherLaws.Accounts(Run(every, Fresh(window), t), Deltas(PairsOf(t)))
    ensures Run(every, Fresh(window), t).counts.matched == |EvenPlaces(t)|
  {
    LogIsPairs(every, window, t, slotOf);
    SampleAccounting(every, window, t);
    PairsAtEvenPlaces(t);
  }

  // ----- one key -----

  /** A key's matches are the even places of its own alternating runs. */
  lemma {:induction false} PairsPerKey<K>(t: seq<Obs<K>>, k: K)
    ensures MatchesOf(PairsOf(t), k) == Evens(KeyEps(t, k))
  {
    if t != [] {
      var n := |t| - 1;
      var before := PairsOf(t[..n]);
      PairsPerKey(t[..n], k);
      assert t[..n + 1] == t;
      match PairAt(t, n) {
        case None =>
        case Some(r) => assert (before + [Match(t[n].key, r)])[..|before|] == before;
      }
      PosStep(t, n);
      if t[n].key == k {
        TailRunNext(KeyEps(t[..n], k), t[n].ep);
      }
    }
  }

  // ----- when every report of a key is matched -----

  /** First with second, third with fourth, and so on, always from different endpoints. */
  ghost predicate PairsUp(s: seq<EndpointRole>) {
    |s| % 2 == 0 && forall i :: 0 <= i < |s| / 2 ==> s[2 * i] != s[2 * i + 1]
  }

  lemma {:induction false} EvensAtMostHalf(s: seq<EndpointRole>)
    ensures 2 * Evens(s) + TailRun(s) % 2 <= |s|
  {
    if s != [] {
      EvensAtMostHalf(s[..|s| - 1]);
    }
  }

  /** Whether nothing is left over can be told two arrivals at a time. */
  lemma LastTwo(s: seq<EndpointRole>)
    requires |s| >= 2
    ensures var n := |s| - 2;
            2 * Evens(s) == |s| <==> 2 * Evens(s[..n]) == n && s[n] != s[n + 1]
  {
    var n := |s| - 2;
    var s1, s2 := s[..n + 1], s[..n];
    assert s1[..n] == s2;
    EvensAtMostHalf(s2);
    OneMore(s);
    OneMore(s1);
    TwoMore(n, Evens(s2), TailRun(s2), n > 0 && s[n - 1] != s[n], s[n] != s[n + 1]);
  }

  /** How a run of length t continues, and what that adds. */
  function Longer(t: nat, alternates: bool): nat {
    if alternates then t + 1 else 1
  }

  function Gained(t: nat): nat {
    if t % 2 == 0 then 1 else 0
  }

  lemma TwoMore(n: nat, e: nat, t: nat, first: bool, second: bool)
    requires 2 * e + t % 2 <= n
    ensures var t1 := Longer(t, first);
            2 * (e + Gained(t1) + Gained(Longer(t1, second))) == n + 2 <==> 2 * e == n && second
  {
  }

  lemma OneMore(s: seq<EndpointRole>)
    requires s != []
    ensures var n := |s| - 1;
            && TailRun(s) == Longer(TailRun(s[..n]), n > 0 && s[n - 1] != s[n])
            && Evens(s) == Evens(s[..n]) + Gained(TailRun(s))
  {
  }

  lemma PairsUpLastTwo(s: seq<EndpointRole>)
    requires |s| >= 2
    ensures var n := |s| - 2; PairsUp(s) <==> PairsUp(s[..n]) && s[n] != s[n + 1]
  {
    var n := |s| - 2;
    var s2 := s[..n];
    if PairsUp(s) {
      assert s[2 * (|s| / 2 - 1)] != s[2 * (|s| / 2 - 1) + 1];
      forall i | 0 <= i < n / 2 ensures s2[2 * i] != s2[2 * i + 1] {
        assert s[2 * i] != s[2 * i + 1];
      }
    }
    if PairsUp(s2) && s[n] != s[n + 1] {
      forall i | 0 <= i < |s| / 2 ensures s[2 * i] != s[2 * i + 1] {
        if i < n / 2 {
          assert s2[2 * i] != s2[2 * i + 1];
        }
      }
    }
  }

  lemma {:induction false} HalfExactlyWhenPaired(s: seq<EndpointRole>)
    ensures 2 * Evens(s) == |s| <==> PairsUp(s)
  {
    if |s| >= 2 {
      HalfExactlyWhenPaired(s[..|s| - 2]);
      LastTwo(s);
      PairsUpLastTwo(s);
    }
  }

  /** In an in-window trace every report of a key is in a match exactly when the key's arrivals,
      taken two by two, always come from different endpoints. */
  lemma AllReportsMatched<K>(every: nat, window: U64, t: seq<Obs<K>>, slotOf: K -> U64, k: K)
    requires SlotOfKey(t, slotOf) && AllInWindow(window, t)
    ensures MatchesOf(Log(every, Fresh(window), t), k) == Evens(KeyEps(t, k))
    ensures 2 * MatchesOf(Log(every, Fresh(window), t), k) == |KeyEps(t, k)| <==> PairsUp(KeyEps(t, k))
  {
    LogIsPairs(every, window, t, slotOf);
    PairsPerKey(t, k);
    HalfExactlyWhenPaired(KeyEps(t, k));
  }

  // ----- bursts -----

  function CountEp(s: seq<EndpointRole>, ep: EndpointRole): nat {
    if s == [] then 0 else CountEp(s[..|s| - 1], ep) + (if s[|s| - 1] == ep then 1 else 0)
  }

  /** Every report from `ep` comes before every report from the other endpoint. */
  ghost predicate ComesFirst(s: seq<EndpointRole>, ep: EndpointRole) {
    forall i, j :: 0 <= i < |s| && 0 <= j < |s| && s[i] == ep && s[j] != ep ==> i < j
  }

  /** One endpoint's burst is over before the other's begins. */
  ghost predicate BurstsApart(s: seq<EndpointRole>) {
    ComesFirst(s, One) || ComesFirst(s, Two)
  }

  lemma ComesFirstSnoc(s: seq<EndpointRole>, ep: EndpointRole)
    requires s != [] && ComesFirst(s, ep)
    ensures ComesFirst(s[..|s| - 1], ep)
    ensures s[|s| - 1] == ep ==> forall i :: 0 <= i < |s| ==> s[i] == ep
  {
    var n := |s| - 1;
    var before := s[..n];
    forall i, j | 0 <= i < n && 0 <= j < n && before[i] == ep && before[j] != ep ensures i < j {
      assert s[i] == ep && s[j] != ep;
    }
    if s[n] == ep {
      forall i | 0 <= i < |s| ensures s[i] == ep {
        if s[i] != ep {
          assert false;
        }
      }
    }
  }

  lemma {:induction false} AllSame(s: seq<EndpointRole>, ep: EndpointRole)
    requires forall i :: 0 <= i < |s| ==> s[i] == ep
    ensures Evens(s) == 0 && TailRun(s) <= 1 && CountEp(s, ep) == |s| && CountEp(s, ep.Other()) == 0
  {
    if s != [] {
      AllSame(s[..|s| - 1], ep);
    }
  }

  lemma {:induction false} ApartMatchesOnce(s: seq<EndpointRole>, ep: EndpointRole)
    requires ComesFirst(s, ep)
    ensures Evens(s) == if CountEp(s, One) > 0 && CountEp(s, Two) > 0 then 1 else 0
  {
    if s != [] {
      var n := |s| - 1;
      ComesFirstSnoc(s, ep);
      ApartMatchesOnce(s[..n], ep);
      if s[n] == ep {
        AllSame(s, ep);
      } else if n > 0 && s[n - 1] == ep {
        ComesFirstSnoc(s[..n], ep);
        AllSame(s[..n], ep);
      }
    }
  }

  lemma {:induction false} NoMatchOneSided(s: seq<EndpointRole>)
    requires Evens(s) == 0 && s != []
    ensures forall i :: 0 <= i < |s| ==> s[i] == s[0]
  {
    var n := |s| - 1;
    if n > 0 {
      NoMatchOneSided(s[..n]);
      AllSame(s[..n], s[0]);
    }
  }

  /** First `a` reports from one endpoint, the rest from the other. */
  ghost predicate TwoBlocks(s: seq<EndpointRole>, a: int) {
    0 < a < |s| && forall i :: 0 <= i < |s| ==> (s[i] == s[0] <==> i < a)
  }

  /** A single report of one endpoint among those of the other. */
  ghost predicate Spike(s: seq<EndpointRole>, a: int) {
    0 < a < |s| - 1 && forall i :: 0 <= i < |s| ==> (s[i] == s[0] <==> i != a)
  }

  lemma {:induction false} OneMatchShape(s: seq<EndpointRole>) returns (a: int)
    requires Evens(s) == 1
    ensures TwoBlocks(s, a) || Spike(s, a)
  {
    var n := |s| - 1;
    var before := s[..n];
    if TailRun(s) % 2 == 0 {
      NoMatchOneSided(before);
      AllSame(before, s[0]);
      a := n;
    } else {
      a := OneMatchShape(before);
      assert forall i :: 0 <= i < n ==> s[i] == before[i];
      TailOfShape(before, a);
    }
  }

  lemma TailOfShape(s: seq<EndpointRole>, a: int)
    requires TwoBlocks(s, a) || Spike(s, a)
    ensures TwoBlocks(s, a) ==> TailRun(s) == if a == |s| - 1 then 2 else 1
    ensures Spike(s, a) ==> TailRun(s) == if a == |s| - 2 then 3 else 1
  {
    var n := |s| - 1;
    assert s[n - 1] == s[..n][n - 1];
    if TwoBlocks(s, a) && a == n {
      AllSame(s[..n], s[0]);
    }
    if Spike(s, a) && a == n - 1 {
      AllSame(s[..n - 1], s[0]);
      assert s[..n][..n - 1] == s[..n - 1];
    }
  }

  lemma {:induction false} CountsCover(s: seq<EndpointRole>)
    ensures CountEp(s, One) + CountEp(s, Two) == |s|
  {
    if s != [] {
      CountsCover(s[..|s| - 1]);
    }
  }

  lemma {:induction false} SpikeCount(s: seq<EndpointRole>, a: int, x: EndpointRole)
    requires 0 <= a < |s| && forall i :: 0 <= i < |s| ==> (s[i] == x <==> i != a)
    ensures CountEp(s, x) == |s| - 1
  {
    var n := |s| - 1;
    if a == n {
      AllSame(s[..n], x);
    } else {
      SpikeCount(s[..n], a, x);
    }
  }

  /** A key that both endpoints report equally often is matched once exactly when one endpoint's
      reports are all before the other's. */
  lemma OnceExactlyWhenApart(s: seq<EndpointRole>)
    requires CountEp(s, One) == CountEp(s, Two) > 0
    ensures Evens(s) == 1 <==> BurstsApart(s)
  {
    if ComesFirst(s, One) {
      ApartMatchesOnce(s, One);
    }
    if ComesFirst(s, Two) {
      ApartMatchesOnce(s, Two);
    }
    if Evens(s) == 1 {
      var a := OneMatchShape(s);
      CountsCover(s);
      if Spike(s, a) {
        SpikeCount(s, a, s[0]);
        assert false;
      }
      assert ComesFirst(s, s[0]);
    }
  }

  lemma {:induction false} TimesReportedCounts<K>(t: seq<Obs<K>>, ep: EndpointRole, k: K)
    ensures TimesReported(t, ep, k) == CountEp(KeyEps(t, k), ep)
  {
    if t != [] {
      var n := |t| - 1;
      TimesReportedCounts(t[..n], ep, k);
      var s := KeyEps(t[..n], k);
      assert (s + [t[n].ep])[..|s|] == s;
    }
  }

  /** A burst of N writes under one key, reported by both endpoints, contributes one match
      exactly when the two bursts do not interleave. */
  lemma BurstMatchedOnce<K>(every: nat, window: U64, t: seq<Obs<K>>, slotOf: K -> U64, k: K)
    requires SlotOfKey(t, slotOf) && AllInWindow(window, t)
    requires TimesReported(t, One, k) == TimesReported(t, Two, k) > 0
    ensures MatchesOf(Log(every, Fresh(window), t), k) == 1 <==> BurstsApart(KeyEps(t, k))
  {
    AllReportsMatched(every, window, t, slotOf, k);
    TimesReportedCounts(t, One, k);
    TimesReportedCounts(t, Two, k);
    OnceExactlyWhenApart(KeyEps(t, k));
  }

  // ----- the order within each key decides -----

  /** A key's arrivals, in order. */
  function KeyTrace<K(==)>(t: seq<Obs<K>>, k: K): seq<Obs<K>> {
    if t == [] then []
    else
      var n := |t| - 1;
      if t[n].key == k then KeyTrace(t[..n], k) + [t[n]] else KeyTrace(t[..n], k)
  }

  function LogOf<K(==)>(log: seq<Match<K>>, k: K): seq<Match<K>> {
    if log == [] then []
    else
      var n := |log| - 1;
      if log[n].key == k then LogOf(log[..n], k) + [log[n]] else LogOf(log[..n], k)
  }

  ghost predicate OneKey<K>(t: seq<Obs<K>>, k: K) {
    forall i :: 0 <= i < |t| ==> t[i].key == k
  }

  lemma {:induction false} KeyTraceFacts<K>(t: seq<Obs<K>>, k: K)
    ensures OneKey(KeyTrace(t, k), k)
    ensures KeyEps(KeyTrace(t, k), k) == KeyEps(t, k)
    ensures var j, u := Latest(t, k), KeyTrace(t, k); if j < 0 then u == [] else u != [] && u[|u| - 1] == t[j]
  {
    if t != [] {
      var n := |t| - 1;
      KeyTraceFacts(t[..n], k);
      var u := KeyTrace(t[..n], k);
      assert (u + [t[n]])[..|u|] == u;
    }
  }

  /** In a trace of one key, each arrival looks at the one before it. */
  lemma OneKeyLatest<K>(t: seq<Obs<K>>, k: K)
    requires OneKey(t, k)
    ensures Latest(t, k) == |t| - 1
  {
  }

  /** A trace of one key scanned from the front: the place of its last arrival, and the deltas of
      its pairs. */
  function LastPlace<K>(t: seq<Obs<K>>): nat {
    var n := |t| - 1;
    if n <= 0 then |t| else if t[n - 1].ep != t[n].ep then LastPlace(t[..n]) + 1 else 1
  }

  function ScanDeltas<K>(t: seq<Obs<K>>): seq<int> {
    var n := |t| - 1;
    if n <= 0 then []
    else if LastPlace(t) % 2 == 0 then ScanDeltas(t[..n]) + [PairOf(t[n], Pending(t[n - 1].ts, t[n - 1].slot)).deltaNs]
    else ScanDeltas(t[..n])
  }

  lemma {:induction false} ScanIsPairs<K>(t: seq<Obs<K>>, k: K)
    requires t != [] && OneKey(t, k)
    ensures LastPlace(t) == Pos(t, |t| - 1) && ScanDeltas(t) == Deltas(PairsOf(t))
  {
    var n := |t| - 1;
    var before := t[..n];
    OneKeyLatest(before, k);
    PosStep(t, n);
    if n > 0 {
      ScanIsPairs(before, k);
      assert before[..n] == before && t[..n][..n] == t[..n];
      var log := PairsOf(before);
      if Pos(t, n) % 2 == 0 {
        var r := PairOf(t[n], Pending(t[n - 1].ts, t[n - 1].slot));
        assert PairAt(t, n) == Some(r);
        assert (log + [Match(k, r)])[..|log|] == log;
      }
    } else {
      assert PairsOf(before) == [];
    }
  }

  lemma ScanPrefix<K>(t: seq<Obs<K>>, n: nat)
    requires 0 < n < |t|
    ensures LastPlace(t[..n + 1]) == if t[n - 1].ep != t[n].ep then LastPlace(t[..n]) + 1 else 1
    ensures ScanDeltas(t[..n + 1]) == if LastPlace(t[..n + 1]) % 2 == 0
                                      then ScanDeltas(t[..n]) + [PairOf(t[n], Pending(t[n - 1].ts, t[n - 1].slot)).deltaNs]
                                      else ScanDeltas(t[..n])
  {
    assert t[..n + 1][..n] == t[..n];
  }

  lemma TwoThenTwoScan<K>(t: seq<Obs<K>>)
    requires |t| == 4 && (t[0].ep, t[1].ep, t[2].ep, t[3].ep) == (One, One, Two, Two)
    ensures ScanDeltas(t) == [DeltaNs(t[1].ts, t[2].ts)]
  {
    ScanPrefix(t, 1);
    ScanPrefix(t, 2);
    ScanPrefix(t, 3);
    assert t[..4] == t && ScanDeltas(t[..1]) == [] && LastPlace(t[..1]) == 1;
    assert LastPlace(t[..2]) == 1 && ScanDeltas(t[..2]) == [];
    assert LastPlace(t[..3]) == 2 && ScanDeltas(t[..3]) == [DeltaNs(t[1].ts, t[2].ts)];
    assert LastPlace(t) == 1;
  }

  lemma OneByOneScan<K>(t: seq<Obs<K>>)
    requires |t| == 4 && (t[0].ep, t[1].ep, t[2].ep, t[3].ep) == (One, Two, One, Two)
    ensures ScanDeltas(t) == [DeltaNs(t[0].ts, t[1].ts), DeltaNs(t[2].ts, t[3].ts)]
  {
    ScanPrefix(t, 1);
    ScanPrefix(t, 2);
    ScanPrefix(t, 3);
    assert t[..4] == t && ScanDeltas(t[..1]) == [] && LastPlace(t[..1]) == 1;
    assert LastPlace(t[..2]) == 2 && LastPlace(t[..3]) == 3 && LastPlace(t) == 4;
    assert ScanDeltas(t[..2]) == [] + [DeltaNs(t[0].ts, t[1].ts)];
    assert ScanDeltas(t) == [DeltaNs(t[0].ts, t[1].ts)] + [DeltaNs(t[2].ts, t[3].ts)];
  }

  /** What two reports from each endpoint pair up to: one endpoint after the other, or in turn. */
  lemma TwoThenTwo<K>(t: seq<Obs<K>>, k: K)
    requires |t| == 4 && OneKey(t, k) && (t[0].ep, t[1].ep, t[2].ep, t[3].ep) == (One, One, Two, Two)
    ensures Deltas(PairsOf(t)) == [DeltaNs(t[1].ts, t[2].ts)]
  {
    TwoThenTwoScan(t);
    ScanIsPairs(t, k);
  }

  lemma OneByOne<K>(t: seq<Obs<K>>, k: K)
    requires |t| == 4 && OneKey(t, k) && (t[0].ep, t[1].ep, t[2].ep, t[3].ep) == (One, Two, One, Two)
    ensures Deltas(PairsOf(t)) == [DeltaNs(t[0].ts, t[1].ts), DeltaNs(t[2].ts, t[3].ts)]
  {
    OneByOneScan(t);
    ScanIsPairs(t, k);
  }

  lemma OneSlotInWindow<K>(window: U64, t: seq<Obs<K>>, slot: U64)
    requires forall i :: 0 <= i < |t| ==> t[i].slot == slot
    ensures AllInWindow(window, t)
  {
    forall i | 0 <= i < |t| ensures InWindow(window, t, i) {
      OneSlotHighWater(t[..i + 1], slot);
    }
  }

  lemma {:induction false} OneSlotHighWater<K>(t: seq<Obs<K>>, slot: U64)
    requires forall i :: 0 <= i < |t| ==> t[i].slot == slot
    ensures HighWater(t) <= slot
  {
    if t != [] {
      OneSlotHighWater(t[..|t| - 1], slot);
    }
  }

  lemma PairAtOfKey<K>(t: seq<Obs<K>>)
    requires t != []
    ensures var n := |t| - 1;
            var u := KeyTrace(t[..n], t[n].key) + [t[n]];
            PairAt(u, |u| - 1) == PairAt(t, n)
  {
    var n := |t| - 1;
    var k := t[n].key;
    var before := KeyTrace(t[..n], k);
    var u := before + [t[n]];
    assert u == KeyTrace(t, k) && u[..|before|] == before && u[..|u|] == u && t[..n + 1] == t;
    KeyTraceFacts(t[..n], k);
    KeyTraceFacts(t, k);
    OneKeyLatest(before, k);
  }

  lemma {:induction false} PairsOfKey<K>(t: seq<Obs<K>>, k: K)
    ensures LogOf(PairsOf(t), k) == PairsOf(KeyTrace(t, k))
  {
    if t != [] {
      var n := |t| - 1;
      PairsOfKey(t[..n], k);
      var before := PairsOf(t[..n]);
      match PairAt(t, n) {
        case None =>
        case Some(r) => assert (before + [Match(t[n].key, r)])[..|before|] == before;
      }
      if t[n].key == k {
        PairAtOfKey(t);
        var u := KeyTrace(t[..n], k);
        assert (u + [t[n]])[..|u|] == u;
      }
    }
  }

  lemma {:induction false} LogOfCounts<K>(log: seq<Match<K>>, m: Match<K>)
    ensures multiset(log)[m] == multiset(LogOf(log, m.key))[m]
  {
    if log != [] {
      var n := |log| - 1;
      LogOfCounts(log[..n], m);
      assert log == log[..n] + [log[n]];
      var before := LogOf(log[..n], m.key);
      assert multiset(before + [log[n]]) == multiset(before) + multiset{log[n]};
      assert multiset(log[..n] + [log[n]]) == multiset(log[..n]) + multiset{log[n]};
    }
  }

  ghost predicate SameKeyOrder<K(!new)>(t: seq<Obs<K>>, u: seq<Obs<K>>) {
    forall k :: KeyTrace(t, k) == KeyTrace(u, k)
  }

  /** Two in-window traces that keep each key's arrivals in the same order make the same
      matches, whatever is repeated, however the keys interleave and under any two cadences. */
  lemma KeyOrderDecides<K(!new)>(e1: nat, e2: nat, window: U64, t: seq<Obs<K>>, u: seq<Obs<K>>, slotOf: K -> U64)
    requires SlotOfKey(t, slotOf) && AllInWindow(window, t) && SlotOfKey(u, slotOf) && AllInWindow(window, u)
    requires SameKeyOrder(t, u)
    ensures multiset(Log(e1, Fresh(window), t)) == multiset(Log(e2, Fresh(window), u))
  {
    LogIsPairs(e1, window, t, slotOf);
    LogIsPairs(e2, window, u, slotOf);
    var a, b := multiset(PairsOf(t)), multiset(PairsOf(u));
    forall m: Match<K> ensures a[m] == b[m] {
      LogOfCounts(PairsOf(t), m);
      LogOfCounts(PairsOf(u), m);
      PairsOfKey(t, m.key);
      PairsOfKey(u, m.key);
      assert KeyTrace(t, m.key) == KeyTrace(u, m.key);
    }
    assert a == b;
  }
}
