/** What an endpoint's cross-stream tracker records, read off the payloads of the events it is
    shown. */
module TrackerLaws {
  import opened Types
  import opened MatcherWindow
  import opened RendezvousSpec
  import opened RepeatedKeys
  import opened CrossStream

  /** A transaction of the endpoint, under the key it is paired by. */
  predicate IsTx(ep: EndpointRole, e: Event, key: TxKey) {
    e.subscription.ep == ep && e.payload.TransactionUpdate? && (e.payload.slot, e.payload.signature) == key
  }

  /** A signed account update of the endpoint, under its transaction's key. */
  predicate IsSignedUpdate(ep: EndpointRole, e: Event, key: TxKey) {
    && e.subscription.ep == ep && e.payload.AccountUpdate?
    && e.payload.txnSignature.Some? && (e.payload.slot, e.payload.txnSignature.value) == key
  }

  predicate Concerns(ep: EndpointRole, e: Event, key: TxKey) {
    IsTx(ep, e, key) || IsSignedUpdate(ep, e, key)
  }

  /** The latest earlier event of a key, or -1. */
  function Previous(ep: EndpointRole, events: seq<Event>, key: TxKey): (j: int)
    ensures -1 <= j < |events|
    ensures j >= 0 ==> Concerns(ep, events[j], key)
    ensures forall i :: j < i < |events| ==> !Concerns(ep, events[i], key)
  {
    if events == [] then -1
    else if Concerns(ep, events[|events| - 1], key) then |events| - 1
    else Previous(ep, events[..|events| - 1], key)
  }

  /** Event `i` completes a pair: the previous event of its key is of the other kind and did not
      itself complete one. */
  ghost predicate Completes(ep: EndpointRole, events: seq<Event>, i: nat, key: TxKey)
    requires i < |events|
    decreases i
  {
    var j := Previous(ep, events[..i], key);
    && Concerns(ep, events[i], key)
    && j >= 0 && IsTx(ep, events[j], key) != IsTx(ep, events[i], key) && !Completes(ep, events, j, key)
  }

  /** The highest slot among the endpoint's transactions and signed account updates. */
  function SlotReached(ep: EndpointRole, events: seq<Event>): nat {
    if events == [] then 0
    else
      var before, e := SlotReached(ep, events[..|events| - 1]), events[|events| - 1];
      if e.subscription.ep == ep && (e.payload.TransactionUpdate? || (e.payload.AccountUpdate? && e.payload.txnSignature.Some?))
      then Max(before, e.payload.slot) else before
  }

  /** The tracker's samples after some events. */
  ghost function TrackedSamples(ep: EndpointRole, events: seq<Event>): multiset<int> {
    PairerRun(Arrivals(ep, events)).digest.All()
  }

  lemma ArrivalsNext(ep: EndpointRole, events: seq<Event>, i: nat)
    requires i < |events|
    ensures Arrivals(ep, events[..i + 1]) == match ArrivalOf(ep, events[i])
                                             case None => Arrivals(ep, events[..i])
                                             case Some(a) => Arrivals(ep, events[..i]) + [a]
  {
    assert events[..i + 1][..i] == events[..i];
  }

  lemma ArrivalConcerns(ep: EndpointRole, e: Event, key: TxKey)
    ensures Concerns(ep, e, key) <==> ArrivalOf(ep, e).Some? && AsObs(ArrivalOf(ep, e).value).key == key
    ensures IsTx(ep, e, key) ==> ArrivalOf(ep, e).value == TxSeen(key.0, key.1, e.ts)
    ensures IsSignedUpdate(ep, e, key) ==> ArrivalOf(ep, e).value == AccountSeen(key.0, key.1, e.ts)
  {
  }

  /** Events of the other endpoint, unsigned account updates and other payloads change nothing. */
  lemma TrackerIgnores(ep: EndpointRole, events: seq<Event>, e: Event)
    requires e.subscription.ep != ep || !(e.payload.TransactionUpdate? || (e.payload.AccountUpdate? && e.payload.txnSignature.Some?))
    ensures PairerRun(Arrivals(ep, events + [e])) == PairerRun(Arrivals(ep, events))
  {
    TrackSnoc(ep, events, e);
  }

  lemma {:induction false} SlotReachedIsHighWater(ep: EndpointRole, events: seq<Event>)
    ensures SlotReached(ep, events) == HighWater(AsTrace(Arrivals(ep, events)))
  {
    if events != [] {
      var n := |events| - 1;
      SlotReachedIsHighWater(ep, events[..n]);
      ArrivalsNext(ep, events, n);
      assert events[..n + 1] == events;
      var tr := AsTrace(Arrivals(ep, events[..n]));
      match ArrivalOf(ep, events[n])
      case None =>
      case Some(a) => assert AsTrace(Arrivals(ep, events)) == tr + [AsObs(a)] && (tr + [AsObs(a)])[..|tr|] == tr;
    }
  }

  /** Where the previous event of a key stands among the arrivals. */
  lemma {:induction false} PreviousAmongArrivals(ep: EndpointRole, events: seq<Event>, key: TxKey)
    ensures var j, tr := Previous(ep, events, key), AsTrace(Arrivals(ep, events));
            if j < 0 then Latest(tr, key) == -1
            else
              var k := |Arrivals(ep, events[..j])|;
              Latest(tr, key) == k && k < |tr| && Some(Arrivals(ep, events)[k]) == ArrivalOf(ep, events[j])
  {
    if events != [] {
      var n := |events| - 1;
      var before := events[..n];
      PreviousAmongArrivals(ep, before, key);
      ArrivalsNext(ep, events, n);
      ArrivalConcerns(ep, events[n], key);
      assert events[..n + 1] == events;
      var tr := AsTrace(Arrivals(ep, before));
      var j := Previous(ep, before, key);
      if j >= 0 {
        assert before[..j] == events[..j];
      }
      match ArrivalOf(ep, events[n])
      case None =>
      case Some(a) =>
        assert AsTrace(Arrivals(ep, events)) == tr + [AsObs(a)] && (tr + [AsObs(a)])[..|tr|] == tr;
    }
  }

  lemma {:induction false} ArrivalsPrefix(ep: EndpointRole, events: seq<Event>, i: nat)
    requires i <= |events|
    ensures Arrivals(ep, events[..i]) <= Arrivals(ep, events)
    decreases |events| - i
  {
    if i < |events| {
      ArrivalsPrefix(ep, events, i + 1);
      ArrivalsNext(ep, events, i);
    } else {
      assert events[..i] == events;
    }
  }

  /** Where an event that counts stands among the arrivals. */
  lemma PlaceAmongArrivals(ep: EndpointRole, events: seq<Event>, i: nat)
    requires i < |events| && ArrivalOf(ep, events[i]).Some?
    ensures var k, all := |Arrivals(ep, events[..i])|, Arrivals(ep, events);
            && k < |all| && all[..k] == Arrivals(ep, events[..i]) && all[..k + 1] == Arrivals(ep, events[..i + 1])
            && Some(all[k]) == ArrivalOf(ep, events[i])
  {
    ArrivalsNext(ep, events, i);
    ArrivalsPrefix(ep, events, i);
    ArrivalsPrefix(ep, events, i + 1);
  }

  /** The previous event of its key is the arrival's latest. */
  lemma PreviousIsLatest(ep: EndpointRole, events: seq<Event>, i: nat, key: TxKey)
    requires i < |events| && Concerns(ep, events[i], key)
    ensures var k, tr, j := |Arrivals(ep, events[..i])|, AsTrace(Arrivals(ep, events)), Previous(ep, events[..i], key);
            && k < |tr| && tr[k].key == key && tr[k].ep == (if IsTx(ep, events[i], key) then One else Two)
            && Latest(tr[..k], key) == if j < 0 then -1 else |Arrivals(ep, events[..j])|
  {
    ArrivalConcerns(ep, events[i], key);
    PlaceAmongArrivals(ep, events, i);
    PreviousAmongArrivals(ep, events[..i], key);
    var k := |Arrivals(ep, events[..i])|;
    assert AsTrace(Arrivals(ep, events))[..k] == AsTrace(Arrivals(ep, events[..i]));
    var j := Previous(ep, events[..i], key);
    if j >= 0 {
      assert events[..i][..j] == events[..j];
    }
  }

  /** The alternation, one event back. */
  lemma EvenPlaceStep(ep: EndpointRole, events: seq<Event>, i: nat, key: TxKey)
    requires i < |events| && Concerns(ep, events[i], key)
    ensures var tr, j := AsTrace(Arrivals(ep, events)), Previous(ep, events[..i], key);
            var k := |Arrivals(ep, events[..i])|;
            && k < |tr|
            && if j < 0 then Pos(tr, k) == 1
               else
                 var m := |Arrivals(ep, events[..j])|;
                 m < |tr| && Pos(tr, k) == if IsTx(ep, events[j], key) != IsTx(ep, events[i], key) then Pos(tr, m) + 1 else 1
  {
    var k, tr := |Arrivals(ep, events[..i])|, AsTrace(Arrivals(ep, events));
    PreviousIsLatest(ep, events, i, key);
    PosStep(tr, k);
    var j := Previous(ep, events[..i], key);
    if j >= 0 {
      assert events[..i][j] == events[j];
      PreviousIsLatest(ep, events, j, key);
    }
  }

  /** An event completes a pair exactly at an even place among its key's alternating arrivals. */
  lemma {:induction false} CompletesAtEvenPlace(ep: EndpointRole, events: seq<Event>, i: nat, key: TxKey)
    requires i < |events| && Concerns(ep, events[i], key)
    ensures var k, tr := |Arrivals(ep, events[..i])|, AsTrace(Arrivals(ep, events));
            k < |tr| && (Completes(ep, events, i, key) <==> Pos(tr, k) % 2 == 0)
    decreases i
  {
    EvenPlaceStep(ep, events, i, key);
    var j := Previous(ep, events[..i], key);
    if j >= 0 {
      assert events[..i][j] == events[j];
      CompletesAtEvenPlace(ep, events, j, key);
    }
  }

  /** The two events of a pair, transaction first. */
  function PairedEvents(ep: EndpointRole, events: seq<Event>, i: nat, key: TxKey): (Event, Event)
    requires i < |events| && Previous(ep, events[..i], key) >= 0
  {
    var e, p := events[i], events[Previous(ep, events[..i], key)];
    if IsTx(ep, e, key) then (e, p) else (p, e)
  }

  lemma PairedSample(ep: EndpointRole, events: seq<Event>, i: nat, key: TxKey)
    requires i < |events| && Completes(ep, events, i, key)
    ensures var arrivals, k, j := Arrivals(ep, events), |Arrivals(ep, events[..i])|, Previous(ep, events[..i], key);
            var (tx, account) := PairedEvents(ep, events, i, key);
            var m := |Arrivals(ep, events[..j])|;
            && k < |arrivals| && m < |arrivals| && SampleOf(arrivals, m, k) == DeltaNs(tx.ts, account.ts)
            && IsTx(ep, tx, key) && IsSignedUpdate(ep, account, key)
  {
    var j := Previous(ep, events[..i], key);
    assert events[..i][j] == events[j];
    ArrivalConcerns(ep, events[i], key);
    ArrivalConcerns(ep, events[j], key);
    PlaceAmongArrivals(ep, events, i);
    PlaceAmongArrivals(ep, events, j);
  }

  /** How far behind an event is can be told from the events alone. */
  lemma InWindowOnEvents(ep: EndpointRole, events: seq<Event>, i: nat, key: TxKey)
    requires i < |events| && Concerns(ep, events[i], key)
    ensures var k, tr := |Arrivals(ep, events[..i])|, AsTrace(Arrivals(ep, events));
            k < |tr| && (InWindow(64, tr, k) <==> key.0 + 64 >= SlotReached(ep, events[..i + 1]))
  {
    var arrivals, k := Arrivals(ep, events), |Arrivals(ep, events[..i])|;
    ArrivalConcerns(ep, events[i], key);
    PlaceAmongArrivals(ep, events, i);
    SlotReachedIsHighWater(ep, events[..i + 1]);
    assert AsTrace(arrivals)[..k + 1] == AsTrace(arrivals[..k + 1]);
  }

  /** The arrival-level law at an event's own arrival. */
  lemma TrackerStep(ep: EndpointRole, events: seq<Event>, i: nat)
    requires i < |events| && ArrivalOf(ep, events[i]).Some?
    ensures var arrivals, k := Arrivals(ep, events), |Arrivals(ep, events[..i])|;
            var before, after := TrackedSamples(ep, events[..i]), TrackedSamples(ep, events[..i + 1]);
            var tr := AsTrace(arrivals);
            && k < |arrivals|
            && if InWindow(64, tr, k) && Pos(tr, k) % 2 == 0
               then var j := Latest(tr[..k], tr[k].key); j >= 0 && after == before + multiset{SampleOf(arrivals, j, k)}
               else after == before
  {
    PlaceAmongArrivals(ep, events, i);
    RecordedExactlyWhen(Arrivals(ep, events), |Arrivals(ep, events[..i])|);
  }

  /** On every sequence of events, read off their payloads: a transaction or a signed account
      update of the endpoint adds a sample exactly when it is at most 64 slots behind and
      completes a pair, and the sample is the account's reading minus the transaction's. */
  lemma TrackerRecordsExactly(ep: EndpointRole, events: seq<Event>, i: nat, key: TxKey)
    requires i < |events| && Concerns(ep, events[i], key)
    ensures var before, after := TrackedSamples(ep, events[..i]), TrackedSamples(ep, events[..i + 1]);
            if key.0 + 64 >= SlotReached(ep, events[..i + 1]) && Completes(ep, events, i, key)
            then
              var (tx, account) := PairedEvents(ep, events, i, key);
              && IsTx(ep, tx, key) && IsSignedUpdate(ep, account, key)
              && after == before + multiset{DeltaNs(tx.ts, account.ts)}
            else after == before
  {
    ArrivalConcerns(ep, events[i], key);
    TrackerStep(ep, events, i);
    InWindowOnEvents(ep, events, i, key);
    CompletesAtEvenPlace(ep, events, i, key);
    PreviousIsLatest(ep, events, i, key);
    if Completes(ep, events, i, key) {
      PairedSample(ep, events, i, key);
    }
  }
}
