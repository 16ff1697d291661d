/** Pairing transactions with account updates inside one endpoint. The pairer is a second
    implementation of the rendezvous, which looks before it evicts; it records exactly what
    the eager matcher with a 64-slot window records. */
module CrossStream {
  import opened Types
  import opened Digests
  import opened PairMatching
  import opened MatcherLaws
  import opened MatcherWindow
  import opened RendezvousSpec
  import opened RepeatedKeys

  const CROSS_WINDOW: U64 := 64

  type TxKey = (U64, Signature64)

  datatype Arrival =
    | TxSeen(slot: U64, signature: Signature64, ts: Timestamp)
    | AccountSeen(slot: U64, signature: Signature64, ts: Timestamp)

  datatype Pairer = Pairer(pendingTx: map<TxKey, Timestamp>, pendingAccount: map<TxKey, Timestamp>,
                           digest: Digest, highWater: U64)

  const FRESH_PAIRER := Pairer(map[], map[], EMPTY, 0)

  function KeepRecent(pending: map<TxKey, Timestamp>, cutoff: nat): map<TxKey, Timestamp> {
    map k | k in pending && k.0 >= cutoff :: pending[k]
  }

  function PairerEvict(p: Pairer): Pairer {
    var cutoff := SaturatingSub(p.highWater, CROSS_WINDOW);
    p.(pendingTx := KeepRecent(p.pendingTx, cutoff), pendingAccount := KeepRecent(p.pendingAccount, cutoff))
  }

  /** Match or wait, with the high water already bumped and eviction still to come. */
  function PairerMeet(p: Pairer, a: Arrival): Pairer {
    var key := (a.slot, a.signature);
    match a
    case TxSeen(_, _, ts) =>
      if key in p.pendingAccount
      then p.(pendingAccount := p.pendingAccount - {key}, digest := p.digest.Push(DeltaNs(ts, p.pendingAccount[key])))
      else p.(pendingTx := p.pendingTx[key := ts])
    case AccountSeen(_, _, ts) =>
      if key in p.pendingTx
      then p.(pendingTx := p.pendingTx - {key}, digest := p.digest.Push(DeltaNs(p.pendingTx[key], ts)))
      else p.(pendingAccount := p.pendingAccount[key := ts])
  }

  function PairerStep(p: Pairer, a: Arrival): Pairer {
    PairerEvict(PairerMeet(p.(highWater := Max(p.highWater, a.slot)), a))
  }

  function PairerRun(t: seq<Arrival>): Pairer {
    if t == [] then FRESH_PAIRER else PairerStep(PairerRun(t[..|t| - 1]), t[|t| - 1])
  }

  // ----- against the eager matcher -----

  /** Transactions play endpoint One and account updates endpoint Two. */
  function AsObs(a: Arrival): Obs<TxKey> {
    Obs(if a.TxSeen? then One else Two, (a.slot, a.signature), a.ts, a.slot)
  }

  function AsTrace(t: seq<Arrival>): seq<Obs<TxKey>> {
    seq(|t|, i requires 0 <= i < |t| => AsObs(t[i]))
  }

  function SlotOfTx(k: TxKey): U64 { k.0 }

  function Stamps(pending: map<TxKey, Pending>): map<TxKey, Timestamp> {
    map k | k in pending :: pending[k].ts
  }

  ghost predicate Refines(p: Pairer, m: Matcher<TxKey>) {
    && m.window == CROSS_WINDOW && p.highWater == m.highWater
    && PendingSlots(m, SlotOfTx)
    && p.digest == m.digest
    && p.pendingTx == Stamps(Retain(m.pending1, Cutoff(m)))
    && p.pendingAccount == Stamps(Retain(m.pending2, Cutoff(m)))
  }

  /** An arrival's own key is looked up alike before and after eviction: either it lifts the
      high water itself, or the cutoff has not moved. */
  lemma LookupBeforeEviction(pending: map<TxKey, Pending>, high: U64, key: TxKey)
    requires forall k :: k in pending ==> pending[k].slot == k.0
    ensures var before := Retain(pending, SaturatingSub(high, CROSS_WINDOW));
            var after := Retain(pending, SaturatingSub(Max(high, key.0), CROSS_WINDOW));
            (key in before <==> key in after) && (key in before ==> before[key] == after[key])
  {
  }

  lemma KeepRecentStamps(pending: map<TxKey, Pending>, low: nat, high: nat)
    requires low <= high
    requires forall k :: k in pending ==> pending[k].slot == k.0
    ensures KeepRecent(Stamps(Retain(pending, low)), high) == Stamps(Retain(pending, high))
  {
  }

  lemma KeepRecentWithout(p: map<TxKey, Timestamp>, key: TxKey, cutoff: nat)
    ensures KeepRecent(p - {key}, cutoff) == KeepRecent(p, cutoff) - {key}
  {
  }

  lemma KeepRecentInsert(p: map<TxKey, Timestamp>, key: TxKey, ts: Timestamp, cutoff: nat)
    ensures KeepRecent(p[key := ts], cutoff)
            == if key.0 >= cutoff then KeepRecent(p, cutoff)[key := ts] else KeepRecent(p, cutoff) - {key}
  {
  }

  /** One side of the step: the map the arrival may take its partner from. */
  lemma TakeRefines(pending: map<TxKey, Pending>, low: nat, high: nat, key: TxKey)
    requires low <= high
    requires forall k :: k in pending ==> pending[k].slot == k.0
    ensures KeepRecent(Stamps(Retain(pending, low)) - {key}, high) == Stamps(Retain(Retain(pending, high) - {key}, high))
  {
    KeepRecentStamps(pending, low, high);
    KeepRecentWithout(Stamps(Retain(pending, low)), key, high);
    RetainWithout(Retain(pending, high), high, key);
    RetainTwice(pending, high, high);
    assert Stamps(Retain(pending, high) - {key}) == Stamps(Retain(pending, high)) - {key};
  }

  /** The other side: the map the arrival waits in. */
  lemma WaitRefines(pending: map<TxKey, Pending>, low: nat, high: nat, key: TxKey, ts: Timestamp)
    requires low <= high
    requires forall k :: k in pending ==> pending[k].slot == k.0
    ensures KeepRecent(Stamps(Retain(pending, low))[key := ts], high)
            == Stamps(Retain(Retain(pending, high)[key := Pending(ts, key.0)], high))
  {
    KeepRecentStamps(pending, low, high);
    KeepRecentInsert(Stamps(Retain(pending, low)), key, ts, high);
    RetainInsert(Retain(pending, high), high, key, Pending(ts, key.0));
    RetainTwice(pending, high, high);
    var kept := Retain(pending, high);
    assert Stamps(kept[key := Pending(ts, key.0)]) == Stamps(kept)[key := ts];
    assert Stamps(kept - {key}) == Stamps(kept) - {key};
  }

  lemma EagerArrive(m: Matcher<TxKey>, slot: U64)
    ensures var a := Arrive(1, m, slot);
            && (a.window, a.highWater, a.digest) == (m.window, Max(m.highWater, slot), m.digest)
            && a.pending1 == Retain(m.pending1, Cutoff(a))
            && a.pending2 == Retain(m.pending2, Cutoff(a))
  {
    var obs: U64 := (m.obsCount + 1) % U64_SIZE;
    assert obs % 1 == 0;
    assert Due(1, obs);
  }

  lemma TxRefines(p: Pairer, m: Matcher<TxKey>, a: Arrival)
    requires Refines(p, m) && a.TxSeen?
    ensures Refines(PairerStep(p, a), Step(1, m, AsObs(a)))
  {
    var key, o := (a.slot, a.signature), AsObs(a);
    var arrived := Arrive(1, m, a.slot);
    EagerArrive(m, a.slot);
    ArriveKeeps(1, m, a.slot, SlotOfTx);
    RendezvousKeepsSlots(arrived, o, SlotOfTx);
    LookupBeforeEviction(m.pending2, m.highWater, key);
    var low, high := Cutoff(m), Cutoff(arrived);
    if key in p.pendingAccount {
      TakeRefines(m.pending2, low, high, key);
      KeepRecentStamps(m.pending1, low, high);
      RetainTwice(m.pending1, high, high);
    } else {
      WaitRefines(m.pending1, low, high, key, a.ts);
      KeepRecentStamps(m.pending2, low, high);
      RetainTwice(m.pending2, high, high);
    }
  }

  lemma AccountRefines(p: Pairer, m: Matcher<TxKey>, a: Arrival)
    requires Refines(p, m) && a.AccountSeen?
    ensures Refines(PairerStep(p, a), Step(1, m, AsObs(a)))
  {
    var key, o := (a.slot, a.signature), AsObs(a);
    var arrived := Arrive(1, m, a.slot);
    EagerArrive(m, a.slot);
    ArriveKeeps(1, m, a.slot, SlotOfTx);
    RendezvousKeepsSlots(arrived, o, SlotOfTx);
    LookupBeforeEviction(m.pending1, m.highWater, key);
    var low, high := Cutoff(m), Cutoff(arrived);
    if key in p.pendingTx {
      TakeRefines(m.pending1, low, high, key);
      KeepRecentStamps(m.pending2, low, high);
      RetainTwice(m.pending2, high, high);
    } else {
      WaitRefines(m.pending2, low, high, key, a.ts);
      KeepRecentStamps(m.pending1, low, high);
      RetainTwice(m.pending1, high, high);
    }
  }

  lemma {:induction false} PairerRefines(t: seq<Arrival>)
    ensures Refines(PairerRun(t), Run(1, Fresh(CROSS_WINDOW), AsTrace(t)))
  {
    if t != [] {
      var n := |t| - 1;
      PairerRefines(t[..n]);
      assert AsTrace(t)[..n] == AsTrace(t[..n]);
      var p, m := PairerRun(t[..n]), Run(1, Fresh(CROSS_WINDOW), AsTrace(t[..n]));
      if t[n].TxSeen? {
        TxRefines(p, m, t[n]);
      } else {
        AccountRefines(p, m, t[n]);
      }
    }
  }

  /** On every trace the pairer's digest, merged and buffered samples alike, is that of the
      eager window-64 matcher; its maps are that matcher's entries inside the window, so they
      stay disjoint and no pending slot is more than 64 behind the high water. */
  lemma PairerIsEagerMatcher(t: seq<Arrival>)
    ensures var p, m := PairerRun(t), Run(1, Fresh(64), AsTrace(t));
            && p.digest == m.digest
            && p.digest.All() == multiset(Deltas(Log(1, Fresh(64), AsTrace(t))))
            && p.pendingTx == Stamps(Evict(m).pending1)
            && p.pendingAccount == Stamps(Evict(m).pending2)
    ensures var p := PairerRun(t);
            && p.pendingTx.Keys !! p.pendingAccount.Keys
            && forall k :: k in p.pendingTx || k in p.pendingAccount ==> k.0 + 64 >= p.highWater
  {
    PairerRefines(t);
    SampleAccounting(1, CROSS_WINDOW, AsTrace(t));
    Conservation(1, CROSS_WINDOW, AsTrace(t), One);
  }

  /** A transaction pairs with at most one account update, and an update with at most one
      transaction: the pairs made for a key are no more than its arrivals of either kind. */
  lemma OneUpdatePerTransaction(t: seq<Arrival>, key: TxKey)
    ensures var pairs := Log(1, Fresh(CROSS_WINDOW), AsTrace(t));
            && PairerRun(t).digest.All() == multiset(Deltas(pairs))
            && MatchesOf(pairs, key) <= TimesReported(AsTrace(t), One, key)
            && MatchesOf(pairs, key) <= TimesReported(AsTrace(t), Two, key)
  {
    PairerIsEagerMatcher(t);
    OnePartner(1, CROSS_WINDOW, AsTrace(t), One, key);
    OnePartner(1, CROSS_WINDOW, AsTrace(t), Two, key);
  }

  /** What one more arrival adds to a log's deltas. */
  lemma DeltasNext<K>(every: nat, window: U64, t: seq<Obs<K>>)
    requires t != []
    ensures var n := |t| - 1;
            multiset(Deltas(Log(every, Fresh(window), t)))
            == multiset(Deltas(Log(every, Fresh(window), t[..n]))) + match ResultAt(every, Fresh(window), t, n)
                                                                     case None => multiset{}
                                                                     case Some(r) => multiset{r.deltaNs}
  {
    var n := |t| - 1;
    var log := Log(every, Fresh(window), t[..n]);
    match ResultAt(every, Fresh(window), t, n)
    case None =>
    case Some(r) =>
      assert (log + [Match(t[n].key, r)])[..|log|] == log;
      assert multiset(Deltas(log) + [r.deltaNs]) == multiset(Deltas(log)) + multiset{r.deltaNs};
  }

  lemma RecordedBy(t: seq<Arrival>, i: nat)
    requires i < |t|
    ensures PairerRun(t[..i + 1]).digest.All()
            == PairerRun(t[..i]).digest.All() + match ResultAt(1, Fresh(CROSS_WINDOW), AsTrace(t), i)
                                                case None => multiset{}
                                                case Some(r) => multiset{r.deltaNs}
  {
    var tr := AsTrace(t);
    assert AsTrace(t[..i]) == tr[..i] && AsTrace(t[..i + 1]) == tr[..i + 1] && tr[..i + 1][..i] == tr[..i];
    PairerIsEagerMatcher(t[..i]);
    PairerIsEagerMatcher(t[..i + 1]);
    DeltasNext(1, CROSS_WINDOW, tr[..i + 1]);
  }

  lemma EagerResult(t: seq<Arrival>, i: nat)
    requires i < |t|
    ensures var tr := AsTrace(t);
            ResultAt(1, Fresh(CROSS_WINDOW), tr, i) == if InWindow(CROSS_WINDOW, tr, i) then PairAt(tr, i) else None
  {
    var tr := AsTrace(t);
    if InWindow(CROSS_WINDOW, tr, i) {
      MatchedIffEven(1, CROSS_WINDOW, tr, SlotOfTx, i);
    } else {
      EagerPointwise(1, CROSS_WINDOW, tr, SlotOfTx, i);
    }
  }

  /** The sample of an arrival paired with the one at `j`: account time minus transaction time. */
  function SampleOf(t: seq<Arrival>, j: nat, i: nat): (d: int)
    requires j < |t| && i < |t|
    ensures Readable(t[i].ts) && Readable(t[j].ts) && t[i].AccountSeen? ==> d == t[i].ts.monoNs - t[j].ts.monoNs
    ensures Readable(t[i].ts) && Readable(t[j].ts) && t[i].TxSeen? ==> d == t[j].ts.monoNs - t[i].ts.monoNs
  {
    if t[i].TxSeen? then DeltaNs(t[i].ts, t[j].ts) else DeltaNs(t[j].ts, t[i].ts)
  }

  /** On every trace, an account update (or a transaction) is recorded exactly when it is
      in-window and stands at an even place among the alternating arrivals of its key, that is,
      when the previous arrival of the key is of the other kind and was itself not paired; the
      sample is account arrival minus transaction arrival. */
  lemma RecordedExactlyWhen(t: seq<Arrival>, i: nat)
    requires i < |t|
    ensures var tr := AsTrace(t);
            var before, after := PairerRun(t[..i]).digest.All(), PairerRun(t[..i + 1]).digest.All();
            if InWindow(64, tr, i) && Pos(tr, i) % 2 == 0
            then var j := Latest(tr[..i], tr[i].key);
                 j >= 0 && t[j].TxSeen? != t[i].TxSeen? && after == before + multiset{SampleOf(t, j, i)}
            else after == before
  {
    RecordedBy(t, i);
    EagerResult(t, i);
    PairIffEven(AsTrace(t), i);
  }

  /** The second update of a transaction is not recorded: it is left waiting. */
  lemma SecondUpdateWaits(slot: U64, signature: Signature64, ts: Timestamp)
    ensures var p := PairerRun([TxSeen(slot, signature, ts), AccountSeen(slot, signature, ts), AccountSeen(slot, signature, ts)]);
            |p.digest.All()| == 1 && p.pendingAccount == map[(slot, signature) := ts]
  {
    var t := [TxSeen(slot, signature, ts), AccountSeen(slot, signature, ts), AccountSeen(slot, signature, ts)];
    assert t[..2][..1] == t[..1] && t[..1][..0] == [];
    var key: TxKey := (slot, signature);
    KeepOne(key, ts, SaturatingSub(slot, CROSS_WINDOW));
    var p0, p1, p2 := FRESH_PAIRER, PairerRun(t[..1]), PairerRun(t[..2]);
    assert PairerRun(t[..1][..0]) == p0 && p1 == PairerStep(p0, t[0]);
    assert PairerMeet(p0.(highWater := slot), t[0]) == Pairer(map[key := ts], map[], EMPTY, slot);
    assert p1 == Pairer(map[key := ts], map[], EMPTY, slot);
    assert DeltaNs(ts, ts) == 0 && p1.pendingTx - {key} == map[];
    assert p2 == Pairer(map[], map[], EMPTY.Push(0), slot);
    PushAddsSample(EMPTY, 0);
  }

  lemma KeepOne(key: TxKey, ts: Timestamp, cutoff: nat)
    requires key.0 >= cutoff
    ensures KeepRecent(map[key := ts], cutoff) == map[key := ts] && KeepRecent(map[], cutoff) == map[]
  {
  }

  // ----- the mutable pairer and the per-endpoint tracker -----

  class TxAccountPairer {
    var pendingTx: map<TxKey, Timestamp>
    var pendingAccount: map<TxKey, Timestamp>
    var digest: Digest
    var highWater: U64

    ghost function View(): Pairer
      reads this
    {
      Pairer(pendingTx, pendingAccount, digest, highWater)
    }

    constructor ()
      ensures View() == FRESH_PAIRER
    {
      pendingTx, pendingAccount, digest, highWater := map[], map[], EMPTY, 0;
    }

    method ObserveTx(slot: U64, signature: Signature64, ts: Timestamp)
      modifies this
      ensures View() == PairerStep(old(View()), TxSeen(slot, signature, ts))
    {
      BumpWater(slot);
      var key := (slot, signature);
      if key in pendingAccount {
        var accountTs := pendingAccount[key];
        pendingAccount := pendingAccount - {key};
        Record(accountTs, ts);
      } else {
        pendingTx := pendingTx[key := ts];
      }
      EvictStale();
    }

    method ObserveAccount(slot: U64, signature: Signature64, ts: Timestamp)
      modifies this
      ensures View() == PairerStep(old(View()), AccountSeen(slot, signature, ts))
    {
      BumpWater(slot);
      var key := (slot, signature);
      if key in pendingTx {
        var txTs := pendingTx[key];
        pendingTx := pendingTx - {key};
        Record(ts, txTs);
      } else {
        pendingAccount := pendingAccount[key := ts];
      }
      EvictStale();
    }

    method Record(accountTs: Timestamp, txTs: Timestamp)
      modifies this`digest
      ensures digest == old(digest).Push(DeltaNs(txTs, accountTs))
    {
      digest := digest.Push(ClampI64(accountTs.monoNs) - ClampI64(txTs.monoNs));
    }

    method BumpWater(slot: U64)
      modifies this`highWater
      ensures highWater == Max(old(highWater), slot)
    {
      if slot > highWater {
        highWater := slot;
      }
    }

    method EvictStale()
      modifies this`pendingTx, this`pendingAccount
      ensures View() == PairerEvict(old(View()))
    {
      var cutoff := SaturatingSub(highWater, CROSS_WINDOW);
      pendingTx := KeepRecent(pendingTx, cutoff);
      pendingAccount := KeepRecent(pendingAccount, cutoff);
    }
  }

  /** What a tracker forwards: its own endpoint's transactions, and account updates that carry
      a signature. */
  function ArrivalOf(ep: EndpointRole, e: Event): Option<Arrival> {
    if e.subscription.ep != ep then None
    else match e.payload
      case TransactionUpdate(slot, signature) => Some(TxSeen(slot, signature, e.ts))
      case AccountUpdate(slot, _, _, _, Some(signature)) => Some(AccountSeen(slot, signature, e.ts))
      case _ => None
  }

  function Arrivals(ep: EndpointRole, events: seq<Event>): seq<Arrival> {
    if events == [] then []
    else
      var n := |events| - 1;
      match ArrivalOf(ep, events[n])
      case None => Arrivals(ep, events[..n])
      case Some(a) => Arrivals(ep, events[..n]) + [a]
  }

  /** One more event: the pairer takes its arrival, if it carries one. */
  lemma TrackSnoc(ep: EndpointRole, events: seq<Event>, e: Event)
    ensures PairerRun(Arrivals(ep, events + [e]))
            == match ArrivalOf(ep, e)
               case None => PairerRun(Arrivals(ep, events))
               case Some(a) => PairerStep(PairerRun(Arrivals(ep, events)), a)
  {
    assert (events + [e])[..|events|] == events;
    var arrivals := Arrivals(ep, events);
    match ArrivalOf(ep, e)
    case None =>
    case Some(a) => assert (arrivals + [a])[..|arrivals|] == arrivals;
  }

  class CrossStreamTracker {
    const endpoint: EndpointRole
    const pairer: TxAccountPairer
    /** The events shown to this tracker so far. */
    ghost var history: seq<Event>

    ghost predicate Valid()
      reads this, pairer
    {
      pairer.View() == PairerRun(Arrivals(endpoint, history))
    }

    constructor (endpoint: EndpointRole)
      ensures Valid() && fresh(pairer) && history == [] && this.endpoint == endpoint
    {
      this.endpoint := endpoint;
      pairer := new TxAccountPairer();
      history := [];
    }

    /** The tracker's pairer is always the pairer's run over the arrivals meant for it. */
    method Observe(e: Event)
      requires Valid()
      modifies this, pairer
      ensures Valid() && history == old(history) + [e]
    {
      TrackSnoc(endpoint, history, e);
      history := history + [e];
      match ArrivalOf(endpoint, e) {
        case None =>
        case Some(TxSeen(slot, signature, ts)) =>
          pairer.ObserveTx(slot, signature, ts);
        case Some(AccountSeen(slot, signature, ts)) =>
          pairer.ObserveAccount(slot, signature, ts);
      }
    }
  }
}
