/** What a run reports, from the merged events of the two dispatchers to the final numbers:
    each stream's report is the join of the two endpoints' streams, however the dispatchers
    interleaved. */
module EndToEnd {
  import opened Types
  import opened PairMatching
  import opened MatcherWindow
  import opened MatcherLaws
  import opened Confluence
  import opened RepeatedKeys
  import opened Tallies
  import opened AccountMatching
  import opened Routing

  /** A stream whose keys each endpoint reports at most once, never late. */
  ghost predicate Healthy<K>(t: seq<Obs<K>>) {
    AtMostOnce(t) && AllInWindow(WINDOW, t)
  }

  lemma StageReportsJoin(strict: bool, t: seq<Event>, stage: SlotStage)
    requires !stage.StageDead? && Healthy(StageTrace(t, stage))
    ensures Reports(DispatchAll(strict, t).slots.For(stage), Join(StageTrace(t, stage)))
  {
    StageRunsAlone(strict, t, stage);
    StreamKeysHoldSlots(strict, t, stage, Pubkey32([]));
    InterleavingJoins(EVICT_EVERY, WINDOW, StageTrace(t, stage), SlotOfSlot);
  }

  lemma TransactionsReportJoin(strict: bool, t: seq<Event>)
    requires Healthy(TxTrace(t))
    ensures Reports(DispatchAll(strict, t).transactions, Join(TxTrace(t)))
  {
    TransactionsRunAlone(strict, t);
    StreamKeysHoldSlots(strict, t, StageDead, Pubkey32([]));
    InterleavingJoins(EVICT_EVERY, WINDOW, TxTrace(t), SlotOfTxId);
  }

  lemma BlocksReportJoin(strict: bool, t: seq<Event>)
    requires Healthy(BlockTrace(t))
    ensures Reports(DispatchAll(strict, t).blocks, Join(BlockTrace(t)))
  {
    BlocksRunAlone(strict, t);
    StreamKeysHoldSlots(strict, t, StageDead, Pubkey32([]));
    InterleavingJoins(EVICT_EVERY, WINDOW, BlockTrace(t), SlotOfBlock);
  }

  /** The tally of a join: its size, its signs, its deltas. */
  ghost predicate TalliesJoin<K>(s: Tally, j: map<K, int>) {
    && s.matched == |j|
    && s.ep1Faster == |KeysWithSign(j, 1)|
    && s.ep2Faster == |KeysWithSign(j, -1)|
    && forall d :: s.samples[d] == |KeysWithDelta(j, d)|
  }

  /** The account stream under all its names: the updates of every owner, on one key space. */
  function AccountKeys(strict: bool, t: seq<Event>): seq<Obs<GlobalKey>> {
    GlobalTrace(strict, AccountTrace(t))
  }

  lemma AccountTotals(strict: bool, t: seq<Event>)
    requires AllInWindow(WINDOW, AccountKeys(strict, t))
    ensures Sum(ShardTallies(DispatchAll(strict, t).accounts)) == TallyOf(Run(EVICT_EVERY, Fresh(WINDOW), AccountKeys(strict, t)))
    ensures SlotOfKey(AccountKeys(strict, t), SlotOfGlobal)
  {
    AccountsRunAlone(strict, t);
    ShardingPreservesTotals(EVICT_EVERY, WINDOW, strict, AccountTrace(t));
  }

  lemma AccountsReportJoin(strict: bool, t: seq<Event>)
    requires Healthy(AccountKeys(strict, t))
    ensures TalliesJoin(Sum(ShardTallies(DispatchAll(strict, t).accounts)), Join(AccountKeys(strict, t)))
  {
    AccountTotals(strict, t);
    InterleavingJoins(EVICT_EVERY, WINDOW, AccountKeys(strict, t), SlotOfGlobal);
  }

  // ----- the two dispatchers -----

  /** The events one dispatcher delivered, in its order. */
  function ByDispatcher(t: seq<Event>, ep: EndpointRole): seq<Event> {
    if t == [] then []
    else
      var n := |t| - 1;
      if t[n].subscription.ep == ep then ByDispatcher(t[..n], ep) + [t[n]] else ByDispatcher(t[..n], ep)
  }

  lemma OnlyAppend<K>(t: seq<Obs<K>>, x: Option<Obs<K>>, ep: EndpointRole)
    ensures Only(Append(t, x), ep) == if x.Some? && x.value.ep == ep then Append(Only(t, ep), x) else Only(t, ep)
  {
    if x.Some? {
      assert (t + [x.value])[..|t|] == t;
    }
  }

  lemma ProjectSnoc<T>(t: seq<Event>, e: Event, view: Event -> Option<T>)
    ensures Project(t + [e], view) == Append(Project(t, view), view(e))
  {
    assert (t + [e])[..|t|] == t;
  }

  /** A view that keeps the endpoint of every event it shows. */
  ghost predicate KeepsEndpoint<K>(view: Event -> Option<Obs<K>>) {
    forall e :: view(e).Some? ==> view(e).value.ep == e.subscription.ep
  }

  /** What a stream sees of one endpoint depends on that endpoint's dispatcher only. */
  lemma {:induction false} ProjectByDispatcher<K(!new)>(t: seq<Event>, view: Event -> Option<Obs<K>>, ep: EndpointRole)
    requires KeepsEndpoint(view)
    ensures Only(Project(t, view), ep) == Project(ByDispatcher(t, ep), view)
  {
    if t != [] {
      var n := |t| - 1;
      ProjectByDispatcher(t[..n], view, ep);
      OnlyAppend(Project(t[..n], view), view(t[n]), ep);
      ProjectSnoc(ByDispatcher(t[..n], ep), t[n], view);
    }
  }

  ghost predicate SameByDispatcher(t: seq<Event>, u: seq<Event>) {
    forall ep :: ByDispatcher(t, ep) == ByDispatcher(u, ep)
  }

  /** Any stream: equal per dispatcher, equal in the report. */
  lemma StreamTimingIrrelevant<K(!new)>(t: seq<Event>, u: seq<Event>, view: Event -> Option<Obs<K>>, slotOf: K -> U64)
    requires KeepsEndpoint(view) && SameByDispatcher(t, u)
    requires SlotOfKey(Project(t, view), slotOf) && SlotOfKey(Project(u, view), slotOf)
    requires Healthy(Project(t, view)) && Healthy(Project(u, view))
    ensures TallyOf(Run(EVICT_EVERY, Fresh(WINDOW), Project(t, view))) == TallyOf(Run(EVICT_EVERY, Fresh(WINDOW), Project(u, view)))
  {
    forall ep ensures Only(Project(t, view), ep) == Only(Project(u, view), ep) {
      ProjectByDispatcher(t, view, ep);
      ProjectByDispatcher(u, view, ep);
      assert ByDispatcher(t, ep) == ByDispatcher(u, ep);
    }
    InterleavingConfluence(EVICT_EVERY, EVICT_EVERY, WINDOW, Project(t, view), Project(u, view), slotOf);
    SameTally(Run(EVICT_EVERY, Fresh(WINDOW), Project(t, view)), Run(EVICT_EVERY, Fresh(WINDOW), Project(u, view)));
  }

  function GlobalView(strict: bool, e: Event): Option<Obs<GlobalKey>> {
    match AccountObsOf(e)
    case None => None
    case Some(o) => Some(GlobalObs(strict, o))
  }

  lemma {:induction false} AccountKeysProject(strict: bool, t: seq<Event>)
    ensures AccountKeys(strict, t) == Project(t, e => GlobalView(strict, e))
  {
    if t != [] {
      AccountKeysProject(strict, t[..|t| - 1]);
    }
  }

  lemma StageTimingIrrelevant(strict: bool, t: seq<Event>, u: seq<Event>, stage: SlotStage)
    requires !stage.StageDead? && SameByDispatcher(t, u)
    requires Healthy(StageTrace(t, stage)) && Healthy(StageTrace(u, stage))
    ensures TallyOf(DispatchAll(strict, t).slots.For(stage)) == TallyOf(DispatchAll(strict, u).slots.For(stage))
  {
    StageRunsAlone(strict, t, stage);
    StageRunsAlone(strict, u, stage);
    StreamKeysHoldSlots(strict, t, stage, Pubkey32([]));
    StreamKeysHoldSlots(strict, u, stage, Pubkey32([]));
    StreamTimingIrrelevant(t, u, e => StageObs(e, stage), SlotOfSlot);
  }

  lemma TransactionTimingIrrelevant(strict: bool, t: seq<Event>, u: seq<Event>)
    requires SameByDispatcher(t, u) && Healthy(TxTrace(t)) && Healthy(TxTrace(u))
    ensures TallyOf(DispatchAll(strict, t).transactions) == TallyOf(DispatchAll(strict, u).transactions)
  {
    TransactionsRunAlone(strict, t);
    TransactionsRunAlone(strict, u);
    StreamKeysHoldSlots(strict, t, StageDead, Pubkey32([]));
    StreamKeysHoldSlots(strict, u, StageDead, Pubkey32([]));
    StreamTimingIrrelevant(t, u, TxObs, SlotOfTxId);
  }

  lemma BlockTimingIrrelevant(strict: bool, t: seq<Event>, u: seq<Event>)
    requires SameByDispatcher(t, u) && Healthy(BlockTrace(t)) && Healthy(BlockTrace(u))
    ensures TallyOf(DispatchAll(strict, t).blocks) == TallyOf(DispatchAll(strict, u).blocks)
  {
    BlocksRunAlone(strict, t);
    BlocksRunAlone(strict, u);
    StreamKeysHoldSlots(strict, t, StageDead, Pubkey32([]));
    StreamKeysHoldSlots(strict, u, StageDead, Pubkey32([]));
    StreamTimingIrrelevant(t, u, BlockObs, SlotOfBlock);
  }

  lemma AccountTimingIrrelevant(strict: bool, t: seq<Event>, u: seq<Event>)
    requires SameByDispatcher(t, u) && Healthy(AccountKeys(strict, t)) && Healthy(AccountKeys(strict, u))
    ensures Sum(ShardTallies(DispatchAll(strict, t).accounts)) == Sum(ShardTallies(DispatchAll(strict, u).accounts))
  {
    AccountTotals(strict, t);
    AccountTotals(strict, u);
    AccountKeysProject(strict, t);
    AccountKeysProject(strict, u);
    StreamTimingIrrelevant(t, u, e => GlobalView(strict, e), SlotOfGlobal);
  }

  /** Two runs in which each dispatcher delivers the same events in the same order report the
      same counts and samples on every stream that is healthy in both, however the two were
      interleaved and whatever the other streams are like. */
  lemma DispatcherTimingIrrelevant(strict: bool, t: seq<Event>, u: seq<Event>)
    requires SameByDispatcher(t, u)
    ensures forall stage: SlotStage :: !stage.StageDead? && Healthy(StageTrace(t, stage)) && Healthy(StageTrace(u, stage)) ==>
              TallyOf(DispatchAll(strict, t).slots.For(stage)) == TallyOf(DispatchAll(strict, u).slots.For(stage))
    ensures Healthy(TxTrace(t)) && Healthy(TxTrace(u)) ==>
              TallyOf(DispatchAll(strict, t).transactions) == TallyOf(DispatchAll(strict, u).transactions)
    ensures Healthy(BlockTrace(t)) && Healthy(BlockTrace(u)) ==>
              TallyOf(DispatchAll(strict, t).blocks) == TallyOf(DispatchAll(strict, u).blocks)
    ensures Healthy(AccountKeys(strict, t)) && Healthy(AccountKeys(strict, u)) ==>
              Sum(ShardTallies(DispatchAll(strict, t).accounts)) == Sum(ShardTallies(DispatchAll(strict, u).accounts))
  {
    forall stage: SlotStage | !stage.StageDead? && Healthy(StageTrace(t, stage)) && Healthy(StageTrace(u, stage))
      ensures TallyOf(DispatchAll(strict, t).slots.For(stage)) == TallyOf(DispatchAll(strict, u).slots.For(stage))
    {
      StageTimingIrrelevant(strict, t, u, stage);
    }
    if Healthy(TxTrace(t)) && Healthy(TxTrace(u)) {
      TransactionTimingIrrelevant(strict, t, u);
    }
    if Healthy(BlockTrace(t)) && Healthy(BlockTrace(u)) {
      BlockTimingIrrelevant(strict, t, u);
    }
    if Healthy(AccountKeys(strict, t)) && Healthy(AccountKeys(strict, u)) {
      AccountTimingIrrelevant(strict, t, u);
    }
  }

  lemma SameTally<K>(m: Matcher<K>, n: Matcher<K>)
    requires m.digest.All() == n.digest.All()
    requires m.counts.(ep1Evicted := 0, ep2Evicted := 0) == n.counts.(ep1Evicted := 0, ep2Evicted := 0)
    ensures TallyOf(m) == TallyOf(n)
  {
  }

  // ----- streams with repeated keys -----

  /** The report of a trace by its alternating arrivals: what a stream reports when the same key
      comes more than once, as with two commitments. */
  ghost predicate TalliesPairs<K>(s: Tally, t: seq<Obs<K>>) {
    && s.matched == |EvenPlaces(t)|
    && s.samples == multiset(Deltas(PairsOf(t)))
    && s.ep1Faster == Positives(Deltas(PairsOf(t)))
    && s.ep2Faster == Negatives(Deltas(PairsOf(t)))
  }

  lemma StageReportsPairs(strict: bool, t: seq<Event>, stage: SlotStage)
    requires !stage.StageDead? && AllInWindow(WINDOW, StageTrace(t, stage))
    ensures TalliesPairs(TallyOf(DispatchAll(strict, t).slots.For(stage)), StageTrace(t, stage))
  {
    StageRunsAlone(strict, t, stage);
    StreamKeysHoldSlots(strict, t, stage, Pubkey32([]));
    RepeatedReport(EVICT_EVERY, WINDOW, StageTrace(t, stage), SlotOfSlot);
  }

  lemma TransactionsReportPairs(strict: bool, t: seq<Event>)
    requires AllInWindow(WINDOW, TxTrace(t))
    ensures TalliesPairs(TallyOf(DispatchAll(strict, t).transactions), TxTrace(t))
  {
    TransactionsRunAlone(strict, t);
    StreamKeysHoldSlots(strict, t, StageDead, Pubkey32([]));
    RepeatedReport(EVICT_EVERY, WINDOW, TxTrace(t), SlotOfTxId);
  }

  lemma BlocksReportPairs(strict: bool, t: seq<Event>)
    requires AllInWindow(WINDOW, BlockTrace(t))
    ensures TalliesPairs(TallyOf(DispatchAll(strict, t).blocks), BlockTrace(t))
  {
    BlocksRunAlone(strict, t);
    StreamKeysHoldSlots(strict, t, StageDead, Pubkey32([]));
    RepeatedReport(EVICT_EVERY, WINDOW, BlockTrace(t), SlotOfBlock);
  }

  lemma AccountsReportPairs(strict: bool, t: seq<Event>)
    requires AllInWindow(WINDOW, AccountKeys(strict, t))
    ensures TalliesPairs(Sum(ShardTallies(DispatchAll(strict, t).accounts)), AccountKeys(strict, t))
  {
    AccountTotals(strict, t);
    RepeatedReport(EVICT_EVERY, WINDOW, AccountKeys(strict, t), SlotOfGlobal);
  }

  // ----- one transaction at two commitments -----

  function SeenTx(ep: EndpointRole, c: Commitment, ts: Timestamp, slot: U64, signature: Signature64): Event {
    Event(ts, Main(ep, c, Transactions), TransactionUpdate(slot, signature))
  }

  /** An endpoint's two deliveries. */
  function AtBoth(ep: EndpointRole, slot: U64, sig: Signature64, p: Timestamp, c: Timestamp): seq<Event> {
    [SeenTx(ep, Processed, p, slot, sig), SeenTx(ep, Confirmed, c, slot, sig)]
  }

  lemma ByDispatcherOfFour(e: seq<Event>, ep: EndpointRole)
    requires |e| == 4
    ensures ByDispatcher(e, ep) == (if e[0].subscription.ep == ep then [e[0]] else []) + (if e[1].subscription.ep == ep then [e[1]] else [])
                                   + (if e[2].subscription.ep == ep then [e[2]] else []) + (if e[3].subscription.ep == ep then [e[3]] else [])
  {
    assert e[..3][..2] == e[..2] && e[..2][..1] == e[..1] && e[..1][..0] == [];
    assert ByDispatcher(e[..1], ep) == if e[0].subscription.ep == ep then [e[0]] else [];
    assert ByDispatcher(e[..2], ep) == ByDispatcher(e[..1], ep) + (if e[1].subscription.ep == ep then [e[1]] else []);
    assert ByDispatcher(e[..3], ep) == ByDispatcher(e[..2], ep) + (if e[2].subscription.ep == ep then [e[2]] else []);
  }

  lemma ProjectFour<K>(e: seq<Event>, view: Event -> Option<Obs<K>>)
    requires |e| == 4 && forall i :: 0 <= i < 4 ==> view(e[i]).Some?
    ensures Project(e, view) == [view(e[0]).value, view(e[1]).value, view(e[2]).value, view(e[3]).value]
  {
    assert e[..3][..2] == e[..2] && e[..2][..1] == e[..1] && e[..1][..0] == [];
    assert Project(e[..1], view) == [view(e[0]).value];
    assert Project(e[..2], view) == [view(e[0]).value, view(e[1]).value];
    assert Project(e[..3], view) == [view(e[0]).value, view(e[1]).value, view(e[2]).value];
  }

  /** Four arrivals of one transaction. */
  ghost predicate FourOf(t: seq<Obs<TxId>>, slot: U64, sig: Signature64, eps: seq<EndpointRole>, at: seq<Timestamp>)
    requires |eps| == |at| == 4
  {
    && |t| == 4 && OneKey(t, TxId(slot, sig))
    && forall i :: 0 <= i < 4 ==> t[i].slot == slot && t[i].ep == eps[i] && t[i].ts == at[i]
  }

  /** One endpoint after the other. */
  lemma OneThenTwo(slot: U64, sig: Signature64, a: Timestamp, b: Timestamp, c: Timestamp, d: Timestamp)
    returns (t: seq<Event>)
    ensures ByDispatcher(t, One) == AtBoth(One, slot, sig, a, b) && ByDispatcher(t, Two) == AtBoth(Two, slot, sig, c, d)
    ensures FourOf(TxTrace(t), slot, sig, [One, One, Two, Two], [a, b, c, d])
  {
    t := [SeenTx(One, Processed, a, slot, sig), SeenTx(One, Confirmed, b, slot, sig),
          SeenTx(Two, Processed, c, slot, sig), SeenTx(Two, Confirmed, d, slot, sig)];
    ByDispatcherOfFour(t, One);
    ByDispatcherOfFour(t, Two);
    ProjectFour(t, TxObs);
  }

  /** Commitment by commitment. */
  lemma InTurn(slot: U64, sig: Signature64, a: Timestamp, b: Timestamp, c: Timestamp, d: Timestamp)
    returns (u: seq<Event>)
    ensures ByDispatcher(u, One) == AtBoth(One, slot, sig, a, b) && ByDispatcher(u, Two) == AtBoth(Two, slot, sig, c, d)
    ensures FourOf(TxTrace(u), slot, sig, [One, Two, One, Two], [a, c, b, d])
  {
    u := [SeenTx(One, Processed, a, slot, sig), SeenTx(Two, Processed, c, slot, sig),
          SeenTx(One, Confirmed, b, slot, sig), SeenTx(Two, Confirmed, d, slot, sig)];
    ByDispatcherOfFour(u, One);
    ByDispatcherOfFour(u, Two);
    ProjectFour(u, TxObs);
  }

  lemma OneThenTwoReports(strict: bool, slot: U64, sig: Signature64, a: Timestamp, b: Timestamp, c: Timestamp, d: Timestamp)
    returns (t: seq<Event>)
    ensures ByDispatcher(t, One) == AtBoth(One, slot, sig, a, b) && ByDispatcher(t, Two) == AtBoth(Two, slot, sig, c, d)
    ensures var m := TallyOf(DispatchAll(strict, t).transactions);
            AllInWindow(WINDOW, TxTrace(t)) && m.matched == 1 && m.samples == multiset{DeltaNs(b, c)}
  {
    t := OneThenTwo(slot, sig, a, b, c, d);
    TwoThenTwo(TxTrace(t), TxId(slot, sig));
    OneSlotTallies(strict, t, slot);
  }

  lemma InTurnReports(strict: bool, slot: U64, sig: Signature64, a: Timestamp, b: Timestamp, c: Timestamp, d: Timestamp)
    returns (u: seq<Event>)
    ensures ByDispatcher(u, One) == AtBoth(One, slot, sig, a, b) && ByDispatcher(u, Two) == AtBoth(Two, slot, sig, c, d)
    ensures var n := TallyOf(DispatchAll(strict, u).transactions);
            AllInWindow(WINDOW, TxTrace(u)) && n.matched == 2 && n.samples == multiset{DeltaNs(a, c), DeltaNs(b, d)}
  {
    u := InTurn(slot, sig, a, b, c, d);
    OneByOne(TxTrace(u), TxId(slot, sig));
    OneSlotTallies(strict, u, slot);
  }

  /** Each endpoint delivers one transaction at two commitments, in the same order in both runs
      and never late. One endpoint after the other there is one match, between endpoint one's
      confirmed and endpoint two's processed delivery; in turn there are two, each within its
      commitment. */
  lemma TwoCommitmentsTell(strict: bool, slot: U64, sig: Signature64, a: Timestamp, b: Timestamp, c: Timestamp, d: Timestamp)
    returns (t: seq<Event>, u: seq<Event>)
    ensures ByDispatcher(t, One) == AtBoth(One, slot, sig, a, b) && ByDispatcher(t, Two) == AtBoth(Two, slot, sig, c, d)
    ensures SameByDispatcher(t, u) && AllInWindow(WINDOW, TxTrace(t)) && AllInWindow(WINDOW, TxTrace(u))
    ensures var m, n := TallyOf(DispatchAll(strict, t).transactions), TallyOf(DispatchAll(strict, u).transactions);
            && m.matched == 1 && m.samples == multiset{DeltaNs(b, c)}
            && n.matched == 2 && n.samples == multiset{DeltaNs(a, c), DeltaNs(b, d)}
  {
    t := OneThenTwoReports(strict, slot, sig, a, b, c, d);
    u := InTurnReports(strict, slot, sig, a, b, c, d);
    forall ep ensures ByDispatcher(t, ep) == ByDispatcher(u, ep) {
      assert ep == One || ep == Two;
    }
  }

  lemma OneSlotTallies(strict: bool, t: seq<Event>, slot: U64)
    requires forall i :: 0 <= i < |TxTrace(t)| ==> TxTrace(t)[i].slot == slot
    ensures AllInWindow(WINDOW, TxTrace(t))
    ensures var m, deltas := TallyOf(DispatchAll(strict, t).transactions), Deltas(PairsOf(TxTrace(t)));
            m.matched == |deltas| && m.samples == multiset(deltas)
  {
    OneSlotInWindow(WINDOW, TxTrace(t), slot);
    TransactionsReportPairs(strict, t);
    PairsAtEvenPlaces(TxTrace(t));
  }
}
