/** A whole run: both endpoints' pipelines, their two dispatchers and the shared matchers. What
    receivers offer to the rings comes out as the join of the two endpoints' streams. */
module WholeRun {
  import opened Types
  import opened Pipeline
  import opened PairMatching
  import opened Confluence
  import opened Tallies
  import opened AccountMatching
  import opened Routing
  import opened EndToEnd

  // ----- two pipelines side by side -----

  /** One step of one endpoint's pipeline. */
  datatype Turn = Turn(ep: EndpointRole, act: Action)

  /** `merged` is the order in which the two dispatchers reached the shared matchers. */
  datatype Bench = Bench(one: Sys, two: Sys, merged: seq<Event>) {
    function Of(ep: EndpointRole): Sys {
      if ep == One then one else two
    }
  }

  /** The event that a step dispatches. */
  function DispatchedNow(s: Sys, a: Action): Option<Event> {
    if a.Poll? && Takes(s) then Some(s.lanes[s.cursor].ring.queue[0]) else None
  }

  function BenchNext(b: Bench, t: Turn): Bench {
    var merged := Append(b.merged, DispatchedNow(b.Of(t.ep), t.act));
    if t.ep == One then Bench(Next(b.one, t.act), b.two, merged) else Bench(b.one, Next(b.two, t.act), merged)
  }

  function BenchRun(rings1: seq<nat>, rings2: seq<nat>, turns: seq<Turn>): Bench {
    if turns == [] then Bench(Init(rings1), Init(rings2), [])
    else BenchNext(BenchRun(rings1, rings2, turns[..|turns| - 1]), turns[|turns| - 1])
  }

  /** One endpoint's steps. */
  function ActsOf(turns: seq<Turn>, ep: EndpointRole): seq<Action> {
    if turns == [] then []
    else
      var before, t := ActsOf(turns[..|turns| - 1], ep), turns[|turns| - 1];
      if t.ep == ep then before + [t.act] else before
  }

  lemma ExecSnoc(s: Sys, acts: seq<Action>, a: Action)
    ensures Exec(s, acts + [a]) == Next(Exec(s, acts), a)
  {
    assert (acts + [a])[..|acts|] == acts;
  }

  function RingsOf(rings1: seq<nat>, rings2: seq<nat>, ep: EndpointRole): seq<nat> {
    if ep == One then rings1 else rings2
  }

  /** Each pipeline runs as if it were alone. */
  lemma {:induction false} PipelineRunsAlone(rings1: seq<nat>, rings2: seq<nat>, turns: seq<Turn>, ep: EndpointRole)
    ensures BenchRun(rings1, rings2, turns).Of(ep) == Exec(Init(RingsOf(rings1, rings2, ep)), ActsOf(turns, ep))
  {
    if turns != [] {
      var n := |turns| - 1;
      PipelineRunsAlone(rings1, rings2, turns[..n], ep);
      ExecSnoc(Init(RingsOf(rings1, rings2, ep)), ActsOf(turns[..n], ep), turns[n].act);
    }
  }

  // ----- what is offered is what is dispatched -----

  /** Everything receivers offered to ring `i`. */
  function Offers(acts: seq<Action>, i: nat): seq<Event> {
    if acts == [] then []
    else
      var before, a := Offers(acts[..|acts| - 1], i), acts[|acts| - 1];
      if a.Offer? && a.lane == i then before + [a.e] else before
  }

  ghost predicate NothingLost(l: Lane) {
    l.ring.dropped == 0 && l.lost == 0
  }

  /** A ring that dropped nothing accepted every offer; in any case every accepted event was
      offered. */
  ghost predicate AcceptedAll(l: Lane, offers: seq<Event>) {
    && (NothingLost(l) ==> l.accepted == offers)
    && (forall e :: e in l.accepted ==> e in offers)
  }

  lemma NextAccepts(s: Sys, a: Action, i: nat, offers: seq<Event>)
    requires i < |s.lanes| && AcceptedAll(s.lanes[i], offers)
    ensures |Next(s, a).lanes| == |s.lanes|
    ensures AcceptedAll(Next(s, a).lanes[i], if a.Offer? && a.lane == i then offers + [a.e] else offers)
  {
  }

  lemma {:induction false} ExecAccepts(rings: seq<nat>, acts: seq<Action>, i: nat)
    requires i < |rings|
    ensures |Exec(Init(rings), acts).lanes| == |rings|
    ensures AcceptedAll(Exec(Init(rings), acts).lanes[i], Offers(acts, i))
  {
    if acts != [] {
      var n := |acts| - 1;
      ExecAccepts(rings, acts[..n], i);
      NextAccepts(Exec(Init(rings), acts[..n]), acts[n], i, Offers(acts[..n], i));
    }
  }

  /** The streams of offers to an endpoint's rings. */
  function Streams(acts: seq<Action>, rings: nat): (s: seq<seq<Event>>)
    ensures |s| == rings
  {
    seq(rings, i requires 0 <= i < rings => Offers(acts, i))
  }

  ghost predicate InStreams(streams: seq<seq<Event>>, e: Event) {
    exists i :: 0 <= i < |streams| && e in streams[i]
  }

  lemma {:induction false} LogFromRings(log: seq<Event>, sources: seq<nat>, e: Event)
    requires |log| == |sources|
    ensures e in log <==> exists i :: i in sources && e in Dispatched(log, sources, i)
  {
    if log != [] {
      var n := |log| - 1;
      LogFromRings(log[..n], sources[..n], e);
      assert log == log[..n] + [log[n]] && sources == sources[..n] + [sources[n]];
      if i :| i in sources && e in Dispatched(log, sources, i) {
        if e !in Dispatched(log[..n], sources[..n], i) {
          assert e == log[n];
        } else {
          DispatchedSource(log[..n], sources[..n], i);
        }
      }
      if e == log[n] {
        assert e in Dispatched(log, sources, sources[n]);
      } else if i :| i in sources[..n] && e in Dispatched(log[..n], sources[..n], i) {
        assert e in Dispatched(log, sources, i);
      }
    }
  }

  lemma {:induction false} DispatchedSource(log: seq<Event>, sources: seq<nat>, i: nat)
    requires |log| == |sources| && Dispatched(log, sources, i) != []
    ensures i in sources
  {
    var n := |log| - 1;
    if sources[n] != i {
      DispatchedSource(log[..n], sources[..n], i);
      assert sources[..n] <= sources;
    }
  }

  /** Every ring is empty and has lost nothing. */
  ghost predicate Complete(s: Sys) {
    forall i :: 0 <= i < |s.lanes| ==> s.lanes[i].ring.queue == [] && NothingLost(s.lanes[i])
  }

  /** A complete pipeline has dispatched exactly what was offered to its rings. */
  lemma CompleteLog(rings: seq<nat>, acts: seq<Action>, e: Event)
    requires Complete(Exec(Init(rings), acts))
    ensures e in Exec(Init(rings), acts).log <==> InStreams(Streams(acts, |rings|), e)
  {
    var s := Exec(Init(rings), acts);
    PipelineConservation(rings, acts);
    LogFromRings(s.log, s.sources, e);
    forall i | 0 <= i < |rings| ensures Dispatched(s.log, s.sources, i) == Streams(acts, |rings|)[i] {
      ExecAccepts(rings, acts, i);
    }
    if i :| i in s.sources && e in Dispatched(s.log, s.sources, i) {
      assert e in Streams(acts, |rings|)[i];
    }
    if i :| 0 <= i < |rings| && e in Streams(acts, |rings|)[i] {
      DispatchedSource(s.log, s.sources, i);
    }
  }

  // ----- the merged order -----

  /** Receivers offer events of their own endpoint's subscriptions only. */
  ghost predicate OwnOffers(acts: seq<Action>, ep: EndpointRole) {
    forall k :: 0 <= k < |acts| && acts[k].Offer? ==> acts[k].e.subscription.ep == ep
  }

  lemma {:induction false} OffersAreOwn(acts: seq<Action>, i: nat, ep: EndpointRole, e: Event)
    requires OwnOffers(acts, ep) && e in Offers(acts, i)
    ensures e.subscription.ep == ep
  {
    var n := |acts| - 1;
    if e in Offers(acts[..n], i) {
      OffersAreOwn(acts[..n], i, ep, e);
    }
  }

  /** What a pipeline dispatches carries its own endpoint. */
  lemma TakesOwn(rings: seq<nat>, acts: seq<Action>, ep: EndpointRole)
    requires OwnOffers(acts, ep) && Takes(Exec(Init(rings), acts))
    ensures var s := Exec(Init(rings), acts); s.lanes[s.cursor].ring.queue[0].subscription.ep == ep
  {
    var s := Exec(Init(rings), acts);
    PipelineConservation(rings, acts);
    var l := s.lanes[s.cursor];
    ExecAccepts(rings, acts, s.cursor);
    assert LaneOk(l, s.running);
    assert l.ring.queue[0] == l.accepted[|l.drained|];
    OffersAreOwn(acts, s.cursor, ep, l.ring.queue[0]);
  }

  lemma NextLog(s: Sys, a: Action)
    ensures Next(s, a).log == Append(s.log, DispatchedNow(s, a))
  {
  }

  lemma ByDispatcherAppend(t: seq<Event>, x: Option<Event>, ep: EndpointRole)
    ensures ByDispatcher(Append(t, x), ep)
            == if x.Some? && x.value.subscription.ep == ep then Append(ByDispatcher(t, ep), x) else ByDispatcher(t, ep)
  {
    if x.Some? {
      assert (t + [x.value])[..|t|] == t;
    }
  }

  ghost predicate AllOwn(turns: seq<Turn>) {
    forall ep :: OwnOffers(ActsOf(turns, ep), ep)
  }

  lemma OwnBefore(turns: seq<Turn>)
    requires turns != [] && AllOwn(turns)
    ensures AllOwn(turns[..|turns| - 1])
  {
    var before := turns[..|turns| - 1];
    forall ep ensures OwnOffers(ActsOf(before, ep), ep) {
      assert OwnOffers(ActsOf(turns, ep), ep);
      assert ActsOf(before, ep) <= ActsOf(turns, ep);
    }
  }

  /** The merged order is the two dispatchers' logs, interleaved. */
  lemma {:induction false} MergedOrder(rings1: seq<nat>, rings2: seq<nat>, turns: seq<Turn>, ep: EndpointRole)
    requires AllOwn(turns)
    ensures ByDispatcher(BenchRun(rings1, rings2, turns).merged, ep) == BenchRun(rings1, rings2, turns).Of(ep).log
  {
    if turns != [] {
      var n := |turns| - 1;
      var b, t := BenchRun(rings1, rings2, turns[..n]), turns[n];
      OwnBefore(turns);
      MergedOrder(rings1, rings2, turns[..n], ep);
      NextLog(b.Of(t.ep), t.act);
      ByDispatcherAppend(b.merged, DispatchedNow(b.Of(t.ep), t.act), ep);
      if DispatchedNow(b.Of(t.ep), t.act).Some? {
        PipelineRunsAlone(rings1, rings2, turns[..n], t.ep);
        assert OwnOffers(ActsOf(turns[..n], t.ep), t.ep);
        TakesOwn(RingsOf(rings1, rings2, t.ep), ActsOf(turns[..n], t.ep), t.ep);
      }
    }
  }

  // ----- the join of the offered streams -----

  /** What an event tells a stream, read off its payload: key and arrival time. */
  type Telling<!K> = (Event, K, Timestamp) -> bool

  ghost predicate Told<K>(streams: seq<seq<Event>>, tells: Telling<K>, k: K, ts: Timestamp) {
    exists e :: InStreams(streams, e) && tells(e, k, ts)
  }

  ghost predicate Shows<K>(view: Event -> Option<Obs<K>>, e: Event, k: K, ts: Timestamp) {
    view(e).Some? && view(e).value.key == k && view(e).value.ts == ts
  }

  /** The stream's view of events is what they tell. */
  ghost predicate Reads<K(!new)>(view: Event -> Option<Obs<K>>, tells: Telling<K>) {
    forall e, k, ts :: Shows(view, e, k, ts) <==> tells(e, k, ts)
  }

  /** `j` joins the two endpoints' offered streams: it has the keys that both were offered, each
      with the difference of the two arrivals. */
  ghost predicate JoinsStreams<K(!new)>(j: map<K, int>, a: seq<seq<Event>>, b: seq<seq<Event>>, tells: Telling<K>) {
    && (forall k :: k in j ==> exists t1, t2 :: Told(a, tells, k, t1) && Told(b, tells, k, t2))
    && (forall k, t1, t2 :: Told(a, tells, k, t1) && Told(b, tells, k, t2) ==> k in j && j[k] == DeltaNs(t1, t2))
  }

  /** A slot update of the stage. */
  predicate TellsSlot(stage: SlotStage, e: Event, slot: U64, ts: Timestamp) {
    e.payload.SlotUpdate? && e.payload.stage == stage && e.payload.slot == slot && e.ts == ts
  }

  predicate TellsTransaction(e: Event, k: TxId, ts: Timestamp) {
    e.payload.TransactionUpdate? && e.payload.slot == k.slot && e.payload.signature == k.signature && e.ts == ts
  }

  /** A block on a main subscription, told apart by commitment. */
  predicate TellsBlock(e: Event, k: BlockKey, ts: Timestamp) {
    && e.payload.BlockUpdate? && e.subscription.Main? && e.subscription.commitment == k.commitment
    && e.payload.slot == k.slot && e.payload.blockhash == k.blockhash && e.ts == ts
  }

  /** An account update, told apart by owner, slot, account and transaction, and in strict mode
      by its write version too. */
  predicate TellsAccount(strict: bool, e: Event, k: GlobalKey, ts: Timestamp) {
    && e.payload.AccountUpdate? && e.payload.owner == k.0 && e.payload.slot == k.1.slot && e.payload.pubkey == k.1.pubkey
    && e.payload.txnSignature == k.1.signature
    && k.1.writeVersion == (if strict then Some(e.payload.writeVersion) else None) && e.ts == ts
  }

  lemma ViewsRead(strict: bool, stage: SlotStage)
    ensures Reads(e => StageObs(e, stage), (e, k, ts) => TellsSlot(stage, e, k, ts))
    ensures Reads(TxObs, TellsTransaction)
    ensures Reads(BlockObs, TellsBlock)
    ensures Reads(e => GlobalView(strict, e), (e, k, ts) => TellsAccount(strict, e, k, ts))
  {
  }

  ghost predicate Reported<K>(t: seq<Obs<K>>, ep: EndpointRole, k: K, ts: Timestamp) {
    exists n :: 0 <= n < |t| && t[n].ep == ep && t[n].key == k && t[n].ts == ts
  }

  /** With keys reported once, the last report of a key is the only one. */
  lemma {:induction false} SeenExactly<K>(t: seq<Obs<K>>, ep: EndpointRole, k: K, ts: Timestamp)
    requires AtMostOnce(t)
    ensures k in Seen(t, ep) && Seen(t, ep)[k] == ts <==> Reported(t, ep, k, ts)
  {
    if t != [] {
      var n := |t| - 1;
      var before := t[..n];
      SeenExactly(before, ep, k, ts);
      if Reported(before, ep, k, ts) {
        var m :| 0 <= m < n && before[m].ep == ep && before[m].key == k && before[m].ts == ts;
        assert t[m] == before[m];
      }
      if Reported(t, ep, k, ts) {
        var m :| 0 <= m < |t| && t[m].ep == ep && t[m].key == k && t[m].ts == ts;
        if m < n {
          assert before[m] == t[m];
        }
      }
    }
  }

  lemma {:induction false} ProjectShows<K>(t: seq<Event>, view: Event -> Option<Obs<K>>, x: Obs<K>)
    ensures x in Project(t, view) <==> exists e :: e in t && view(e) == Some(x)
  {
    if t != [] {
      var n := |t| - 1;
      ProjectShows(t[..n], view, x);
      assert t == t[..n] + [t[n]];
    }
  }

  lemma {:induction false} ByDispatcherHas(t: seq<Event>, ep: EndpointRole, e: Event)
    ensures e in ByDispatcher(t, ep) <==> e in t && e.subscription.ep == ep
  {
    if t != [] {
      var n := |t| - 1;
      ByDispatcherHas(t[..n], ep, e);
      assert t == t[..n] + [t[n]];
    }
  }

  /** What a matcher has been told by an endpoint is what its rings were offered. */
  lemma ReportedIsTold<K(!new)>(rings1: seq<nat>, rings2: seq<nat>, turns: seq<Turn>, view: Event -> Option<Obs<K>>,
                                tells: Telling<K>, ep: EndpointRole, k: K, ts: Timestamp)
    requires Reads(view, tells)
    requires AllOwn(turns) && KeepsEndpoint(view) && Complete(BenchRun(rings1, rings2, turns).Of(ep))
    ensures Reported(Project(BenchRun(rings1, rings2, turns).merged, view), ep, k, ts)
            <==> Told(Streams(ActsOf(turns, ep), |RingsOf(rings1, rings2, ep)|), tells, k, ts)
  {
    var b, acts, rings := BenchRun(rings1, rings2, turns), ActsOf(turns, ep), RingsOf(rings1, rings2, ep);
    var t, streams := Project(b.merged, view), Streams(acts, |rings|);
    PipelineRunsAlone(rings1, rings2, turns, ep);
    MergedOrder(rings1, rings2, turns, ep);
    if Reported(t, ep, k, ts) {
      var n :| 0 <= n < |t| && t[n].ep == ep && t[n].key == k && t[n].ts == ts;
      ProjectShows(b.merged, view, t[n]);
      var e :| e in b.merged && view(e) == Some(t[n]);
      ByDispatcherHas(b.merged, ep, e);
      CompleteLog(rings, acts, e);
      assert Shows(view, e, k, ts);
    }
    if Told(streams, tells, k, ts) {
      var e :| InStreams(streams, e) && tells(e, k, ts);
      assert Shows(view, e, k, ts);
      CompleteLog(rings, acts, e);
      ByDispatcherHas(b.merged, ep, e);
      ProjectShows(b.merged, view, view(e).value);
      var n :| 0 <= n < |t| && t[n] == view(e).value;
    }
  }

  /** Any stream of a complete run: the join of the merged trace is that of the offers. */
  lemma JoinOfOffers<K(!new)>(rings1: seq<nat>, rings2: seq<nat>, turns: seq<Turn>, view: Event -> Option<Obs<K>>,
                              tells: Telling<K>)
    requires AllOwn(turns) && KeepsEndpoint(view) && Reads(view, tells)
    requires forall ep :: Complete(BenchRun(rings1, rings2, turns).Of(ep))
    requires AtMostOnce(Project(BenchRun(rings1, rings2, turns).merged, view))
    ensures JoinsStreams(Join(Project(BenchRun(rings1, rings2, turns).merged, view)),
                         Streams(ActsOf(turns, One), |rings1|), Streams(ActsOf(turns, Two), |rings2|), tells)
  {
    var b := BenchRun(rings1, rings2, turns);
    var t := Project(b.merged, view);
    assert Complete(b.Of(One)) && Complete(b.Of(Two));
    var a1, a2 := Streams(ActsOf(turns, One), |rings1|), Streams(ActsOf(turns, Two), |rings2|);
    forall k, ts
      ensures (k in Seen(t, One) && Seen(t, One)[k] == ts) <==> Told(a1, tells, k, ts)
      ensures (k in Seen(t, Two) && Seen(t, Two)[k] == ts) <==> Told(a2, tells, k, ts)
    {
      SeenExactly(t, One, k, ts);
      SeenExactly(t, Two, k, ts);
      ReportedIsTold(rings1, rings2, turns, view, tells, One, k, ts);
      ReportedIsTold(rings1, rings2, turns, view, tells, Two, k, ts);
    }
    forall k | k in Join(t) ensures exists t1, t2 :: Told(a1, tells, k, t1) && Told(a2, tells, k, t2) {
      assert Told(a1, tells, k, Seen(t, One)[k]) && Told(a2, tells, k, Seen(t, Two)[k]);
    }
  }

  // ----- the reports -----

  ghost predicate ReportsStreams<K(!new)>(s: Tally, a: seq<seq<Event>>, b: seq<seq<Event>>, tells: Telling<K>) {
    exists j :: JoinsStreams(j, a, b, tells) && TalliesJoin(s, j)
  }

  /** A run in which receivers offered their own events, every ring was drained and none dropped
      anything. */
  ghost predicate CompleteRun(rings1: seq<nat>, rings2: seq<nat>, turns: seq<Turn>) {
    AllOwn(turns) && forall ep :: Complete(BenchRun(rings1, rings2, turns).Of(ep))
  }

  lemma StageOffersJoined(strict: bool, rings1: seq<nat>, rings2: seq<nat>, turns: seq<Turn>, stage: SlotStage)
    requires CompleteRun(rings1, rings2, turns) && !stage.StageDead?
    requires Healthy(StageTrace(BenchRun(rings1, rings2, turns).merged, stage))
    ensures ReportsStreams(TallyOf(DispatchAll(strict, BenchRun(rings1, rings2, turns).merged).slots.For(stage)),
                           Streams(ActsOf(turns, One), |rings1|), Streams(ActsOf(turns, Two), |rings2|),
                           (e, k, ts) => TellsSlot(stage, e, k, ts))
  {
    var t := BenchRun(rings1, rings2, turns).merged;
    StageReportsJoin(strict, t, stage);
    ViewsRead(strict, stage);
    JoinOfOffers(rings1, rings2, turns, e => StageObs(e, stage), (e, k, ts) => TellsSlot(stage, e, k, ts));
    assert TalliesJoin(TallyOf(DispatchAll(strict, t).slots.For(stage)), Join(StageTrace(t, stage)));
  }

  lemma TransactionOffersJoined(strict: bool, rings1: seq<nat>, rings2: seq<nat>, turns: seq<Turn>)
    requires CompleteRun(rings1, rings2, turns) && Healthy(TxTrace(BenchRun(rings1, rings2, turns).merged))
    ensures ReportsStreams(TallyOf(DispatchAll(strict, BenchRun(rings1, rings2, turns).merged).transactions),
                           Streams(ActsOf(turns, One), |rings1|), Streams(ActsOf(turns, Two), |rings2|), TellsTransaction)
  {
    var t := BenchRun(rings1, rings2, turns).merged;
    TransactionsReportJoin(strict, t);
    ViewsRead(strict, StageDead);
    JoinOfOffers(rings1, rings2, turns, TxObs, TellsTransaction);
    assert TalliesJoin(TallyOf(DispatchAll(strict, t).transactions), Join(TxTrace(t)));
  }

  lemma BlockOffersJoined(strict: bool, rings1: seq<nat>, rings2: seq<nat>, turns: seq<Turn>)
    requires CompleteRun(rings1, rings2, turns) && Healthy(BlockTrace(BenchRun(rings1, rings2, turns).merged))
    ensures ReportsStreams(TallyOf(DispatchAll(strict, BenchRun(rings1, rings2, turns).merged).blocks),
                           Streams(ActsOf(turns, One), |rings1|), Streams(ActsOf(turns, Two), |rings2|), TellsBlock)
  {
    var t := BenchRun(rings1, rings2, turns).merged;
    BlocksReportJoin(strict, t);
    ViewsRead(strict, StageDead);
    JoinOfOffers(rings1, rings2, turns, BlockObs, TellsBlock);
    assert TalliesJoin(TallyOf(DispatchAll(strict, t).blocks), Join(BlockTrace(t)));
  }

  lemma AccountOffersJoined(strict: bool, rings1: seq<nat>, rings2: seq<nat>, turns: seq<Turn>)
    requires CompleteRun(rings1, rings2, turns) && Healthy(AccountKeys(strict, BenchRun(rings1, rings2, turns).merged))
    ensures ReportsStreams(Sum(ShardTallies(DispatchAll(strict, BenchRun(rings1, rings2, turns).merged).accounts)),
                           Streams(ActsOf(turns, One), |rings1|), Streams(ActsOf(turns, Two), |rings2|),
                           (e, k, ts) => TellsAccount(strict, e, k, ts))
  {
    var t := BenchRun(rings1, rings2, turns).merged;
    AccountsReportJoin(strict, t);
    AccountKeysProject(strict, t);
    ViewsRead(strict, StageDead);
    JoinOfOffers(rings1, rings2, turns, e => GlobalView(strict, e), (e, k, ts) => TellsAccount(strict, e, k, ts));
  }

  /** From the receivers to the report: in a complete run every stream without late or repeated
      reports has the join of what the two endpoints' receivers offered, whatever the other
      streams are like and whatever the interleaving of receivers, dispatchers and passes. */
  lemma RunReportsJoin(strict: bool, rings1: seq<nat>, rings2: seq<nat>, turns: seq<Turn>)
    requires CompleteRun(rings1, rings2, turns)
    ensures var t := BenchRun(rings1, rings2, turns).merged;
            var m := DispatchAll(strict, t);
            var a, b := Streams(ActsOf(turns, One), |rings1|), Streams(ActsOf(turns, Two), |rings2|);
            && (forall stage: SlotStage :: !stage.StageDead? && Healthy(StageTrace(t, stage)) ==>
                  ReportsStreams(TallyOf(m.slots.For(stage)), a, b, (e, k, ts) => TellsSlot(stage, e, k, ts)))
            && (Healthy(TxTrace(t)) ==> ReportsStreams(TallyOf(m.transactions), a, b, TellsTransaction))
            && (Healthy(BlockTrace(t)) ==> ReportsStreams(TallyOf(m.blocks), a, b, TellsBlock))
            && (Healthy(AccountKeys(strict, t)) ==>
                  ReportsStreams(Sum(ShardTallies(m.accounts)), a, b, (e, k, ts) => TellsAccount(strict, e, k, ts)))
  {
    var t := BenchRun(rings1, rings2, turns).merged;
    forall stage: SlotStage | !stage.StageDead? && Healthy(StageTrace(t, stage))
      ensures ReportsStreams(TallyOf(DispatchAll(strict, t).slots.For(stage)),
                             Streams(ActsOf(turns, One), |rings1|), Streams(ActsOf(turns, Two), |rings2|),
                             (e, k, ts) => TellsSlot(stage, e, k, ts))
    {
      StageOffersJoined(strict, rings1, rings2, turns, stage);
    }
    if Healthy(TxTrace(t)) {
      TransactionOffersJoined(strict, rings1, rings2, turns);
    }
    if Healthy(BlockTrace(t)) {
      BlockOffersJoined(strict, rings1, rings2, turns);
    }
    if Healthy(AccountKeys(strict, t)) {
      AccountOffersJoined(strict, rings1, rings2, turns);
    }
  }
}
