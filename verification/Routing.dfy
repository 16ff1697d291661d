/** Dispatch: one event goes to at most one matcher, so each matcher sees exactly its own
    subsequence of the merged stream and nothing else. */
module Routing {
  import opened Types
  import opened PairMatching
  import opened MatcherWindow
  import opened AccountMatching

  const WINDOW: U64 := 64

  /** Commitment is part of a block's identity. */
  datatype BlockKey = BlockKey(commitment: Commitment, slot: U64, blockhash: Pubkey32)

  datatype TxId = TxId(slot: U64, signature: Signature64)

  datatype SlotMatchers = SlotMatchers(firstShredReceived: Matcher<U64>, completed: Matcher<U64>, createdBank: Matcher<U64>,
                                       processed: Matcher<U64>, confirmed: Matcher<U64>, finalized: Matcher<U64>)
  {
    function For(stage: SlotStage): Matcher<U64>
      requires !stage.StageDead?
    {
      match stage
      case StageFirstShredReceived => firstShredReceived
      case StageCompleted => completed
      case StageCreatedBank => createdBank
      case StageProcessed => processed
      case StageConfirmed => confirmed
      case StageFinalized => finalized
    }

    function With(stage: SlotStage, m: Matcher<U64>): SlotMatchers
      requires !stage.StageDead?
    {
      match stage
      case StageFirstShredReceived => this.(firstShredReceived := m)
      case StageCompleted => this.(completed := m)
      case StageCreatedBank => this.(createdBank := m)
      case StageProcessed => this.(processed := m)
      case StageConfirmed => this.(confirmed := m)
      case StageFinalized => this.(finalized := m)
    }

    /** A dead slot is dropped silently. */
    function Observe(ep: EndpointRole, slot: U64, stage: SlotStage, ts: Timestamp): SlotMatchers {
      if stage.StageDead? then this else With(stage, Step(EVICT_EVERY, For(stage), Obs(ep, slot, ts, slot)))
    }
  }

  datatype StreamMatchers = StreamMatchers(slots: SlotMatchers, accounts: Shards,
                                           transactions: Matcher<TxId>, blocks: Matcher<BlockKey>)

  function FreshStreams(): StreamMatchers {
    var f := Fresh(WINDOW);
    StreamMatchers(SlotMatchers(f, f, f, f, f, f), map[], Fresh(WINDOW), Fresh(WINDOW))
  }

  function Dispatch(strict: bool, s: StreamMatchers, e: Event): StreamMatchers {
    var ep, ts := e.subscription.ep, e.ts;
    match e.payload
    case SlotUpdate(slot, stage) => s.(slots := s.slots.Observe(ep, slot, stage, ts))
    case AccountUpdate(slot, pubkey, owner, writeVersion, signature) =>
      s.(accounts := AccountsStep(WINDOW, strict, s.accounts, AccountObs(ep, slot, pubkey, writeVersion, signature, owner, ts)))
    case TransactionUpdate(slot, signature) =>
      s.(transactions := Step(EVICT_EVERY, s.transactions, Obs(ep, TxId(slot, signature), ts, slot)))
    case BlockUpdate(slot, blockhash) =>
      if e.subscription.Main?
      then s.(blocks := Step(EVICT_EVERY, s.blocks, Obs(ep, BlockKey(e.subscription.commitment, slot, blockhash), ts, slot)))
      else s
    case EntryUpdate(_, _) => s
  }

  function DispatchAll(strict: bool, t: seq<Event>): StreamMatchers {
    if t == [] then FreshStreams() else Dispatch(strict, DispatchAll(strict, t[..|t| - 1]), t[|t| - 1])
  }

  // ----- where an event goes -----

  datatype Route = ToStage(stage: SlotStage) | ToOwner(owner: Pubkey32) | ToTransactions | ToBlocks | Nowhere

  function RouteOf(e: Event): Route {
    match e.payload
    case SlotUpdate(_, stage) => if stage.StageDead? then Nowhere else ToStage(stage)
    case AccountUpdate(_, _, owner, _, _) => ToOwner(owner)
    case TransactionUpdate(_, _) => ToTransactions
    case BlockUpdate(_, _) => if e.subscription.Main? then ToBlocks else Nowhere
    case EntryUpdate(_, _) => Nowhere
  }

  function Along(t: seq<Event>, r: Route): seq<Event> {
    if t == [] then []
    else
      var n := |t| - 1;
      if RouteOf(t[n]) == r then Along(t[..n], r) + [t[n]] else Along(t[..n], r)
  }

  /** The part of the state that one route can touch. */
  datatype Part = StagePart(m: Matcher<U64>) | OwnerPart(shard: Option<Shard>) | TxPart(txs: Matcher<TxId>)
                | BlockPart(blocks: Matcher<BlockKey>) | NoPart

  function PartOf(s: StreamMatchers, r: Route): Part {
    match r
    case ToStage(stage) => if stage.StageDead? then NoPart else StagePart(s.slots.For(stage))
    case ToOwner(owner) => OwnerPart(if owner in s.accounts then Some(s.accounts[owner]) else None)
    case ToTransactions => TxPart(s.transactions)
    case ToBlocks => BlockPart(s.blocks)
    case Nowhere => NoPart
  }

  lemma SamePartsSameState(s: StreamMatchers, u: StreamMatchers)
    requires forall r :: PartOf(s, r) == PartOf(u, r)
    ensures s == u
  {
    assert PartOf(s, ToStage(StageFirstShredReceived)) == PartOf(u, ToStage(StageFirstShredReceived));
    assert PartOf(s, ToStage(StageCompleted)) == PartOf(u, ToStage(StageCompleted));
    assert PartOf(s, ToStage(StageCreatedBank)) == PartOf(u, ToStage(StageCreatedBank));
    assert PartOf(s, ToStage(StageProcessed)) == PartOf(u, ToStage(StageProcessed));
    assert PartOf(s, ToStage(StageConfirmed)) == PartOf(u, ToStage(StageConfirmed));
    assert PartOf(s, ToStage(StageFinalized)) == PartOf(u, ToStage(StageFinalized));
    assert PartOf(s, ToTransactions) == PartOf(u, ToTransactions) && PartOf(s, ToBlocks) == PartOf(u, ToBlocks);
    forall o: Pubkey32 ensures (o in s.accounts <==> o in u.accounts) && (o in s.accounts ==> s.accounts[o] == u.accounts[o]) {
      assert PartOf(s, ToOwner(o)) == PartOf(u, ToOwner(o));
    }
    assert s.accounts == u.accounts;
  }

  /** A dispatch leaves every part but its own alone, and acts on its own by that part only. */
  lemma DispatchIsLocal(strict: bool, s: StreamMatchers, u: StreamMatchers, e: Event, r: Route)
    ensures RouteOf(e) != r ==> PartOf(Dispatch(strict, s, e), r) == PartOf(s, r)
    ensures PartOf(s, r) == PartOf(u, r) ==> PartOf(Dispatch(strict, s, e), r) == PartOf(Dispatch(strict, u, e), r)
  {
  }

  // ----- the theorems -----

  /** Every matcher is left as if it had run alone on its own subsequence of the events. */
  lemma {:induction false} RoutingProjection(strict: bool, t: seq<Event>, r: Route)
    ensures PartOf(DispatchAll(strict, t), r) == PartOf(DispatchAll(strict, Along(t, r)), r)
  {
    if t != [] {
      var n := |t| - 1;
      var alone := Along(t[..n], r);
      RoutingProjection(strict, t[..n], r);
      DispatchIsLocal(strict, DispatchAll(strict, t[..n]), DispatchAll(strict, alone), t[n], r);
      assert (alone + [t[n]])[..|alone|] == alone;
    }
  }

  /** The merged streams may be interleaved at will as long as each route keeps its order. */
  lemma RoutingConfluence(strict: bool, t: seq<Event>, u: seq<Event>)
    requires forall r :: Along(t, r) == Along(u, r)
    ensures DispatchAll(strict, t) == DispatchAll(strict, u)
  {
    forall r ensures PartOf(DispatchAll(strict, t), r) == PartOf(DispatchAll(strict, u), r) {
      RoutingProjection(strict, t, r);
      RoutingProjection(strict, u, r);
    }
    SamePartsSameState(DispatchAll(strict, t), DispatchAll(strict, u));
  }

  /** Dispatches along different routes commute in every state, and an event that goes nowhere
      changes nothing. */
  lemma DispatchCommutes(strict: bool, s: StreamMatchers, a: Event, b: Event)
    requires RouteOf(a) != RouteOf(b)
    ensures Dispatch(strict, Dispatch(strict, s, a), b) == Dispatch(strict, Dispatch(strict, s, b), a)
    ensures RouteOf(a) == Nowhere ==> Dispatch(strict, s, a) == s
  {
    var sa, sb := Dispatch(strict, s, a), Dispatch(strict, s, b);
    forall r ensures PartOf(Dispatch(strict, sa, b), r) == PartOf(Dispatch(strict, sb, a), r) {
      DispatchIsLocal(strict, s, sb, a, r);
      DispatchIsLocal(strict, s, sa, b, r);
      DispatchIsLocal(strict, sa, s, b, r);
      DispatchIsLocal(strict, sb, s, a, r);
    }
    SamePartsSameState(Dispatch(strict, sa, b), Dispatch(strict, sb, a));
  }

  // ----- each stream is a plain matcher -----

  function StageObs(e: Event, stage: SlotStage): Option<Obs<U64>> {
    match e.payload
    case SlotUpdate(slot, s) => if s == stage then Some(Obs(e.subscription.ep, slot, e.ts, slot)) else None
    case _ => None
  }

  function TxObs(e: Event): Option<Obs<TxId>> {
    match e.payload
    case TransactionUpdate(slot, signature) => Some(Obs(e.subscription.ep, TxId(slot, signature), e.ts, slot))
    case _ => None
  }

  function BlockObs(e: Event): Option<Obs<BlockKey>> {
    match e.payload
    case BlockUpdate(slot, blockhash) =>
      if e.subscription.Main?
      then Some(Obs(e.subscription.ep, BlockKey(e.subscription.commitment, slot, blockhash), e.ts, slot))
      else None
    case _ => None
  }

  function AccountObsOf(e: Event): Option<AccountObs> {
    match e.payload
    case AccountUpdate(slot, pubkey, owner, writeVersion, signature) =>
      Some(AccountObs(e.subscription.ep, slot, pubkey, writeVersion, signature, owner, e.ts))
    case _ => None
  }

  function Append<T>(s: seq<T>, x: Option<T>): seq<T> {
    match x
    case None => s
    case Some(v) => s + [v]
  }

  /** What a stream sees of the merged events, in order. */
  function Project<T>(t: seq<Event>, view: Event -> Option<T>): seq<T> {
    if t == [] then [] else Append(Project(t[..|t| - 1], view), view(t[|t| - 1]))
  }

  function StageTrace(t: seq<Event>, stage: SlotStage): seq<Obs<U64>> {
    Project(t, e => StageObs(e, stage))
  }

  function TxTrace(t: seq<Event>): seq<Obs<TxId>> {
    Project(t, TxObs)
  }

  function BlockTrace(t: seq<Event>): seq<Obs<BlockKey>> {
    Project(t, BlockObs)
  }

  function AccountTrace(t: seq<Event>): seq<AccountObs> {
    Project(t, AccountObsOf)
  }

  function OwnerTrace(strict: bool, t: seq<AccountObs>, owner: Pubkey32): seq<Obs<AccountKey>> {
    if t == [] then []
    else
      var n := |t| - 1;
      var before := OwnerTrace(strict, t[..n], owner);
      if t[n].owner == owner then before + [ShardObs(strict, t[n])] else before
  }

  function StepOption<K>(m: Matcher<K>, o: Option<Obs<K>>): Matcher<K> {
    match o
    case None => m
    case Some(x) => Step(EVICT_EVERY, m, x)
  }

  lemma RunAppend<K>(t: seq<Obs<K>>, o: Option<Obs<K>>)
    ensures Run(EVICT_EVERY, Fresh(WINDOW), Append(t, o)) == StepOption(Run(EVICT_EVERY, Fresh(WINDOW), t), o)
  {
    match o
    case None =>
    case Some(x) => RunSnoc(EVICT_EVERY, Fresh(WINDOW), t, x);
  }

  lemma DispatchByStream(strict: bool, s: StreamMatchers, e: Event)
    ensures var s' := Dispatch(strict, s, e);
            && s'.transactions == StepOption(s.transactions, TxObs(e))
            && s'.blocks == StepOption(s.blocks, BlockObs(e))
            && s'.accounts == match AccountObsOf(e)
                              case None => s.accounts
                              case Some(o) => AccountsStep(WINDOW, strict, s.accounts, o)
  {
  }

  lemma WithFor(s: SlotMatchers, stage: SlotStage, m: Matcher<U64>, other: SlotStage)
    requires !stage.StageDead? && !other.StageDead?
    ensures s.With(stage, m).For(other) == if stage == other then m else s.For(other)
  {
  }

  lemma DispatchByStage(strict: bool, s: StreamMatchers, e: Event, stage: SlotStage)
    requires !stage.StageDead?
    ensures Dispatch(strict, s, e).slots.For(stage) == StepOption(s.slots.For(stage), StageObs(e, stage))
  {
    match e.payload
    case SlotUpdate(slot, at) =>
      if !at.StageDead? {
        WithFor(s.slots, at, Step(EVICT_EVERY, s.slots.For(at), Obs(e.subscription.ep, slot, e.ts, slot)), stage);
      }
    case _ =>
  }

  /** Each slot stage of the merged stream is the plain matcher on that stage's slots. */
  lemma {:induction false} StageRunsAlone(strict: bool, t: seq<Event>, stage: SlotStage)
    requires !stage.StageDead?
    ensures DispatchAll(strict, t).slots.For(stage) == Run(256, Fresh(64), StageTrace(t, stage))
  {
    if t != [] {
      var n := |t| - 1;
      StageRunsAlone(strict, t[..n], stage);
      DispatchByStage(strict, DispatchAll(strict, t[..n]), t[n], stage);
      RunAppend(StageTrace(t[..n], stage), StageObs(t[n], stage));
    }
  }

  /** Which of the six matchers a stage is reported by. */
  lemma StagesRunAlone(strict: bool, t: seq<Event>)
    ensures var slots := DispatchAll(strict, t).slots;
            && slots.firstShredReceived == Run(256, Fresh(64), StageTrace(t, StageFirstShredReceived))
            && slots.completed == Run(256, Fresh(64), StageTrace(t, StageCompleted))
            && slots.createdBank == Run(256, Fresh(64), StageTrace(t, StageCreatedBank))
            && slots.processed == Run(256, Fresh(64), StageTrace(t, StageProcessed))
            && slots.confirmed == Run(256, Fresh(64), StageTrace(t, StageConfirmed))
            && slots.finalized == Run(256, Fresh(64), StageTrace(t, StageFinalized))
  {
    StageRunsAlone(strict, t, StageFirstShredReceived);
    StageRunsAlone(strict, t, StageCompleted);
    StageRunsAlone(strict, t, StageCreatedBank);
    StageRunsAlone(strict, t, StageProcessed);
    StageRunsAlone(strict, t, StageConfirmed);
    StageRunsAlone(strict, t, StageFinalized);
  }

  lemma {:induction false} TransactionsRunAlone(strict: bool, t: seq<Event>)
    ensures DispatchAll(strict, t).transactions == Run(256, Fresh(64), TxTrace(t))
  {
    if t != [] {
      var n := |t| - 1;
      TransactionsRunAlone(strict, t[..n]);
      DispatchByStream(strict, DispatchAll(strict, t[..n]), t[n]);
      RunAppend(TxTrace(t[..n]), TxObs(t[n]));
    }
  }

  lemma {:induction false} BlocksRunAlone(strict: bool, t: seq<Event>)
    ensures DispatchAll(strict, t).blocks == Run(256, Fresh(64), BlockTrace(t))
  {
    if t != [] {
      var n := |t| - 1;
      BlocksRunAlone(strict, t[..n]);
      DispatchByStream(strict, DispatchAll(strict, t[..n]), t[n]);
      RunAppend(BlockTrace(t[..n]), BlockObs(t[n]));
    }
  }

  lemma AccountsRunAppend(strict: bool, t: seq<AccountObs>, o: AccountObs)
    ensures AccountsRun(WINDOW, strict, t + [o]) == AccountsStep(WINDOW, strict, AccountsRun(WINDOW, strict, t), o)
  {
    assert (t + [o])[..|t|] == t;
  }

  lemma {:induction false} AccountsRunAlone(strict: bool, t: seq<Event>)
    ensures DispatchAll(strict, t).accounts == AccountsRun(WINDOW, strict, AccountTrace(t))
  {
    if t != [] {
      var n := |t| - 1;
      AccountsRunAlone(strict, t[..n]);
      DispatchByStream(strict, DispatchAll(strict, t[..n]), t[n]);
      match AccountObsOf(t[n])
      case None =>
      case Some(o) => AccountsRunAppend(strict, AccountTrace(t[..n]), o);
    }
  }

  lemma AccountsStepShard(strict: bool, shards: Shards, o: AccountObs, owner: Pubkey32)
    ensures var after := AccountsStep(WINDOW, strict, shards, o);
            && (owner in after <==> owner == o.owner || owner in shards)
            && ShardFor(WINDOW, after, owner).main
               == if owner == o.owner then Step(EVICT_EVERY, ShardFor(WINDOW, shards, owner).main, ShardObs(strict, o))
                  else ShardFor(WINDOW, shards, owner).main
  {
  }

  /** Each owner's shard is the plain matcher on that owner's account updates, and exists
      exactly when the owner has had one. */
  lemma {:induction false} ShardRunsAlone(strict: bool, t: seq<AccountObs>, owner: Pubkey32)
    ensures var shards := AccountsRun(WINDOW, strict, t);
            && (owner in shards <==> OwnerTrace(strict, t, owner) != [])
            && ShardFor(64, shards, owner).main == Run(256, Fresh(64), OwnerTrace(strict, t, owner))
  {
    if t != [] {
      var n := |t| - 1;
      ShardRunsAlone(strict, t[..n], owner);
      AccountsStepShard(strict, AccountsRun(WINDOW, strict, t[..n]), t[n], owner);
      RunSnoc(EVICT_EVERY, Fresh(WINDOW), OwnerTrace(strict, t[..n], owner), ShardObs(strict, t[n]));
    }
  }

  function SlotOfTxId(k: TxId): U64 { k.slot }

  function SlotOfBlock(k: BlockKey): U64 { k.slot }

  function SlotOfSlot(s: U64): U64 { s }

  lemma {:induction false} ViewHoldsSlots<K>(t: seq<Event>, view: Event -> Option<Obs<K>>, slotOf: K -> U64)
    requires forall e :: view(e).Some? ==> view(e).value.slot == slotOf(view(e).value.key)
    ensures SlotOfKey(Project(t, view), slotOf)
  {
    if t != [] {
      ViewHoldsSlots(t[..|t| - 1], view, slotOf);
    }
  }

  /** In every stream the slot is part of the key, so the window theorems apply to each. */
  lemma StreamKeysHoldSlots(strict: bool, t: seq<Event>, stage: SlotStage, owner: Pubkey32)
    ensures SlotOfKey(StageTrace(t, stage), SlotOfSlot)
    ensures SlotOfKey(TxTrace(t), SlotOfTxId)
    ensures SlotOfKey(BlockTrace(t), SlotOfBlock)
    ensures SlotOfKey(OwnerTrace(strict, AccountTrace(t), owner), SlotOfAccount)
  {
    ViewHoldsSlots(t, e => StageObs(e, stage), SlotOfSlot);
    ViewHoldsSlots(t, TxObs, SlotOfTxId);
    ViewHoldsSlots(t, BlockObs, SlotOfBlock);
    OwnerKeysHoldSlots(strict, AccountTrace(t), owner);
  }

  lemma {:induction false} OwnerKeysHoldSlots(strict: bool, t: seq<AccountObs>, owner: Pubkey32)
    ensures SlotOfKey(OwnerTrace(strict, t, owner), SlotOfAccount)
  {
    if t != [] {
      OwnerKeysHoldSlots(strict, t[..|t| - 1], owner);
    }
  }

  // ----- the matchers shared by the two dispatchers -----

  class SharedMatchers {
    var slots: SlotMatchers
    var accounts: Shards
    var transactions: Matcher<TxId>
    var blocks: Matcher<BlockKey>
    const strict: bool
    /** Every event dispatched so far, by either dispatcher. */
    ghost var history: seq<Event>

    ghost predicate Valid()
      reads this
    {
      StreamMatchers(slots, accounts, transactions, blocks) == DispatchAll(strict, history)
    }

    constructor (strict: bool)
      ensures Valid() && history == [] && this.strict == strict
    {
      var f := Fresh(WINDOW);
      slots := SlotMatchers(f, f, f, f, f, f);
      accounts, transactions, blocks := map[], Fresh(WINDOW), Fresh(WINDOW);
      this.strict := strict;
      history := [];
    }

    /** One dispatch is one atomic step: the state is always the run over the events so far. */
    method DispatchEvent(e: Event)
      requires Valid()
      modifies this
      ensures Valid() && history == old(history) + [e]
    {
      history := history + [e];
      assert history[..|history| - 1] == old(history);
      var ep, ts := e.subscription.ep, e.ts;
      match e.payload {
        case SlotUpdate(slot, stage) =>
          ObserveStage(ep, slot, stage, ts);
        case AccountUpdate(slot, pubkey, owner, writeVersion, signature) =>
          accounts := AccountsStep(WINDOW, strict, accounts, AccountObs(ep, slot, pubkey, writeVersion, signature, owner, ts));
        case TransactionUpdate(slot, signature) =>
          transactions := Step(EVICT_EVERY, transactions, Obs(ep, TxId(slot, signature), ts, slot));
        case BlockUpdate(slot, blockhash) =>
          if e.subscription.Main? {
            blocks := Step(EVICT_EVERY, blocks, Obs(ep, BlockKey(e.subscription.commitment, slot, blockhash), ts, slot));
          }
        case EntryUpdate(_, _) =>
      }
    }

    method ObserveStage(ep: EndpointRole, slot: U64, stage: SlotStage, ts: Timestamp)
      modifies this`slots
      ensures slots == old(slots).Observe(ep, slot, stage, ts)
    {
      if stage.StageDead? {
        return;
      }
      slots := slots.With(stage, Step(EVICT_EVERY, slots.For(stage), Obs(ep, slot, ts, slot)));
    }
  }
}
