/** The account stream: one matcher per owner program, each with its own high water and
    eviction cadence, against the single matcher keyed on owner and key together. */
module AccountMatching {
  import opened Types
  import opened Digests
  import opened PairMatching
  import opened MatcherWindow
  import opened Tallies

  /** The trailing write version is present only in strict-key mode. */
  datatype AccountKey = AccountKey(slot: U64, pubkey: Pubkey32, signature: Option<Signature64>, writeVersion: Option<U64>)

  datatype AccountObs = AccountObs(ep: EndpointRole, slot: U64, pubkey: Pubkey32, writeVersion: U64,
                                   signature: Option<Signature64>, owner: Pubkey32, ts: Timestamp)

  /** The per-program digest keeps its own buffer and counters. */
  datatype ProgramDigest = ProgramDigest(digest: Digest, matched: nat, ep1Faster: nat, ep2Faster: nat) {
    function Push(delta: int): ProgramDigest {
      ProgramDigest(digest.Push(delta), matched + 1,
                    ep1Faster + (if delta > 0 then 1 else 0), ep2Faster + (if delta < 0 then 1 else 0))
    }

    ghost function Report(): Tally {
      Tally(matched, ep1Faster, ep2Faster, digest.All())
    }
  }

  datatype Shard = Shard(main: Matcher<AccountKey>, program: ProgramDigest)

  type Shards = map<Pubkey32, Shard>

  function FreshShard(window: U64): Shard {
    Shard(Fresh(window), ProgramDigest(EMPTY, 0, 0, 0))
  }

  function KeyOf(strict: bool, o: AccountObs): AccountKey {
    AccountKey(o.slot, o.pubkey, o.signature, if strict then Some(o.writeVersion) else None)
  }

  function ShardObs(strict: bool, o: AccountObs): Obs<AccountKey> {
    Obs(o.ep, KeyOf(strict, o), o.ts, o.slot)
  }

  /** The shard an event is routed to, created on first use. */
  function ShardFor(window: U64, shards: Shards, owner: Pubkey32): Shard {
    if owner in shards then shards[owner] else FreshShard(window)
  }

  function ShardStep(s: Shard, o: Obs<AccountKey>): Shard {
    Shard(Step(EVICT_EVERY, s.main, o),
          match StepResult(EVICT_EVERY, s.main, o)
          case None => s.program
          case Some(r) => s.program.Push(r.deltaNs))
  }

  function AccountsStep(window: U64, strict: bool, shards: Shards, o: AccountObs): Shards {
    shards[o.owner := ShardStep(ShardFor(window, shards, o.owner), ShardObs(strict, o))]
  }

  function AccountsRun(window: U64, strict: bool, t: seq<AccountObs>): Shards {
    if t == [] then map[] else AccountsStep(window, strict, AccountsRun(window, strict, t[..|t| - 1]), t[|t| - 1])
  }

  /** What the i-th account update obtained from its shard. */
  function ShardResultAt(window: U64, strict: bool, t: seq<AccountObs>, i: nat): Option<MatchResult>
    requires i < |t|
  {
    StepResult(EVICT_EVERY, ShardFor(window, AccountsRun(window, strict, t[..i]), t[i].owner).main, ShardObs(strict, t[i]))
  }

  /** The same updates but for their write versions. */
  ghost predicate SameButVersions(t: seq<AccountObs>, u: seq<AccountObs>) {
    |t| == |u| && forall i :: 0 <= i < |t| ==> u[i] == t[i].(writeVersion := u[i].writeVersion)
  }

  /** Outside strict mode the validators' own write versions have no effect whatsoever. */
  lemma {:induction false} LenientIgnoresVersions(window: U64, t: seq<AccountObs>, u: seq<AccountObs>)
    requires SameButVersions(t, u)
    ensures AccountsRun(window, false, t) == AccountsRun(window, false, u)
  {
    if t != [] {
      LenientIgnoresVersions(window, t[..|t| - 1], u[..|u| - 1]);
    }
  }

  /** In strict mode two updates share a key exactly when they agree on all four parts. */
  lemma StrictKeyIdentity(o: AccountObs, p: AccountObs)
    ensures KeyOf(true, o) == KeyOf(true, p)
            <==> (o.slot, o.pubkey, o.signature, o.writeVersion) == (p.slot, p.pubkey, p.signature, p.writeVersion)
  {
  }

  /** Outside strict mode two updates share a key exactly when they agree on slot, account and
      transaction. */
  lemma LenientKeyIdentity(o: AccountObs, p: AccountObs)
    ensures KeyOf(false, o) == KeyOf(false, p) <==> (o.slot, o.pubkey, o.signature) == (p.slot, p.pubkey, p.signature)
  {
  }

  // ----- the unsharded matcher -----

  type GlobalKey = (Pubkey32, AccountKey)

  function GlobalObs(strict: bool, o: AccountObs): Obs<GlobalKey> {
    Obs(o.ep, (o.owner, KeyOf(strict, o)), o.ts, o.slot)
  }

  function GlobalTrace(strict: bool, t: seq<AccountObs>): (g: seq<Obs<GlobalKey>>)
    ensures |g| == |t|
  {
    seq(|t|, i requires 0 <= i < |t| => GlobalObs(strict, t[i]))
  }

  function SlotOfAccount(k: AccountKey): U64 { k.slot }

  function SlotOfGlobal(k: GlobalKey): U64 { k.1.slot }

  // ----- one key at a time -----

  function Get<K>(m: Matcher<K>, k: K, ep: EndpointRole): Option<Pending> {
    if k in OwnPending(m, ep) then Some(OwnPending(m, ep)[k]) else None
  }

  /** What an arrival leaves waiting on side `ep` under the same key. */
  function After(mine: Option<Pending>, other: Option<Pending>, ep: EndpointRole, from: EndpointRole, p: Pending): Option<Pending> {
    if from != ep then None else if other.Some? then mine else Some(p)
  }

  lemma RendezvousOnKey<K>(m: Matcher<K>, o: Obs<K>, k: K, ep: EndpointRole)
    ensures Get(Rendezvous(m, o), k, ep)
            == if k != o.key then Get(m, k, ep)
               else After(Get(m, k, ep), Get(m, k, ep.Other()), ep, o.ep, Pending(o.ts, o.slot))
  {
    var waiting := Get(m, o.key, o.ep.Other());
    if ep == o.ep {
      assert ep.Other() == o.ep.Other();
    } else {
      assert ep == o.ep.Other();
    }
  }

  /** Above the cutoff a step acts on one key only, and by what waits under it alone. */
  lemma StepOnKey<K>(every: nat, m: Matcher<K>, o: Obs<K>, slotOf: K -> U64, k: K, ep: EndpointRole)
    requires PendingSlots(m, slotOf)
    requires slotOf(k) >= Cutoff(Arrive(every, m, o.slot))
    ensures Get(Step(every, m, o), k, ep)
            == if k != o.key then Get(m, k, ep)
               else After(Get(m, k, ep), Get(m, k, ep.Other()), ep, o.ep, Pending(o.ts, o.slot))
  {
    ArriveOnKey(every, m, o.slot, slotOf, k, ep);
    ArriveOnKey(every, m, o.slot, slotOf, k, ep.Other());
    RendezvousOnKey(Arrive(every, m, o.slot), o, k, ep);
  }

  lemma ArriveOnKey<K>(every: nat, m: Matcher<K>, slot: U64, slotOf: K -> U64, k: K, ep: EndpointRole)
    requires PendingSlots(m, slotOf) && slotOf(k) >= Cutoff(Arrive(every, m, slot))
    ensures Get(Arrive(every, m, slot), k, ep) == Get(m, k, ep)
  {
  }

  lemma ResultOnKey<K>(every: nat, m: Matcher<K>, o: Obs<K>, slotOf: K -> U64)
    requires PendingSlots(m, slotOf) && slotOf(o.key) >= Cutoff(Arrive(every, m, o.slot))
    ensures StepResult(every, m, o)
            == match Get(m, o.key, o.ep.Other()) case None => None case Some(p) => Some(PairOf(o, p))
  {
    ArriveOnKey(every, m, o.slot, slotOf, o.key, o.ep.Other());
  }

  // ----- sharded against unsharded -----

  ghost predicate ShardsAgree(window: U64, shards: Shards, g: Matcher<GlobalKey>) {
    && g.window == window && PendingSlots(g, SlotOfGlobal)
    && (forall o :: o in shards ==> ShardFits(window, shards[o].main, g.highWater))
    && (forall o: Pubkey32, k: AccountKey, ep :: k.slot >= Cutoff(g) ==> SameEntry(window, shards, g, o, k, ep))
  }

  ghost predicate SameEntry(window: U64, shards: Shards, g: Matcher<GlobalKey>, o: Pubkey32, k: AccountKey, ep: EndpointRole) {
    Get(ShardFor(window, shards, o).main, k, ep) == Get(g, (o, k), ep)
  }

  ghost predicate ShardFits(window: U64, m: Matcher<AccountKey>, high: U64) {
    m.window == window && m.highWater <= high && PendingSlots(m, SlotOfAccount)
  }

  lemma StepFits<K>(every: nat, m: Matcher<K>, o: Obs<K>, slotOf: K -> U64)
    requires PendingSlots(m, slotOf) && o.slot == slotOf(o.key)
    ensures var m' := Step(every, m, o);
            m'.window == m.window && m'.highWater == Max(m.highWater, o.slot) && PendingSlots(m', slotOf)
    ensures Cutoff(Arrive(every, m, o.slot)) == SaturatingSub(Max(m.highWater, o.slot), m.window)
  {
    ArriveKeeps(every, m, o.slot, slotOf);
    RendezvousKeepsSlots(Arrive(every, m, o.slot), o, slotOf);
  }

  lemma ShardedEntryStep(every: nat, window: U64, strict: bool, shards: Shards, g: Matcher<GlobalKey>, o: AccountObs,
                         w: Pubkey32, k: AccountKey, ep: EndpointRole)
    requires ShardsAgree(window, shards, g)
    requires k.slot >= SaturatingSub(Max(g.highWater, o.slot), window)
    ensures SameEntry(window, AccountsStep(window, strict, shards, o), Step(every, g, GlobalObs(strict, o)), w, k, ep)
  {
    var so, go := ShardObs(strict, o), GlobalObs(strict, o);
    var m := ShardFor(window, shards, o.owner).main;
    assert SameEntry(window, shards, g, w, k, ep) && SameEntry(window, shards, g, w, k, ep.Other());
    StepFits(every, g, go, SlotOfGlobal);
    StepOnKey(every, g, go, SlotOfGlobal, (w, k), ep);
    if w == o.owner {
      StepFits(EVICT_EVERY, m, so, SlotOfAccount);
      StepOnKey(EVICT_EVERY, m, so, SlotOfAccount, k, ep);
    }
  }

  /** The step of the simulation: agreement is kept whatever the unsharded matcher's cadence. */
  lemma ShardedStepAgrees(every: nat, window: U64, strict: bool, shards: Shards, g: Matcher<GlobalKey>, o: AccountObs)
    requires ShardsAgree(window, shards, g)
    ensures ShardsAgree(window, AccountsStep(window, strict, shards, o), Step(every, g, GlobalObs(strict, o)))
  {
    var go := GlobalObs(strict, o);
    var shards', g' := AccountsStep(window, strict, shards, o), Step(every, g, go);
    StepFits(EVICT_EVERY, ShardFor(window, shards, o.owner).main, ShardObs(strict, o), SlotOfAccount);
    StepFits(every, g, go, SlotOfGlobal);
    forall w: Pubkey32, k: AccountKey, ep | k.slot >= Cutoff(g') ensures SameEntry(window, shards', g', w, k, ep) {
      ShardedEntryStep(every, window, strict, shards, g, o, w, k, ep);
    }
  }

  /** An in-window arrival gets the same answer from its shard as from the unsharded matcher. */
  lemma ShardedResultAgrees(every: nat, window: U64, strict: bool, shards: Shards, g: Matcher<GlobalKey>, o: AccountObs)
    requires ShardsAgree(window, shards, g) && o.slot >= Cutoff(Arrive(every, g, o.slot))
    ensures StepResult(EVICT_EVERY, ShardFor(window, shards, o.owner).main, ShardObs(strict, o))
            == StepResult(every, g, GlobalObs(strict, o))
  {
    var so, go := ShardObs(strict, o), GlobalObs(strict, o);
    var m := ShardFor(window, shards, o.owner).main;
    StepFits(EVICT_EVERY, m, so, SlotOfAccount);
    StepFits(every, g, go, SlotOfGlobal);
    assert SameEntry(window, shards, g, o.owner, so.key, o.ep.Other());
    ResultOnKey(every, g, go, SlotOfGlobal);
    ResultOnKey(EVICT_EVERY, m, so, SlotOfAccount);
  }

  lemma {:induction false} ShardedRunAgrees(every: nat, window: U64, strict: bool, t: seq<AccountObs>)
    ensures ShardsAgree(window, AccountsRun(window, strict, t), Run(every, Fresh(window), GlobalTrace(strict, t)))
  {
    if t != [] {
      var n := |t| - 1;
      ShardedRunAgrees(every, window, strict, t[..n]);
      assert GlobalTrace(strict, t)[..n] == GlobalTrace(strict, t[..n]);
      ShardedStepAgrees(every, window, strict, AccountsRun(window, strict, t[..n]),
                        Run(every, Fresh(window), GlobalTrace(strict, t[..n])), t[n]);
    }
  }

  /** On every trace, at every globally in-window position, sharding does not change the
      answer. */
  lemma ShardingPointwise(every: nat, window: U64, strict: bool, t: seq<AccountObs>, i: nat)
    requires i < |t| && InWindow(window, GlobalTrace(strict, t), i)
    ensures ShardResultAt(window, strict, t, i) == ResultAt(every, Fresh(window), GlobalTrace(strict, t), i)
  {
    var g := GlobalTrace(strict, t);
    assert g[..i] == GlobalTrace(strict, t[..i]);
    ShardedRunAgrees(every, window, strict, t[..i]);
    ArrivalCutoff(every, window, g, i);
    ShardedResultAgrees(every, window, strict, AccountsRun(window, strict, t[..i]), Run(every, Fresh(window), g[..i]), t[i]);
  }

  // ----- totals over the shards -----

  ghost function ShardTallies(shards: Shards): map<Pubkey32, Tally> {
    map o | o in shards :: TallyOf(shards[o].main)
  }

  lemma ShardTalliesUpdate(shards: Shards, o: Pubkey32, s: Shard)
    ensures ShardTallies(shards[o := s]) == ShardTallies(shards)[o := TallyOf(s.main)]
  {
  }

  lemma ShardedStepGains(window: U64, strict: bool, shards: Shards, o: AccountObs)
    ensures var r := StepResult(EVICT_EVERY, ShardFor(window, shards, o.owner).main, ShardObs(strict, o));
            Sum(ShardTallies(AccountsStep(window, strict, shards, o))) == Sum(ShardTallies(shards)).Add(Gain(r))
  {
    var s, so := ShardFor(window, shards, o.owner), ShardObs(strict, o);
    var gain := Gain(StepResult(EVICT_EVERY, s.main, so));
    StepGains(EVICT_EVERY, s.main, so);
    ShardTalliesUpdate(shards, o.owner, ShardStep(s, so));
    SumGains(ShardTallies(shards), o.owner, TallyOf(s.main), gain);
  }

  lemma SumGains<A>(f: map<A, Tally>, k: A, before: Tally, gain: Tally)
    requires if k in f then f[k] == before else before == ZERO
    ensures Sum(f[k := before.Add(gain)]) == Sum(f).Add(gain)
  {
    SumUpdate(f, k, before.Add(gain));
    var rest := Sum(f - {k});
    AddLaws(before, gain, rest);
    AddLaws(before, rest, gain);
    AddLaws(gain, rest, ZERO);
    AddLaws(rest, gain, ZERO);
  }

  /** On in-window traces the sharded totals are those of the one unsharded matcher: matched,
      both faster counts, and every sample. */
  lemma {:induction false} ShardingPreservesTotals(every: nat, window: U64, strict: bool, t: seq<AccountObs>)
    requires AllInWindow(window, GlobalTrace(strict, t))
    ensures Sum(ShardTallies(AccountsRun(window, strict, t))) == TallyOf(Run(every, Fresh(window), GlobalTrace(strict, t)))
  {
    var g := GlobalTrace(strict, t);
    if t == [] {
      assert ShardTallies(AccountsRun(window, strict, t)) == map[];
    } else {
      var n := |t| - 1;
      assert g[..n] == GlobalTrace(strict, t[..n]);
      AllInWindowPrefix(window, g, n);
      ShardingPreservesTotals(every, window, strict, t[..n]);
      assert InWindow(window, g, n);
      ShardingPointwise(every, window, strict, t, n);
      ShardedStepGains(window, strict, AccountsRun(window, strict, t[..n]), t[n]);
      StepGains(every, Run(every, Fresh(window), g[..n]), g[n]);
    }
  }
}
