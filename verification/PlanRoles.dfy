/** Which streams a plan opens, role by role, and in which order it lists programs and streams. */
module PlanRoles {
  import opened Types
  import opened Arith
  import opened Sequences
  import opened Plan
  import opened PlanCoverage

  // ----- counting roles -----

  /** How many subscriptions have the role. */
  function CountRole(specs: seq<Spec>, r: SubscriptionRole): nat {
    if specs == [] then 0 else CountRole(specs[..|specs| - 1], r) + (if specs[|specs| - 1].role == r then 1 else 0)
  }

  lemma {:induction false} CountRoleConcat(a: seq<Spec>, b: seq<Spec>, r: SubscriptionRole)
    ensures CountRole(a + b, r) == CountRole(a, r) + CountRole(b, r)
  {
    if b == [] {
      assert a + b == a;
    } else {
      assert (a + b)[..|a + b| - 1] == a + b[..|b| - 1];
      CountRoleConcat(a, b[..|b| - 1], r);
    }
  }

  lemma {:induction false} CountAccountSpecs(ep: EndpointRole, at: EndpointSpec, d: Commitment, fs: seq<seq<string>>, r: SubscriptionRole)
    ensures CountRole(AccountSpecs(ep, at, d, fs), r) == if r == Main(ep, d, Accounts) then |fs| else 0
  {
    if fs != [] {
      var n := |fs| - 1;
      CountAccountSpecs(ep, at, d, fs[..n], r);
      var before := AccountSpecs(ep, at, d, fs[..n]);
      var x := Spec(Main(ep, d, Accounts), at, BuildMainRequest(d, fs[n], Accounts));
      assert (before + [x])[..|before|] == before;
    }
  }

  /** How often a stream is listed. */
  function CountStream(streams: seq<MainStream>, s: MainStream): nat {
    if streams == [] then 0 else CountStream(streams[..|streams| - 1], s) + (if streams[|streams| - 1] == s then 1 else 0)
  }

  lemma {:induction false} CountOtherSpecs(ep: EndpointRole, at: EndpointSpec, d: Commitment, programs: seq<string>,
                                           streams: seq<MainStream>, r: SubscriptionRole)
    ensures CountRole(OtherSpecs(ep, at, d, programs, streams), r)
            == if r.Main? && r.ep == ep && r.commitment == d then CountStream(streams, r.stream) else 0
  {
    if streams != [] {
      var n := |streams| - 1;
      CountOtherSpecs(ep, at, d, programs, streams[..n], r);
      var before := OtherSpecs(ep, at, d, programs, streams[..n]);
      var x := Spec(Main(ep, d, streams[n]), at, BuildMainRequest(d, programs, streams[n]));
      assert (before + [x])[..|before|] == before;
    }
  }

  /** How often one commitment's subscriptions have a stream: the accounts once per filter, the
      transactions and the blocks once if they are switched on. */
  function PerStream(cfg: Config, programs: seq<string>, s: MainStream): nat {
    match s
    case Slots => 0
    case Accounts => |Filters(programs, ChunkSize(cfg))|
    case Transactions => if cfg.withTransactions then 1 else 0
    case Blocks => if cfg.withBlocks then 1 else 0
  }

  lemma CountOtherStreams(cfg: Config, programs: seq<string>, s: MainStream)
    ensures CountStream(OtherStreams(cfg), s) == if s == Accounts then 0 else PerStream(cfg, programs, s)
  {
    assert [Transactions, Blocks][..1] == [Transactions] && [Transactions][..0] == [] && [Blocks][..0] == [];
    assert [Transactions] + [] == [Transactions] && [] + [Blocks] == [Blocks];
    assert CountStream([Transactions], s) == (if s == Transactions then 1 else 0);
  }

  lemma CountCommitment(cfg: Config, programs: seq<string>, ep: EndpointRole, at: EndpointSpec, d: Commitment, r: SubscriptionRole)
    ensures CountRole(CommitmentSpecs(cfg, programs, ep, at, d), r)
            == if r.Main? && r.ep == ep && r.commitment == d then PerStream(cfg, programs, r.stream) else 0
  {
    var fs := Filters(programs, ChunkSize(cfg));
    CountAccountSpecs(ep, at, d, fs, r);
    CountOtherSpecs(ep, at, d, programs, OtherStreams(cfg), r);
    CountRoleConcat(AccountSpecs(ep, at, d, fs), OtherSpecs(ep, at, d, programs, OtherStreams(cfg)), r);
    if r.Main? {
      CountOtherStreams(cfg, programs, r.stream);
    }
  }

  lemma {:induction false} CountEach(per: Commitment -> seq<Spec>, cs: seq<Commitment>, r: SubscriptionRole, c: Commitment, k: nat)
    requires forall d :: CountRole(per(d), r) == if d == c then k else 0
    ensures CountRole(Each(per, cs), r) == Listed(cs, c) * k
  {
    if cs != [] {
      var n := |cs| - 1;
      CountEach(per, cs[..n], r, c, k);
      CountRoleConcat(Each(per, cs[..n]), per(cs[n]), r);
      MulSucc(Listed(cs[..n], c), k);
    }
  }

  lemma CountCommitments(cfg: Config, programs: seq<string>, e: EndpointRole, at: EndpointSpec, c: Commitment, s: MainStream, ep: EndpointRole)
    ensures CountRole(AllCommitments(cfg, programs, e, at, cfg.commitments), Main(ep, c, s))
            == Listed(cfg.commitments, c) * (if ep == e then PerStream(cfg, programs, s) else 0)
  {
    var per := d => CommitmentSpecs(cfg, programs, e, at, d);
    var k := if ep == e then PerStream(cfg, programs, s) else 0;
    forall d ensures CountRole(per(d), Main(ep, c, s)) == if d == c then k else 0 {
      CountCommitment(cfg, programs, e, at, d, Main(ep, c, s));
    }
    CountEach(per, cfg.commitments, Main(ep, c, s), c, k);
  }

  lemma NoEntriesInCommitments(cfg: Config, programs: seq<string>, e: EndpointRole, at: EndpointSpec, ep: EndpointRole)
    ensures CountRole(AllCommitments(cfg, programs, e, at, cfg.commitments), Entries(ep)) == 0
  {
    var per := d => CommitmentSpecs(cfg, programs, e, at, d);
    forall d ensures CountRole(per(d), Entries(ep)) == if d == Processed then 0 else 0 {
      CountCommitment(cfg, programs, e, at, d, Entries(ep));
    }
    CountEach(per, cfg.commitments, Entries(ep), Processed, 0);
  }

  lemma CountSlotSpec(cfg: Config, e: EndpointRole, at: EndpointSpec, r: SubscriptionRole)
    ensures CountRole([SlotSpec(cfg, e, at)], r) == if r == Main(e, LabelCommitment(cfg), Slots) then 1 else 0
  {
    assert [SlotSpec(cfg, e, at)][..0] == [];
  }

  /** One endpoint's main subscriptions, by role. */
  lemma CountMain(cfg: Config, programs: seq<string>, e: EndpointRole, ep: EndpointRole, c: Commitment, s: MainStream)
    requires EndpointOf(cfg, e).Some?
    ensures CountRole(MainSpecs(cfg, programs, e), Main(ep, c, s))
            == if ep == e then (if s == Slots && c == LabelCommitment(cfg) then 1 else 0) + Listed(cfg.commitments, c) * PerStream(cfg, programs, s)
               else 0
  {
    var at := EndpointOf(cfg, e).value;
    CountSlotSpec(cfg, e, at, Main(ep, c, s));
    CountCommitments(cfg, programs, e, at, c, s, ep);
    CountRoleConcat([SlotSpec(cfg, e, at)], AllCommitments(cfg, programs, e, at, cfg.commitments), Main(ep, c, s));
  }

  lemma NoEntriesInMain(cfg: Config, programs: seq<string>, e: EndpointRole, ep: EndpointRole)
    requires EndpointOf(cfg, e).Some?
    ensures CountRole(MainSpecs(cfg, programs, e), Entries(ep)) == 0
  {
    var at := EndpointOf(cfg, e).value;
    CountSlotSpec(cfg, e, at, Entries(ep));
    NoEntriesInCommitments(cfg, programs, e, at, ep);
    CountRoleConcat([SlotSpec(cfg, e, at)], AllCommitments(cfg, programs, e, at, cfg.commitments), Entries(ep));
  }

  lemma CountEntries(cfg: Config, e: EndpointRole, r: SubscriptionRole)
    ensures CountRole(EntriesSpecs(cfg, e), r)
            == if r == Entries(e) && (if e == One then cfg.entries1 else cfg.entries2).Some? then 1 else 0
  {
    var specs := EntriesSpecs(cfg, e);
    if specs != [] {
      assert specs[..0] == [];
    }
  }

  // ----- what a comparison opens -----

  ghost predicate Configured(cfg: Config, ep: EndpointRole) {
    ep == One || cfg.endpoint2.Some?
  }

  lemma StreamOpened(cfg: Config, programs: seq<string>, ep: EndpointRole, c: Commitment, s: MainStream)
    requires !cfg.solo
    ensures var count, listed := CountRole(PlanOf(cfg, programs), Main(ep, c, s)), Listed(cfg.commitments, c);
            if !Configured(cfg, ep) then count == 0
            else match s
              case Slots => count == (if c == (if cfg.commitments == [] then Processed else cfg.commitments[0]) then 1 else 0)
              case Accounts => count == listed * |Filters(programs, ChunkSize(cfg))|
              case Transactions => count == (if cfg.withTransactions then listed else 0)
              case Blocks => count == (if cfg.withBlocks then listed else 0)
  {
    MainRoleOpened(cfg, programs, ep, c, s);
    SwitchedOn(Listed(cfg.commitments, c), cfg.withTransactions);
    SwitchedOn(Listed(cfg.commitments, c), cfg.withBlocks);
    SwitchedOn(Listed(cfg.commitments, c), false);
  }

  lemma SwitchedOn(n: nat, on: bool)
    ensures n * (if on then 1 else 0) == if on then n else 0
  {
  }

  /** Outside solo mode, for each endpoint with an address: one slot subscription, labelled with
      the first listed commitment; for each listed commitment the accounts once per filter, and
      one transaction and one block subscription exactly if they are switched on. An endpoint
      without an address opens none of these. Entries are subscribed exactly where an entries
      address is configured. */
  lemma RolesOpened(cfg: Config, programs: seq<string>, ep: EndpointRole, c: Commitment)
    requires !cfg.solo
    ensures var plan, listed := PlanOf(cfg, programs), if Configured(cfg, ep) then Listed(cfg.commitments, c) else 0;
            && CountRole(plan, Main(ep, c, Transactions)) == (if cfg.withTransactions then listed else 0)
            && CountRole(plan, Main(ep, c, Blocks)) == (if cfg.withBlocks then listed else 0)
            && CountRole(plan, Main(ep, c, Slots))
               == (if Configured(cfg, ep) && c == (if cfg.commitments == [] then Processed else cfg.commitments[0]) then 1 else 0)
            && CountRole(plan, Entries(ep)) == (if (if ep == One then cfg.entries1 else cfg.entries2).Some? then 1 else 0)
    ensures CountRole(PlanOf(cfg, programs), Main(ep, c, Accounts))
            == if Configured(cfg, ep) then Listed(cfg.commitments, c) * |Filters(programs, ChunkSize(cfg))| else 0
  {
    StreamOpened(cfg, programs, ep, c, Transactions);
    StreamOpened(cfg, programs, ep, c, Blocks);
    StreamOpened(cfg, programs, ep, c, Accounts);
    StreamOpened(cfg, programs, ep, c, Slots);
    EntriesOpened(cfg, programs, ep);
  }

  lemma CountParts(cfg: Config, programs: seq<string>, r: SubscriptionRole)
    requires !cfg.solo
    ensures CountRole(PlanOf(cfg, programs), r)
            == CountRole(MainSpecs(cfg, programs, One), r) + CountRole(MainSpecs(cfg, programs, Two), r)
               + CountRole(EntriesSpecs(cfg, One), r) + CountRole(EntriesSpecs(cfg, Two), r)
  {
    var m1, m2 := MainSpecs(cfg, programs, One), MainSpecs(cfg, programs, Two);
    var e1, e2 := EntriesSpecs(cfg, One), EntriesSpecs(cfg, Two);
    CountRoleConcat(m1 + m2 + e1, e2, r);
    CountRoleConcat(m1 + m2, e1, r);
    CountRoleConcat(m1, m2, r);
  }

  lemma MainRoleOpened(cfg: Config, programs: seq<string>, ep: EndpointRole, c: Commitment, s: MainStream)
    requires !cfg.solo
    ensures CountRole(PlanOf(cfg, programs), Main(ep, c, s))
            == if Configured(cfg, ep)
               then (if s == Slots && c == LabelCommitment(cfg) then 1 else 0) + Listed(cfg.commitments, c) * PerStream(cfg, programs, s)
               else 0
  {
    var r := Main(ep, c, s);
    CountParts(cfg, programs, r);
    CountEntries(cfg, One, r);
    CountEntries(cfg, Two, r);
    CountMain(cfg, programs, One, ep, c, s);
    if cfg.endpoint2.Some? {
      CountMain(cfg, programs, Two, ep, c, s);
    } else {
      assert MainSpecs(cfg, programs, Two) == [];
    }
  }

  lemma EntriesOpened(cfg: Config, programs: seq<string>, ep: EndpointRole)
    requires !cfg.solo
    ensures CountRole(PlanOf(cfg, programs), Entries(ep)) == (if (if ep == One then cfg.entries1 else cfg.entries2).Some? then 1 else 0)
  {
    var r := Entries(ep);
    CountParts(cfg, programs, r);
    CountEntries(cfg, One, r);
    CountEntries(cfg, Two, r);
    NoEntriesInMain(cfg, programs, One, ep);
    if cfg.endpoint2.Some? {
      NoEntriesInMain(cfg, programs, Two, ep);
    } else {
      assert MainSpecs(cfg, programs, Two) == [];
    }
  }

  // ----- what solo mode opens -----

  /** Solo mode: the listed streams without repetitions, all on endpoint one, at the first listed
      commitment. */
  lemma SoloRoles(cfg: Config, programs: seq<string>)
    requires cfg.solo
    ensures var plan, streams := PlanOf(cfg, programs), Dedup(cfg.soloStreams);
            && |plan| == |streams|
            && forall i :: 0 <= i < |plan| ==>
                 plan[i].role == Main(One, if cfg.commitments == [] then Processed else cfg.commitments[0], streams[i])
  {
    OtherSpecsRoles(One, cfg.endpoint1, LabelCommitment(cfg), programs, Dedup(cfg.soloStreams));
  }

  /** Where a stream is listed first. */
  function FirstListed(streams: seq<MainStream>, s: MainStream): nat
    requires s in streams
  {
    var n := |streams| - 1;
    if s in streams[..n] then FirstListed(streams[..n], s) else n
  }

  lemma {:induction false} FirstListedIsFirst(streams: seq<MainStream>, s: MainStream)
    requires s in streams
    ensures var i := FirstListed(streams, s); i < |streams| && streams[i] == s && s !in streams[..i]
  {
    var n := |streams| - 1;
    if s in streams[..n] {
      FirstListedIsFirst(streams[..n], s);
      assert streams[..n][..FirstListed(streams, s)] == streams[..FirstListed(streams, s)];
    }
  }

  /** Streams keep the order in which they are first listed. */
  lemma {:induction false} SoloOrder(streams: seq<MainStream>)
    ensures forall s :: s in Dedup(streams) ==> s in streams
    ensures forall i, j :: 0 <= i < j < |Dedup(streams)| ==>
              FirstListed(streams, Dedup(streams)[i]) < FirstListed(streams, Dedup(streams)[j])
  {
    SoloStreamsOnce(streams);
    if streams != [] {
      var n := |streams| - 1;
      var before := Dedup(streams[..n]);
      SoloOrder(streams[..n]);
      SoloStreamsOnce(streams[..n]);
      forall i, j | 0 <= i < j < |Dedup(streams)|
        ensures FirstListed(streams, Dedup(streams)[i]) < FirstListed(streams, Dedup(streams)[j])
      {
        assert before[i] in streams[..n];
        FirstListedIsFirst(streams[..n], before[i]);
        if j < |before| {
          assert before[j] in streams[..n];
        }
      }
    }
  }

  // ----- the order of programs -----

  lemma {:induction false} SideInOrder(programs: seq<string>, heavy: bool)
    ensures Subsequence(Side(programs, heavy), programs)
  {
    if programs != [] {
      var n := |programs| - 1;
      SideInOrder(programs[..n], heavy);
      SubsequenceSnoc(Side(programs[..n], heavy), programs[..n], programs[n]);
      assert programs == programs[..n] + [programs[n]];
    }
  }

  /** The filters list the heavy programs in their order, then the others in theirs. */
  lemma FiltersInOrder(programs: seq<string>, n: nat)
    requires n > 0
    ensures exists heavy, rest :: Flatten(Filters(programs, n)) == heavy + rest
              && Subsequence(heavy, programs) && Subsequence(rest, programs)
              && (forall p :: p in heavy ==> IsHeavy(p)) && (forall p :: p in rest ==> !IsHeavy(p))
  {
    var heavy, rest := Side(programs, true), Side(programs, false);
    SideInOrder(programs, true);
    SideInOrder(programs, false);
    SideIsOneSided(programs, true);
    SideIsOneSided(programs, false);
    FlattenSingles(heavy);
    ChunksConcatenate(rest, n);
    FlattenConcat(Singles(heavy), Chunks(rest, n));
    assert Flatten(Filters(programs, n)) == heavy + rest;
  }
}
