/** Which subscriptions a run opens: the plan as built by the nested loops, and what it covers. */
module Plan {
  import opened Types

  datatype EndpointSpec = EndpointSpec(url: string, token: string)

  datatype Config = Config(
    solo: bool, soloStreams: seq<MainStream>, commitments: seq<Commitment>,
    endpoint1: EndpointSpec, endpoint2: Option<EndpointSpec>,
    entries1: Option<EndpointSpec>, entries2: Option<EndpointSpec>,
    programsPerFilter: nat, withTransactions: bool, withBlocks: bool)

  datatype SlotFilter = SlotFilter(filterByCommitment: bool, interslotUpdates: bool)

  datatype TransactionFilter = TransactionFilter(vote: bool, failed: bool, accountInclude: seq<string>)

  datatype BlockFilter = BlockFilter(accountInclude: seq<string>, includeTransactions: bool, includeAccounts: bool,
                                     includeEntries: bool)

  /** A subscribe request, with the filters that are set in it; an accounts filter is its owners. */
  datatype Request = Request(commitment: Option<Commitment>, slots: Option<SlotFilter>, owners: Option<seq<string>>,
                             transactions: Option<TransactionFilter>, blocks: Option<BlockFilter>, entries: bool)

  function NoFilters(commitment: Option<Commitment>): Request {
    Request(commitment, None, None, None, None, false)
  }

  datatype Spec = Spec(role: SubscriptionRole, endpoint: EndpointSpec, request: Request)

  const KNOWN_HEAVY_PROGRAMS: seq<string> := [
    "11111111111111111111111111111111",
    "TokenkegQfeZyiNwAJbNbGKPFXCWuBvf9Ss623VQ5DA",
    "TokenzQdBNbLqP5VEhdkAS6EPFLC1PHnBqCXEpPxuEb"
  ]

  /** The system program and the two token programs. */
  predicate IsHeavy(program: string)
    ensures IsHeavy(program) <==> || program == "11111111111111111111111111111111"
                                  || program == "TokenkegQfeZyiNwAJbNbGKPFXCWuBvf9Ss623VQ5DA"
                                  || program == "TokenzQdBNbLqP5VEhdkAS6EPFLC1PHnBqCXEpPxuEb"
  {
    program in KNOWN_HEAVY_PROGRAMS
  }

  /** Every slot stage crosses the wire: no filtering by commitment, and interslot updates. */
  const ALL_STAGES := SlotFilter(false, true)

  function BuildMainRequest(commitment: Commitment, programs: seq<string>, stream: MainStream): Request {
    var empty := NoFilters(Some(commitment));
    match stream
    case Slots => empty.(slots := Some(ALL_STAGES))
    case Accounts => empty.(owners := Some(programs))
    case Transactions => empty.(transactions := Some(TransactionFilter(false, false, programs)))
    case Blocks => empty.(blocks := Some(BlockFilter([], true, false, false)))
  }

  /** The slot request carries no commitment. */
  function BuildSlotRequest(): Request {
    NoFilters(None).(slots := Some(ALL_STAGES))
  }

  /** An entries request carries a slot filter too, for correlation. */
  function BuildEntriesRequest(commitment: Commitment): Request {
    NoFilters(Some(commitment)).(slots := Some(SlotFilter(false, false)), entries := true)
  }

  // ----- the plan, as a value -----

  /** Programs on one side of the heavy partition, in their original order. */
  function Side(programs: seq<string>, heavy: bool): seq<string> {
    if programs == [] then []
    else
      var before, p := Side(programs[..|programs| - 1], heavy), programs[|programs| - 1];
      if IsHeavy(p) == heavy then before + [p] else before
  }

  /** Consecutive pieces of length `n`, the last one possibly shorter. */
  function Chunks(s: seq<string>, n: nat): seq<seq<string>>
    requires n > 0
  {
    if s == [] then [] else if |s| <= n then [s] else [s[..n]] + Chunks(s[n..], n)
  }

  function Singles(s: seq<string>): seq<seq<string>> {
    if s == [] then [] else Singles(s[..|s| - 1]) + [[s[|s| - 1]]]
  }

  function ChunkSize(c: Config): (n: nat)
    ensures n > 0 && n >= c.programsPerFilter
    ensures n == 1 || n == c.programsPerFilter
  {
    if c.programsPerFilter > 1 then c.programsPerFilter else 1
  }

  /** The owner lists of the account filters opened for each endpoint and commitment. */
  function Filters(programs: seq<string>, n: nat): seq<seq<string>>
    requires n > 0
  {
    Singles(Side(programs, true)) + Chunks(Side(programs, false), n)
  }

  function AccountSpecs(ep: EndpointRole, at: EndpointSpec, c: Commitment, filters: seq<seq<string>>): seq<Spec> {
    if filters == [] then []
    else
      var n := |filters| - 1;
      AccountSpecs(ep, at, c, filters[..n]) + [Spec(Main(ep, c, Accounts), at, BuildMainRequest(c, filters[n], Accounts))]
  }

  function OtherStreams(cfg: Config): seq<MainStream> {
    (if cfg.withTransactions then [Transactions] else []) + (if cfg.withBlocks then [Blocks] else [])
  }

  function OtherSpecs(ep: EndpointRole, at: EndpointSpec, c: Commitment, programs: seq<string>, streams: seq<MainStream>): seq<Spec> {
    if streams == [] then []
    else
      var n := |streams| - 1;
      OtherSpecs(ep, at, c, programs, streams[..n]) + [Spec(Main(ep, c, streams[n]), at, BuildMainRequest(c, programs, streams[n]))]
  }

  function CommitmentSpecs(cfg: Config, programs: seq<string>, ep: EndpointRole, at: EndpointSpec, c: Commitment): seq<Spec> {
    AccountSpecs(ep, at, c, Filters(programs, ChunkSize(cfg))) + OtherSpecs(ep, at, c, programs, OtherStreams(cfg))
  }

  function Each(per: Commitment -> seq<Spec>, cs: seq<Commitment>): seq<Spec> {
    if cs == [] then [] else Each(per, cs[..|cs| - 1]) + per(cs[|cs| - 1])
  }

  function AllCommitments(cfg: Config, programs: seq<string>, ep: EndpointRole, at: EndpointSpec, cs: seq<Commitment>): seq<Spec> {
    Each(c => CommitmentSpecs(cfg, programs, ep, at, c), cs)
  }

  function LabelCommitment(cfg: Config): Commitment {
    if cfg.commitments == [] then Processed else cfg.commitments[0]
  }

  function SlotSpec(cfg: Config, ep: EndpointRole, at: EndpointSpec): Spec {
    Spec(Main(ep, LabelCommitment(cfg), Slots), at, BuildSlotRequest())
  }

  /** One endpoint's main subscriptions. */
  function EndpointSpecs(cfg: Config, programs: seq<string>, ep: EndpointRole, at: EndpointSpec): seq<Spec> {
    [SlotSpec(cfg, ep, at)] + AllCommitments(cfg, programs, ep, at, cfg.commitments)
  }

  function EndpointOf(cfg: Config, ep: EndpointRole): Option<EndpointSpec> {
    if ep == One then Some(cfg.endpoint1) else cfg.endpoint2
  }

  function MainSpecs(cfg: Config, programs: seq<string>, ep: EndpointRole): seq<Spec> {
    match EndpointOf(cfg, ep)
    case None => []
    case Some(at) => EndpointSpecs(cfg, programs, ep, at)
  }

  function EntriesSpecs(cfg: Config, ep: EndpointRole): seq<Spec> {
    match (if ep == One then cfg.entries1 else cfg.entries2)
    case None => []
    case Some(at) => [Spec(Entries(ep), at, BuildEntriesRequest(LabelCommitment(cfg)))]
  }

  /** The listed streams without repetitions, in order of first appearance. */
  function Dedup(streams: seq<MainStream>): seq<MainStream> {
    if streams == [] then []
    else
      var before, s := Dedup(streams[..|streams| - 1]), streams[|streams| - 1];
      if s in streams[..|streams| - 1] then before else before + [s]
  }

  function PlanOf(cfg: Config, programs: seq<string>): seq<Spec> {
    if cfg.solo
    then OtherSpecs(One, cfg.endpoint1, LabelCommitment(cfg), programs, Dedup(cfg.soloStreams))
    else MainSpecs(cfg, programs, One) + MainSpecs(cfg, programs, Two) + EntriesSpecs(cfg, One) + EntriesSpecs(cfg, Two)
  }

  // ----- the loops that build it -----

  method FromRunConfig(cfg: Config, programs: seq<string>) returns (specs: seq<Spec>)
    ensures specs == PlanOf(cfg, programs)
  {
    if cfg.solo {
      specs := SoloPlan(cfg, programs);
      return;
    }
    specs := [];
    specs := AddEndpoint(cfg, programs, One, specs);
    specs := AddEndpoint(cfg, programs, Two, specs);
    specs := AddEntries(cfg, One, specs);
    specs := AddEntries(cfg, Two, specs);
  }

  method AddEntries(cfg: Config, ep: EndpointRole, start: seq<Spec>) returns (specs: seq<Spec>)
    ensures specs == start + EntriesSpecs(cfg, ep)
  {
    specs := start;
    var url := if ep == One then cfg.entries1 else cfg.entries2;
    if url.Some? {
      specs := specs + [Spec(Entries(ep), url.value, BuildEntriesRequest(LabelCommitment(cfg)))];
    }
  }

  method SoloPlan(cfg: Config, programs: seq<string>) returns (specs: seq<Spec>)
    ensures specs == OtherSpecs(One, cfg.endpoint1, LabelCommitment(cfg), programs, Dedup(cfg.soloStreams))
  {
    specs := [];
    var commitment := if cfg.commitments == [] then Processed else cfg.commitments[0];
    var seen: set<MainStream> := {};
    ghost var kept: seq<MainStream> := [];
    for i := 0 to |cfg.soloStreams|
      invariant seen == set s | s in cfg.soloStreams[..i]
      invariant kept == Dedup(cfg.soloStreams[..i])
      invariant specs == OtherSpecs(One, cfg.endpoint1, commitment, programs, kept)
    {
      var s := cfg.soloStreams[i];
      assert cfg.soloStreams[..i + 1][..i] == cfg.soloStreams[..i];
      assert cfg.soloStreams[..i + 1] == cfg.soloStreams[..i] + [s];
      if s in seen {
        continue;
      }
      seen := seen + {s};
      specs := specs + [Spec(Main(One, commitment, s), cfg.endpoint1, BuildMainRequest(commitment, programs, s))];
      assert (kept + [s])[..|kept|] == kept;
      kept := kept + [s];
    }
    assert cfg.soloStreams[..|cfg.soloStreams|] == cfg.soloStreams;
  }

  method AddEndpoint(cfg: Config, programs: seq<string>, ep: EndpointRole, start: seq<Spec>) returns (specs: seq<Spec>)
    ensures specs == start + MainSpecs(cfg, programs, ep)
  {
    specs := start;
    var endpoint := if ep == One then Some(cfg.endpoint1) else cfg.endpoint2;
    if endpoint == None {
      return;
    }
    var at := endpoint.value;
    specs := AddCommitments(cfg, programs, ep, at, specs + [SlotSpec(cfg, ep, at)]);
    ghost var added := AllCommitments(cfg, programs, ep, at, cfg.commitments);
    assert start + [SlotSpec(cfg, ep, at)] + added == start + ([SlotSpec(cfg, ep, at)] + added);
  }

  lemma EachNext(per: Commitment -> seq<Spec>, start: seq<Spec>, cs: seq<Commitment>, i: nat)
    requires i < |cs|
    ensures start + Each(per, cs[..i + 1]) == start + Each(per, cs[..i]) + per(cs[i])
  {
    assert cs[..i + 1][..i] == cs[..i];
  }

  method AddCommitments(cfg: Config, programs: seq<string>, ep: EndpointRole, at: EndpointSpec, start: seq<Spec>)
    returns (specs: seq<Spec>)
    ensures specs == start + AllCommitments(cfg, programs, ep, at, cfg.commitments)
  {
    specs := start;
    for i := 0 to |cfg.commitments|
      invariant specs == start + AllCommitments(cfg, programs, ep, at, cfg.commitments[..i])
    {
      specs := AddCommitment(cfg, programs, ep, at, cfg.commitments[i], specs);
      EachNext(c => CommitmentSpecs(cfg, programs, ep, at, c), start, cfg.commitments, i);
    }
    assert cfg.commitments[..|cfg.commitments|] == cfg.commitments;
  }

  method AddCommitment(cfg: Config, programs: seq<string>, ep: EndpointRole, at: EndpointSpec, c: Commitment, start: seq<Spec>)
    returns (specs: seq<Spec>)
    ensures specs == start + CommitmentSpecs(cfg, programs, ep, at, c)
  {
    var heavy, rest := Side(programs, true), Side(programs, false);
    specs := AddAccounts(ep, at, c, heavy, rest, ChunkSize(cfg), start);
    specs := AddOthers(cfg, programs, ep, at, c, specs);
  }

  method AddAccounts(ep: EndpointRole, at: EndpointSpec, c: Commitment, heavy: seq<string>, rest: seq<string>, n: nat,
                     start: seq<Spec>) returns (specs: seq<Spec>)
    requires n > 0
    ensures specs == start + AccountSpecs(ep, at, c, Singles(heavy) + Chunks(rest, n))
  {
    specs := AddHeavy(ep, at, c, heavy, start);
    specs := AddChunks(ep, at, c, rest, n, Singles(heavy), start, specs);
  }

  lemma HeavyNext(ep: EndpointRole, at: EndpointSpec, c: Commitment, heavy: seq<string>, start: seq<Spec>, i: nat)
    requires i < |heavy|
    ensures start + AccountSpecs(ep, at, c, Singles(heavy[..i + 1]))
            == start + AccountSpecs(ep, at, c, Singles(heavy[..i])) + [Spec(Main(ep, c, Accounts), at, BuildMainRequest(c, [heavy[i]], Accounts))]
  {
    assert heavy[..i + 1][..i] == heavy[..i];
    AccountSpecsSnoc(ep, at, c, Singles(heavy[..i]), [heavy[i]]);
  }

  method AddHeavy(ep: EndpointRole, at: EndpointSpec, c: Commitment, heavy: seq<string>, start: seq<Spec>)
    returns (specs: seq<Spec>)
    ensures specs == start + AccountSpecs(ep, at, c, Singles(heavy))
  {
    specs := start;
    for i := 0 to |heavy|
      invariant specs == start + AccountSpecs(ep, at, c, Singles(heavy[..i]))
    {
      specs := specs + [Spec(Main(ep, c, Accounts), at, BuildMainRequest(c, [heavy[i]], Accounts))];
      HeavyNext(ep, at, c, heavy, start, i);
    }
    assert heavy[..|heavy|] == heavy;
  }

  /** The chunks of the rest, after the filters in `done`. */
  method AddChunks(ep: EndpointRole, at: EndpointSpec, c: Commitment, rest: seq<string>, n: nat, ghost done: seq<seq<string>>,
                   ghost start: seq<Spec>, before: seq<Spec>) returns (specs: seq<Spec>)
    requires n > 0 && before == start + AccountSpecs(ep, at, c, done)
    ensures specs == start + AccountSpecs(ep, at, c, done + Chunks(rest, n))
  {
    specs := before;
    var pos := 0;
    ghost var filters := done;
    assert rest[0..] == rest;
    while pos < |rest|
      invariant 0 <= pos <= |rest|
      invariant filters + Chunks(rest[pos..], n) == done + Chunks(rest, n)
      invariant specs == start + AccountSpecs(ep, at, c, filters)
    {
      var end := if pos + n < |rest| then pos + n else |rest|;
      var chunk := rest[pos..end];
      specs := specs + [Spec(Main(ep, c, Accounts), at, BuildMainRequest(c, chunk, Accounts))];
      ChunksFront(rest, pos, end, n);
      assert filters + ([chunk] + Chunks(rest[end..], n)) == (filters + [chunk]) + Chunks(rest[end..], n);
      AccountSpecsSnoc(ep, at, c, filters, chunk);
      filters, pos := filters + [chunk], end;
    }
    assert filters + [] == filters;
  }

  lemma AccountSpecsSnoc(ep: EndpointRole, at: EndpointSpec, c: Commitment, filters: seq<seq<string>>, f: seq<string>)
    ensures AccountSpecs(ep, at, c, filters + [f])
            == AccountSpecs(ep, at, c, filters) + [Spec(Main(ep, c, Accounts), at, BuildMainRequest(c, f, Accounts))]
  {
    assert (filters + [f])[..|filters|] == filters;
  }

  lemma ChunksFront(s: seq<string>, pos: nat, end: nat, n: nat)
    requires n > 0 && pos < |s| && end == if pos + n < |s| then pos + n else |s|
    ensures Chunks(s[pos..], n) == [s[pos..end]] + Chunks(s[end..], n)
  {
    var t := s[pos..];
    if |t| <= n {
      assert s[pos..end] == t && s[end..] == [];
    } else {
      assert t[..n] == s[pos..end] && t[n..] == s[end..];
    }
  }

  lemma OtherSpecsNext(ep: EndpointRole, at: EndpointSpec, c: Commitment, programs: seq<string>, start: seq<Spec>,
                       streams: seq<MainStream>, i: nat)
    requires i < |streams|
    ensures start + OtherSpecs(ep, at, c, programs, streams[..i + 1])
            == start + OtherSpecs(ep, at, c, programs, streams[..i]) + [Spec(Main(ep, c, streams[i]), at, BuildMainRequest(c, programs, streams[i]))]
  {
    assert streams[..i + 1][..i] == streams[..i];
  }

  method AddOthers(cfg: Config, programs: seq<string>, ep: EndpointRole, at: EndpointSpec, c: Commitment, start: seq<Spec>)
    returns (specs: seq<Spec>)
    ensures specs == start + OtherSpecs(ep, at, c, programs, OtherStreams(cfg))
  {
    var streams: seq<MainStream> := [];
    if cfg.withTransactions {
      streams := streams + [Transactions];
    }
    if cfg.withBlocks {
      streams := streams + [Blocks];
    }
    assert streams == OtherStreams(cfg);
    specs := AddStreams(programs, ep, at, c, streams, start);
  }

  method AddStreams(programs: seq<string>, ep: EndpointRole, at: EndpointSpec, c: Commitment, streams: seq<MainStream>,
                    start: seq<Spec>) returns (specs: seq<Spec>)
    ensures specs == start + OtherSpecs(ep, at, c, programs, streams)
  {
    specs := start;
    for i := 0 to |streams|
      invariant specs == start + OtherSpecs(ep, at, c, programs, streams[..i])
    {
      specs := specs + [Spec(Main(ep, c, streams[i]), at, BuildMainRequest(c, programs, streams[i]))];
      OtherSpecsNext(ep, at, c, programs, start, streams, i);
    }
    assert streams[..|streams|] == streams;
  }
}
