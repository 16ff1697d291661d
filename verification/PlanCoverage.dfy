/** What a plan covers: every program once per endpoint and commitment, heavy programs alone,
    filters of bounded size, the documented number of streams, and two mirrored endpoints. */
module PlanCoverage {
  import opened Types
  import opened Plan
  import opened Arith

  // ----- the filters partition the programs -----

  function Flatten(fs: seq<seq<string>>): seq<string> {
    if fs == [] then [] else Flatten(fs[..|fs| - 1]) + fs[|fs| - 1]
  }

  lemma {:induction false} FlattenConcat(a: seq<seq<string>>, b: seq<seq<string>>)
    ensures Flatten(a + b) == Flatten(a) + Flatten(b)
  {
    if b == [] {
      assert a + b == a;
    } else {
      var n := |b| - 1;
      assert (a + b)[..|a + b| - 1] == a + b[..n];
      FlattenConcat(a, b[..n]);
    }
  }

  lemma {:induction false} FlattenSingles(s: seq<string>)
    ensures Flatten(Singles(s)) == s && |Singles(s)| == |s|
    ensures forall i :: 0 <= i < |s| ==> Singles(s)[i] == [s[i]]
  {
    if s != [] {
      var n := |s| - 1;
      FlattenSingles(s[..n]);
      var before := Singles(s[..n]);
      assert (before + [[s[n]]])[..n] == before;
      assert s == s[..n] + [s[n]];
    }
  }

  lemma FlattenOne(s: seq<string>)
    ensures Flatten([s]) == s
  {
    assert [s][..0] == [];
    assert Flatten([s]) == [] + s;
  }

  /** Chunks concatenate back to the list. */
  lemma {:induction false} ChunksConcatenate(s: seq<string>, n: nat)
    requires n > 0
    ensures Flatten(Chunks(s, n)) == s
  {
    if s == [] {
    } else if |s| <= n {
      FlattenOne(s);
    } else {
      ChunksConcatenate(s[n..], n);
      FlattenOne(s[..n]);
      FlattenConcat([s[..n]], Chunks(s[n..], n));
      assert s == s[..n] + s[n..];
    }
  }

  lemma {:induction false} ChunkSizes(s: seq<string>, n: nat)
    requires n > 0
    ensures forall i :: 0 <= i < |Chunks(s, n)| ==> 1 <= |Chunks(s, n)[i]| <= n
  {
    if |s| > n {
      ChunkSizes(s[n..], n);
    }
  }

  lemma {:induction false} SidesPartition(programs: seq<string>)
    ensures multiset(Side(programs, true)) + multiset(Side(programs, false)) == multiset(programs)
  {
    if programs != [] {
      var n := |programs| - 1;
      var before, p := programs[..n], programs[n];
      SidesPartition(before);
      assert programs == before + [p];
      assert multiset(Side(programs, IsHeavy(p))) == multiset(Side(before, IsHeavy(p))) + multiset{p};
      assert Side(programs, !IsHeavy(p)) == Side(before, !IsHeavy(p));
    }
  }

  lemma {:induction false} SideIsOneSided(programs: seq<string>, heavy: bool)
    ensures forall i :: 0 <= i < |Side(programs, heavy)| ==> IsHeavy(Side(programs, heavy)[i]) == heavy
  {
    if programs != [] {
      SideIsOneSided(programs[..|programs| - 1], heavy);
    }
  }

  /** The filters hold every program as often as the program list does; heavy programs are
      alone; every filter holds between 1 and n owners. */
  lemma FiltersPartition(programs: seq<string>, n: nat)
    requires n > 0
    ensures multiset(Flatten(Filters(programs, n))) == multiset(programs)
    ensures forall i :: 0 <= i < |Filters(programs, n)| ==>
              var f := Filters(programs, n)[i];
              1 <= |f| <= n && ((exists p :: p in f && IsHeavy(p)) ==> |f| == 1)
  {
    var heavy, rest := Side(programs, true), Side(programs, false);
    SidesPartition(programs);
    SideIsOneSided(programs, false);
    FlattenSingles(heavy);
    ChunksConcatenate(rest, n);
    ChunkSizes(rest, n);
    FlattenConcat(Singles(heavy), Chunks(rest, n));
    forall i | 0 <= i < |Filters(programs, n)|
      ensures var f := Filters(programs, n)[i]; 1 <= |f| <= n && ((exists p :: p in f && IsHeavy(p)) ==> |f| == 1)
    {
      if i >= |heavy| {
        ChunkHasNoHeavy(rest, n, i - |heavy|);
      }
    }
  }

  lemma {:induction false} ChunkHasNoHeavy(s: seq<string>, n: nat, i: nat)
    requires n > 0 && i < |Chunks(s, n)| && forall k :: 0 <= k < |s| ==> !IsHeavy(s[k])
    ensures forall p :: p in Chunks(s, n)[i] ==> !IsHeavy(p)
  {
    if i > 0 {
      ChunkHasNoHeavy(s[n..], n, i - 1);
    }
  }

  // ----- each program in exactly one filter -----

  ghost predicate Distinct(s: seq<string>) {
    forall i, j :: 0 <= i < j < |s| ==> s[i] != s[j]
  }

  lemma {:induction false} DistinctMultiset(s: seq<string>, p: string)
    requires Distinct(s)
    ensures multiset(s)[p] == if p in s then 1 else 0
  {
    if s != [] {
      var n := |s| - 1;
      DistinctMultiset(s[..n], p);
      assert s == s[..n] + [s[n]];
      assert p in s <==> p in s[..n] || p == s[n];
    }
  }

  ghost predicate InOneFilter(fs: seq<seq<string>>, p: string) {
    exists i :: 0 <= i < |fs| && p in fs[i] && forall j :: 0 <= j < |fs| && j != i ==> p !in fs[j]
  }

  lemma {:induction false} FlattenMember(fs: seq<seq<string>>, p: string)
    ensures p in Flatten(fs) <==> exists i :: 0 <= i < |fs| && p in fs[i]
  {
    if fs != [] {
      FlattenMember(fs[..|fs| - 1], p);
    }
  }

  lemma OneFilterBefore(fs: seq<seq<string>>, p: string)
    requires fs != [] && p !in fs[|fs| - 1] && InOneFilter(fs[..|fs| - 1], p)
    ensures InOneFilter(fs, p)
  {
    var n := |fs| - 1;
    var before := fs[..n];
    var i :| 0 <= i < n && p in before[i] && forall j :: 0 <= j < n && j != i ==> p !in before[j];
    assert forall j :: 0 <= j < n ==> fs[j] == before[j];
    assert p in fs[i] && forall j :: 0 <= j < |fs| && j != i ==> p !in fs[j];
  }

  lemma OneFilterLast(fs: seq<seq<string>>, p: string)
    requires fs != [] && p in fs[|fs| - 1] && p !in Flatten(fs[..|fs| - 1])
    ensures InOneFilter(fs, p)
  {
    var n := |fs| - 1;
    var before := fs[..n];
    FlattenMember(before, p);
    assert forall j :: 0 <= j < n ==> fs[j] == before[j];
    assert p in fs[n] && forall j :: 0 <= j < |fs| && j != n ==> p !in fs[j];
  }

  /** A program that occurs once in the concatenation occurs in one piece only. */
  lemma {:induction false} OnceInFlatten(fs: seq<seq<string>>, p: string)
    requires multiset(Flatten(fs))[p] == 1
    ensures InOneFilter(fs, p)
  {
    var n := |fs| - 1;
    var before, last := Flatten(fs[..n]), fs[n];
    assert multiset(Flatten(fs)) == multiset(before) + multiset(last);
    if p in multiset(last) {
      OneFilterLast(fs, p);
    } else {
      OnceInFlatten(fs[..n], p);
      OneFilterBefore(fs, p);
    }
  }

  // ----- what the plan contains for an endpoint and commitment -----

  /** The owner lists of the account subscriptions of one endpoint that request one commitment. */
  function AccountFilters(specs: seq<Spec>, ep: EndpointRole, c: Commitment): seq<seq<string>> {
    if specs == [] then []
    else
      var before, s := AccountFilters(specs[..|specs| - 1], ep, c), specs[|specs| - 1];
      if s.role == Main(ep, c, Accounts) && s.request.commitment == Some(c) && s.request.owners.Some?
      then before + [s.request.owners.value] else before
  }

  lemma {:induction false} AccountFiltersConcat(a: seq<Spec>, b: seq<Spec>, ep: EndpointRole, c: Commitment)
    ensures AccountFilters(a + b, ep, c) == AccountFilters(a, ep, c) + AccountFilters(b, ep, c)
  {
    if b == [] {
      assert a + b == a;
    } else {
      var n := |b| - 1;
      assert (a + b)[..|a + b| - 1] == a + b[..n];
      AccountFiltersConcat(a, b[..n], ep, c);
    }
  }

  lemma {:induction false} AccountFiltersElsewhere(specs: seq<Spec>, ep: EndpointRole, c: Commitment)
    requires forall i :: 0 <= i < |specs| ==> specs[i].role != Main(ep, c, Accounts)
    ensures AccountFilters(specs, ep, c) == []
  {
    if specs != [] {
      AccountFiltersElsewhere(specs[..|specs| - 1], ep, c);
    }
  }

  lemma {:induction false} AccountSpecsRoles(e: EndpointRole, at: EndpointSpec, d: Commitment, fs: seq<seq<string>>)
    ensures |AccountSpecs(e, at, d, fs)| == |fs|
    ensures forall i :: 0 <= i < |fs| ==> AccountSpecs(e, at, d, fs)[i].role == Main(e, d, Accounts)
    ensures AccountFilters(AccountSpecs(e, at, d, fs), e, d) == fs
  {
    if fs != [] {
      var n := |fs| - 1;
      AccountSpecsRoles(e, at, d, fs[..n]);
      var before := AccountSpecs(e, at, d, fs[..n]);
      var x := Spec(Main(e, d, Accounts), at, BuildMainRequest(d, fs[n], Accounts));
      assert (before + [x])[..|before|] == before;
      assert fs == fs[..n] + [fs[n]];
    }
  }

  lemma {:induction false} OtherSpecsRoles(e: EndpointRole, at: EndpointSpec, d: Commitment, programs: seq<string>, streams: seq<MainStream>)
    ensures |OtherSpecs(e, at, d, programs, streams)| == |streams|
    ensures forall i :: 0 <= i < |streams| ==> OtherSpecs(e, at, d, programs, streams)[i].role == Main(e, d, streams[i])
  {
    if streams != [] {
      OtherSpecsRoles(e, at, d, programs, streams[..|streams| - 1]);
    }
  }

  lemma AccountSpecsFilters(e: EndpointRole, at: EndpointSpec, d: Commitment, fs: seq<seq<string>>, ep: EndpointRole, c: Commitment)
    ensures AccountFilters(AccountSpecs(e, at, d, fs), ep, c) == if e == ep && d == c then fs else []
  {
    AccountSpecsRoles(e, at, d, fs);
    if e != ep || d != c {
      AccountFiltersElsewhere(AccountSpecs(e, at, d, fs), ep, c);
    }
  }

  lemma NoAccountStream(cfg: Config)
    ensures forall i :: 0 <= i < |OtherStreams(cfg)| ==> OtherStreams(cfg)[i] in {Transactions, Blocks}
  {
  }

  lemma OtherSpecsFilters(cfg: Config, programs: seq<string>, e: EndpointRole, at: EndpointSpec, d: Commitment,
                          ep: EndpointRole, c: Commitment)
    ensures AccountFilters(OtherSpecs(e, at, d, programs, OtherStreams(cfg)), ep, c) == []
  {
    OtherSpecsRoles(e, at, d, programs, OtherStreams(cfg));
    NoAccountStream(cfg);
    AccountFiltersElsewhere(OtherSpecs(e, at, d, programs, OtherStreams(cfg)), ep, c);
  }

  lemma CommitmentFilters(cfg: Config, programs: seq<string>, e: EndpointRole, at: EndpointSpec, d: Commitment,
                          ep: EndpointRole, c: Commitment)
    ensures AccountFilters(CommitmentSpecs(cfg, programs, e, at, d), ep, c)
            == if e == ep && d == c then Filters(programs, ChunkSize(cfg)) else []
  {
    var fs := Filters(programs, ChunkSize(cfg));
    AccountSpecsFilters(e, at, d, fs, ep, c);
    OtherSpecsFilters(cfg, programs, e, at, d, ep, c);
    AccountFiltersConcat(AccountSpecs(e, at, d, fs), OtherSpecs(e, at, d, programs, OtherStreams(cfg)), ep, c);
  }

  /** How often a commitment is configured; validated configurations list each once. */
  function Listed(cs: seq<Commitment>, c: Commitment): nat {
    if cs == [] then 0 else Listed(cs[..|cs| - 1], c) + (if cs[|cs| - 1] == c then 1 else 0)
  }

  function Repeat(fs: seq<seq<string>>, n: nat): seq<seq<string>> {
    if n == 0 then [] else Repeat(fs, n - 1) + fs
  }

  /** Any measure of plans that takes concatenation to concatenation. */
  ghost predicate Additive(h: seq<Spec> -> seq<seq<string>>) {
    h([]) == [] && forall x, y :: h(x + y) == h(x) + h(y)
  }

  lemma {:induction false} EachRepeats(h: seq<Spec> -> seq<seq<string>>, per: Commitment -> seq<Spec>, cs: seq<Commitment>,
                                       fs: seq<seq<string>>, c: Commitment)
    requires Additive(h) && forall d :: h(per(d)) == if d == c then fs else []
    ensures h(Each(per, cs)) == Repeat(fs, Listed(cs, c))
  {
    if cs != [] {
      EachRepeats(h, per, cs[..|cs| - 1], fs, c);
    }
  }

  lemma {:induction false} RepeatNothing(n: nat)
    ensures Repeat([], n) == []
  {
    if n > 0 {
      RepeatNothing(n - 1);
    }
  }

  lemma AllCommitmentsFilters(cfg: Config, programs: seq<string>, e: EndpointRole, at: EndpointSpec, cs: seq<Commitment>,
                              ep: EndpointRole, c: Commitment)
    ensures AccountFilters(AllCommitments(cfg, programs, e, at, cs), ep, c)
            == if e == ep then Repeat(Filters(programs, ChunkSize(cfg)), Listed(cs, c)) else []
  {
    var per, h := d => CommitmentSpecs(cfg, programs, e, at, d), specs => AccountFilters(specs, ep, c);
    var fs := if e == ep then Filters(programs, ChunkSize(cfg)) else [];
    forall d ensures h(per(d)) == if d == c then fs else [] {
      CommitmentFilters(cfg, programs, e, at, d, ep, c);
    }
    forall x, y ensures h(x + y) == h(x) + h(y) {
      AccountFiltersConcat(x, y, ep, c);
    }
    EachRepeats(h, per, cs, fs, c);
    RepeatNothing(Listed(cs, c));
  }

  lemma MainSpecsFilters(cfg: Config, programs: seq<string>, e: EndpointRole, ep: EndpointRole, c: Commitment)
    ensures AccountFilters(MainSpecs(cfg, programs, e), ep, c)
            == if e == ep && EndpointOf(cfg, e).Some?
               then Repeat(Filters(programs, ChunkSize(cfg)), Listed(cfg.commitments, c)) else []
  {
    match EndpointOf(cfg, e)
    case None =>
    case Some(at) =>
      AllCommitmentsFilters(cfg, programs, e, at, cfg.commitments, ep, c);
      var slot, rest := [SlotSpec(cfg, e, at)], AllCommitments(cfg, programs, e, at, cfg.commitments);
      AccountFiltersConcat(slot, rest, ep, c);
      AccountFiltersElsewhere(slot, ep, c);
  }

  lemma EntriesNoFilters(cfg: Config, ep: EndpointRole, c: Commitment)
    ensures AccountFilters(EntriesSpecs(cfg, One) + EntriesSpecs(cfg, Two), ep, c) == []
  {
    AccountFiltersElsewhere(EntriesSpecs(cfg, One) + EntriesSpecs(cfg, Two), ep, c);
  }

  lemma PlanFilters(cfg: Config, programs: seq<string>, ep: EndpointRole, c: Commitment)
    requires !cfg.solo && EndpointOf(cfg, ep).Some?
    ensures AccountFilters(PlanOf(cfg, programs), ep, c) == Repeat(Filters(programs, ChunkSize(cfg)), Listed(cfg.commitments, c))
  {
    var main, entries := MainSpecs(cfg, programs, One) + MainSpecs(cfg, programs, Two), EntriesSpecs(cfg, One) + EntriesSpecs(cfg, Two);
    assert PlanOf(cfg, programs) == main + entries;
    AccountFiltersConcat(main, entries, ep, c);
    AccountFiltersConcat(MainSpecs(cfg, programs, One), MainSpecs(cfg, programs, Two), ep, c);
    MainSpecsFilters(cfg, programs, One, ep, c);
    MainSpecsFilters(cfg, programs, Two, ep, c);
    EntriesNoFilters(cfg, ep, c);
  }

  /** For every configured endpoint and commitment, each program is in exactly one account
      filter, heavy programs are alone in theirs, and filters hold 1 to chunk-size owners. */
  lemma PlanCovers(cfg: Config, programs: seq<string>, ep: EndpointRole, c: Commitment)
    requires !cfg.solo && EndpointOf(cfg, ep).Some? && Listed(cfg.commitments, c) == 1 && Distinct(programs)
    ensures var fs := AccountFilters(PlanOf(cfg, programs), ep, c);
            && multiset(Flatten(fs)) == multiset(programs)
            && (forall p :: p in programs ==> InOneFilter(fs, p))
            && (forall i :: 0 <= i < |fs| ==>
                  1 <= |fs[i]| <= ChunkSize(cfg) && ((exists p :: p in fs[i] && IsHeavy(p)) ==> |fs[i]| == 1))
  {
    var fs := Filters(programs, ChunkSize(cfg));
    PlanFilters(cfg, programs, ep, c);
    assert Repeat(fs, 0) == [] && Repeat(fs, 1) == [] + fs == fs;
    FiltersPartition(programs, ChunkSize(cfg));
    forall p | p in programs ensures InOneFilter(fs, p) {
      DistinctMultiset(programs, p);
      OnceInFlatten(fs, p);
    }
  }

  // ----- how many streams -----

  lemma {:induction false} ChunkCount(s: seq<string>, n: nat)
    requires n > 0
    ensures |Chunks(s, n)| == (|s| + n - 1) / n
  {
    if s == [] {
      DivUnique(n - 1, n, 0, n - 1);
    } else if |s| <= n {
      DivUnique(|s| + n - 1, n, 1, |s| - 1);
    } else {
      ChunkCount(s[n..], n);
      DivStep(|s| - 1, n);
    }
  }

  function PerCommitment(cfg: Config, programs: seq<string>): nat {
    var n := ChunkSize(cfg);
    |Side(programs, true)| + (|Side(programs, false)| + n - 1) / n
    + (if cfg.withTransactions then 1 else 0) + (if cfg.withBlocks then 1 else 0)
  }

  lemma CommitmentCount(cfg: Config, programs: seq<string>, ep: EndpointRole, at: EndpointSpec, c: Commitment)
    ensures |CommitmentSpecs(cfg, programs, ep, at, c)| == PerCommitment(cfg, programs)
  {
    AccountSpecsRoles(ep, at, c, Filters(programs, ChunkSize(cfg)));
    OtherSpecsRoles(ep, at, c, programs, OtherStreams(cfg));
    FlattenSingles(Side(programs, true));
    ChunkCount(Side(programs, false), ChunkSize(cfg));
  }

  lemma {:induction false} EachCount(per: Commitment -> seq<Spec>, cs: seq<Commitment>, k: nat)
    requires forall d :: |per(d)| == k
    ensures |Each(per, cs)| == |cs| * k
  {
    if cs != [] {
      var n := |cs| - 1;
      EachCount(per, cs[..n], k);
      MulSucc(n, k);
    }
  }

  lemma AllCommitmentsCount(cfg: Config, programs: seq<string>, ep: EndpointRole, at: EndpointSpec, cs: seq<Commitment>)
    ensures |AllCommitments(cfg, programs, ep, at, cs)| == |cs| * PerCommitment(cfg, programs)
  {
    var per := c => CommitmentSpecs(cfg, programs, ep, at, c);
    forall d ensures |per(d)| == PerCommitment(cfg, programs) {
      CommitmentCount(cfg, programs, ep, at, d);
    }
    EachCount(per, cs, PerCommitment(cfg, programs));
  }

  /** The documented stream count of a configured endpoint, entries aside. */
  lemma StreamCount(cfg: Config, programs: seq<string>, ep: EndpointRole)
    requires EndpointOf(cfg, ep).Some?
    ensures |MainSpecs(cfg, programs, ep)| == 1 + |cfg.commitments| * PerCommitment(cfg, programs)
  {
    AllCommitmentsCount(cfg, programs, ep, EndpointOf(cfg, ep).value, cfg.commitments);
  }

  // ----- the two endpoints mirror each other -----

  function MirrorRole(r: SubscriptionRole): SubscriptionRole {
    r.(ep := r.ep.Other())
  }

  /** Same role but for the endpoint, same request. */
  ghost predicate Mirrored(a: seq<Spec>, b: seq<Spec>) {
    |a| == |b| && forall i :: 0 <= i < |a| ==> b[i].role == MirrorRole(a[i].role) && b[i].request == a[i].request
  }

  lemma MirroredConcat(a: seq<Spec>, b: seq<Spec>, c: seq<Spec>, d: seq<Spec>)
    requires Mirrored(a, b) && Mirrored(c, d)
    ensures Mirrored(a + c, b + d)
  {
  }

  lemma {:induction false} AccountSpecsMirror(at: EndpointSpec, bt: EndpointSpec, c: Commitment, fs: seq<seq<string>>)
    ensures Mirrored(AccountSpecs(One, at, c, fs), AccountSpecs(Two, bt, c, fs))
  {
    if fs != [] {
      AccountSpecsMirror(at, bt, c, fs[..|fs| - 1]);
    }
  }

  lemma {:induction false} OtherSpecsMirror(at: EndpointSpec, bt: EndpointSpec, c: Commitment, programs: seq<string>, streams: seq<MainStream>)
    ensures Mirrored(OtherSpecs(One, at, c, programs, streams), OtherSpecs(Two, bt, c, programs, streams))
  {
    if streams != [] {
      OtherSpecsMirror(at, bt, c, programs, streams[..|streams| - 1]);
    }
  }

  lemma {:induction false} EachMirror(per1: Commitment -> seq<Spec>, per2: Commitment -> seq<Spec>, cs: seq<Commitment>)
    requires forall c :: Mirrored(per1(c), per2(c))
    ensures Mirrored(Each(per1, cs), Each(per2, cs))
  {
    if cs != [] {
      var n := |cs| - 1;
      EachMirror(per1, per2, cs[..n]);
      MirroredConcat(Each(per1, cs[..n]), Each(per2, cs[..n]), per1(cs[n]), per2(cs[n]));
    }
  }

  lemma CommitmentMirror(cfg: Config, programs: seq<string>, at: EndpointSpec, bt: EndpointSpec, c: Commitment)
    ensures Mirrored(CommitmentSpecs(cfg, programs, One, at, c), CommitmentSpecs(cfg, programs, Two, bt, c))
  {
    var fs := Filters(programs, ChunkSize(cfg));
    AccountSpecsMirror(at, bt, c, fs);
    OtherSpecsMirror(at, bt, c, programs, OtherStreams(cfg));
    MirroredConcat(AccountSpecs(One, at, c, fs), AccountSpecs(Two, bt, c, fs),
                   OtherSpecs(One, at, c, programs, OtherStreams(cfg)), OtherSpecs(Two, bt, c, programs, OtherStreams(cfg)));
  }

  lemma AllCommitmentsMirror(cfg: Config, programs: seq<string>, at: EndpointSpec, bt: EndpointSpec, cs: seq<Commitment>)
    ensures Mirrored(AllCommitments(cfg, programs, One, at, cs), AllCommitments(cfg, programs, Two, bt, cs))
  {
    var per1, per2 := c => CommitmentSpecs(cfg, programs, One, at, c), c => CommitmentSpecs(cfg, programs, Two, bt, c);
    forall c ensures Mirrored(per1(c), per2(c)) {
      CommitmentMirror(cfg, programs, at, bt, c);
    }
    EachMirror(per1, per2, cs);
  }

  /** The subscription is opened on the address configured for its role. */
  ghost predicate OpenedOn(cfg: Config, s: Spec) {
    match s.role
    case Main(ep, _, _) => if ep == One then s.endpoint == cfg.endpoint1 else cfg.endpoint2 == Some(s.endpoint)
    case Entries(ep) => (if ep == One then cfg.entries1 else cfg.entries2) == Some(s.endpoint)
  }

  ghost predicate AllOn(specs: seq<Spec>, ep: EndpointRole, at: EndpointSpec) {
    forall i :: 0 <= i < |specs| ==> specs[i].role.Main? && specs[i].role.ep == ep && specs[i].endpoint == at
  }

  lemma {:induction false} AccountSpecsOn(ep: EndpointRole, at: EndpointSpec, c: Commitment, fs: seq<seq<string>>)
    ensures AllOn(AccountSpecs(ep, at, c, fs), ep, at)
  {
    if fs != [] {
      AccountSpecsOn(ep, at, c, fs[..|fs| - 1]);
    }
  }

  lemma {:induction false} OtherSpecsOn(ep: EndpointRole, at: EndpointSpec, c: Commitment, programs: seq<string>, streams: seq<MainStream>)
    ensures AllOn(OtherSpecs(ep, at, c, programs, streams), ep, at)
  {
    if streams != [] {
      OtherSpecsOn(ep, at, c, programs, streams[..|streams| - 1]);
    }
  }

  lemma {:induction false} EachOn(per: Commitment -> seq<Spec>, cs: seq<Commitment>, ep: EndpointRole, at: EndpointSpec)
    requires forall c :: AllOn(per(c), ep, at)
    ensures AllOn(Each(per, cs), ep, at)
  {
    if cs != [] {
      EachOn(per, cs[..|cs| - 1], ep, at);
    }
  }

  lemma MainSpecsOn(cfg: Config, programs: seq<string>, ep: EndpointRole)
    requires EndpointOf(cfg, ep).Some?
    ensures AllOn(MainSpecs(cfg, programs, ep), ep, EndpointOf(cfg, ep).value)
  {
    var at := EndpointOf(cfg, ep).value;
    var per := c => CommitmentSpecs(cfg, programs, ep, at, c);
    forall c ensures AllOn(per(c), ep, at) {
      AccountSpecsOn(ep, at, c, Filters(programs, ChunkSize(cfg)));
      OtherSpecsOn(ep, at, c, programs, OtherStreams(cfg));
    }
    EachOn(per, cfg.commitments, ep, at);
  }

  /** In every plan, each subscription is opened on its own role's configured address. */
  lemma PlanAddresses(cfg: Config, programs: seq<string>)
    ensures forall i :: 0 <= i < |PlanOf(cfg, programs)| ==> OpenedOn(cfg, PlanOf(cfg, programs)[i])
  {
    if cfg.solo {
      OtherSpecsOn(One, cfg.endpoint1, LabelCommitment(cfg), programs, Dedup(cfg.soloStreams));
    } else {
      MainSpecsOn(cfg, programs, One);
      if cfg.endpoint2.Some? {
        MainSpecsOn(cfg, programs, Two);
      }
    }
  }

  /** With both endpoints configured, the plan starts with endpoint one's main subscriptions
      followed by their mirror images for endpoint two, each half on its own address. */
  lemma EndpointsMirror(cfg: Config, programs: seq<string>)
    requires !cfg.solo && cfg.endpoint2.Some?
    ensures var a, b := MainSpecs(cfg, programs, One), MainSpecs(cfg, programs, Two);
            && Mirrored(a, b) && a + b <= PlanOf(cfg, programs)
            && AllOn(a, One, cfg.endpoint1) && AllOn(b, Two, cfg.endpoint2.value)
  {
    MainSpecsOn(cfg, programs, One);
    MainSpecsOn(cfg, programs, Two);
    var at, bt := cfg.endpoint1, cfg.endpoint2.value;
    AllCommitmentsMirror(cfg, programs, at, bt, cfg.commitments);
    MirroredConcat([SlotSpec(cfg, One, at)], [SlotSpec(cfg, Two, bt)],
                   AllCommitments(cfg, programs, One, at, cfg.commitments), AllCommitments(cfg, programs, Two, bt, cfg.commitments));
  }

  // ----- solo mode -----

  /** Solo mode opens each listed stream once, all on endpoint one. */
  lemma {:induction false} SoloStreamsOnce(streams: seq<MainStream>)
    ensures forall s :: s in Dedup(streams) <==> s in streams
    ensures forall i, j :: 0 <= i < j < |Dedup(streams)| ==> Dedup(streams)[i] != Dedup(streams)[j]
  {
    if streams != [] {
      var n := |streams| - 1;
      SoloStreamsOnce(streams[..n]);
      assert streams == streams[..n] + [streams[n]];
    }
  }
}
