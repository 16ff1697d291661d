/** The account matcher as the dispatchers share it, and its two end-of-run reports. */
module AccountSummary {
  import opened Types
  import opened Digests
  import opened PairMatching
  import opened MatcherLaws
  import opened Tallies
  import opened AccountMatching

  // ----- the per-program digest mirrors the shard's matcher -----

  predicate Mirrors(s: Shard) {
    && s.program.digest == s.main.digest
    && s.program.matched == s.main.counts.matched
    && s.program.ep1Faster == s.main.counts.ep1Faster
    && s.program.ep2Faster == s.main.counts.ep2Faster
  }

  lemma ShardStepMirrors(s: Shard, o: Obs<AccountKey>)
    requires Mirrors(s)
    ensures Mirrors(ShardStep(s, o))
  {
    var a := Arrive(EVICT_EVERY, s.main, o.slot);
    match Meets(a, o)
    case None =>
    case Some(r) =>
  }

  ghost predicate AllMirror(shards: Shards) {
    forall o :: o in shards ==> Mirrors(shards[o])
  }

  lemma AccountsStepMirrors(window: U64, strict: bool, shards: Shards, o: AccountObs)
    requires AllMirror(shards)
    ensures AllMirror(AccountsStep(window, strict, shards, o))
  {
    var s := ShardFor(window, shards, o.owner);
    assert Mirrors(FreshShard(window));
    assert Mirrors(s);
    ShardStepMirrors(s, ShardObs(strict, o));
  }

  /** Every shard's program digest holds the samples and counts of its matcher. */
  lemma {:induction false} ProgramDigestsMirror(window: U64, strict: bool, t: seq<AccountObs>)
    ensures AllMirror(AccountsRun(window, strict, t))
  {
    if t != [] {
      ProgramDigestsMirror(window, strict, t[..|t| - 1]);
      AccountsStepMirrors(window, strict, AccountsRun(window, strict, t[..|t| - 1]), t[|t| - 1]);
    }
  }

  /** Without matches there is nothing else to report either. */
  ghost predicate Consistent(t: Tally) {
    t.matched == |t.samples| && t.ep1Faster + t.ep2Faster <= t.matched
  }

  lemma StepConsistent<K>(m: Matcher<K>, o: Obs<K>)
    requires Consistent(TallyOf(m))
    ensures Consistent(TallyOf(Step(EVICT_EVERY, m, o)))
  {
    StepGains(EVICT_EVERY, m, o);
    assert Consistent(TallyOf(m).Add(Gain(StepResult(EVICT_EVERY, m, o))));
  }

  lemma {:induction false} RunsAreConsistent(window: U64, strict: bool, t: seq<AccountObs>)
    ensures forall o :: o in AccountsRun(window, strict, t) ==> Consistent(TallyOf(AccountsRun(window, strict, t)[o].main))
  {
    if t != [] {
      var n := |t| - 1;
      RunsAreConsistent(window, strict, t[..n]);
      var s, o := ShardFor(window, AccountsRun(window, strict, t[..n]), t[n].owner), ShardObs(strict, t[n]);
      assert Consistent(TallyOf(Fresh<AccountKey>(window)));
      StepConsistent(s.main, o);
    }
  }

  // ----- the per-program report -----

  type Names = map<Pubkey32, string>

  function Bucket(names: Names, owner: Pubkey32): string {
    if owner in names then names[owner] else "unknown"
  }

  /** `order` visits each key exactly once. */
  ghost predicate Visits(order: seq<Pubkey32>, keys: set<Pubkey32>) {
    && (forall o :: o in order <==> o in keys)
    && (forall i, j :: 0 <= i < j < |order| ==> order[i] != order[j])
  }

  type Rows = map<Pubkey32, Tally>

  /** The report built by visiting the shards in `order`: a later shard's row replaces an
      earlier one in the same bucket. */
  function PerProgram(names: Names, rows: Rows, order: seq<Pubkey32>): map<string, Tally>
    requires forall o :: o in order ==> o in rows
  {
    if order == [] then map[]
    else
      var n := |order| - 1;
      PerProgram(names, rows, order[..n])[Bucket(names, order[n]) := rows[order[n]]]
  }

  lemma PerProgramNext(names: Names, rows: Rows, order: seq<Pubkey32>, o: Pubkey32)
    requires o in rows && forall p :: p in order ==> p in rows
    ensures PerProgram(names, rows, order + [o]) == PerProgram(names, rows, order)[Bucket(names, o) := rows[o]]
  {
    assert (order + [o])[..|order|] == order;
  }

  /** Rows added up one by one along a visiting order. */
  ghost function Fold(rows: Rows, order: seq<Pubkey32>): Tally
    requires forall o :: o in order ==> o in rows
  {
    if order == [] then ZERO else Fold(rows, order[..|order| - 1]).Add(rows[order[|order| - 1]])
  }

  lemma FoldNext(rows: Rows, order: seq<Pubkey32>, o: Pubkey32)
    requires o in rows && forall p :: p in order ==> p in rows
    ensures Fold(rows, order + [o]) == Fold(rows, order).Add(rows[o])
  {
    assert (order + [o])[..|order|] == order;
  }

  lemma {:induction false} FoldByValue(f: Rows, g: Rows, order: seq<Pubkey32>)
    requires forall o :: o in order ==> o in f && o in g && f[o] == g[o]
    ensures Fold(f, order) == Fold(g, order)
  {
    if order != [] {
      FoldByValue(f, g, order[..|order| - 1]);
    }
  }

  /** Whatever the order, the rows add up to the same thing. */
  lemma {:induction false} FoldIsSum(rows: Rows, order: seq<Pubkey32>)
    requires Visits(order, rows.Keys)
    ensures Fold(rows, order) == Sum(rows)
  {
    if order == [] {
      assert forall o :: o in rows.Keys ==> o in order;
      assert rows.Keys == {};
    } else {
      var n := |order| - 1;
      var rest := rows - {order[n]};
      assert Visits(order[..n], rest.Keys);
      FoldIsSum(rest, order[..n]);
      FoldByValue(rows, rest, order[..n]);
      SumTakeOut(rows, order[n]);
      AddLaws(rows[order[n]], Sum(rest), ZERO);
    }
  }

  /** The row that the last shard of the order replaces. */
  function RowReplaced(names: Names, rows: Rows, order: seq<Pubkey32>): Tally
    requires order != [] && forall o :: o in order ==> o in rows
  {
    var n := |order| - 1;
    var before, name := PerProgram(names, rows, order[..n]), Bucket(names, order[n]);
    if name in before then before[name] else ZERO
  }

  /** The rows that a later shard of the same bucket replaced. */
  ghost function Replaced(names: Names, rows: Rows, order: seq<Pubkey32>): Tally
    requires forall o :: o in order ==> o in rows
  {
    if order == [] then ZERO
    else
      Replaced(names, rows, order[..|order| - 1]).Add(RowReplaced(names, rows, order))
  }

  lemma ReplaceRow(out: map<string, Tally>, name: string, row: Tally, lost: Tally)
    ensures Sum(out[name := row]).Add(lost.Add(if name in out then out[name] else ZERO)) == Sum(out).Add(lost).Add(row)
  {
    SumUpdate(out, name, row);
    var prior, rest := if name in out then out[name] else ZERO, Sum(out - {name});
    AddLaws(rest, ZERO, ZERO);
    assert Sum(out) == prior.Add(rest);
    Rearrange(row, rest, lost, prior);
  }

  /** Nothing is lost in the report but the rows replaced. */
  lemma {:induction false} ReportLosesReplaced(names: Names, rows: Rows, order: seq<Pubkey32>)
    requires forall o :: o in order ==> o in rows
    ensures Sum(PerProgram(names, rows, order)).Add(Replaced(names, rows, order)) == Fold(rows, order)
  {
    if order == [] {
      AddLaws(ZERO, ZERO, ZERO);
    } else {
      var n := |order| - 1;
      ReportLosesReplaced(names, rows, order[..n]);
      ReplaceRow(PerProgram(names, rows, order[..n]), Bucket(names, order[n]), rows[order[n]], Replaced(names, rows, order[..n]));
    }
  }

  lemma Rearrange(row: Tally, rest: Tally, lost: Tally, prior: Tally)
    ensures row.Add(rest).Add(lost.Add(prior)) == prior.Add(rest).Add(lost).Add(row)
  {
    assert row.samples + rest.samples + (lost.samples + prior.samples) == prior.samples + rest.samples + lost.samples + row.samples;
  }

  /** Every shard that a later one replaces had no matches. */
  ghost predicate NoLoss(names: Names, rows: Rows, order: seq<Pubkey32>)
    requires forall o :: o in order ==> o in rows
  {
    forall i, j :: 0 <= i < j < |order| && Bucket(names, order[i]) == Bucket(names, order[j]) ==> rows[order[i]].matched == 0
  }

  ghost predicate LastUnder(names: Names, rows: Rows, order: seq<Pubkey32>, name: string, i: int)
    requires forall o :: o in order ==> o in rows
  {
    && 0 <= i < |order| && Bucket(names, order[i]) == name
    && (forall j :: i < j < |order| ==> Bucket(names, order[j]) != name)
    && name in PerProgram(names, rows, order)
    && PerProgram(names, rows, order)[name] == rows[order[i]]
  }

  /** A bucket holds the row of the last shard visited under its name. */
  lemma {:induction false} BucketHoldsLast(names: Names, rows: Rows, order: seq<Pubkey32>, name: string)
    requires forall o :: o in order ==> o in rows
    requires name in PerProgram(names, rows, order)
    ensures exists i :: LastUnder(names, rows, order, name, i)
  {
    var n := |order| - 1;
    if Bucket(names, order[n]) == name {
      assert LastUnder(names, rows, order, name, n);
    } else {
      BucketHoldsLast(names, rows, order[..n], name);
      var i :| LastUnder(names, rows, order[..n], name, i);
      assert LastUnder(names, rows, order, name, i);
    }
  }

  lemma {:induction false} BucketAbsent(names: Names, rows: Rows, order: seq<Pubkey32>, name: string)
    requires forall o :: o in order ==> o in rows
    requires name !in PerProgram(names, rows, order)
    ensures forall i :: 0 <= i < |order| ==> Bucket(names, order[i]) != name
  {
    if order != [] {
      BucketAbsent(names, rows, order[..|order| - 1], name);
    }
  }

  lemma LastReplaces(names: Names, rows: Rows, order: seq<Pubkey32>)
    requires order != [] && forall o :: o in order ==> o in rows
    requires Bucket(names, order[|order| - 1]) in PerProgram(names, rows, order[..|order| - 1])
    ensures NoLoss(names, rows, order)
            <==> && NoLoss(names, rows, order[..|order| - 1])
                 && PerProgram(names, rows, order[..|order| - 1])[Bucket(names, order[|order| - 1])].matched == 0
  {
    var n := |order| - 1;
    var before, name := order[..n], Bucket(names, order[n]);
    BucketHoldsLast(names, rows, before, name);
    var i :| LastUnder(names, rows, before, name, i);
    assert forall j :: 0 <= j < n ==> before[j] == order[j];
    ReplacedLoss(names, rows, order, i);
  }

  lemma LastIsNew(names: Names, rows: Rows, order: seq<Pubkey32>)
    requires order != [] && forall o :: o in order ==> o in rows
    requires Bucket(names, order[|order| - 1]) !in PerProgram(names, rows, order[..|order| - 1])
    ensures NoLoss(names, rows, order) <==> NoLoss(names, rows, order[..|order| - 1])
  {
    var n := |order| - 1;
    var before := order[..n];
    BucketAbsent(names, rows, before, Bucket(names, order[n]));
    assert forall j :: 0 <= j < n ==> before[j] == order[j];
  }

  lemma ReplacedLoss(names: Names, rows: Rows, order: seq<Pubkey32>, i: nat)
    requires order != [] && forall o :: o in order ==> o in rows
    requires i < |order| - 1 && Bucket(names, order[i]) == Bucket(names, order[|order| - 1])
    requires forall j :: i < j < |order| - 1 ==> Bucket(names, order[j]) != Bucket(names, order[|order| - 1])
    ensures NoLoss(names, rows, order) <==> NoLoss(names, rows, order[..|order| - 1]) && rows[order[i]].matched == 0
  {
    var n := |order| - 1;
    var before := order[..n];
    if NoLoss(names, rows, before) && rows[order[i]].matched == 0 {
      forall a, b | 0 <= a < b < |order| && Bucket(names, order[a]) == Bucket(names, order[b])
        ensures rows[order[a]].matched == 0
      {
        assert before[a] == order[a] && before[i] == order[i];
        if b < n {
          assert before[b] == order[b];
        }
      }
    }
    if NoLoss(names, rows, order) {
      forall a, b | 0 <= a < b < n && Bucket(names, before[a]) == Bucket(names, before[b])
        ensures rows[before[a]].matched == 0
      {
        assert before[a] == order[a] && before[b] == order[b];
      }
    }
  }

  /** The owner is reported under the name: its own short name, or "unknown" if it has none. */
  predicate ReportedAs(names: Names, o: Pubkey32, name: string) {
    if o in names then name == names[o] else name == "unknown"
  }

  /** Shard `i` of the order is the last that is reported under the name. */
  ghost predicate LastNamed(names: Names, order: seq<Pubkey32>, name: string, i: int) {
    && 0 <= i < |order| && ReportedAs(names, order[i], name)
    && (forall j :: i < j < |order| ==> !ReportedAs(names, order[j], name))
  }

  /** The report has exactly the names of the shards visited, and under each name the row of the
      last of them; so an owner that shares its name with no other has its own row. */
  lemma RowsByName(names: Names, rows: Rows, order: seq<Pubkey32>, name: string)
    requires forall o :: o in order ==> o in rows
    ensures var out := PerProgram(names, rows, order);
            && (name in out <==> exists i :: 0 <= i < |order| && ReportedAs(names, order[i], name))
            && (name in out ==> exists i :: LastNamed(names, order, name, i) && out[name] == rows[order[i]])
  {
    if name in PerProgram(names, rows, order) {
      BucketHoldsLast(names, rows, order, name);
      var i :| LastUnder(names, rows, order, name, i);
      assert LastNamed(names, order, name, i);
    } else {
      BucketAbsent(names, rows, order, name);
      forall i | 0 <= i < |order| ensures !ReportedAs(names, order[i], name) {
        assert Bucket(names, order[i]) != name;
      }
    }
  }

  ghost predicate AllConsistent(rows: Rows) {
    forall o :: o in rows ==> Consistent(rows[o])
  }

  lemma LossStep(names: Names, rows: Rows, order: seq<Pubkey32>)
    requires AllConsistent(rows) && order != [] && forall o :: o in order ==> o in rows
    ensures Consistent(RowReplaced(names, rows, order))
    ensures NoLoss(names, rows, order)
            <==> NoLoss(names, rows, order[..|order| - 1]) && RowReplaced(names, rows, order).matched == 0
  {
    var n := |order| - 1;
    var name := Bucket(names, order[n]);
    if name in PerProgram(names, rows, order[..n]) {
      BucketHoldsLast(names, rows, order[..n], name);
      LastReplaces(names, rows, order);
    } else {
      LastIsNew(names, rows, order);
    }
  }

  lemma AddConsistent(a: Tally, b: Tally)
    requires Consistent(a) && Consistent(b)
    ensures Consistent(a.Add(b))
  {
  }

  /** The rows replaced hold no match exactly when nothing was lost, and then they are empty. */
  lemma {:induction false} ReplacedNothing(names: Names, rows: Rows, order: seq<Pubkey32>)
    requires AllConsistent(rows) && forall o :: o in order ==> o in rows
    ensures Consistent(Replaced(names, rows, order))
    ensures Replaced(names, rows, order).matched == 0 <==> NoLoss(names, rows, order)
  {
    if order != [] {
      var before := order[..|order| - 1];
      ReplacedNothing(names, rows, before);
      LossStep(names, rows, order);
      AddConsistent(Replaced(names, rows, before), RowReplaced(names, rows, order));
    }
  }

  /** In one visiting order: the report never counts more matches than there were, and it adds
      up, in the matched count alone or in every column, exactly when nothing was lost. */
  lemma ReportAddsUp(names: Names, rows: Rows, order: seq<Pubkey32>)
    requires AllConsistent(rows) && Visits(order, rows.Keys)
    ensures var reported := Sum(PerProgram(names, rows, order));
            && reported.matched <= Sum(rows).matched
            && (reported.matched == Sum(rows).matched <==> NoLoss(names, rows, order))
            && (reported == Sum(rows) <==> NoLoss(names, rows, order))
  {
    FoldIsSum(rows, order);
    ReportLosesReplaced(names, rows, order);
    ReplacedNothing(names, rows, order);
    LossShows(Sum(PerProgram(names, rows, order)), Replaced(names, rows, order), Sum(rows));
  }

  lemma LossShows(reported: Tally, lost: Tally, total: Tally)
    requires reported.Add(lost) == total && Consistent(lost)
    ensures reported.matched <= total.matched
    ensures reported.matched == total.matched <==> lost.matched == 0
    ensures reported == total <==> lost.matched == 0
  {
    if lost.matched == 0 {
      assert lost.samples == multiset{};
      assert lost == ZERO;
      AddLaws(reported, ZERO, ZERO);
    }
  }

  /** Some order visits them all. */
  lemma {:induction false} OrderFrom(keys: set<Pubkey32>) returns (order: seq<Pubkey32>)
    ensures Visits(order, keys)
  {
    if keys == {} {
      order := [];
    } else {
      var o :| o in keys;
      var rest := OrderFrom(keys - {o});
      order := [o] + rest;
    }
  }

  /** Two owners with one name: the same short name, or none at all, or one is called "unknown". */
  predicate SameName(names: Names, o: Pubkey32, p: Pubkey32) {
    if o in names then ReportedAs(names, p, names[o]) else ReportedAs(names, p, "unknown")
  }

  /** Shards that share a name have no matches. */
  ghost predicate BucketsHarmless(names: Names, rows: Rows) {
    forall o, p :: o in rows && p in rows && o != p && SameName(names, o, p) ==> rows[o].matched == 0
  }

  /** In every visiting order the per-program rows add up to the total, column by column. */
  ghost predicate RowsAddUp(names: Names, rows: Rows, total: Tally) {
    forall order :: Visits(order, rows.Keys) ==> Sum(PerProgram(names, rows, order)) == total
  }

  ghost predicate MatchedAddsUp(names: Names, rows: Rows, total: Tally) {
    forall order :: Visits(order, rows.Keys) ==> Sum(PerProgram(names, rows, order)).matched == total.matched
  }

  lemma SameNameSameBucket(names: Names, o: Pubkey32, p: Pubkey32)
    ensures SameName(names, o, p) <==> Bucket(names, o) == Bucket(names, p)
  {
  }

  lemma HarmlessLosesNothing(names: Names, rows: Rows, order: seq<Pubkey32>)
    requires BucketsHarmless(names, rows) && Visits(order, rows.Keys)
    ensures NoLoss(names, rows, order)
  {
    forall i, j | 0 <= i < j < |order| && Bucket(names, order[i]) == Bucket(names, order[j]) ensures rows[order[i]].matched == 0 {
      SameNameSameBucket(names, order[i], order[j]);
    }
  }

  lemma PerProgramAddsUp(names: Names, rows: Rows)
    requires AllConsistent(rows)
    ensures RowsAddUp(names, rows, Sum(rows)) <==> BucketsHarmless(names, rows)
    ensures MatchedAddsUp(names, rows, Sum(rows)) <==> BucketsHarmless(names, rows)
  {
    if BucketsHarmless(names, rows) {
      forall order | Visits(order, rows.Keys) ensures Sum(PerProgram(names, rows, order)) == Sum(rows) {
        HarmlessLosesNothing(names, rows, order);
        ReportAddsUp(names, rows, order);
      }
    } else {
      var o, p :| o in rows && p in rows && o != p && SameName(names, o, p) && rows[o].matched != 0;
      SameNameSameBucket(names, o, p);
      var order := LosingOrder(names, rows, o, p);
      ReportAddsUp(names, rows, order);
    }
  }

  /** Visiting a shard first loses it to a later one of the same bucket. */
  lemma LosingOrder(names: Names, rows: Rows, o: Pubkey32, p: Pubkey32) returns (order: seq<Pubkey32>)
    requires o in rows && p in rows && o != p && Bucket(names, o) == Bucket(names, p) && rows[o].matched != 0
    ensures Visits(order, rows.Keys) && !NoLoss(names, rows, order)
  {
    var rest := OrderFrom(rows.Keys - {o});
    order := [o] + rest;
    assert p in rest;
    var j :| 0 <= j < |rest| && rest[j] == p;
    assert order[0] == o && order[j + 1] == p;
  }

  /** What each shard's program digest reports. */
  ghost function ProgramRows(shards: Shards): Rows {
    map o | o in shards :: shards[o].program.Report()
  }

  lemma RowsAreTallies(shards: Shards)
    requires AllMirror(shards)
    ensures ProgramRows(shards) == ShardTallies(shards)
  {
  }

  /** After any run, the per-program rows add up to the overall totals in every visiting order,
      in the matched count alone or in every column, exactly when shards that share a bucket
      matched nothing. */
  lemma PerProgramMeetsSummary(names: Names, window: U64, strict: bool, t: seq<AccountObs>)
    ensures var shards := AccountsRun(window, strict, t);
            && (RowsAddUp(names, ProgramRows(shards), Sum(ShardTallies(shards))) <==> BucketsHarmless(names, ProgramRows(shards)))
            && (MatchedAddsUp(names, ProgramRows(shards), Sum(ShardTallies(shards))) <==> BucketsHarmless(names, ProgramRows(shards)))
  {
    var shards := AccountsRun(window, strict, t);
    ProgramDigestsMirror(window, strict, t);
    RunsAreConsistent(window, strict, t);
    RowsAreTallies(shards);
    PerProgramAddsUp(names, ProgramRows(shards));
  }

  // ----- a run in which a row is lost -----

  /** Both endpoints report the same update of an owner's account. */
  function BothReport(o: Pubkey32, key: Pubkey32, ts: Timestamp): seq<AccountObs> {
    [AccountObs(One, 1, key, 0, None, o, ts), AccountObs(Two, 1, key, 0, None, o, ts)]
  }

  /** A fresh shard pairs the two reports of one update. */
  lemma FreshShardPairs(window: U64, a: Obs<AccountKey>, b: Obs<AccountKey>)
    requires a.ep == One && b.ep == Two && a.key == b.key && a.slot == b.slot
    ensures ShardStep(ShardStep(FreshShard(window), a), b).program.matched == 1
  {
    var s1 := ShardStep(FreshShard(window), a);
    assert s1.main.pending1 == map[a.key := Pending(a.ts, a.slot)] && s1.main.obsCount == 1;
    assert Meets(Arrive(EVICT_EVERY, s1.main, b.slot), b).Some?;
  }

  lemma BothReportRun(window: U64, t: seq<AccountObs>, o: Pubkey32, key: Pubkey32, ts: Timestamp)
    requires o !in AccountsRun(window, false, t)
    ensures var before, after := AccountsRun(window, false, t), AccountsRun(window, false, t + BothReport(o, key, ts));
            && after.Keys == before.Keys + {o} && after[o].program.matched == 1
            && forall p :: p in before ==> after[p] == before[p]
  {
    var two := BothReport(o, key, ts);
    assert (t + two)[..|t| + 1] == t + [two[0]] && (t + [two[0]])[..|t|] == t;
    FreshShardPairs(window, ShardObs(false, two[0]), ShardObs(false, two[1]));
    var shards, s1 := AccountsRun(window, false, t), ShardStep(FreshShard(window), ShardObs(false, two[0]));
    assert AccountsRun(window, false, t + [two[0]]) == shards[o := s1];
    assert AccountsRun(window, false, t + two) == shards[o := s1][o := ShardStep(s1, ShardObs(false, two[1]))];
  }

  /** Both endpoints report one update of each of two owners. */
  function TwoOwners(o: Pubkey32, p: Pubkey32, key: Pubkey32, ts: Timestamp): seq<AccountObs> {
    BothReport(o, key, ts) + BothReport(p, key, ts)
  }

  lemma TwoOwnersRun(window: U64, o: Pubkey32, p: Pubkey32, key: Pubkey32, ts: Timestamp)
    requires o != p
    ensures var shards := AccountsRun(window, false, TwoOwners(o, p, key, ts));
            shards.Keys == {o, p} && shards[o].program.matched == 1 && shards[p].program.matched == 1
  {
    BothReportRun(window, [], o, key, ts);
    assert [] + BothReport(o, key, ts) == BothReport(o, key, ts);
    BothReportRun(window, BothReport(o, key, ts), p, key, ts);
  }

  /** Two owners outside the program list share the bucket "unknown": two matches were made and,
      in either order, the report counts one. */
  lemma UnknownOwnersCollide(window: U64, o: Pubkey32, p: Pubkey32, key: Pubkey32, ts: Timestamp)
    requires o != p
    ensures var rows := ProgramRows(AccountsRun(window, false, TwoOwners(o, p, key, ts)));
            && rows.Keys == {o, p} && Sum(rows).matched == 2
            && PerProgram(map[], rows, [o, p]) == map["unknown" := rows[p]] && rows[p].matched == 1
            && PerProgram(map[], rows, [p, o]) == map["unknown" := rows[o]] && rows[o].matched == 1
  {
    TwoOwnersRun(window, o, p, key, ts);
    TwoRows(ProgramRows(AccountsRun(window, false, TwoOwners(o, p, key, ts))), o, p);
  }

  lemma TwoRows(rows: Rows, o: Pubkey32, p: Pubkey32)
    requires o != p && rows.Keys == {o, p}
    ensures Sum(rows).matched == rows[o].matched + rows[p].matched
    ensures PerProgram(map[], rows, [o, p]) == map["unknown" := rows[p]]
    ensures PerProgram(map[], rows, [p, o]) == map["unknown" := rows[o]]
  {
    OneBucket(rows, o, p);
    OneBucket(rows, p, o);
    assert [o, p][..1] == [o] && [o][..0] == [];
    assert Fold(rows, [o]) == ZERO.Add(rows[o]);
    FoldIsSum(rows, [o, p]);
  }

  lemma OneBucket(rows: Rows, o: Pubkey32, p: Pubkey32)
    requires o in rows && p in rows
    ensures PerProgram(map[], rows, [o, p]) == map["unknown" := rows[p]]
  {
    assert [o, p][..1] == [o] && [o][..0] == [];
    assert PerProgram(map[], rows, [o]) == map["unknown" := rows[o]];
  }

  // ----- the shared matcher -----

  /** What the end-of-run summary does to a shard: a final eviction and a flush. */
  function Settle(s: Shard): Shard {
    var evicted := Evict(s.main);
    s.(main := evicted.(digest := evicted.digest.Flush()))
  }

  lemma SettleReports(s: Shard)
    ensures var m := Settle(s).main;
            Tally(m.counts.matched, m.counts.ep1Faster, m.counts.ep2Faster, m.digest.merged) == TallyOf(s.main)
  {
    PushAddsSample(s.main.digest, 0);
  }

  /** What is in the window still waits, what is not has been counted as evicted, and nothing
      that is reported has changed. */
  lemma SettleSettles(s: Shard)
    ensures var m, m' := s.main, Settle(s).main;
            && m'.digest.buffer == [] && m'.digest.merged == TallyOf(m).samples && TallyOf(m') == TallyOf(m)
            && Settle(s).program == s.program
    ensures forall ep ::
              var own, own' := OwnPending(s.main, ep), OwnPending(Settle(s).main, ep);
              && (forall k :: k in own' <==> k in own && own[k].slot >= Cutoff(s.main))
              && (forall k :: k in own' ==> own'[k] == own[k])
              && EvictedOn(Settle(s).main.counts, ep) + |own'| == EvictedOn(s.main.counts, ep) + |own|
  {
    PushAddsSample(s.main.digest, 0);
    RetainShrinks(s.main.pending1, Cutoff(s.main));
    RetainShrinks(s.main.pending2, Cutoff(s.main));
  }

  /** What the per-program summary does to a shard: it flushes the program digest. */
  function FlushProgram(s: Shard): Shard {
    s.(program := s.program.(digest := s.program.digest.Flush()))
  }

  lemma FlushReports(s: Shard)
    ensures var p := FlushProgram(s).program;
            Tally(p.matched, p.ep1Faster, p.ep2Faster, p.digest.merged) == s.program.Report()
  {
    PushAddsSample(s.program.digest, 0);
  }

  /** All shards but those in `todo` have been through `f`. */
  ghost predicate DoneBut(shards: Shards, before: Shards, f: Shard -> Shard, todo: set<Pubkey32>) {
    && shards.Keys == before.Keys && todo <= shards.Keys
    && forall o :: o in shards ==> shards[o] == if o in todo then before[o] else f(before[o])
  }

  lemma DoneNext(shards: Shards, before: Shards, f: Shard -> Shard, todo: set<Pubkey32>, o: Pubkey32)
    requires DoneBut(shards, before, f, todo) && o in todo
    ensures shards[o] == before[o] && DoneBut(shards[o := f(shards[o])], before, f, todo - {o})
  {
  }

  lemma VisitsNext(order: seq<Pubkey32>, keys: set<Pubkey32>, todo: set<Pubkey32>, o: Pubkey32)
    requires todo <= keys && Visits(order, keys - todo) && o in todo
    ensures Visits(order + [o], keys - (todo - {o}))
  {
  }

  class AccountMatcher {
    var shards: Shards
    const names: Names
    const window: U64
    const strict: bool

    constructor (window: U64, strict: bool, names: Names)
      ensures shards == map[] && this.window == window && this.strict == strict && this.names == names
    {
      shards, this.window, this.strict, this.names := map[], window, strict, names;
    }

    method Observe(ep: EndpointRole, slot: U64, pubkey: Pubkey32, writeVersion: U64,
                   signature: Option<Signature64>, owner: Pubkey32, ts: Timestamp)
      modifies this
      ensures shards == AccountsStep(window, strict, old(shards),
                                     AccountObs(ep, slot, pubkey, writeVersion, signature, owner, ts))
    {
      var key := AccountKey(slot, pubkey, signature, if strict then Some(writeVersion) else None);
      if owner !in shards {
        shards := shards[owner := FreshShard(window)];
      }
      var stepped := ObserveInShard(shards[owner], Obs(ep, key, ts, slot));
      shards := shards[owner := stepped];
    }

    /** The shard's matcher observes, and a match is pushed to its program digest. */
    static method ObserveInShard(shard: Shard, o: Obs<AccountKey>) returns (s: Shard)
      ensures s == ShardStep(shard, o)
    {
      var r, main := StepResult(EVICT_EVERY, shard.main, o), Step(EVICT_EVERY, shard.main, o);
      s := Shard(main, shard.program);
      if r.Some? {
        s := Shard(main, shard.program.Push(r.value.deltaNs));
      }
    }

    /** Adds up the shards in arbitrary order, settling each; the report is the sum of what the
        shards held, samples included. */
    method Summary() returns (total: Tally)
      modifies this
      ensures total == Sum(ShardTallies(old(shards)))
      ensures DoneBut(shards, old(shards), Settle, {})
    {
      ghost var rows, order := ShardTallies(shards), [];
      var todo := shards.Keys;
      total := ZERO;
      while todo != {}
        invariant DoneBut(shards, old(shards), Settle, todo)
        invariant Visits(order, rows.Keys - todo)
        invariant total == Fold(rows, order)
        decreases todo
      {
        var o :| o in todo;
        var s := Settle(shards[o]);
        SettleReports(shards[o]);
        FoldNext(rows, order, o);
        DoneNext(shards, old(shards), Settle, todo, o);
        VisitsNext(order, rows.Keys, todo, o);
        shards := shards[o := s];
        total := total.Add(Tally(s.main.counts.matched, s.main.counts.ep1Faster, s.main.counts.ep2Faster, s.main.digest.merged));
        order, todo := order + [o], todo - {o};
      }
      FoldIsSum(rows, order);
    }

    /** Visits the shards in some order, flushing each program digest; a later shard replaces an
        earlier one of its bucket. */
    method PerProgramSummary() returns (out: map<string, Tally>)
      modifies this
      ensures exists order :: Visits(order, old(shards).Keys) && out == PerProgram(names, ProgramRows(old(shards)), order)
      ensures DoneBut(shards, old(shards), FlushProgram, {})
    {
      ghost var rows, order := ProgramRows(shards), [];
      out := map[];
      var todo := shards.Keys;
      while todo != {}
        invariant DoneBut(shards, old(shards), FlushProgram, todo)
        invariant Visits(order, rows.Keys - todo)
        invariant out == PerProgram(names, rows, order)
        decreases todo
      {
        var o :| o in todo;
        var name := if o in names then names[o] else "unknown";
        var s := FlushProgram(shards[o]);
        FlushReports(shards[o]);
        PerProgramNext(names, rows, order, o);
        DoneNext(shards, old(shards), FlushProgram, todo, o);
        VisitsNext(order, rows.Keys, todo, o);
        shards := shards[o := s];
        out := out[name := Tally(s.program.matched, s.program.ep1Faster, s.program.ep2Faster, s.program.digest.merged)];
        order, todo := order + [o], todo - {o};
      }
      assert rows.Keys - todo == rows.Keys;
    }
  }
}
