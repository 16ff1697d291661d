/** Stream stability of one endpoint: gaps between slot updates, stalls, and the drift between
    the processed and the confirmed arrival of a slot. Durations are nanoseconds. */
module Stability {
  import opened Types
  import opened Digests
  import opened Sequences

  /** 600 ms. */
  const STALL_THRESHOLD_NS: int := 600_000_000

  datatype Distribution = Distribution(digest: Digest, max: int) {
    function Push(v: int): Distribution {
      Distribution(digest.Push(v), if v > max then v else max)
    }
  }

  const NO_SAMPLES := Distribution(EMPTY, 0)

  datatype Stall = Stall(wallMs: U64, durationNs: int)

  /** The fields behind the gap metrics, and those behind the drift metric. */
  datatype GapState = GapState(lastSlotTs: Option<Timestamp>, gaps: Distribution, stalls: seq<Stall>)

  datatype DriftState = DriftState(processed: map<U64, Timestamp>, confirmed: map<U64, Timestamp>, drift: Distribution)

  datatype Tracker = Tracker(gap: GapState, drift: DriftState, ttfm: Distribution, pendingReconnect: Option<U64>)

  const FRESH_TRACKER := Tracker(GapState(None, NO_SAMPLES, []), DriftState(map[], map[], NO_SAMPLES), NO_SAMPLES, None)

  datatype Input = See(e: Event) | Reconnected(monoNs: U64)

  function NonNegative(x: int): (r: nat)
    ensures x >= 0 ==> r == x
    ensures x < 0 ==> r == 0
  {
    if x > 0 then x else 0
  }

  // ----- one step -----

  function ResolveReconnect(s: Tracker, ts: Timestamp): Tracker {
    match s.pendingReconnect
    case None => s
    case Some(at) =>
      s.(ttfm := s.ttfm.Push(NonNegative(DeltaNs(Timestamp(at, 0), ts))), pendingReconnect := None)
  }

  function NoteGap(s: GapState, ts: Timestamp): GapState {
    match s.lastSlotTs
    case None => s.(lastSlotTs := Some(ts))
    case Some(prev) =>
      var gap := NonNegative(DeltaNs(prev, ts));
      s.(lastSlotTs := Some(ts), gaps := s.gaps.Push(gap),
         stalls := if gap > STALL_THRESHOLD_NS then s.stalls + [Stall(ts.wallMs, gap)] else s.stalls)
  }

  function RecordDrift(s: DriftState, processed: Timestamp, confirmed: Timestamp): DriftState {
    s.(drift := s.drift.Push(NonNegative(DeltaNs(processed, confirmed))))
  }

  function OrInsert(m: map<U64, Timestamp>, slot: U64, ts: Timestamp): map<U64, Timestamp> {
    if slot in m then m else m[slot := ts]
  }

  function NoteProcessed(s: DriftState, slot: U64, ts: Timestamp): DriftState {
    var arrived := OrInsert(s.processed, slot, ts);
    if slot in s.confirmed
    then RecordDrift(s, ts, s.confirmed[slot]).(processed := arrived - {slot}, confirmed := s.confirmed - {slot})
    else s.(processed := arrived)
  }

  function NoteConfirmed(s: DriftState, slot: U64, ts: Timestamp): DriftState {
    var arrived := OrInsert(s.confirmed, slot, ts);
    if slot in s.processed
    then RecordDrift(s, s.processed[slot], ts).(processed := s.processed - {slot}, confirmed := arrived - {slot})
    else s.(confirmed := arrived)
  }

  /** Which drift arm an event takes: only a matching stage and commitment count. */
  datatype Arm = ProcessedArm | ConfirmedArm | NoArm

  function ArmOf(e: Event): Arm {
    if !e.payload.SlotUpdate? || !e.subscription.Main? then NoArm
    else if e.payload.stage == StageProcessed && e.subscription.commitment == Processed then ProcessedArm
    else if e.payload.stage == StageConfirmed && e.subscription.commitment == Confirmed then ConfirmedArm
    else NoArm
  }

  function NoteArm(s: DriftState, e: Event): DriftState {
    match ArmOf(e)
    case ProcessedArm => NoteProcessed(s, e.payload.slot, e.ts)
    case ConfirmedArm => NoteConfirmed(s, e.payload.slot, e.ts)
    case NoArm => s
  }

  function Step(ep: EndpointRole, s: Tracker, i: Input): Tracker {
    match i
    case Reconnected(at) => s.(pendingReconnect := Some(at))
    case See(e) =>
      if e.subscription.ep != ep then s
      else
        var resolved := ResolveReconnect(s, e.ts);
        if e.payload.SlotUpdate? then resolved.(gap := NoteGap(s.gap, e.ts), drift := NoteArm(s.drift, e)) else resolved
  }

  function Run(ep: EndpointRole, t: seq<Input>): Tracker {
    if t == [] then FRESH_TRACKER else Step(ep, Run(ep, t[..|t| - 1]), t[|t| - 1])
  }

  // ----- gaps and stalls -----

  predicate IsOwnSlot(ep: EndpointRole, i: Input) {
    i.See? && i.e.subscription.ep == ep && i.e.payload.SlotUpdate?
  }

  /** Arrival times of the endpoint's slot updates. */
  function SlotTimes(ep: EndpointRole, t: seq<Input>): seq<Timestamp> {
    if t == [] then []
    else
      var before, i := SlotTimes(ep, t[..|t| - 1]), t[|t| - 1];
      if IsOwnSlot(ep, i) then before + [i.e.ts] else before
  }

  /** The gap that ends with the k-th arrival. */
  function GapAt(ts: seq<Timestamp>, k: nat): nat
    requires 0 < k < |ts|
  {
    NonNegative(DeltaNs(ts[k - 1], ts[k]))
  }

  function Gaps(ts: seq<Timestamp>): seq<nat> {
    if |ts| <= 1 then [] else Gaps(ts[..|ts| - 1]) + [GapAt(ts, |ts| - 1)]
  }

  /** The gaps above the threshold, in order, each with the wall time of the late arrival. */
  function StallsOf(ts: seq<Timestamp>): seq<Stall> {
    if |ts| <= 1 then []
    else
      var before, gap := StallsOf(ts[..|ts| - 1]), GapAt(ts, |ts| - 1);
      if gap > STALL_THRESHOLD_NS then before + [Stall(ts[|ts| - 1].wallMs, gap)] else before
  }

  ghost predicate IsMax(max: int, g: seq<nat>) {
    && max >= 0 && (forall k :: 0 <= k < |g| ==> g[k] <= max)
    && (max > 0 ==> exists k :: 0 <= k < |g| && g[k] == max)
  }

  ghost predicate TracksGaps(s: GapState, ts: seq<Timestamp>) {
    && s.lastSlotTs == (if ts == [] then None else Some(ts[|ts| - 1]))
    && s.gaps.digest.All() == multiset(Gaps(ts))
    && IsMax(s.gaps.max, Gaps(ts))
    && s.stalls == StallsOf(ts)
  }

  lemma GapsSnoc(ts: seq<Timestamp>, x: Timestamp)
    requires ts != []
    ensures var gap := NonNegative(DeltaNs(ts[|ts| - 1], x));
            && Gaps(ts + [x]) == Gaps(ts) + [gap]
            && StallsOf(ts + [x]) == StallsOf(ts) + (if gap > STALL_THRESHOLD_NS then [Stall(x.wallMs, gap)] else [])
  {
    assert (ts + [x])[..|ts|] == ts;
    assert StallsOf(ts) + [] == StallsOf(ts);
  }

  lemma NoteGapTracks(s: GapState, ts: seq<Timestamp>, x: Timestamp)
    requires TracksGaps(s, ts)
    ensures TracksGaps(NoteGap(s, x), ts + [x])
  {
    if ts != [] {
      var gap := NonNegative(DeltaNs(ts[|ts| - 1], x));
      GapsSnoc(ts, x);
      assert multiset(Gaps(ts) + [gap]) == multiset(Gaps(ts)) + multiset{gap};
      PushAddsSample(s.gaps.digest, gap);
      MaxGrows(s.gaps.max, Gaps(ts), gap);
    }
  }

  /** Gap by gap, what the samples are: the difference of the two readings, or 0 if the clock went
      back. */
  lemma {:induction false} GapsElementwise(ts: seq<Timestamp>)
    ensures |Gaps(ts)| == if ts == [] then 0 else |ts| - 1
    ensures forall k :: 0 <= k < |Gaps(ts)| ==> Gaps(ts)[k] == GapAt(ts, k + 1)
    ensures forall k :: 0 <= k < |Gaps(ts)| && Readable(ts[k]) && Readable(ts[k + 1]) ==>
              Gaps(ts)[k] == if ts[k + 1].monoNs > ts[k].monoNs then ts[k + 1].monoNs - ts[k].monoNs else 0
  {
    if |ts| > 1 {
      GapsElementwise(ts[..|ts| - 1]);
    }
  }

  /** Every gap with the wall time of its late arrival. */
  function AllGaps(ts: seq<Timestamp>): seq<Stall> {
    if |ts| <= 1 then [] else AllGaps(ts[..|ts| - 1]) + [Stall(ts[|ts| - 1].wallMs, GapAt(ts, |ts| - 1))]
  }

  /** The arrivals that are more than 600 ms late. */
  function LateArrivals(ts: seq<Timestamp>): set<nat> {
    set k | 0 < k < |ts| && GapAt(ts, k) > 600_000_000
  }

  lemma LateArrivalsNext(ts: seq<Timestamp>)
    requires |ts| > 1
    ensures var n := |ts| - 1;
            |LateArrivals(ts)| == |LateArrivals(ts[..n])| + (if GapAt(ts, n) > 600_000_000 then 1 else 0)
  {
    var n := |ts| - 1;
    assert forall k :: 0 < k < n ==> GapAt(ts[..n], k) == GapAt(ts, k);
    assert LateArrivals(ts) == LateArrivals(ts[..n]) + (if GapAt(ts, n) > 600_000_000 then {n} else {});
  }

  /** The stalls are the gaps above 600 ms: in order, each of them, and no other. */
  lemma {:induction false} StallsExactly(ts: seq<Timestamp>)
    ensures Subsequence(StallsOf(ts), AllGaps(ts)) && |StallsOf(ts)| == |LateArrivals(ts)|
    ensures forall i :: 0 <= i < |StallsOf(ts)| ==> StallsOf(ts)[i].durationNs > 600_000_000
  {
    if |ts| <= 1 {
      assert LateArrivals(ts) == {};
    } else {
      var n := |ts| - 1;
      StallsExactly(ts[..n]);
      LateArrivalsNext(ts);
      SubsequenceSnoc(StallsOf(ts[..n]), AllGaps(ts[..n]), Stall(ts[n].wallMs, GapAt(ts, n)));
    }
  }

  lemma MaxGrows(max: int, g: seq<nat>, x: nat)
    requires IsMax(max, g)
    ensures IsMax(if x > max then x else max, g + [x])
  {
    var g' := g + [x];
    assert g'[|g|] == x && forall k :: 0 <= k < |g| ==> g'[k] == g[k];
  }

  lemma StepGap(ep: EndpointRole, s: Tracker, i: Input)
    ensures Step(ep, s, i).gap == if IsOwnSlot(ep, i) then NoteGap(s.gap, i.e.ts) else s.gap
  {
  }

  /** Over every run, the gap samples are exactly the gaps between consecutive slot updates,
      the maximum is theirs, and the stalls are those above 600 ms, in order. */
  lemma {:induction false} GapLaws(ep: EndpointRole, t: seq<Input>)
    ensures TracksGaps(Run(ep, t).gap, SlotTimes(ep, t))
  {
    if t != [] {
      var n := |t| - 1;
      GapLaws(ep, t[..n]);
      StepGap(ep, Run(ep, t[..n]), t[n]);
      if IsOwnSlot(ep, t[n]) {
        NoteGapTracks(Run(ep, t[..n]).gap, SlotTimes(ep, t[..n]), t[n].e.ts);
      }
    }
  }

  function Sum(g: seq<nat>): nat {
    if g == [] then 0 else Sum(g[..|g| - 1]) + g[|g| - 1]
  }

  ghost predicate InOrder(ts: seq<Timestamp>) {
    forall k :: 0 < k < |ts| ==> ClampI64(ts[k - 1].monoNs) <= ClampI64(ts[k].monoNs)
  }

  /** The gaps add up to at least the time from first to last arrival, and to exactly that
      when and only when the timestamps never go back. */
  lemma {:induction false} GapsTelescope(ts: seq<Timestamp>)
    requires ts != []
    ensures Sum(Gaps(ts)) >= DeltaNs(ts[0], ts[|ts| - 1])
    ensures Sum(Gaps(ts)) == DeltaNs(ts[0], ts[|ts| - 1]) <==> InOrder(ts)
  {
    var n := |ts| - 1;
    if n > 0 {
      var before, x := ts[..n], ts[n];
      assert ts == before + [x];
      GapsTelescope(before);
      GapsSnoc(before, x);
      var gap := NonNegative(DeltaNs(before[n - 1], x));
      assert (Gaps(before) + [gap])[..|Gaps(before)|] == Gaps(before);
      InOrderSnoc(before, x);
    }
  }

  lemma InOrderSnoc(ts: seq<Timestamp>, x: Timestamp)
    requires ts != []
    ensures InOrder(ts + [x]) <==> InOrder(ts) && ClampI64(ts[|ts| - 1].monoNs) <= ClampI64(x.monoNs)
  {
    var ts' := ts + [x];
    assert forall k :: 0 <= k < |ts| ==> ts'[k] == ts[k];
    if InOrder(ts') {
      assert ClampI64(ts'[|ts| - 1].monoNs) <= ClampI64(ts'[|ts|].monoNs);
      forall k | 0 < k < |ts| ensures ClampI64(ts[k - 1].monoNs) <= ClampI64(ts[k].monoNs) {
        assert ClampI64(ts'[k - 1].monoNs) <= ClampI64(ts'[k].monoNs);
      }
    }
  }

  // ----- drift -----

  datatype Mark = Mark(slot: U64, confirmed: bool, ts: Timestamp)

  function MarkOf(ep: EndpointRole, i: Input): Option<Mark> {
    if !IsOwnSlot(ep, i) || ArmOf(i.e) == NoArm then None
    else Some(Mark(i.e.payload.slot, ArmOf(i.e) == ConfirmedArm, i.e.ts))
  }

  /** The arrivals that count for drift. */
  function DriftMarks(ep: EndpointRole, t: seq<Input>): seq<Mark> {
    if t == [] then []
    else
      var before := DriftMarks(ep, t[..|t| - 1]);
      match MarkOf(ep, t[|t| - 1])
      case None => before
      case Some(m) => before + [m]
  }

  predicate Has(h: seq<Mark>, confirmed: bool) {
    exists i :: 0 <= i < |h| && h[i].confirmed == confirmed
  }

  /** The earliest arrival of one kind. */
  function First(h: seq<Mark>, confirmed: bool): Timestamp
    requires Has(h, confirmed)
  {
    if h[0].confirmed == confirmed then h[0].ts else First(h[1..], confirmed)
  }

  /** A slot's arrivals since it was last paired; both kinds together complete a pair. */
  function Since(ms: seq<Mark>, slot: U64): seq<Mark> {
    if ms == [] then []
    else
      var before, m := Since(ms[..|ms| - 1], slot), ms[|ms| - 1];
      if m.slot != slot then before
      else if Has(before + [m], true) && Has(before + [m], false) then []
      else before + [m]
  }

  /** One drift for each completed pair: first confirmed minus first processed, not below 0. */
  function Drifts(ms: seq<Mark>): seq<nat> {
    if ms == [] then []
    else
      var before, m := Drifts(ms[..|ms| - 1]), ms[|ms| - 1];
      var h := Since(ms[..|ms| - 1], m.slot) + [m];
      if Has(h, true) && Has(h, false) then before + [NonNegative(DeltaNs(First(h, false), First(h, true)))] else before
  }

  ghost predicate HoldsFirst(arrivals: map<U64, Timestamp>, h: seq<Mark>, slot: U64, confirmed: bool) {
    if Has(h, confirmed) then slot in arrivals && arrivals[slot] == First(h, confirmed) else slot !in arrivals
  }

  ghost predicate TracksDrift(s: DriftState, ms: seq<Mark>) {
    && (forall slot: U64 :: HoldsFirst(s.processed, Since(ms, slot), slot, false))
    && (forall slot: U64 :: HoldsFirst(s.confirmed, Since(ms, slot), slot, true))
    && s.processed.Keys !! s.confirmed.Keys
    && s.drift.digest.All() == multiset(Drifts(ms))
  }

  lemma {:induction false} FirstSnoc(h: seq<Mark>, m: Mark, confirmed: bool)
    ensures Has(h + [m], confirmed) <==> Has(h, confirmed) || m.confirmed == confirmed
    ensures Has(h, confirmed) ==> First(h + [m], confirmed) == First(h, confirmed)
    ensures !Has(h, confirmed) && m.confirmed == confirmed ==> First(h + [m], confirmed) == m.ts
  {
    var h' := h + [m];
    assert h'[|h|] == m && forall i :: 0 <= i < |h| ==> h'[i] == h[i];
    if Has(h, confirmed) {
      var i :| 0 <= i < |h| && h[i].confirmed == confirmed;
      assert h'[i].confirmed == confirmed;
    }
    if h != [] {
      assert h'[1..] == h[1..] + [m];
      FirstSnoc(h[1..], m, confirmed);
      if h[0].confirmed != confirmed {
        assert Has(h, confirmed) <==> Has(h[1..], confirmed) by {
          assert forall i :: 0 <= i < |h| - 1 ==> h[1..][i] == h[i + 1];
          if Has(h, confirmed) {
            var i :| 0 <= i < |h| && h[i].confirmed == confirmed;
            assert h[1..][i - 1].confirmed == confirmed;
          }
        }
      }
    }
  }

  /** A slot that does not have both kinds waiting never will have until it is paired. */
  lemma {:induction false} SinceNeverBoth(ms: seq<Mark>, slot: U64)
    ensures !(Has(Since(ms, slot), true) && Has(Since(ms, slot), false))
  {
    if ms != [] {
      SinceNeverBoth(ms[..|ms| - 1], slot);
    }
  }

  function NoteMark(s: DriftState, m: Mark): DriftState {
    if m.confirmed then NoteConfirmed(s, m.slot, m.ts) else NoteProcessed(s, m.slot, m.ts)
  }

  lemma SinceSnoc(ms: seq<Mark>, m: Mark, slot: U64)
    ensures Since(ms + [m], slot) == if m.slot != slot then Since(ms, slot)
                                     else var h := Since(ms, slot) + [m];
                                          if Has(h, true) && Has(h, false) then [] else h
    ensures Drifts(ms + [m]) == var h := Since(ms, m.slot) + [m];
                                if Has(h, true) && Has(h, false)
                                then Drifts(ms) + [NonNegative(DeltaNs(First(h, false), First(h, true)))] else Drifts(ms)
  {
    assert (ms + [m])[..|ms|] == ms;
  }

  /** What one mark does to its own slot's two entries. */
  lemma NoteMarkOwnSlot(s: DriftState, ms: seq<Mark>, m: Mark)
    requires TracksDrift(s, ms)
    ensures var s', h := NoteMark(s, m), Since(ms + [m], m.slot);
            HoldsFirst(s'.processed, h, m.slot, false) && HoldsFirst(s'.confirmed, h, m.slot, true)
  {
    var h := Since(ms, m.slot);
    SinceSnoc(ms, m, m.slot);
    SinceNeverBoth(ms, m.slot);
    FirstSnoc(h, m, true);
    FirstSnoc(h, m, false);
    assert HoldsFirst(s.processed, h, m.slot, false) && HoldsFirst(s.confirmed, h, m.slot, true);
    assert !Has([], true) && !Has([], false);
  }

  lemma NoteMarkOtherSlots(s: DriftState, m: Mark, slot: U64)
    requires slot != m.slot
    ensures var s' := NoteMark(s, m);
            && (slot in s'.processed <==> slot in s.processed) && (slot in s.processed ==> s'.processed[slot] == s.processed[slot])
            && (slot in s'.confirmed <==> slot in s.confirmed) && (slot in s.confirmed ==> s'.confirmed[slot] == s.confirmed[slot])
  {
  }

  /** The recorded drift is between the two first arrivals, although one of them is read from
      the event itself. */
  lemma NoteMarkDrift(s: DriftState, ms: seq<Mark>, m: Mark)
    requires TracksDrift(s, ms)
    ensures NoteMark(s, m).drift.digest.All() == multiset(Drifts(ms + [m]))
    ensures NoteMark(s, m).processed.Keys !! NoteMark(s, m).confirmed.Keys
  {
    var h := Since(ms, m.slot);
    SinceSnoc(ms, m, m.slot);
    SinceNeverBoth(ms, m.slot);
    FirstSnoc(h, m, true);
    FirstSnoc(h, m, false);
    assert HoldsFirst(s.processed, h, m.slot, false) && HoldsFirst(s.confirmed, h, m.slot, true);
    if Has(h + [m], true) && Has(h + [m], false) {
      var d := NonNegative(DeltaNs(First(h + [m], false), First(h + [m], true)));
      PushAddsSample(s.drift.digest, d);
      assert multiset(Drifts(ms) + [d]) == multiset(Drifts(ms)) + multiset{d};
    }
  }

  lemma NoteMarkTracks(s: DriftState, ms: seq<Mark>, m: Mark)
    requires TracksDrift(s, ms)
    ensures TracksDrift(NoteMark(s, m), ms + [m])
  {
    var s', ms' := NoteMark(s, m), ms + [m];
    NoteMarkDrift(s, ms, m);
    NoteMarkOwnSlot(s, ms, m);
    forall slot: U64
      ensures HoldsFirst(s'.processed, Since(ms', slot), slot, false) && HoldsFirst(s'.confirmed, Since(ms', slot), slot, true)
    {
      if slot != m.slot {
        SinceSnoc(ms, m, slot);
        NoteMarkOtherSlots(s, m, slot);
        assert HoldsFirst(s.processed, Since(ms, slot), slot, false) && HoldsFirst(s.confirmed, Since(ms, slot), slot, true);
      }
    }
  }

  lemma StepDrift(ep: EndpointRole, s: Tracker, i: Input)
    ensures Step(ep, s, i).drift == match MarkOf(ep, i) case None => s.drift case Some(m) => NoteMark(s.drift, m)
  {
  }

  /** Over every run the two arrival maps stay disjoint, each holds the first arrival of its
      kind since the slot was last paired, and the drift samples pair exactly those. */
  lemma {:induction false} DriftLaws(ep: EndpointRole, t: seq<Input>)
    ensures TracksDrift(Run(ep, t).drift, DriftMarks(ep, t))
  {
    if t == [] {
      assert forall slot: U64 :: Since([], slot) == [];
      assert !Has([], true) && !Has([], false);
    } else {
      var n := |t| - 1;
      DriftLaws(ep, t[..n]);
      StepDrift(ep, Run(ep, t[..n]), t[n]);
      match MarkOf(ep, t[n])
      case None =>
      case Some(m) => NoteMarkTracks(Run(ep, t[..n]).drift, DriftMarks(ep, t[..n]), m);
    }
  }

  // ----- when there is any drift to record -----

  ghost predicate Arrived(ms: seq<Mark>, slot: U64, confirmed: bool) {
    exists i :: 0 <= i < |ms| && ms[i].slot == slot && ms[i].confirmed == confirmed
  }

  /** Some slot arrives both ways. */
  ghost predicate BothWays(ms: seq<Mark>) {
    exists i, j :: 0 <= i < |ms| && 0 <= j < |ms| && ms[i].slot == ms[j].slot && !ms[i].confirmed && ms[j].confirmed
  }

  lemma ArrivedSnoc(ms: seq<Mark>, m: Mark, slot: U64, confirmed: bool)
    ensures Arrived(ms + [m], slot, confirmed) <==> Arrived(ms, slot, confirmed) || (m.slot == slot && m.confirmed == confirmed)
  {
    var ms' := ms + [m];
    assert ms'[|ms|] == m && forall i :: 0 <= i < |ms| ==> ms'[i] == ms[i];
    if Arrived(ms, slot, confirmed) {
      var i :| 0 <= i < |ms| && ms[i].slot == slot && ms[i].confirmed == confirmed;
      assert ms'[i].slot == slot;
    }
  }

  lemma HasSnoc(h: seq<Mark>, m: Mark, confirmed: bool)
    ensures Has(h + [m], confirmed) <==> Has(h, confirmed) || m.confirmed == confirmed
  {
    FirstSnoc(h, m, confirmed);
  }

  /** As long as nothing was paired, a slot's arrivals are all still waiting. */
  lemma {:induction false} UnpairedAllWait(ms: seq<Mark>, slot: U64, confirmed: bool)
    requires Drifts(ms) == []
    ensures Has(Since(ms, slot), confirmed) <==> Arrived(ms, slot, confirmed)
  {
    if ms != [] {
      var n := |ms| - 1;
      var before, m := ms[..n], ms[n];
      assert ms == before + [m];
      SinceSnoc(before, m, slot);
      ArrivedSnoc(before, m, slot, confirmed);
      HasSnoc(Since(before, slot), m, confirmed);
      UnpairedAllWait(before, slot, confirmed);
    }
  }

  lemma BothWaysArrived(ms: seq<Mark>)
    ensures BothWays(ms) <==> exists slot: U64 :: Arrived(ms, slot, false) && Arrived(ms, slot, true)
  {
    if BothWays(ms) {
      var i, j :| 0 <= i < |ms| && 0 <= j < |ms| && ms[i].slot == ms[j].slot && !ms[i].confirmed && ms[j].confirmed;
      assert Arrived(ms, ms[i].slot, false) && Arrived(ms, ms[i].slot, true);
    }
    if slot: U64 :| Arrived(ms, slot, false) && Arrived(ms, slot, true) {
      var i :| 0 <= i < |ms| && ms[i].slot == slot && !ms[i].confirmed;
      var j :| 0 <= j < |ms| && ms[j].slot == slot && ms[j].confirmed;
    }
  }

  /** The first drift completes a slot that has arrived both ways. */
  lemma {:induction false} DriftNeedsBoth(ms: seq<Mark>)
    requires Drifts(ms) != []
    ensures BothWays(ms)
  {
    var n := |ms| - 1;
    var before, m := ms[..n], ms[n];
    assert ms == before + [m];
    BothWaysArrived(ms);
    BothWaysArrived(before);
    forall slot: U64, c: bool { ArrivedSnoc(before, m, slot, c); }
    if Drifts(before) != [] {
      DriftNeedsBoth(before);
    } else {
      SinceSnoc(before, m, m.slot);
      UnpairedAllWait(before, m.slot, true);
      UnpairedAllWait(before, m.slot, false);
      HasSnoc(Since(before, m.slot), m, true);
      HasSnoc(Since(before, m.slot), m, false);
    }
  }

  /** There is a drift sample exactly when some slot arrives both ways. */
  lemma DriftsExactlyWhen(ms: seq<Mark>)
    ensures Drifts(ms) != [] <==> BothWays(ms)
  {
    if Drifts(ms) != [] {
      DriftNeedsBoth(ms);
    } else {
      BothWaysArrived(ms);
      forall slot: U64 ensures !(Arrived(ms, slot, false) && Arrived(ms, slot, true)) {
        UnpairedAllWait(ms, slot, true);
        UnpairedAllWait(ms, slot, false);
        SinceNeverBoth(ms, slot);
      }
    }
  }

  /** A run without drift samples keeps every arrival for ever. */
  lemma WithoutDriftsAllWait(ep: EndpointRole, t: seq<Input>)
    requires Drifts(DriftMarks(ep, t)) == []
    ensures var s := Run(ep, t).drift;
            && s.drift.digest.All() == multiset{}
            && (forall slot: U64 :: slot in s.processed <==> Arrived(DriftMarks(ep, t), slot, false))
            && (forall slot: U64 :: slot in s.confirmed <==> Arrived(DriftMarks(ep, t), slot, true))
  {
    DriftLaws(ep, t);
    var s, ms := Run(ep, t).drift, DriftMarks(ep, t);
    forall slot: U64
      ensures slot in s.processed <==> Arrived(ms, slot, false)
      ensures slot in s.confirmed <==> Arrived(ms, slot, true)
    {
      UnpairedAllWait(ms, slot, false);
      UnpairedAllWait(ms, slot, true);
      assert HoldsFirst(s.processed, Since(ms, slot), slot, false) && HoldsFirst(s.confirmed, Since(ms, slot), slot, true);
    }
  }

  // ----- the drift on events -----

  /** The endpoint's slot update at the stage, on a main subscription of the commitment. */
  predicate Shows(ep: EndpointRole, i: Input, stage: SlotStage, commitment: Commitment, slot: U64) {
    && i.See? && i.e.subscription.Main? && i.e.subscription.ep == ep && i.e.subscription.commitment == commitment
    && i.e.payload.SlotUpdate? && i.e.payload.stage == stage && i.e.payload.slot == slot
  }

  /** The event is the arrival `m`: a processed stage at processed commitment, or a confirmed
      stage at confirmed commitment. */
  predicate IsArrival(ep: EndpointRole, i: Input, m: Mark) {
    && i.See? && i.e.ts == m.ts
    && (if m.confirmed then Shows(ep, i, StageConfirmed, Confirmed, m.slot) else Shows(ep, i, StageProcessed, Processed, m.slot))
  }

  /** The arrivals that count for drift are exactly those events. */
  lemma {:induction false} MarksExactly(ep: EndpointRole, t: seq<Input>, m: Mark)
    ensures m in DriftMarks(ep, t) <==> exists k :: 0 <= k < |t| && IsArrival(ep, t[k], m)
  {
    if t != [] {
      var n := |t| - 1;
      var before := t[..n];
      MarksExactly(ep, before, m);
      assert MarkOf(ep, t[n]) == Some(m) <==> IsArrival(ep, t[n], m);
      assert forall k :: 0 <= k < n ==> before[k] == t[k];
    }
  }

  /** One slot was seen both processed at processed commitment and confirmed at confirmed
      commitment. */
  ghost predicate SeenBothWays(ep: EndpointRole, t: seq<Input>, slot: U64) {
    && (exists i :: 0 <= i < |t| && Shows(ep, t[i], StageProcessed, Processed, slot))
    && (exists j :: 0 <= j < |t| && Shows(ep, t[j], StageConfirmed, Confirmed, slot))
  }

  lemma ArrivedExactly(ep: EndpointRole, t: seq<Input>, slot: U64)
    ensures Arrived(DriftMarks(ep, t), slot, false) <==> exists i :: 0 <= i < |t| && Shows(ep, t[i], StageProcessed, Processed, slot)
    ensures Arrived(DriftMarks(ep, t), slot, true) <==> exists j :: 0 <= j < |t| && Shows(ep, t[j], StageConfirmed, Confirmed, slot)
  {
    var ms := DriftMarks(ep, t);
    forall i | 0 <= i < |ms| ensures exists k :: 0 <= k < |t| && IsArrival(ep, t[k], ms[i]) {
      MarksExactly(ep, t, ms[i]);
      assert ms[i] in ms;
    }
    forall k | 0 <= k < |t| && Shows(ep, t[k], StageProcessed, Processed, slot) ensures Arrived(ms, slot, false) {
      MarksExactly(ep, t, Mark(slot, false, t[k].e.ts));
      assert IsArrival(ep, t[k], Mark(slot, false, t[k].e.ts));
    }
    forall k | 0 <= k < |t| && Shows(ep, t[k], StageConfirmed, Confirmed, slot) ensures Arrived(ms, slot, true) {
      MarksExactly(ep, t, Mark(slot, true, t[k].e.ts));
      assert IsArrival(ep, t[k], Mark(slot, true, t[k].e.ts));
    }
  }

  /** There is a drift sample exactly when some slot was seen both ways. */
  lemma DriftNeedsBothStages(ep: EndpointRole, t: seq<Input>)
    ensures Run(ep, t).drift.drift.digest.All() != multiset{} <==> exists slot: U64 :: SeenBothWays(ep, t, slot)
  {
    var ms := DriftMarks(ep, t);
    DriftLaws(ep, t);
    DriftsExactlyWhen(ms);
    BothWaysArrived(ms);
    if Drifts(ms) != [] {
      assert Drifts(ms)[0] in multiset(Drifts(ms));
    }
    forall slot: U64 ensures SeenBothWays(ep, t, slot) <==> Arrived(ms, slot, false) && Arrived(ms, slot, true) {
      ArrivedExactly(ep, t, slot);
    }
  }

  // ----- time to first message after a reconnect -----

  /** Reconnects and the endpoint's own events. */
  function Relevant(ep: EndpointRole, t: seq<Input>): seq<Input> {
    if t == [] then []
    else
      var before, i := Relevant(ep, t[..|t| - 1]), t[|t| - 1];
      if i.Reconnected? || i.e.subscription.ep == ep then before + [i] else before
  }

  /** One sample for each event that directly follows a reconnect. */
  function FirstMessages(rel: seq<Input>): seq<nat> {
    if |rel| <= 1 then []
    else
      var before, prev, last := FirstMessages(rel[..|rel| - 1]), rel[|rel| - 2], rel[|rel| - 1];
      if prev.Reconnected? && last.See?
      then before + [NonNegative(DeltaNs(Timestamp(prev.monoNs, 0), last.e.ts))] else before
  }

  ghost predicate TracksReconnects(pending: Option<U64>, ttfm: Distribution, rel: seq<Input>) {
    && pending == (if rel != [] && rel[|rel| - 1].Reconnected? then Some(rel[|rel| - 1].monoNs) else None)
    && ttfm.digest.All() == multiset(FirstMessages(rel))
    && IsMax(ttfm.max, FirstMessages(rel))
  }

  lemma FirstMessagesSnoc(rel: seq<Input>, i: Input)
    ensures FirstMessages(rel + [i])
            == if rel != [] && rel[|rel| - 1].Reconnected? && i.See?
               then FirstMessages(rel) + [NonNegative(DeltaNs(Timestamp(rel[|rel| - 1].monoNs, 0), i.e.ts))]
               else FirstMessages(rel)
  {
    assert (rel + [i])[..|rel|] == rel;
  }

  /** What a step does to the two reconnect fields. */
  lemma StepReconnect(ep: EndpointRole, s: Tracker, i: Input)
    ensures var s' := Step(ep, s, i);
            match i
            case Reconnected(at) => s'.pendingReconnect == Some(at) && s'.ttfm == s.ttfm
            case See(e) =>
              if e.subscription.ep != ep || s.pendingReconnect == None
              then s'.pendingReconnect == s.pendingReconnect && s'.ttfm == s.ttfm
              else && s'.pendingReconnect == None
                   && s'.ttfm == s.ttfm.Push(NonNegative(DeltaNs(Timestamp(s.pendingReconnect.value, 0), e.ts)))
  {
  }

  lemma RelevantStep(ep: EndpointRole, s: Tracker, rel: seq<Input>, i: Input)
    requires TracksReconnects(s.pendingReconnect, s.ttfm, rel) && (i.Reconnected? || i.e.subscription.ep == ep)
    ensures var s' := Step(ep, s, i); TracksReconnects(s'.pendingReconnect, s'.ttfm, rel + [i])
  {
    StepReconnect(ep, s, i);
    FirstMessagesSnoc(rel, i);
    if i.See? && s.pendingReconnect.Some? {
      var x := NonNegative(DeltaNs(Timestamp(s.pendingReconnect.value, 0), i.e.ts));
      PushAddsSample(s.ttfm.digest, x);
      MaxGrows(s.ttfm.max, FirstMessages(rel), x);
    }
  }

  /** Over every run, a reconnect is timed by the first event after it and by no other, and a
      reconnect that is followed by another before any event is not timed at all; the maximum is
      that of the samples. */
  lemma {:induction false} ReconnectLaws(ep: EndpointRole, t: seq<Input>)
    ensures TracksReconnects(Run(ep, t).pendingReconnect, Run(ep, t).ttfm, Relevant(ep, t))
  {
    if t != [] {
      var n := |t| - 1;
      ReconnectLaws(ep, t[..n]);
      StepReconnect(ep, Run(ep, t[..n]), t[n]);
      if t[n].Reconnected? || t[n].e.subscription.ep == ep {
        RelevantStep(ep, Run(ep, t[..n]), Relevant(ep, t[..n]), t[n]);
      }
    }
  }

  // ----- the mutable tracker -----

  class StabilityTracker {
    const endpoint: EndpointRole
    var lastSlotTs: Option<Timestamp>
    var slotGaps: Distribution
    var stalls: seq<Stall>
    var processedArrivals: map<U64, Timestamp>
    var confirmedArrivals: map<U64, Timestamp>
    var driftDigest: Distribution
    var reconnectTtfm: Distribution
    var pendingReconnect: Option<U64>
    ghost var history: seq<Input>

    ghost function View(): Tracker
      reads this
    {
      Tracker(GapState(lastSlotTs, slotGaps, stalls), DriftState(processedArrivals, confirmedArrivals, driftDigest),
              reconnectTtfm, pendingReconnect)
    }

    ghost predicate Valid()
      reads this
    {
      View() == Run(endpoint, history)
    }

    constructor (endpoint: EndpointRole)
      ensures Valid() && history == [] && this.endpoint == endpoint
    {
      this.endpoint := endpoint;
      lastSlotTs, slotGaps, stalls := None, NO_SAMPLES, [];
      processedArrivals, confirmedArrivals, driftDigest := map[], map[], NO_SAMPLES;
      reconnectTtfm, pendingReconnect, history := NO_SAMPLES, None, [];
    }

    method RecordReconnect(monoNs: U64)
      requires Valid()
      modifies this
      ensures Valid() && history == old(history) + [Reconnected(monoNs)]
    {
      history := history + [Reconnected(monoNs)];
      assert history[..|history| - 1] == old(history);
      pendingReconnect := Some(monoNs);
    }

    method Observe(e: Event)
      requires Valid()
      modifies this
      ensures Valid() && history == old(history) + [See(e)]
    {
      history := history + [See(e)];
      assert history[..|history| - 1] == old(history);
      if e.subscription.ep != endpoint {
        return;
      }
      if pendingReconnect.Some? {
        var ttfm := ClampI64(e.ts.monoNs) - ClampI64(pendingReconnect.value);
        reconnectTtfm, pendingReconnect := reconnectTtfm.Push(if ttfm > 0 then ttfm else 0), None;
      }
      if !e.payload.SlotUpdate? {
        return;
      }
      ObserveGap(e.ts);
      ObserveDrift(e);
    }

    method ObserveGap(ts: Timestamp)
      modifies this`lastSlotTs, this`slotGaps, this`stalls
      ensures View().gap == NoteGap(old(View().gap), ts)
    {
      if lastSlotTs.Some? {
        var gap := ClampI64(ts.monoNs) - ClampI64(lastSlotTs.value.monoNs);
        if gap < 0 {
          gap := 0;
        }
        slotGaps := slotGaps.Push(gap);
        if gap > STALL_THRESHOLD_NS {
          stalls := stalls + [Stall(ts.wallMs, gap)];
        }
      }
      lastSlotTs := Some(ts);
    }

    method ObserveDrift(e: Event)
      requires e.payload.SlotUpdate?
      modifies this`processedArrivals, this`confirmedArrivals, this`driftDigest
      ensures View().drift == NoteArm(old(View().drift), e)
    {
      var slot := e.payload.slot;
      match ArmOf(e) {
        case ProcessedArm =>
          processedArrivals := OrInsert(processedArrivals, slot, e.ts);
          if slot in confirmedArrivals {
            var c := confirmedArrivals[slot];
            confirmedArrivals := confirmedArrivals - {slot};
            driftDigest := driftDigest.Push(NonNegative(DeltaNs(e.ts, c)));
            processedArrivals := processedArrivals - {slot};
          }
        case ConfirmedArm =>
          confirmedArrivals := OrInsert(confirmedArrivals, slot, e.ts);
          if slot in processedArrivals {
            var p := processedArrivals[slot];
            processedArrivals := processedArrivals - {slot};
            driftDigest := driftDigest.Push(NonNegative(DeltaNs(p, e.ts)));
            confirmedArrivals := confirmedArrivals - {slot};
          }
        case NoArm =>
      }
    }
  }
}
