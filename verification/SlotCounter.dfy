/** The counter behind the slot-based stop condition: what it counts, and when that is the
    number of distinct slots. */
module SlotCounter {
  import opened Types
  import opened Pipeline

  /** Slots of endpoint one's Processed updates, in dispatch order. */
  function CountedSlots(log: seq<Event>): seq<nat> {
    if log == [] then []
    else
      var n := |log| - 1;
      var before, e := CountedSlots(log[..n]), log[n];
      if e.payload.SlotUpdate? && e.subscription.ep == One && e.payload.stage == StageProcessed
      then before + [e.payload.slot] else before
  }

  /** The slot is above 0 and above every slot before it. */
  predicate IsRecord(t: seq<nat>, i: nat)
    requires i < |t|
  {
    t[i] > 0 && forall j :: 0 <= j < i ==> t[j] < t[i]
  }

  function Records(t: seq<nat>): set<nat> {
    set i | 0 <= i < |t| && IsRecord(t, i)
  }

  function Distinct(t: seq<nat>): set<nat> {
    set s | s in t
  }

  predicate NewMax(t: seq<nat>, x: nat) {
    x > 0 && forall j :: 0 <= j < |t| ==> t[j] < x
  }

  lemma RecordStable(t: seq<nat>, x: nat, i: nat)
    requires i <= |t|
    ensures IsRecord(t + [x], i) <==> if i < |t| then IsRecord(t, i) else NewMax(t, x)
  {
    var t' := t + [x];
    assert forall j :: 0 <= j < |t| ==> t'[j] == t[j];
  }

  lemma RecordsSnoc(t: seq<nat>, x: nat)
    ensures |Records(t + [x])| == |Records(t)| + (if NewMax(t, x) then 1 else 0)
  {
    forall i | 0 <= i <= |t| { RecordStable(t, x, i); }
    if NewMax(t, x) {
      assert Records(t + [x]) == Records(t) + {|t|};
    } else {
      assert Records(t + [x]) == Records(t);
    }
  }

  lemma DistinctSnoc(t: seq<nat>, x: nat)
    ensures |Distinct(t + [x])| == |Distinct(t)| + (if x in t then 0 else 1)
  {
    if x in t {
      assert Distinct(t + [x]) == Distinct(t);
    } else {
      assert Distinct(t + [x]) == Distinct(t) + {x};
    }
  }

  /** The mark is the highest counted slot, and the total the number of records. */
  lemma {:induction false} CountsRecords(log: seq<Event>)
    ensures var c, t := CountAll(log), CountedSlots(log);
            && c.totalSlots == |Records(t)|
            && (forall j :: 0 <= j < |t| ==> t[j] <= c.lastCountedSlot)
            && (c.lastCountedSlot > 0 ==> c.lastCountedSlot in t)
  {
    if log == [] {
      assert Records([]) == {};
    } else {
      var n := |log| - 1;
      CountsRecords(log[..n]);
      var e, t := log[n], CountedSlots(log[..n]);
      if e.payload.SlotUpdate? && e.subscription.ep == One && e.payload.stage == StageProcessed {
        RecordsSnoc(t, e.payload.slot);
      }
    }
  }

  /** Every slot that appears for the first time is a new maximum. */
  ghost predicate FirstsAreRecords(t: seq<nat>) {
    forall i :: 0 <= i < |t| && t[i] !in t[..i] ==> IsRecord(t, i)
  }

  lemma FirstsSnoc(t: seq<nat>, x: nat)
    ensures FirstsAreRecords(t + [x]) <==> FirstsAreRecords(t) && (x in t || NewMax(t, x))
  {
    var t' := t + [x];
    forall i | 0 <= i <= |t| { RecordStable(t, x, i); }
    assert forall i :: 0 <= i < |t| ==> t'[..i] == t[..i] && t'[i] == t[i];
    assert t'[..|t|] == t && t'[|t|] == x;
  }

  /** Records are at most the distinct slots, and as many exactly when every first appearance
      is a record. */
  lemma {:induction false} RecordsAndDistinct(t: seq<nat>)
    ensures |Records(t)| <= |Distinct(t)|
    ensures |Records(t)| == |Distinct(t)| <==> FirstsAreRecords(t)
  {
    if t == [] {
      assert Records(t) == {} && Distinct(t) == {};
    } else {
      var n := |t| - 1;
      var before, x := t[..n], t[n];
      assert t == before + [x];
      RecordsAndDistinct(before);
      RecordsSnoc(before, x);
      DistinctSnoc(before, x);
      FirstsSnoc(before, x);
    }
  }

  /** Over every run the total never exceeds the distinct slots of endpoint one, and equals
      them exactly when no slot first appears after a higher one, nor is slot 0. */
  lemma TotalSlotsExact(log: seq<Event>)
    ensures var total, t := CountAll(log).totalSlots, CountedSlots(log);
            && total == |Records(t)| <= |Distinct(t)|
            && (total == |Distinct(t)| <==> FirstsAreRecords(t))
  {
    CountsRecords(log);
    RecordsAndDistinct(CountedSlots(log));
  }

  function ProcessedSlot(ts: Timestamp, slot: U64): Event {
    Event(ts, Main(One, Processed, Slots), SlotUpdate(slot, StageProcessed))
  }

  /** A slot that arrives after a higher one is not counted. */
  lemma LateSlotMissed(ts: Timestamp)
    ensures var log := [ProcessedSlot(ts, 2), ProcessedSlot(ts, 1)];
            CountAll(log).totalSlots == 1 && Distinct(CountedSlots(log)) == {1, 2}
  {
    var log := [ProcessedSlot(ts, 2), ProcessedSlot(ts, 1)];
    assert log[..1] == [ProcessedSlot(ts, 2)] && log[..1][..0] == [];
    assert CountAll(log[..1]).totalSlots == 1 && CountAll(log[..1]).lastCountedSlot == 2;
    assert CountedSlots(log[..1]) == [2] && CountedSlots(log) == [2, 1];
  }

  // ----- several subscriptions delivering the same slots -----

  /** How often stream `w` occurs. */
  function Occurrences(who: seq<nat>, w: nat): nat {
    if who == [] then 0 else Occurrences(who[..|who| - 1], w) + (if who[|who| - 1] == w then 1 else 0)
  }

  /** Stream `who[i]` delivers its next element of the common slot sequence at time i. */
  ghost predicate Interleaves(t: seq<nat>, slots: seq<nat>, who: seq<nat>) {
    && |who| == |t|
    && forall i :: 0 <= i < |t| ==>
         Occurrences(who[..i], who[i]) < |slots| && t[i] == slots[Occurrences(who[..i], who[i])]
  }

  ghost predicate Delivers(who: seq<nat>, w: nat, at: int, b: nat) {
    0 <= at < |who| && who[at] == w && Occurrences(who[..at], w) == b
  }

  lemma {:induction false} DeliveredEarlier(who: seq<nat>, n: nat, w: nat, b: nat)
    requires n <= |who| && Occurrences(who[..n], w) > b
    ensures exists at :: at < n && Delivers(who, w, at, b)
  {
    assert who[..n][..n - 1] == who[..n - 1];
    if Occurrences(who[..n - 1], w) > b {
      DeliveredEarlier(who, n - 1, w, b);
    } else {
      assert Delivers(who, w, n - 1, b);
    }
  }

  ghost predicate Nondecreasing(slots: seq<nat>) {
    forall i, j :: 0 <= i <= j < |slots| ==> slots[i] <= slots[j]
  }

  /** A stream that is ahead has already delivered everything before its position. */
  lemma EarlierIsLower(t: seq<nat>, slots: seq<nat>, who: seq<nat>, j: nat, i: nat)
    requires Nondecreasing(slots) && Interleaves(t, slots, who)
    requires j < i < |t| && t[i] !in t[..i]
    ensures t[j] < t[i]
  {
    var a, b := Occurrences(who[..j], who[j]), Occurrences(who[..i], who[i]);
    assert t[j] == slots[a] && t[i] == slots[b];
    assert t[..i][j] == t[j];
    if a > b {
      DeliveredEarlier(who, j, who[j], b);
      assert false;
    }
  }

  lemma InterleavingFirsts(t: seq<nat>, slots: seq<nat>, who: seq<nat>)
    requires Nondecreasing(slots) && (forall i :: 0 <= i < |slots| ==> slots[i] > 0)
    requires Interleaves(t, slots, who)
    ensures FirstsAreRecords(t)
  {
    forall i | 0 <= i < |t| && t[i] !in t[..i] ensures IsRecord(t, i) {
      forall j | 0 <= j < i ensures t[j] < t[i] {
        EarlierIsLower(t, slots, who, j, i);
      }
    }
  }

  /** Prefixes of one nondecreasing positive slot sequence, interleaved in any way by any number
      of streams, are counted once per distinct slot. */
  lemma InterleavedSlotsCountedOnce(log: seq<Event>, slots: seq<nat>, who: seq<nat>)
    requires Nondecreasing(slots) && (forall i :: 0 <= i < |slots| ==> slots[i] > 0)
    requires Interleaves(CountedSlots(log), slots, who)
    ensures CountAll(log).totalSlots == |Distinct(CountedSlots(log))|
  {
    InterleavingFirsts(CountedSlots(log), slots, who);
    TotalSlotsExact(log);
  }
}
