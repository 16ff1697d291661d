/** The retry loop of one receiver: three places where an error can occur share one counter of
    identical consecutive errors, and five of them end the subscription. */
module Receiver {
  import opened Types

  const MAX_SAME_ERROR: nat := 5

  /** Where the loop stands, waiting for the outcome of the call it just made. */
  datatype Phase = Connecting | Opening | Streaming | GaveUp | ShutDown

  /** What that call may come back with. */
  datatype Outcome =
    | ShutdownSeen
    | ConnectOk | ConnectErr(text: string)
    | OpenOk | OpenErr(text: string)
    | StreamEnd | PollTimeout | Decoded(e: Event) | Skipped | DecodeErr | StreamErr(text: string)

  datatype State = State(phase: Phase, lastError: Option<string>, sameErrors: nat,
                         sent: seq<Event>, decodeErrors: nat, disconnects: nat)

  const START := State(Connecting, None, 0, [], 0, 0)

  /** The outcomes possible in each phase. The shutdown flag is looked at before connecting and
      before each poll of the stream, not between connecting and opening. */
  predicate Fits(p: Phase, o: Outcome) {
    match p
    case Connecting => o.ShutdownSeen? || o.ConnectOk? || o.ConnectErr?
    case Opening => o.OpenOk? || o.OpenErr?
    case Streaming => o.ShutdownSeen? || o.StreamEnd? || o.PollTimeout? || o.Decoded? || o.Skipped? || o.DecodeErr? || o.StreamErr?
    case GaveUp => false
    case ShutDown => false
  }

  /** The coalescing block, the same at all three error sites. */
  function NoteError(s: State, text: string): State {
    var noted := if s.lastError == Some(text) then s.(sameErrors := s.sameErrors + 1)
                 else s.(lastError := Some(text), sameErrors := 1);
    noted.(phase := if noted.sameErrors >= MAX_SAME_ERROR then GaveUp else Connecting)
  }

  function Step(s: State, o: Outcome): State
    requires Fits(s.phase, o)
  {
    match o
    case ShutdownSeen => s.(phase := ShutDown)
    case ConnectOk => s.(phase := Opening)
    case ConnectErr(text) => NoteError(s, text)
    case OpenOk => s.(phase := Streaming)
    case OpenErr(text) => NoteError(s, text)
    case StreamEnd => s.(phase := Connecting)
    case PollTimeout => s
    case Decoded(e) => s.(lastError := None, sameErrors := 0, sent := s.sent + [e])
    case Skipped => s
    case DecodeErr => s.(decodeErrors := s.decodeErrors + 1)
    case StreamErr(text) => NoteError(s.(disconnects := s.disconnects + 1), text)
  }

  /** The state after a history, if the history is one the loop can have. */
  function Replay(h: seq<Outcome>): Option<State> {
    if h == [] then Some(START)
    else
      var n := |h| - 1;
      match Replay(h[..n])
      case None => None
      case Some(s) => if Fits(s.phase, h[n]) then Some(Step(s, h[n])) else None
  }

  // ----- what the counter means, in terms of the history alone -----

  /** Errors with their text, and decoded events as None; everything else is left out. */
  function Marks(h: seq<Outcome>): seq<Option<string>> {
    if h == [] then []
    else
      var before := Marks(h[..|h| - 1]);
      match h[|h| - 1]
      case ConnectErr(text) => before + [Some(text)]
      case OpenErr(text) => before + [Some(text)]
      case StreamErr(text) => before + [Some(text)]
      case Decoded(_) => before + [None]
      case _ => before
  }

  /** The history ends in `n` identical errors, with no other error and no decoded event
      between them. */
  ghost predicate EndsInSame(marks: seq<Option<string>>, n: nat) {
    && n <= |marks|
    && (forall i :: |marks| - n <= i < |marks| ==> marks[i].Some?)
    && (forall i :: |marks| - n <= i < |marks| ==> marks[i] == marks[|marks| - 1])
  }

  function DecodedEvents(h: seq<Outcome>): seq<Event> {
    if h == [] then []
    else
      var before := DecodedEvents(h[..|h| - 1]);
      if h[|h| - 1].Decoded? then before + [h[|h| - 1].e] else before
  }

  /** How many outcomes of the history satisfy `p`. */
  function Times(h: seq<Outcome>, p: Outcome -> bool): nat {
    if h == [] then 0 else Times(h[..|h| - 1], p) + (if p(h[|h| - 1]) then 1 else 0)
  }

  function StreamErrors(h: seq<Outcome>): nat {
    Times(h, (o: Outcome) => o.StreamErr?)
  }

  function DecodeErrors(h: seq<Outcome>): nat {
    Times(h, (o: Outcome) => o.DecodeErr?)
  }

  /** `n` is the length of the longest run of identical errors that ends the history. */
  ghost predicate TrailingRun(marks: seq<Option<string>>, n: nat) {
    EndsInSame(marks, n) && !EndsInSame(marks, n + 1)
  }

  lemma TrailingRunDecides(marks: seq<Option<string>>, n: nat, k: nat)
    requires TrailingRun(marks, n)
    ensures EndsInSame(marks, k) <==> k <= n
  {
    if k > n && EndsInSame(marks, k) {
      assert EndsInSame(marks, n + 1);
    }
  }

  lemma TrailingAfterError(marks: seq<Option<string>>, n: nat, text: string)
    requires TrailingRun(marks, n)
    ensures var same := n > 0 && marks[|marks| - 1] == Some(text);
            TrailingRun(marks + [Some(text)], if same then n + 1 else 1)
  {
    var marks' := marks + [Some(text)];
    var same := n > 0 && marks[|marks| - 1] == Some(text);
    if same {
      assert EndsInSame(marks', n + 1);
      if EndsInSame(marks', n + 2) {
        forall i | |marks| - (n + 1) <= i < |marks| ensures marks[i] == Some(text) {
          assert marks'[i] == marks[i];
        }
        assert EndsInSame(marks, n + 1);
      }
    } else if EndsInSame(marks', 2) {
      var i := |marks| - 1;
      assert marks'[i] == marks[i] && marks'[i] == Some(text);
      assert EndsInSame(marks, 1);
    }
  }

  ghost predicate Tracks(h: seq<Outcome>, s: State) {
    && TrailingRun(Marks(h), s.sameErrors)
    && s.lastError == (if s.sameErrors > 0 then Marks(h)[|Marks(h)| - 1] else None)
    && (s.phase == GaveUp <==> s.sameErrors >= MAX_SAME_ERROR)
    && s.sameErrors <= MAX_SAME_ERROR
    && s.sent == DecodedEvents(h)
  }

  ghost predicate CountsErrors(h: seq<Outcome>, s: State) {
    s.disconnects == StreamErrors(h) && s.decodeErrors == DecodeErrors(h)
  }

  function MarkOf(o: Outcome): seq<Option<string>> {
    match o
    case ConnectErr(text) => [Some(text)]
    case OpenErr(text) => [Some(text)]
    case StreamErr(text) => [Some(text)]
    case Decoded(_) => [None]
    case _ => []
  }

  lemma HistorySnoc(h: seq<Outcome>, o: Outcome)
    ensures Marks(h + [o]) == Marks(h) + MarkOf(o)
    ensures DecodedEvents(h + [o]) == if o.Decoded? then DecodedEvents(h) + [o.e] else DecodedEvents(h)
  {
    assert (h + [o])[..|h|] == h;
  }

  /** Any of the three error sites. */
  lemma ErrorTracks(h: seq<Outcome>, s: State, o: Outcome, text: string)
    requires Tracks(h, s) && s.phase != GaveUp && MarkOf(o) == [Some(text)] && !o.Decoded?
    ensures Tracks(h + [o], NoteError(s, text))
  {
    HistorySnoc(h, o);
    TrailingAfterError(Marks(h), s.sameErrors, text);
  }

  lemma DecodedTracks(h: seq<Outcome>, s: State, e: Event)
    requires Tracks(h, s) && s.phase == Streaming
    ensures Tracks(h + [Decoded(e)], Step(s, Decoded(e)))
  {
    HistorySnoc(h, Decoded(e));
    var marks := Marks(h) + [None];
    assert EndsInSame(marks, 0) && marks[|marks| - 1] == None;
    assert !EndsInSame(marks, 1);
  }

  lemma StepTracks(h: seq<Outcome>, s: State, o: Outcome)
    requires Tracks(h, s) && Fits(s.phase, o)
    ensures Tracks(h + [o], Step(s, o))
  {
    match o
    case ConnectErr(text) => ErrorTracks(h, s, o, text);
    case OpenErr(text) => ErrorTracks(h, s, o, text);
    case StreamErr(text) => ErrorTracks(h, s.(disconnects := s.disconnects + 1), o, text);
    case Decoded(e) => DecodedTracks(h, s, e);
    case _ =>
      HistorySnoc(h, o);
      assert Marks(h) + [] == Marks(h);
  }

  /** The two statistics: a disconnect for each stream error, wherever the loop goes next, and a
      decode error for each undecodable message. */
  lemma {:induction false} ReplayCountsErrors(h: seq<Outcome>)
    requires Replay(h).Some?
    ensures CountsErrors(h, Replay(h).value)
  {
    if h != [] {
      ReplayCountsErrors(h[..|h| - 1]);
    }
  }

  lemma {:induction false} ReplayTracks(h: seq<Outcome>)
    requires Replay(h).Some?
    ensures Tracks(h, Replay(h).value)
  {
    if h != [] {
      var n := |h| - 1;
      ReplayTracks(h[..n]);
      assert h == h[..n] + [h[n]];
      StepTracks(h[..n], Replay(h[..n]).value, h[n]);
    }
  }

  /** In every run the counter is the length of the trailing run of identical errors since the
      last decoded event, it stays below five while the loop runs, and the receiver has given
      up exactly when the run ends in five identical errors, whichever sites they came from.
      What was sent on is exactly what was decoded, and the statistics count exactly the stream
      errors and the decode errors. */
  lemma GiveUpExactly(h: seq<Outcome>)
    requires Replay(h).Some?
    ensures var s := Replay(h).value;
            && TrailingRun(Marks(h), s.sameErrors)
            && (s.phase != GaveUp ==> s.sameErrors < 5)
            && (s.phase == GaveUp <==> EndsInSame(Marks(h), 5))
            && s.sent == DecodedEvents(h)
            && s.disconnects == StreamErrors(h) && s.decodeErrors == DecodeErrors(h)
  {
    ReplayTracks(h);
    ReplayCountsErrors(h);
    TrailingRunDecides(Marks(h), Replay(h).value.sameErrors, MAX_SAME_ERROR);
  }

  // ----- where the loop goes next -----

  predicate IsError(o: Outcome) {
    o.ConnectErr? || o.OpenErr? || o.StreamErr?
  }

  /** The last outcome decides where the loop stands: it shuts down only when told to, and after
      an error or a clean end of the stream it connects again, unless it has given up. */
  lemma PhaseAfter(h: seq<Outcome>)
    requires Replay(h).Some?
    ensures var phase := Replay(h).value.phase;
            if h == [] then phase == Connecting
            else
              var last := h[|h| - 1];
              && (phase == ShutDown <==> last.ShutdownSeen?)
              && (phase == GaveUp <==> IsError(last) && EndsInSame(Marks(h), 5))
              && (phase == Connecting <==> last.StreamEnd? || (IsError(last) && !EndsInSame(Marks(h), 5)))
              && (phase == Opening <==> last.ConnectOk?)
              && (phase == Streaming <==> last.OpenOk? || last.PollTimeout? || last.Decoded? || last.Skipped? || last.DecodeErr?)
  {
    GiveUpExactly(h);
    if h != [] {
      var before, last := h[..|h| - 1], h[|h| - 1];
      GiveUpExactly(before);
      assert Replay(h).value == Step(Replay(before).value, last);
      assert Fits(Replay(before).value.phase, last);
    }
  }

  /** Outcome `i` is possible after what came before it, read off the history alone. */
  ghost predicate Possible(h: seq<Outcome>, i: nat)
    requires i < |h|
  {
    var o := h[i];
    if i == 0 || h[i - 1].StreamEnd? || IsError(h[i - 1]) then
      !EndsInSame(Marks(h[..i]), 5) && (o.ShutdownSeen? || o.ConnectOk? || o.ConnectErr?)
    else if h[i - 1].ConnectOk? then o.OpenOk? || o.OpenErr?
    else
      && !h[i - 1].ShutdownSeen?
      && (o.ShutdownSeen? || o.StreamEnd? || o.PollTimeout? || o.Decoded? || o.Skipped? || o.DecodeErr? || o.StreamErr?)
  }

  lemma PossibleFits(h: seq<Outcome>, o: Outcome)
    requires Replay(h).Some?
    ensures Possible(h + [o], |h|) <==> Fits(Replay(h).value.phase, o)
  {
    PhaseAfter(h);
    GiveUpExactly(h);
    assert (h + [o])[..|h|] == h;
    if h == [] {
      assert !EndsInSame(Marks(h), 5);
    } else {
      assert (h + [o])[|h| - 1] == h[|h| - 1];
      if !IsError(h[|h| - 1]) {
        NoErrorNoRun(h);
      }
    }
  }

  /** After a clean stream end the receiver has not given up, whatever came before. */
  lemma NoErrorNoRun(h: seq<Outcome>)
    requires Replay(h).Some? && h != [] && !IsError(h[|h| - 1])
    ensures !EndsInSame(Marks(h), 5)
  {
    GiveUpExactly(h);
    PhaseAfter(h);
  }

  /** Which histories there are: the loop goes on after every error short of five identical ones,
      and after every clean end, until it is told to shut down. */
  lemma {:induction false} HistoriesExactly(h: seq<Outcome>)
    ensures Replay(h).Some? <==> forall i :: 0 <= i < |h| ==> Possible(h, i)
  {
    if h != [] {
      var n := |h| - 1;
      var before := h[..n];
      assert h == before + [h[n]];
      HistoriesExactly(before);
      forall i | 0 <= i < n ensures Possible(before, i) <==> Possible(h, i) {
        assert before[..i] == h[..i];
      }
      if Replay(before).Some? {
        PossibleFits(before, h[n]);
      }
    }
  }

  // ----- the loop's variables -----

  class RetryLoop {
    var phase: Phase
    var lastErrorText: Option<string>
    var sameErrorCount: nat
    var sent: seq<Event>
    var decodeErrors: nat
    var disconnects: nat
    ghost var history: seq<Outcome>

    ghost function View(): State
      reads this
    {
      State(phase, lastErrorText, sameErrorCount, sent, decodeErrors, disconnects)
    }

    ghost predicate Valid()
      reads this
    {
      Replay(history) == Some(View())
    }

    constructor ()
      ensures Valid() && history == []
    {
      phase, lastErrorText, sameErrorCount := Connecting, None, 0;
      sent, decodeErrors, disconnects, history := [], 0, 0, [];
    }

    method Handle(o: Outcome)
      requires Valid() && Fits(phase, o)
      modifies this
      ensures Valid() && history == old(history) + [o]
    {
      history := history + [o];
      assert history[..|history| - 1] == old(history);
      match o {
        case ShutdownSeen => phase := ShutDown;
        case ConnectOk => phase := Opening;
        case ConnectErr(text) => Note(text);
        case OpenOk => phase := Streaming;
        case OpenErr(text) => Note(text);
        case StreamEnd => phase := Connecting;
        case PollTimeout =>
        case Decoded(e) =>
          lastErrorText, sameErrorCount := None, 0;
          sent := sent + [e];
        case Skipped =>
        case DecodeErr => decodeErrors := decodeErrors + 1;
        case StreamErr(text) =>
          disconnects := disconnects + 1;
          Note(text);
      }
    }

    method Note(text: string)
      modifies this`phase, this`lastErrorText, this`sameErrorCount
      ensures View() == NoteError(old(View()), text)
    {
      if lastErrorText == None || lastErrorText.value != text {
        lastErrorText := Some(text);
        sameErrorCount := 1;
      } else {
        sameErrorCount := sameErrorCount + 1;
      }
      phase := if sameErrorCount >= MAX_SAME_ERROR then GaveUp else Connecting;
    }
  }
}
