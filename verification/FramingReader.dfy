/**
 The reading half of internal/stdio/transport.go: the background goroutine, its two channels and any number of
 concurrent Read calls, as a transition system. A step is one channel operation or one turn of the goroutine.
 */
module FramingReader {
  import opened Prelude
  import opened Jsonrpc
  import opened Framing
  import opened Chunking

  /** The goroutine: between two lines, blocked on an unbuffered send, or on its way out. */
  datatype Phase =
    | Scanning
    | Offering(message: Message)
    | Reporting(failure: Failure)
    | ClosingErr
    | ClosingMsg
    | Gone

  /**
   `lines` are those not yet scanned, `errCh` the one-place buffer of the error channel, `draining` the number of
   Read calls that saw msgCh closed and have not yet looked into errCh. `results` lists what the Read calls returned,
   in the order of their channel operations; None is a call that gave up because its context was cancelled.
   */
  datatype State = State(
    lines: seq<string>, phase: Phase, errCh: Option<Failure>, errClosed: bool, msgClosed: bool,
    draining: nat, results: seq<Option<Outcome>>)

  datatype Step =
    | Turn
    | Report
    | CloseErr
    | CloseMsg
    | Receive
    | TakeError
    | SeeErrClosed
    | SeeMsgClosed
    | Drain
    | GiveUp

  function Start(lines: seq<string>): State {
    State(lines, Scanning, None, false, false, 0, [])
  }

  predicate Enabled(s: State, step: Step) {
    match step
    case Turn => s.phase.Scanning?
    case Report => s.phase.Reporting? && s.errCh.None?
    case CloseErr => s.phase.ClosingErr?
    case CloseMsg => s.phase.ClosingMsg?
    case Receive => s.phase.Offering?
    case TakeError => s.errCh.Some?
    case SeeErrClosed => s.errCh.None? && s.errClosed
    case SeeMsgClosed => s.msgClosed
    case Drain => s.draining > 0
    case GiveUp => true
  }

  function Returns(s: State, o: Outcome): State {
    s.(results := s.results + [Some(o)])
  }

  /** The goroutine's turn: an empty line is skipped, a bad one ends the loop, a message is offered. */
  function Turned(s: State, dec: Decoder, ending: Failure): State {
    if s.lines == [] then s.(phase := Reporting(ending))
    else if s.lines[0] == "" then s.(lines := s.lines[1..])
    else match dec(s.lines[0])
      case None => s.(phase := Reporting(BadLine(s.lines[0])))
      case Some(m) => s.(phase := Offering(m), lines := s.lines[1..])
  }

  function Apply(dec: Decoder, ending: Failure, s: State, step: Step): State
    requires Enabled(s, step)
  {
    match step
    case Turn => Turned(s, dec, ending)
    case Report => s.(errCh := Some(s.phase.failure), phase := ClosingErr)
    case CloseErr => s.(errClosed := true, phase := ClosingMsg)
    case CloseMsg => s.(msgClosed := true, phase := Gone)
    case Receive => Returns(s, Got(s.phase.message)).(phase := Scanning)
    case TakeError => Returns(s, Failed(s.errCh.value)).(errCh := None)
    case SeeErrClosed => Returns(s, Failed(Eof))
    case SeeMsgClosed => s.(draining := s.draining + 1)
    case Drain =>
      var t := s.(draining := s.draining - 1);
      if s.errCh.Some? then Returns(t, Failed(s.errCh.value)).(errCh := None) else Returns(t, Failed(Eof))
    case GiveUp => s.(results := s.results + [None])
  }

  ghost predicate Run(dec: Decoder, ending: Failure, s: State, steps: seq<Step>, end: State)
    decreases |steps|
  {
    if steps == [] then s == end
    else Enabled(s, steps[0]) && Run(dec, ending, Apply(dec, ending, s, steps[0]), steps[1..], end)
  }

  // ---------------------------------------------------------------- what the calls return

  /** The results of the calls that were not cancelled. */
  function Visible(results: seq<Option<Outcome>>): seq<Outcome> {
    if results == [] then []
    else
      var front := Visible(results[..|results| - 1]);
      if results[|results| - 1].Some? then front + [results[|results| - 1].value] else front
  }

  /** What the goroutine has yet to hand over; nothing once the error has been taken. */
  function Pending(s: State, dec: Decoder, ending: Failure): seq<Outcome> {
    match s.phase
    case Scanning => Script(s.lines, dec, ending)
    case Offering(m) => [Got(m)] + Script(s.lines, dec, ending)
    case Reporting(f) => [Failed(f)]
    case _ => if s.errCh.Some? then [Failed(s.errCh.value)] else []
  }

  /** The given outcomes, and EOF from then on. */
  ghost predicate FollowedByEof(seen: seq<Outcome>, all: seq<Outcome>) {
    |all| <= |seen| && seen[..|all|] == all && forall i :: |all| <= i < |seen| ==> seen[i] == Failed(Eof)
  }

  predicate Leaving(p: Phase) {
    p.ClosingErr? || p.ClosingMsg? || p.Gone?
  }

  ghost predicate Channels(s: State) {
    && (s.errCh.Some? ==> Leaving(s.phase))
    && (s.errClosed <==> s.phase.ClosingMsg? || s.phase.Gone?)
    && (s.msgClosed <==> s.phase.Gone?)
    && (s.draining > 0 ==> s.msgClosed)
  }

  ghost predicate Delivered(s: State, dec: Decoder, ending: Failure, all: seq<Outcome>) {
    var seen, pending := Visible(s.results), Pending(s, dec, ending);
    if pending == [] then FollowedByEof(seen, all) else seen + pending == all
  }

  ghost predicate Inv(s: State, dec: Decoder, ending: Failure, all: seq<Outcome>) {
    Channels(s) && Delivered(s, dec, ending, all)
  }

  lemma VisibleGrows(results: seq<Option<Outcome>>, r: Option<Outcome>)
    ensures Visible(results + [r]) == Visible(results) + (if r.Some? then [r.value] else [])
  {
    assert (results + [r])[..|results|] == results;
  }

  lemma {:induction false} ScriptEnds(lines: seq<string>, dec: Decoder, ending: Failure)
    ensures Script(lines, dec, ending) != []
  {
    if lines != [] && lines[0] == "" { ScriptEnds(lines[1..], dec, ending); }
  }

  lemma Hands(seen: seq<Outcome>, o: Outcome, later: seq<Outcome>, all: seq<Outcome>)
    requires seen + ([o] + later) == all
    ensures if later == [] then FollowedByEof(seen + [o], all) else (seen + [o]) + later == all
  {
    assert seen + ([o] + later) == (seen + [o]) + later;
  }

  /** Steps of the goroutine hand nothing over and lose nothing. */
  lemma GoroutineKeeps(dec: Decoder, ending: Failure, s: State, step: Step, all: seq<Outcome>)
    requires Inv(s, dec, ending, all) && Enabled(s, step)
    requires step.Turn? || step.Report? || step.CloseErr? || step.CloseMsg?
    ensures Inv(Apply(dec, ending, s, step), dec, ending, all)
  {
    var t := Apply(dec, ending, s, step);
    assert t.results == s.results;
    assert Pending(t, dec, ending) == Pending(s, dec, ending);
  }

  lemma ReceiveKeeps(dec: Decoder, ending: Failure, s: State, all: seq<Outcome>)
    requires Inv(s, dec, ending, all) && Enabled(s, Receive)
    ensures Inv(Apply(dec, ending, s, Receive), dec, ending, all)
  {
    VisibleGrows(s.results, Some(Got(s.phase.message)));
    Hands(Visible(s.results), Got(s.phase.message), Script(s.lines, dec, ending), all);
    ScriptEnds(s.lines, dec, ending);
  }

  lemma LastHands(seen: seq<Outcome>, o: Outcome, all: seq<Outcome>)
    requires seen + [o] == all
    ensures FollowedByEof(seen + [o], all)
  {
  }

  lemma EofFollows(seen: seq<Outcome>, all: seq<Outcome>)
    requires FollowedByEof(seen, all)
    ensures FollowedByEof(seen + [Failed(Eof)], all)
  {
    assert (seen + [Failed(Eof)])[..|all|] == seen[..|all|];
  }

  /** Taking the error, from either select, or finding that there is none left. */
  lemma FailureKeeps(dec: Decoder, ending: Failure, s: State, t: State, all: seq<Outcome>)
    requires Inv(s, dec, ending, all) && Channels(t) && Leaving(s.phase) && t.phase == s.phase && t.errCh.None?
    requires t.results == s.results + [Some(Failed(s.errCh.GetOr(Eof)))]
    ensures Inv(t, dec, ending, all)
  {
    VisibleGrows(s.results, Some(Failed(s.errCh.GetOr(Eof))));
    if s.errCh.Some? {
      LastHands(Visible(s.results), Failed(s.errCh.value), all);
    } else {
      EofFollows(Visible(s.results), all);
    }
  }

  /** Whatever a waiting Read call picks, it returns the next outcome, or EOF when there is none left. */
  lemma ReadKeeps(dec: Decoder, ending: Failure, s: State, step: Step, all: seq<Outcome>)
    requires Inv(s, dec, ending, all) && Enabled(s, step)
    requires step.Receive? || step.TakeError? || step.SeeErrClosed? || step.Drain?
    ensures Inv(Apply(dec, ending, s, step), dec, ending, all)
  {
    if step.Receive? {
      ReceiveKeeps(dec, ending, s, all);
    } else {
      FailureKeeps(dec, ending, s, Apply(dec, ending, s, step), all);
    }
  }

  lemma StepKeeps(dec: Decoder, ending: Failure, s: State, step: Step, all: seq<Outcome>)
    requires Inv(s, dec, ending, all) && Enabled(s, step)
    ensures Inv(Apply(dec, ending, s, step), dec, ending, all)
  {
    if step.Turn? || step.Report? || step.CloseErr? || step.CloseMsg? {
      GoroutineKeeps(dec, ending, s, step, all);
    } else if step.SeeMsgClosed? {
      assert Pending(Apply(dec, ending, s, step), dec, ending) == Pending(s, dec, ending);
    } else if step.GiveUp? {
      VisibleGrows(s.results, None);
      assert Pending(Apply(dec, ending, s, step), dec, ending) == Pending(s, dec, ending);
      assert Visible(s.results) + [] == Visible(s.results);
    } else {
      ReadKeeps(dec, ending, s, step, all);
    }
  }

  lemma {:induction false} RunKeeps(dec: Decoder, ending: Failure, s: State, steps: seq<Step>, end: State, all: seq<Outcome>)
    requires Inv(s, dec, ending, all) && Run(dec, ending, s, steps, end)
    ensures Inv(end, dec, ending, all)
    decreases |steps|
  {
    if steps != [] {
      StepKeeps(dec, ending, s, steps[0], all);
      RunKeeps(dec, ending, Apply(dec, ending, s, steps[0]), steps[1..], end, all);
    }
  }

  /** The i-th answer that is due: the script of the stream, and EOF for ever after it. */
  function Due(all: seq<Outcome>, i: nat): Outcome {
    if i < |all| then all[i] else Failed(Eof)
  }

  /**
   Whichever ready channel each select picks, and however many calls give up in between, the i-th call that returns
   gets the i-th outcome of the stream: the messages in order, the error once, then EOF.
   */
  lemma ReadsInOrder(dec: Decoder, ending: Failure, lines: seq<string>, steps: seq<Step>, end: State)
    requires Run(dec, ending, Start(lines), steps, end)
    ensures forall i :: 0 <= i < |Visible(end.results)| ==> Visible(end.results)[i] == Due(Script(lines, dec, ending), i)
  {
    var all := Script(lines, dec, ending);
    ScriptEnds(lines, dec, ending);
    assert [] + all == all;
    RunKeeps(dec, ending, Start(lines), steps, end, all);
    var seen, pending := Visible(end.results), Pending(end, dec, ending);
    if pending == [] {
      forall i | 0 <= i < |all| ensures seen[i] == all[i] {
        assert seen[..|all|][i] == seen[i];
      }
    } else {
      assert seen + pending == all;
    }
  }

  // ---------------------------------------------------------------- calls do not hang

  predicate GoroutineStep(step: Step) {
    step.Turn? || step.Report? || step.CloseErr? || step.CloseMsg?
  }

  predicate ReturnStep(step: Step) {
    step.Receive? || step.TakeError? || step.SeeErrClosed? || step.SeeMsgClosed?
  }

  /** Turns the goroutine has left before it offers something or is gone, at most. */
  function Work(s: State): nat {
    match s.phase
    case Scanning => |s.lines| + 4
    case Offering(_) => |s.lines| + 4
    case Reporting(_) => 3
    case ClosingErr => 2
    case ClosingMsg => 1
    case Gone => 0
  }

  /** A waiting call has a ready channel, or the goroutine can move towards making one ready. */
  lemma NeverStuck(dec: Decoder, ending: Failure, lines: seq<string>, steps: seq<Step>, end: State)
    requires Run(dec, ending, Start(lines), steps, end)
    ensures (exists step :: ReturnStep(step) && Enabled(end, step)) ||
      exists step :: GoroutineStep(step) && Enabled(end, step) && Work(Apply(dec, ending, end, step)) < Work(end)
  {
    var all := Script(lines, dec, ending);
    ScriptEnds(lines, dec, ending);
    assert [] + all == all;
    RunKeeps(dec, ending, Start(lines), steps, end, all);
    match end.phase {
      case Scanning =>
        assert Enabled(end, Turn);
      case Offering(_) =>
        assert ReturnStep(Receive) && Enabled(end, Receive);
      case Reporting(_) =>
        assert Enabled(end, Report);
      case ClosingErr =>
        assert Enabled(end, CloseErr);
      case ClosingMsg =>
        assert Enabled(end, CloseMsg);
      case Gone =>
        assert ReturnStep(SeeMsgClosed) && Enabled(end, SeeMsgClosed);
    }
  }

  // ---------------------------------------------------------------- the goroutine's loop

  /** One line of the loop: `all` is split between what was sent and what the remaining lines give. */
  lemma NextLine(sent: seq<Message>, lines: seq<string>, dec: Decoder, ending: Failure, all: seq<Outcome>)
    requires lines != [] && AllGot(sent) + Script(lines, dec, ending) == all
    ensures lines[0] == "" ==> AllGot(sent) + Script(lines[1..], dec, ending) == all
    ensures lines[0] != "" && dec(lines[0]).None? ==> AllGot(sent) + [Failed(BadLine(lines[0]))] == all
    ensures lines[0] != "" && dec(lines[0]).Some? ==>
      AllGot(sent + [dec(lines[0]).value]) + Script(lines[1..], dec, ending) == all
  {
    if lines[0] != "" && dec(lines[0]).Some? {
      var m := dec(lines[0]).value;
      var later := Script(lines[1..], dec, ending);
      assert AllGot(sent + [m]) == AllGot(sent) + [Got(m)];
      Assoc(AllGot(sent), [Got(m)], later);
    }
  }

  /** The body of startReader: what it sends on msgCh and finally on errCh. */
  method ReadLoop(chunks: seq<string>, dec: Decoder, ending: Failure) returns (sent: seq<Message>, failure: Failure)
    ensures AllGot(sent) + [Failed(failure)] == Script(Lines(Concat(chunks)), dec, ending)
  {
    var lines := ScanLines(chunks);
    ghost var all := Script(lines, dec, ending);
    sent := [];
    assert AllGot(sent) + all == all;
    while lines != []
      invariant AllGot(sent) + Script(lines, dec, ending) == all
      decreases |lines|
    {
      var line := lines[0];
      NextLine(sent, lines, dec, ending, all);
      lines := lines[1..];
      if line != "" {
        var decoded := dec(line);
        if decoded.None? {
          return sent, BadLine(line);
        }
        sent := sent + [decoded.value];
      }
    }
    failure := ending;
  }
}
