/** The writing half of internal/stdio/transport.go: one Write call, and any number of concurrent ones. */
module FramingWriter {
  import opened Prelude
  import opened Jsonrpc
  import opened Framing

  datatype Reply = Sent | Cancelled | Unencodable | ClosedPipe | WriteFailed

  ghost predicate AllEncode(enc: Encoder, msgs: seq<Message>) {
    forall k :: 0 <= k < |msgs| ==> enc(msgs[k]).Some?
  }

  lemma {:induction false} BatchEncodes(enc: Encoder, msgs: seq<Message>)
    ensures Batch(enc, msgs).Some? <==> AllEncode(enc, msgs)
  {
    if msgs != [] {
      BatchEncodes(enc, msgs[1..]);
      assert AllEncode(enc, msgs) <==> enc(msgs[0]).Some? && AllEncode(enc, msgs[1..]) by {
        if enc(msgs[0]).Some? && AllEncode(enc, msgs[1..]) {
          forall k | 0 <= k < |msgs| ensures enc(msgs[k]).Some? {
            assert k > 0 ==> msgs[1..][k - 1] == msgs[k];
          }
        }
      }
    }
  }

  /** What happens before the mutex is taken: the call returns, or it goes on with the bytes of its batch. */
  datatype Plan = Return(reply: Reply) | Locked(buf: string)

  function Prepared(cancelled: bool, msgs: seq<Message>, enc: Encoder): Plan {
    if cancelled then Return(Cancelled)
    else if msgs == [] then Return(Sent)
    else match Batch(enc, msgs)
      case None => Return(Unencodable)
      case Some(buf) => Locked(buf)
  }

  /** The bytes the underlying writer takes: all of them, or at most the given number before it fails. */
  function Taken(buf: string, fault: Option<nat>): string {
    if fault.Some? && fault.value < |buf| then buf[..fault.value] else buf
  }

  /** The critical section: the bytes it adds to the output and what the call returns. */
  function Section(closed: bool, buf: string, fault: Option<nat>): (string, Reply) {
    if closed then ("", ClosedPipe)
    else (Taken(buf, fault), if fault.None? then Sent else WriteFailed)
  }

  class Transport {
    var closed: bool
    var out: string

    constructor ()
      ensures !closed && out == ""
    {
      closed, out := false, "";
    }

    /** A batch reaches the output whole, or the call does not report success; a message that fails to encode costs no byte. */
    method Write(cancelled: bool, msgs: seq<Message>, enc: Encoder, fault: Option<nat>) returns (reply: Reply)
      modifies this`out
      ensures match Prepared(cancelled, msgs, enc)
        case Return(r) => reply == r && out == old(out)
        case Locked(buf) => (out, reply) == (old(out) + Section(closed, buf, fault).0, Section(closed, buf, fault).1)
      ensures reply == Cancelled <==> cancelled
      ensures reply == Unencodable <==> !cancelled && exists k :: 0 <= k < |msgs| && enc(msgs[k]).None?
      ensures reply == ClosedPipe <==> !cancelled && msgs != [] && AllEncode(enc, msgs) && closed
      ensures reply == WriteFailed <==> !cancelled && msgs != [] && AllEncode(enc, msgs) && !closed && fault.Some?
      ensures reply == Sent ==> Batch(enc, msgs).Some? && out == old(out) + Batch(enc, msgs).value
      ensures reply == WriteFailed ==> Batch(enc, msgs).Some? && old(out) <= out <= old(out) + Batch(enc, msgs).value
      ensures reply != Sent && reply != WriteFailed ==> out == old(out)
    {
      BatchEncodes(enc, msgs);
      if cancelled {
        return Cancelled;
      }
      if |msgs| == 0 {
        return Sent;
      }
      var buf := "";
      var i := 0;
      assert msgs[0..] == msgs;
      ExtendNothing(Batch(enc, msgs));
      while i < |msgs|
        invariant 0 <= i <= |msgs| && out == old(out)
        invariant Batch(enc, msgs) == Extend(buf, Batch(enc, msgs[i..]))
      {
        var data := enc(msgs[i]);
        assert msgs[i..][0] == msgs[i];
        if data.None? {
          return Unencodable;
        }
        assert msgs[i..][1..] == msgs[i + 1..];
        ExtendMoves(buf, data.value + "\n", Batch(enc, msgs[i + 1..]));
        buf := buf + (data.value + "\n");
        i := i + 1;
      }
      assert buf + "" == buf;
      reply := WriteLocked(buf, fault);
    }

    /** The critical section of Write. */
    method WriteLocked(buf: string, fault: Option<nat>) returns (reply: Reply)
      modifies this`out
      ensures out == old(out) + Section(closed, buf, fault).0 && reply == Section(closed, buf, fault).1
    {
      if closed {
        assert out + "" == out;
        return ClosedPipe;
      }
      out := out + Taken(buf, fault);
      reply := if fault.None? then Sent else WriteFailed;
    }

    method Close()
      modifies this`closed
      ensures closed
    {
      closed := true;
    }

    /** The object as the shared part of the transition system below: each step's section, if it has one, run on it. */
    method Perform(enc: Encoder, s: State, step: Step)
      modifies this
      requires closed == s.closed && out == s.out && Enabled(s, step)
      ensures closed == Apply(enc, s, step).closed && out == Apply(enc, s, step).out
    {
      match step
      case Enter(i, fault) => var reply := WriteLocked(s.calls[i].phase.buf, fault);
      case Close => Close();
      case _ =>
    }

    /** Over every run the object has the output of the state the run leads to. */
    method PerformAll(enc: Encoder, steps: seq<Step>, ghost end: State)
      modifies this
      requires closed == FRESH.closed && out == FRESH.out && Run(enc, FRESH, steps, end)
      ensures closed == end.closed && out == end.out
    {
      var s := FRESH;
      assert steps[0..] == steps;
      for i := 0 to |steps|
        invariant Run(enc, s, steps[i..], end) && closed == s.closed && out == s.out
      {
        assert steps[i..][0] == steps[i] && steps[i..][1..] == steps[i + 1..];
        Perform(enc, s, steps[i]);
        s := Apply(enc, s, steps[i]);
      }
    }
  }

  /** `later` behind the bytes collected so far. */
  function Extend(buf: string, later: Option<string>): Option<string> {
    if later.None? then None else Some(buf + later.value)
  }

  lemma ExtendNothing(later: Option<string>)
    ensures Extend("", later) == later
  {
    if later.Some? {
      assert "" + later.value == later.value;
    }
  }

  lemma ExtendMoves(buf: string, line: string, later: Option<string>)
    ensures Extend(buf, Extend(line, later)) == Extend(buf + line, later)
  {
    if later.Some? {
      assert buf + (line + later.value) == buf + line + later.value;
    }
  }

  // ---------------------------------------------------------------- concurrent calls

  datatype Phase = Started | Waiting(buf: string) | Returned(reply: Reply)
  datatype Call = Call(msgs: seq<Message>, phase: Phase)

  /** A critical section that wrote: which call ran it and the bytes it added. */
  datatype Entry = Entry(call: nat, bytes: string)

  /** `entries` records, in lock order, the sections entered while the transport was open. */
  datatype State = State(calls: seq<Call>, closed: bool, out: string, entries: seq<Entry>)

  datatype Step = Begin(msgs: seq<Message>) | Prepare(call: nat, cancelled: bool) | Enter(call: nat, fault: Option<nat>) | Close

  const FRESH := State([], false, "", [])

  predicate Enabled(s: State, step: Step) {
    match step
    case Begin(_) => true
    case Prepare(i, _) => i < |s.calls| && s.calls[i].phase.Started?
    case Enter(i, _) => i < |s.calls| && s.calls[i].phase.Waiting?
    case Close => true
  }

  function WithPhase(s: State, i: nat, phase: Phase): State
    requires i < |s.calls|
  {
    s.(calls := s.calls[i := s.calls[i].(phase := phase)])
  }

  function Apply(enc: Encoder, s: State, step: Step): State
    requires Enabled(s, step)
  {
    match step
    case Begin(msgs) => s.(calls := s.calls + [Call(msgs, Started)])
    case Prepare(i, cancelled) =>
      WithPhase(s, i, match Prepared(cancelled, s.calls[i].msgs, enc) case Return(r) => Returned(r) case Locked(buf) => Waiting(buf))
    case Enter(i, fault) =>
      var (bytes, reply) := Section(s.closed, s.calls[i].phase.buf, fault);
      WithPhase(s, i, Returned(reply)).(
        out := s.out + bytes, entries := if s.closed then s.entries else s.entries + [Entry(i, bytes)])
    case Close => s.(closed := true)
  }

  ghost predicate Run(enc: Encoder, s: State, steps: seq<Step>, end: State)
    decreases |steps|
  {
    if steps == [] then s == end else Enabled(s, steps[0]) && Run(enc, Apply(enc, s, steps[0]), steps[1..], end)
  }

  function Joined(entries: seq<Entry>): string {
    if entries == [] then "" else Joined(entries[..|entries| - 1]) + entries[|entries| - 1].bytes
  }

  /** How the bytes of an entry relate to what its call returned. */
  ghost predicate Explains(enc: Encoder, call: Call, bytes: string) {
    && call.phase.Returned? && Batch(enc, call.msgs).Some?
    && (call.phase.reply == Sent || call.phase.reply == WriteFailed)
    && bytes <= Batch(enc, call.msgs).value
    && (call.phase.reply == Sent ==> bytes == Batch(enc, call.msgs).value)
  }

  ghost predicate EntryFits(enc: Encoder, calls: seq<Call>, e: Entry) {
    e.call < |calls| && calls[e.call].msgs != [] && Explains(enc, calls[e.call], e.bytes)
  }

  ghost predicate Recorded(entries: seq<Entry>, i: nat) {
    exists k :: 0 <= k < |entries| && entries[k].call == i
  }

  ghost predicate CallFits(enc: Encoder, s: State, i: nat)
    requires i < |s.calls|
  {
    match s.calls[i].phase
    case Started => true
    case Waiting(buf) => s.calls[i].msgs != [] && Batch(enc, s.calls[i].msgs) == Some(buf)
    case Returned(reply) => s.calls[i].msgs != [] && (reply == Sent || reply == WriteFailed) ==> Recorded(s.entries, i)
  }

  ghost predicate Inv(enc: Encoder, s: State) {
    && s.out == Joined(s.entries)
    && (forall k :: 0 <= k < |s.entries| ==> EntryFits(enc, s.calls, s.entries[k]))
    && (forall j, k :: 0 <= j < k < |s.entries| ==> s.entries[j].call != s.entries[k].call)
    && (forall i :: 0 <= i < |s.calls| ==> CallFits(enc, s, i))
  }

  lemma JoinedGrows(entries: seq<Entry>, e: Entry)
    ensures Joined(entries + [e]) == Joined(entries) + e.bytes
  {
    assert (entries + [e])[..|entries|] == entries;
  }

  lemma RecordedGrows(entries: seq<Entry>, e: Entry)
    ensures forall i: nat :: Recorded(entries, i) ==> Recorded(entries + [e], i)
    ensures Recorded(entries + [e], e.call)
  {
    forall i: nat | Recorded(entries, i) ensures Recorded(entries + [e], i) {
      var k :| 0 <= k < |entries| && entries[k].call == i;
      assert (entries + [e])[k].call == i;
    }
    assert (entries + [e])[|entries|] == e;
  }

  lemma EnterKeeps(enc: Encoder, s: State, i: nat, fault: Option<nat>)
    requires Inv(enc, s) && Enabled(s, Enter(i, fault)) && !s.closed
    ensures Inv(enc, Apply(enc, s, Enter(i, fault)))
  {
    var buf := s.calls[i].phase.buf;
    var e := Entry(i, Taken(buf, fault));
    var t := Apply(enc, s, Enter(i, fault));
    assert CallFits(enc, s, i);
    JoinedGrows(s.entries, e);
    RecordedGrows(s.entries, e);
    assert t.entries == s.entries + [e];
    forall k | 0 <= k < |t.entries| ensures EntryFits(enc, t.calls, t.entries[k]) {
      if k < |s.entries| {
        assert EntryFits(enc, s.calls, s.entries[k]) && s.entries[k].call != i;
      }
    }
    forall j | 0 <= j < |t.calls| ensures CallFits(enc, t, j) {
      assert CallFits(enc, s, j);
    }
  }

  lemma StepKeeps(enc: Encoder, s: State, step: Step)
    requires Inv(enc, s) && Enabled(s, step)
    ensures Inv(enc, Apply(enc, s, step))
  {
    if step.Enter? && !s.closed {
      EnterKeeps(enc, s, step.call, step.fault);
    } else {
      var t := Apply(enc, s, step);
      assert t.entries == s.entries && t.out == s.out by {
        assert s.out + "" == s.out;
      }
      forall k | 0 <= k < |t.entries| ensures EntryFits(enc, t.calls, t.entries[k]) {
        assert EntryFits(enc, s.calls, s.entries[k]);
      }
      forall j | 0 <= j < |t.calls| ensures CallFits(enc, t, j) {
        if j < |s.calls| { assert CallFits(enc, s, j); }
      }
    }
  }

  lemma {:induction false} RunKeeps(enc: Encoder, s: State, steps: seq<Step>, end: State)
    requires Inv(enc, s) && Run(enc, s, steps, end)
    ensures Inv(enc, end)
    decreases |steps|
  {
    if steps != [] {
      StepKeeps(enc, s, steps[0]);
      RunKeeps(enc, Apply(enc, s, steps[0]), steps[1..], end);
    }
  }

  /**
   However the calls interleave, the output is the bytes of the entered sections in lock order: a call that reports
   success has put its whole batch there exactly once, a failed write at most a prefix of its batch, any other call
   nothing.
   */
  lemma WholeBatches(enc: Encoder, steps: seq<Step>, end: State)
    requires Run(enc, FRESH, steps, end)
    ensures end.out == Joined(end.entries)
    ensures forall j, k :: 0 <= j < k < |end.entries| ==> end.entries[j].call != end.entries[k].call
    ensures forall k :: 0 <= k < |end.entries| ==> EntryFits(enc, end.calls, end.entries[k])
    ensures forall i :: 0 <= i < |end.calls| && end.calls[i].msgs != [] && end.calls[i].phase == Returned(Sent) ==>
      Recorded(end.entries, i)
  {
    RunKeeps(enc, FRESH, steps, end);
    forall i | 0 <= i < |end.calls| && end.calls[i].msgs != [] && end.calls[i].phase == Returned(Sent)
      ensures Recorded(end.entries, i)
    {
      assert CallFits(enc, end, i);
    }
  }

  /** Nothing is written once the transport is closed. */
  lemma {:induction false} ClosedIsFinal(enc: Encoder, s: State, steps: seq<Step>, end: State)
    requires s.closed && Run(enc, s, steps, end)
    ensures end.closed && end.out == s.out && end.entries == s.entries
    decreases |steps|
  {
    if steps != [] {
      assert s.out + "" == s.out;
      ClosedIsFinal(enc, Apply(enc, s, steps[0]), steps[1..], end);
    }
  }

  /** The messages of the entered sections, in lock order. */
  function Messages(calls: seq<Call>, entries: seq<Entry>): seq<Message> {
    if entries == [] then []
    else
      var e := entries[|entries| - 1];
      Messages(calls, entries[..|entries| - 1]) + (if e.call < |calls| then calls[e.call].msgs else [])
  }

  ghost predicate AllSent(calls: seq<Call>, entries: seq<Entry>) {
    forall k :: 0 <= k < |entries| ==> entries[k].call < |calls| && calls[entries[k].call].phase == Returned(Sent)
  }

  lemma {:induction false} JoinedIsBatch(enc: Encoder, calls: seq<Call>, entries: seq<Entry>)
    requires AllSent(calls, entries) && forall k :: 0 <= k < |entries| ==> EntryFits(enc, calls, entries[k])
    ensures Batch(enc, Messages(calls, entries)) == Some(Joined(entries))
  {
    if entries != [] {
      var front := entries[..|entries| - 1];
      var e := entries[|entries| - 1];
      JoinedIsBatch(enc, calls, front);
      assert EntryFits(enc, calls, e);
      BatchJoins(enc, Messages(calls, front), calls[e.call].msgs);
    }
  }
}
