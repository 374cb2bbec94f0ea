/** Writers on one side of the pipe, readers on the other. */
module FramingTheorems {
  import opened Jsonrpc
  import opened Framing
  import opened Chunking
  import W = FramingWriter
  import R = FramingReader

  /**
   Any set of concurrent Write calls, none of which failed half-way, fed in any chunking to any Read calls: the calls
   that were not cancelled return the batches' messages in lock order and then EOF for ever.
   */
  lemma EndToEnd(
    enc: Encoder, dec: Decoder, compact: Compaction, writing: seq<W.Step>, written: W.State,
    chunks: seq<string>, reading: seq<R.Step>, read: R.State)
    requires Codec(enc, dec, compact) && W.Run(enc, W.FRESH, writing, written) && W.AllSent(written.calls, written.entries)
    requires Concat(chunks) == written.out
    requires R.Run(dec, Eof, R.Start(OneShot(CutLF, Concat(chunks))), reading, read)
    ensures var messages, seen := W.Messages(written.calls, written.entries), R.Visible(read.results);
      forall i :: 0 <= i < |seen| ==> seen[i] == if i < |messages| then Got(compact(messages[i])) else Failed(Eof)
  {
    W.WholeBatches(enc, writing, written);
    W.JoinedIsBatch(enc, written.calls, written.entries);
    LFCutsAreFinal();
    OneShotIsLines(written.out);
    RoundTrip(enc, dec, compact, W.Messages(written.calls, written.entries), Eof);
    R.ReadsInOrder(dec, Eof, Lines(written.out), reading, read);
  }

  /** A line that does not decode is reported once, after the messages before it; what follows it is never read. */
  lemma StopsAtBadLine(
    enc: Encoder, dec: Decoder, compact: Compaction, msgs: seq<Message>, bad: string, rest: string, ending: Failure,
    reading: seq<R.Step>, read: R.State)
    requires Codec(enc, dec, compact) && Batch(enc, msgs).Some? && OneLine(bad) && dec(bad).None?
    requires R.Run(dec, ending, R.Start(Lines(Batch(enc, msgs).value + (bad + "\n" + rest))), reading, read)
    ensures var seen := R.Visible(read.results);
      forall i :: 0 <= i < |seen| ==>
        seen[i] == (if i < |msgs| then Got(compact(msgs[i])) else if i == |msgs| then Failed(BadLine(bad)) else Failed(Eof))
  {
    BatchReadsBack(enc, dec, compact, msgs, bad + "\n" + rest, ending);
    FirstLine(bad, rest);
    assert Lines(bad + "\n" + rest) == [bad] + Lines(rest);
    R.ReadsInOrder(dec, ending, Lines(Batch(enc, msgs).value + (bad + "\n" + rest)), reading, read);
  }
}
