/** The answer-shape dispatch of the terminal chat loop
    (src/rag/chathistory/ragWithChatHistory.ts, lines 67-113): what is written
    to stdout for each shape of answer and which text, if any, reaches the
    answer callback. */
module Answers {
  import opened Wrappers
  import opened Chunks

  type Bytes = seq<bv8>

  /** How a producer stops after its last item: it reports completion, or its
      next request rejects. */
  datatype Ending = Finished | Throws

  /** The resolved `response.answer`, by the runtime test that selects it, in
      the order the loop tests them: an async iterable, a `ReadableStream` of
      byte chunks, a string, or anything else. */
  datatype Answer =
    | Iter(chunks: seq<Chunk>, ending: Ending)
    | Stream(blocks: seq<Bytes>, ending: Ending)
    | Plain(text: string)
    | Unknown

  /** A streaming `TextDecoder`: the text produced when `block` is fed after
      the blocks already fed (which carry any incomplete multi-byte sequence). */
  type Decoder = (seq<Bytes>, Bytes) -> string

  /** What the loop writes before a streamed answer. */
  const AiPrefix: string := "AI: "
  /** `console.log("\n")`: the argument and the newline console.log adds. */
  const StreamEnd: string := "\n\n"

  /** The texts decoded from a byte stream, one per block, in order. */
  function Decoded(decode: Decoder, blocks: seq<Bytes>): (r: seq<string>)
    ensures |r| == |blocks|
    ensures forall i :: 0 <= i < |blocks| ==> r[i] == decode(blocks[..i], blocks[i])
  {
    if blocks == [] then []
    else
      var n := |blocks| - 1;
      assert forall i :: 0 <= i < n ==> blocks[..n][..i] == blocks[..i];
      Decoded(decode, blocks[..n]) + [decode(blocks[..n], blocks[n])]
  }

  /** What one answer produces: the stdout writes of lines 67-113, and the
      text handed to the answer callback, or None when an exception escapes
      to the loop's outer `catch`. */
  datatype Delivery = Delivery(written: seq<string>, commit: Option<string>)

  /** The effect of lines 67-113 on an answer of each shape. */
  function Deliver(answer: Answer, decode: Decoder): (d: Delivery)
    ensures d.commit.None? <==> answer.Stream? && answer.ending == Throws
    ensures answer.Iter? ==>
      Concat(d.written) == AiPrefix + d.commit.value + (if answer.ending == Finished then StreamEnd else "")
    ensures answer.Stream? && answer.ending == Finished ==>
      Concat(d.written) == AiPrefix + d.commit.value + StreamEnd
    ensures answer.Stream? && answer.ending == Throws ==>
      Concat(d.written) == AiPrefix + Concat(Decoded(decode, answer.blocks))
    ensures answer.Plain? ==>
      d.commit == Some(answer.text) && Concat(d.written) == AiPrefix + TrimStart(answer.text) + "\n"
    ensures answer.Unknown? ==> d.written == [] && d.commit == Some("")
  {
    match answer
    case Iter(chunks, ending) =>
      var trailer := if ending == Finished then [StreamEnd] else [];
      ConcatAppend([AiPrefix], Kept(chunks));
      ConcatAppend([AiPrefix] + Kept(chunks), trailer);
      assert Concat([AiPrefix]) == AiPrefix;
      assert Concat([StreamEnd]) == StreamEnd;
      Delivery([AiPrefix] + Kept(chunks) + trailer, Some(Concat(Kept(chunks))))
    case Stream(blocks, ending) =>
      var texts := Decoded(decode, blocks);
      var trailer := if ending == Finished then [StreamEnd] else [];
      ConcatAppend([AiPrefix], texts);
      ConcatAppend([AiPrefix] + texts, trailer);
      assert Concat([AiPrefix]) == AiPrefix;
      assert Concat([StreamEnd]) == StreamEnd;
      Delivery([AiPrefix] + texts + trailer, if ending == Finished then Some(Concat(texts)) else None)
    case Plain(text) =>
      assert Concat([AiPrefix + TrimStart(text) + "\n"]) == AiPrefix + TrimStart(text) + "\n";
      Delivery([AiPrefix + TrimStart(text) + "\n"], Some(text))
    case Unknown =>
      Delivery([], Some(""))
  }

  /** When async iteration fails after `delivered`, the text committed is
      what a complete run would have committed for those chunks, and a
      prefix of what the full answer would have committed. */
  lemma PartialCommitIsPrefix(delivered: seq<Chunk>, rest: seq<Chunk>, decode: Decoder)
    ensures Deliver(Iter(delivered, Throws), decode).commit == Deliver(Iter(delivered, Finished), decode).commit
    ensures var partial := Deliver(Iter(delivered, Throws), decode).commit.value;
      var full := Deliver(Iter(delivered + rest, Finished), decode).commit.value;
      |partial| <= |full| && full[..|partial|] == partial
  {
    KeptAppend(delivered, rest);
    ConcatAppend(Kept(delivered), Kept(rest));
  }

  /** A plain string is shown without its leading white space and stored as is. */
  lemma PlainExample(decode: Decoder)
    ensures Deliver(Plain("  hello"), decode) == Delivery(["AI: hello\n"], Some("  hello"))
  {
    var s := "  hello";
    assert TrimStart(s) == "hello" by {
      assert IsWhiteSpace(s[0]) && s[1..] == " hello";
      assert IsWhiteSpace(s[1..][0]) && s[1..][1..] == "hello";
      assert !IsWhiteSpace('h');
    }
    assert AiPrefix + "hello" + "\n" == "AI: hello\n";
  }

  /** Lines 75-90: the `for await` loop over an async iterable, with its local
      `catch`. A rejection after the delivered chunks is caught here, so the
      text accumulated so far is still returned for the callback. */
  method DrainIterable(chunks: seq<Chunk>, ending: Ending) returns (written: seq<string>, answerText: string)
    ensures written == [AiPrefix] + Kept(chunks) + (if ending == Finished then [StreamEnd] else [])
    ensures answerText == Concat(Kept(chunks))
  {
    written := [AiPrefix];
    answerText := "";
    var i := 0;
    while i < |chunks|
      invariant 0 <= i <= |chunks|
      invariant written == [AiPrefix] + Kept(chunks[..i])
      invariant answerText == Concat(Kept(chunks[..i]))
    {
      var chunk := chunks[i];
      assert chunks[..i + 1][..i] == chunks[..i];
      assert Kept(chunks[..i + 1]) == Kept(chunks[..i]) + match ChunkText(chunk) case None => [] case Some(t) => [t];
      if chunk != Undefined && chunk != Null {
        var chunkText := if chunk.Str? then chunk.s else chunk.textForm;
        if chunkText != "" && !StartsWith(chunkText, ObjectTag) {
          ConcatAppend(Kept(chunks[..i]), [chunkText]);
          assert Concat([chunkText]) == chunkText by { assert [chunkText][..0] == []; }
          written := written + [chunkText];
          answerText := answerText + chunkText;
        } else {
          assert Kept(chunks[..i + 1]) == Kept(chunks[..i]);
        }
      } else {
        assert Kept(chunks[..i + 1]) == Kept(chunks[..i]);
      }
      i := i + 1;
    }
    assert chunks[..i] == chunks;
    if ending == Finished {
      written := written + [StreamEnd];
    }
  }

  /** The outcome of one `reader.read()`. */
  datatype ReadResult = Value(block: Bytes) | Done | Failed

  /** A reader obtained from a `ReadableStream` with `getReader()`: it holds
      the stream's lock until `releaseLock()`. */
  class StreamReader {
    const blocks: seq<Bytes>
    const ending: Ending
    var pos: nat
    var locked: bool

    ghost predicate Valid()
      reads this
    {
      pos <= |blocks|
    }

    /** `stream.getReader()`: a fresh reader at the start, holding the lock. */
    constructor (blocks: seq<Bytes>, ending: Ending)
      ensures Valid() && locked && pos == 0
      ensures this.blocks == blocks && this.ending == ending
    {
      this.blocks := blocks;
      this.ending := ending;
      pos := 0;
      locked := true;
    }

    /** `reader.read()`: the next block, then completion or a rejection. */
    method Read() returns (r: ReadResult)
      requires Valid() && locked
      modifies this`pos
      ensures Valid()
      ensures old(pos) < |blocks| ==> r == Value(blocks[old(pos)]) && pos == old(pos) + 1
      ensures old(pos) == |blocks| ==>
        pos == old(pos) && r == (if ending == Finished then Done else Failed)
    {
      if pos < |blocks| {
        r := Value(blocks[pos]);
        pos := pos + 1;
      } else {
        r := if ending == Finished then Done else Failed;
      }
    }

    /** `reader.releaseLock()`. */
    method ReleaseLock()
      modifies this`locked
      ensures !locked
    {
      locked := false;
    }
  }

  /** Lines 95-105: read and decode every block, writing and accumulating
      each decoded text, and release the lock in `finally`. `raised` reports
      that a read rejected; that exception is not caught here. */
  method DrainStream(reader: StreamReader, decode: Decoder) returns (written: seq<string>, answerText: string, raised: bool)
    requires reader.Valid() && reader.locked && reader.pos == 0
    modifies reader
    ensures !reader.locked
    ensures raised <==> reader.ending == Throws
    ensures written == Decoded(decode, reader.blocks)
    ensures answerText == Concat(written)
  {
    written := [];
    answerText := "";
    raised := false;
    var fed: seq<Bytes> := [];
    while true
      invariant reader.Valid() && reader.locked
      invariant fed == reader.blocks[..reader.pos]
      invariant written == Decoded(decode, fed)
      invariant answerText == Concat(written)
      decreases |reader.blocks| - reader.pos
    {
      var r := reader.Read();
      if r.Done? {
        break;
      }
      if r.Failed? {
        raised := true;
        break;
      }
      var chunkText := decode(fed, r.block);
      assert reader.blocks[..reader.pos][..|fed|] == fed;
      fed := fed + [r.block];
      written := written + [chunkText];
      answerText := answerText + chunkText;
    }
    assert fed == reader.blocks;
    reader.ReleaseLock();
  }
}
