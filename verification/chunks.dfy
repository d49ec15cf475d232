/** The per-chunk rules of the terminal chat loop
    (src/rag/chathistory/ragWithChatHistory.ts, lines 77-86 and 107-110):
    which chunks of a streamed answer are shown and accumulated, and the
    leading-whitespace trim applied to a plain-string answer. */
module Chunks {
  import opened Wrappers

  /** One value yielded by an async-iterable answer. `Other` is any non-string,
      non-nullish value, represented by what `String(value)` returns for it
      (for instance "42", or "[object Object]" for a plain object). */
  datatype Chunk = Null | Undefined | Str(s: string) | Other(textForm: string)

  /** The prefix of JavaScript's default object-to-string form. */
  const ObjectTag: string := "[object"

  predicate StartsWith(s: string, prefix: string) {
    |prefix| <= |s| && s[..|prefix|] == prefix
  }

  /** A chunk text is shown only when it is truthy (non-empty) and is not a
      default object rendering. */
  predicate Accepted(text: string) {
    text != "" && !StartsWith(text, ObjectTag)
  }

  /** The text form of a chunk: the chunk itself if it is a string, else
      `String(chunk)`; nullish chunks have none. */
  function TextForm(c: Chunk): Option<string> {
    match c
    case Null => None
    case Undefined => None
    case Str(s) => Some(s)
    case Other(t) => Some(t)
  }

  /** The text a chunk contributes to the display and to `answerText`, if any:
      nullish chunks contribute nothing, and any other chunk contributes its
      text form exactly when that text is accepted. */
  function ChunkText(c: Chunk): (r: Option<string>)
    ensures (c == Null || c == Undefined) ==> r == None
    ensures r.Some? <==> TextForm(c).Some? && Accepted(TextForm(c).value)
    ensures r.Some? ==> r.value == TextForm(c).value
  {
    match TextForm(c)
    case None => None
    case Some(t) => if Accepted(t) then Some(t) else None
  }

  /** The texts kept from a sequence of chunks, in arrival order. */
  function Kept(chunks: seq<Chunk>): (r: seq<string>)
    ensures |r| <= |chunks|
    ensures forall i :: 0 <= i < |r| ==> Accepted(r[i])
  {
    if chunks == [] then []
    else
      var last := chunks[|chunks| - 1];
      Kept(chunks[..|chunks| - 1]) + (match ChunkText(last) case None => [] case Some(t) => [t])
  }

  /** The concatenation of a sequence of strings, left to right. */
  function Concat(ss: seq<string>): string {
    if ss == [] then "" else Concat(ss[..|ss| - 1]) + ss[|ss| - 1]
  }

  lemma {:induction false} ConcatAppend(a: seq<string>, b: seq<string>)
    ensures Concat(a + b) == Concat(a) + Concat(b)
    decreases |b|
  {
    if b == [] {
      assert a + b == a;
    } else {
      var b' := b[..|b| - 1];
      assert (a + b)[..|a + b| - 1] == a + b';
      ConcatAppend(a, b');
    }
  }

  /** Filtering distributes over concatenation: chunks are judged one at a
      time and the kept texts stay in arrival order. */
  lemma {:induction false} KeptAppend(a: seq<Chunk>, b: seq<Chunk>)
    ensures Kept(a + b) == Kept(a) + Kept(b)
    decreases |b|
  {
    if b == [] {
      assert a + b == a;
    } else {
      var b' := b[..|b| - 1];
      assert (a + b)[..|a + b| - 1] == a + b';
      KeptAppend(a, b');
    }
  }

  /** A single chunk's contribution. */
  lemma KeptSingle(c: Chunk)
    ensures Kept([c]) == match ChunkText(c) case None => [] case Some(t) => [t]
  {
  }

  /** `null` and `undefined` chunks are neither shown nor accumulated,
      wherever they arrive. */
  lemma KeptIgnoresNullish(a: seq<Chunk>, c: Chunk, b: seq<Chunk>)
    requires c == Null || c == Undefined
    ensures Kept(a + [c] + b) == Kept(a + b)
  {
    KeptAppend(a + [c], b);
    KeptAppend(a, [c]);
    KeptSingle(c);
    KeptAppend(a, b);
  }

  /** A chunk is kept exactly when it is not nullish and its text form is
      accepted, and then it contributes that text form unchanged. */
  lemma KeptSingleIff(c: Chunk)
    ensures |Kept([c])| == 1 <==> TextForm(c).Some? && Accepted(TextForm(c).value)
    ensures |Kept([c])| == 1 ==> Kept([c])[0] == TextForm(c).value
    ensures |Kept([c])| != 1 ==> Kept([c]) == []
  {
  }

  function AsChunks(ss: seq<string>): (r: seq<Chunk>)
    ensures |r| == |ss|
    ensures forall i :: 0 <= i < |ss| ==> r[i] == Str(ss[i])
  {
    if ss == [] then [] else AsChunks(ss[..|ss| - 1]) + [Str(ss[|ss| - 1])]
  }

  /** Accepted string chunks pass through unchanged and in order. */
  lemma {:induction false} KeptRetainsAccepted(ss: seq<string>)
    requires forall i :: 0 <= i < |ss| ==> Accepted(ss[i])
    ensures Kept(AsChunks(ss)) == ss
    decreases |ss|
  {
    if ss != [] {
      var cs := AsChunks(ss);
      assert cs[..|cs| - 1] == AsChunks(ss[..|ss| - 1]);
      KeptRetainsAccepted(ss[..|ss| - 1]);
    }
  }

  /** Filtering the kept texts again keeps all of them: the filter is idempotent. */
  lemma KeptIdempotent(chunks: seq<Chunk>)
    ensures Kept(AsChunks(Kept(chunks))) == Kept(chunks)
  {
    KeptRetainsAccepted(Kept(chunks));
  }

  /** Nullish chunks disappear and string chunks pass through unchanged. */
  lemma KeptExample()
    ensures Kept([Str("Man"), Str("ish"), Null, Str("Singh")]) == ["Man", "ish", "Singh"]
  {
    assert [Str("Man"), Str("ish"), Null, Str("Singh")] == [Str("Man"), Str("ish")] + [Null] + [Str("Singh")];
    KeptIgnoresNullish([Str("Man"), Str("ish")], Null, [Str("Singh")]);
    assert [Str("Man"), Str("ish")] + [Str("Singh")] == [Str("Man"), Str("ish"), Str("Singh")];
    KeptRetainsAccepted(["Man", "ish", "Singh"]);
    assert AsChunks(["Man", "ish", "Singh"]) == [Str("Man"), Str("ish"), Str("Singh")];
  }

  /** A chunk whose text form starts with a default object rendering is
      dropped wherever it arrives, whether it is a string or not. */
  lemma KeptDropsObjectRendering(a: seq<Chunk>, c: Chunk, b: seq<Chunk>)
    requires TextForm(c).Some? && StartsWith(TextForm(c).value, ObjectTag)
    ensures Kept(a + [c] + b) == Kept(a + b)
  {
    KeptAppend(a + [c], b);
    KeptAppend(a, [c]);
    KeptSingle(c);
    KeptAppend(a, b);
  }

  /** JavaScript's WhiteSpace and LineTerminator characters, which
      `String.prototype.trimStart` removes. */
  predicate IsWhiteSpace(c: char) {
    c == '\t' || c == '\n' || c == '\U{000B}' || c == '\U{000C}' || c == '\r' || c == ' '
    || c == '\U{00A0}' || c == '\U{1680}' || ('\U{2000}' <= c <= '\U{200A}')
    || c == '\U{2028}' || c == '\U{2029}' || c == '\U{202F}' || c == '\U{205F}'
    || c == '\U{3000}' || c == '\U{FEFF}'
  }

  /** `s.trimStart()`: the longest suffix of `s` that does not start with white space. */
  function TrimStart(s: string): (r: string)
    ensures |r| <= |s| && r == s[|s| - |r|..]
    ensures forall i :: 0 <= i < |s| - |r| ==> IsWhiteSpace(s[i])
    ensures r == [] || !IsWhiteSpace(r[0])
  {
    if s != [] && IsWhiteSpace(s[0]) then TrimStart(s[1..]) else s
  }
}
