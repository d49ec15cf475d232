# Chat-history RAG terminal session, modelled in Dafny

This project models the session orchestration in
`src/rag/chathistory/ragWithChatHistory.ts`. The terminal `chat` loop sends each
question to a handler. It then handles whichever answer shape comes back (an
async iterable of chunks, a `ReadableStream` of bytes, a plain string, or
anything else). It writes the answer to stdout and accumulates `answerText`.
Unless an exception reaches the loop's outer `catch`, it then calls the
handler's `answerCallBack`. The handler, `chathandler`, rewrites the question
through the contextualisation chain only when `chatHistory` is non-empty. Its
callback pushes the contextualised question and then the answer text onto
`chatHistory`.

Files and modules:

- `wrappers.dfy` (`Wrappers`): `Option`.
- `chunks.dfy` (`Chunks`): the chunk datatype (`Null | Undefined | Str | Other`)
  and the per-chunk filter. `Kept` gives the texts that are shown and
  accumulated. The file also has `Concat` and JavaScript's `trimStart`.
- `answers.dfy` (`Answers`): the answer-shape datatype and the stream decoder as
  a function parameter. `Deliver` specifies what each shape writes and commits.
  `DrainIterable` is the `for await` loop. `StreamReader` is a class holding the
  reader lock, and `DrainStream` is the reader loop with its `finally`.
- `session.dfy` (`Session`): `ChatSession` is a class whose `chatHistory` field
  is a `seq` that the methods reassign, with `ChatHandler` and `AnswerCallBack`.
  `Contextualize` is the rewrite short-circuit. `TurnEffect` and `Run` specify
  one turn and a sequence of turns. `ChatTurn` and `Chat` are the loop itself.

External calls are parameters. The contextualisation chain is
`Rewriter = (history, question) -> Option<string>`. The generation chain,
awaited, is `Generator = (history, question) -> Option<Answer>`. `None` means
the promise rejects. `TextDecoder` in streaming mode is
`Decoder = (blocks already fed, block) -> string`. Stdout is modelled as the
sequence of strings written: `process.stdout.write(x)` writes `x`, and
`console.log(x)` writes `x + "\n"`.

In these places the program does something one might not expect, and the
model follows the code:

- A failure during async iteration is caught inside the loop, so the text
  accumulated so far is still committed to history (`Answers.PartialCommitIsPrefix`).
  Only a failed byte-stream read, a rejected rewrite or a rejected answer
  promise leaves the history unchanged.
- An unrecognised answer shape is not an error. It writes nothing to stdout and
  commits `""`.
- A plain-string answer is displayed trimmed but stored untrimmed.
- History stores two messages per turn, the contextualised question and the
  answer, both as human messages. It does not store a question/standalone/answer
  triple.
- Empty or whitespace-only questions are not rejected. They go through the
  handler like any other question.

## Model

| member | source | states |
|---|---|---|
| `Chunks.Kept` | src/rag/chathistory/ragWithChatHistory.ts:79-83 | at most one text per chunk, and every kept text is non-empty and does not start with "[object" |
| `Chunks.KeptAppend` | src/rag/chathistory/ragWithChatHistory.ts:77-86 | chunks are judged one at a time and kept texts stay in arrival order: filtering `a + b` gives filtering `a`, then filtering `b` |
| `Chunks.KeptIgnoresNullish` | src/rag/chathistory/ragWithChatHistory.ts:79 | a `null` or `undefined` chunk, wherever it arrives, changes neither the display nor `answerText` |
| `Chunks.KeptSingleIff` | src/rag/chathistory/ragWithChatHistory.ts:79-81 | a chunk is kept if and only if it is not nullish and its text form (the string, or `String(chunk)`) is accepted; when kept it contributes that text form unchanged |
| `Chunks.KeptRetainsAccepted` | src/rag/chathistory/ragWithChatHistory.ts:80-83 | a stream of accepted string chunks is kept whole, in order |
| `Chunks.KeptIdempotent` | src/rag/chathistory/ragWithChatHistory.ts:80-81 | filtering the kept texts again changes nothing |
| `Chunks.KeptExample` | src/rag/chathistory/ragWithChatHistory.ts:77-86 | the chunks "Man", "ish", null, "Singh" give exactly "Man", "ish", "Singh" |
| `Chunks.ChunkText` | src/rag/chathistory/ragWithChatHistory.ts:79-81 | a `null` or `undefined` chunk contributes nothing; any other chunk contributes its text form (the string, or `String(chunk)`) exactly when that text is non-empty and does not start with "[object" |
| `Chunks.KeptDropsObjectRendering` | src/rag/chathistory/ragWithChatHistory.ts:81 | a chunk whose text form starts with "[object", a string chunk or any other, is dropped wherever it arrives |
| `Chunks.TrimStart` | src/rag/chathistory/ragWithChatHistory.ts:108 | the result is the suffix of the input left after removing every leading JavaScript white-space or line-terminator character, and it does not itself start with one |
| `Answers.Decoded` | src/rag/chathistory/ragWithChatHistory.ts:99 | one text per block, in order, each decoded with exactly the blocks fed before it |
| `Answers.Deliver` | src/rag/chathistory/ragWithChatHistory.ts:67-113 | the callback is skipped if and only if a byte-stream read fails; for both streaming shapes stdout is "AI: " followed by exactly the committed text (and "\n\n" on normal completion); a plain string is shown trimmed after "AI: " but committed untrimmed; an unknown shape writes nothing and commits "" |
| `Answers.PartialCommitIsPrefix` | src/rag/chathistory/ragWithChatHistory.ts:88-90 | when async iteration fails, the committed text is what arrived before the failure, and a prefix of what the full answer would have committed |
| `Answers.PlainExample` | src/rag/chathistory/ragWithChatHistory.ts:107-110 | the answer "  hello" is written as "AI: hello\n" and committed as "  hello" |
| `Answers.DrainIterable` | src/rag/chathistory/ragWithChatHistory.ts:75-90 | writes "AI: ", then exactly the kept texts in order, then "\n\n" only if iteration completed; `answerText` is the concatenation of the kept texts, with or without a failure |
| `Answers.StreamReader.constructor` | src/rag/chathistory/ragWithChatHistory.ts:93 | `getReader()` gives a reader at the first block that holds the lock |
| `Answers.StreamReader.Read` | src/rag/chathistory/ragWithChatHistory.ts:97-98 | yields the blocks in order, then completion or a rejection |
| `Answers.StreamReader.ReleaseLock` | src/rag/chathistory/ragWithChatHistory.ts:104 | the lock is released |
| `Answers.DrainStream` | src/rag/chathistory/ragWithChatHistory.ts:95-105 | the lock is released on both exits; it raises exactly when a read rejects; the writes are the decoded blocks in order, and `answerText` is their concatenation |
| `Session.Contextualize` | src/rag/chathistory/ragWithChatHistory.ts:170-178 | with empty history the raw question is used; otherwise the rewriter's result (or its rejection) is used unaltered |
| `Session.FirstTurnIgnoresRewriter` | src/rag/chathistory/ragWithChatHistory.ts:171-178 | on a first turn the result does not depend on the rewriter, so it is not consulted |
| `Session.TurnEffect` | src/rag/chathistory/ragWithChatHistory.ts:62-128 | history keeps its old entries in order and grows by exactly two messages if and only if the rewrite and the answer promise resolve and no byte-stream read fails; the first new message is the contextualised question (the raw question on a first turn), the second is the committed answer text, and the turn's writes are those of its answer, so the text shown after "AI: " is the text stored |
| `Session.Run` | src/rag/chathistory/ragWithChatHistory.ts:58-129 | the loop's turns applied in order to the history and their writes concatenated; the old history is only ever extended |
| `Session.FailedReadCommitsNothing` | src/rag/chathistory/ragWithChatHistory.ts:96-128 | a turn whose byte-stream read fails leaves the history unchanged |
| `Session.RunExtends` | src/rag/chathistory/ragWithChatHistory.ts:58-129 | over any sequence of turns the history only grows, by an even number of messages, at most two per turn, and earlier entries keep their place |
| `Session.ChatSession.constructor` | src/rag/chathistory/ragWithChatHistory.ts:168 | the history starts empty |
| `Session.ChatSession.ChatHandler` | src/rag/chathistory/ragWithChatHistory.ts:169-190 | rejects exactly when the rewrite rejects; otherwise returns the generator's answer for the contextualised question and captures that question for the callback |
| `Session.ChatSession.AnswerCallBack` | src/rag/chathistory/ragWithChatHistory.ts:185-188 | the history becomes the old history followed by the contextualised question and then the answer text |
| `Session.ChatTurn` | src/rag/chathistory/ragWithChatHistory.ts:62-128 | its stdout writes and the new history are exactly those that `TurnEffect` specifies for the old history |
| `Session.Chat` | src/rag/chathistory/ragWithChatHistory.ts:58-129 | after a sequence of questions, the stdout writes and the history are exactly those that `Run` specifies |

## Left out

- Terminal I/O: the `readline` prompt ("Human: "), everything sent to stderr
  (`console.error`), and the "conextualizaQuestion::" log line inside the
  handler are not modelled. The `while (true)` loop is modelled over the finite
  sequence of questions the terminal supplies.
- `response.sources` printing (lines 116-118) is not modelled. This handler
  never supplies sources. The callback is always supplied, so the model always
  takes the `if (response.answerCallBack)` branch.
- The LangChain chains, `ChatOpenAI`, the retriever, `formatDocumentsAsString`
  and the prompt templates (lines 1-37, 131-166) are not modelled. The rewrite
  and generation calls are opaque function parameters that may reject. They are
  deterministic functions of the history and the question.
- `TextDecoder` is an opaque function parameter. The source never flushes the
  decoder after the last block, and the model performs no flush either.
- Runtime type tests (`Symbol.asyncIterator`, `instanceof ReadableStream`,
  `typeof`) are replaced by the tag of the `Answer` datatype. LangChain's
  `stream()` result is both async-iterable and a `ReadableStream`, so the first
  branch applies to it. An async iterable's failure is modelled as a rejection
  after its last delivered chunk.
- The `ReadableStream` branch (lines 91-106) is modelled as written, but it
  appears unreachable under Node. Node's `ReadableStream` from `node:stream/web`
  is itself async-iterable (Node 16.5 and later), so the test at line 74 sends
  every such stream into the async-iterable branch. A byte stream taken there
  would show its chunks as `String(Uint8Array)`, that is comma-separated
  numbers, which the "[object" rule does not drop. In the model this is an
  `Iter` of `Other` chunks. `Stream` models the branch as if it were taken.
  This is an observation from reading the code, not executed.
- Strings are sequences of Unicode scalar values, while JavaScript strings are
  UTF-16 code units. Lone surrogates, and a surrogate pair split across two
  chunks, cannot be represented. The rules modelled here (emptiness, an ASCII
  prefix, leading white space within the Basic Multilingual Plane) do not
  depend on this.
- `getReader()` on an already-locked stream throws. The model's streams are
  never locked beforehand, so that path is not modelled.
- `async`/`await` scheduling is not modelled: each turn runs to completion
  before the next one starts.
- src/llmparameters.ts, src/LcelChains.ts, src/basicPromptTemplates.ts and
  src/common/model.ts are not part of this model. They only configure and
  invoke model clients.
