/** The history-aware handler and the terminal chat loop
    (src/rag/chathistory/ragWithChatHistory.ts, lines 52-130 and 168-190):
    whether a question is rewritten, which answer text reaches the callback,
    and how the callback grows the in-memory chat history. */
module Session {
  import opened Wrappers
  import opened Chunks
  import opened Answers

  /** A chat message. The handler records both the question and the answer
      as human messages. */
  datatype Message = HumanMessage(content: string)

  /** The contextualisation chain's `invoke`: the rewritten question, or None
      when the call rejects. */
  type Rewriter = (seq<Message>, string) -> Option<string>

  /** The generation chain's `stream`, once awaited: the answer, or None when
      the promise rejects. */
  type Generator = (seq<Message>, string) -> Option<Answer>

  /** `console.log("Please try again.")` in the loop's outer `catch`. */
  const TryAgain: string := "Please try again.\n"

  /** Lines 170-178: the question the turn uses. With no history the raw
      question is used as is and the rewriter is not consulted; otherwise
      the rewriter's result is used unaltered, and its rejection is the
      handler's. */
  function Contextualize(history: seq<Message>, question: string, rewrite: Rewriter): (r: Option<string>)
    ensures history == [] ==> r == Some(question)
    ensures history != [] ==> r == rewrite(history, question)
  {
    if |history| > 0 then rewrite(history, question) else Some(question)
  }

  /** The rewriter's behaviour is irrelevant on a first turn. */
  lemma FirstTurnIgnoresRewriter(question: string, rewrite1: Rewriter, rewrite2: Rewriter)
    ensures Contextualize([], question, rewrite1) == Contextualize([], question, rewrite2) == Some(question)
  {
  }

  /** The stdout writes of one turn and the history after it. */
  datatype TurnResult = TurnResult(written: seq<string>, history: seq<Message>)

  /** The effect of one pass of the loop body (lines 62-128) with the
      handler of lines 169-190. */
  function TurnEffect(history: seq<Message>, question: string, rewrite: Rewriter, generate: Generator,
                      decode: Decoder): (r: TurnResult)
    ensures |history| <= |r.history| && r.history[..|history|] == history
    ensures |r.history| == |history| + 2 <==>
      var q := Contextualize(history, question, rewrite);
      q.Some? && generate(history, q.value).Some? && Deliver(generate(history, q.value).value, decode).commit.Some?
    ensures |r.history| != |history| + 2 ==> r.history == history
    ensures |r.history| == |history| + 2 ==>
      r.history[|history|] == HumanMessage(Contextualize(history, question, rewrite).value)
    ensures history == [] && r.history != [] ==> r.history[0] == HumanMessage(question)
    ensures |r.history| == |history| + 2 ==>
      var a := generate(history, Contextualize(history, question, rewrite).value).value;
      r.history[|history| + 1] == HumanMessage(Deliver(a, decode).commit.value)
      && r.written == Deliver(a, decode).written
  {
    match Contextualize(history, question, rewrite)
    case None => TurnResult([TryAgain], history)
    case Some(q) =>
      match generate(history, q)
      case None => TurnResult([TryAgain], history)
      case Some(answer) =>
        var d := Deliver(answer, decode);
        match d.commit
        case None => TurnResult(d.written + [TryAgain], history)
        case Some(text) => TurnResult(d.written, history + [HumanMessage(q), HumanMessage(text)])
  }

  /** A turn whose byte stream fails mid-read leaves the history as it was;
      a turn whose async iteration fails still commits what arrived. */
  lemma FailedReadCommitsNothing(history: seq<Message>, question: string, rewrite: Rewriter,
                                 generate: Generator, decode: Decoder)
    requires Contextualize(history, question, rewrite).Some?
    requires var a := generate(history, Contextualize(history, question, rewrite).value);
      a.Some? && a.value.Stream? && a.value.ending == Throws
    ensures TurnEffect(history, question, rewrite, generate, decode).history == history
  {
  }

  /** The stdout writes and the history after a sequence of turns: the old
      history is never rewritten, only extended. */
  function Run(history: seq<Message>, questions: seq<string>, rewrite: Rewriter, generate: Generator,
               decode: Decoder): (r: TurnResult)
    ensures |history| <= |r.history| && r.history[..|history|] == history
  {
    if questions == [] then TurnResult([], history)
    else
      var before := Run(history, questions[..|questions| - 1], rewrite, generate, decode);
      var turn := TurnEffect(before.history, questions[|questions| - 1], rewrite, generate, decode);
      TurnResult(before.written + turn.written, turn.history)
  }

  /** Across any sequence of turns the history only grows, two messages per
      committed turn, and earlier entries keep their place and order. */
  lemma {:induction false} RunExtends(history: seq<Message>, questions: seq<string>, rewrite: Rewriter,
                                      generate: Generator, decode: Decoder)
    ensures var h := Run(history, questions, rewrite, generate, decode).history;
      |history| <= |h| <= |history| + 2 * |questions| && (|h| - |history|) % 2 == 0 && h[..|history|] == history
    decreases |questions|
  {
    if questions != [] {
      var before := Run(history, questions[..|questions| - 1], rewrite, generate, decode).history;
      RunExtends(history, questions[..|questions| - 1], rewrite, generate, decode);
      var after := TurnEffect(before, questions[|questions| - 1], rewrite, generate, decode).history;
      assert after[..|before|] == before;
      assert after[..|history|] == before[..|history|];
    }
  }

  /** The module-level `chatHistory` array with the handler that reads it
      and the answer callback that appends to it. */
  class ChatSession {
    var chatHistory: seq<Message>

    /** Line 168: the history starts empty. */
    constructor ()
      ensures chatHistory == []
    {
      chatHistory := [];
    }

    /** `chathandler` (lines 169-190): None when the rewrite rejects;
        otherwise the answer promise and the contextualised question the
        callback has captured. */
    method ChatHandler(question: string, rewrite: Rewriter, generate: Generator) returns (response: Option<Response>)
      ensures response.None? <==> Contextualize(chatHistory, question, rewrite).None?
      ensures response.Some? ==>
        var q := Contextualize(chatHistory, question, rewrite).value;
        response.value == Response(generate(chatHistory, q), q)
    {
      var contextualized: string;
      if |chatHistory| > 0 {
        var rewritten := rewrite(chatHistory, question);
        if rewritten.None? {
          return None;
        }
        contextualized := rewritten.value;
      } else {
        contextualized := question;
      }
      response := Some(Response(generate(chatHistory, contextualized), contextualized));
    }

    /** The returned `answerCallBack` (lines 185-188): push the contextualised
        question, then the answer text. */
    method AnswerCallBack(contextualized: string, answerText: string)
      modifies this
      ensures chatHistory == old(chatHistory) + [HumanMessage(contextualized), HumanMessage(answerText)]
    {
      chatHistory := chatHistory + [HumanMessage(contextualized)];
      chatHistory := chatHistory + [HumanMessage(answerText)];
    }
  }

  /** What the handler resolves to: the awaited answer (None if it rejects)
      and the question its callback will record. */
  datatype Response = Response(answer: Option<Answer>, contextualized: string)

  /** One pass of the loop body (lines 62-128): call the handler, dispatch on
      the answer's shape, and invoke the callback unless an exception reached
      the outer `catch`. */
  method ChatTurn(session: ChatSession, question: string, rewrite: Rewriter, generate: Generator, decode: Decoder)
    returns (written: seq<string>)
    modifies session
    ensures TurnEffect(old(session.chatHistory), question, rewrite, generate, decode)
      == TurnResult(written, session.chatHistory)
  {
    var response := session.ChatHandler(question, rewrite, generate);
    if response.None? || response.value.answer.None? {
      written := [TryAgain];
      return;
    }
    var answer := response.value.answer.value;
    var answerText := "";
    var raised := false;
    match answer {
      case Iter(chunks, ending) =>
        written, answerText := DrainIterable(chunks, ending);
      case Stream(blocks, ending) =>
        written := [AiPrefix];
        var reader := new StreamReader(blocks, ending);
        var texts;
        texts, answerText, raised := DrainStream(reader, decode);
        written := written + texts;
        if !raised {
          written := written + [StreamEnd];
        }
      case Plain(text) =>
        var trimmed := TrimStart(text);
        written := [AiPrefix + trimmed + "\n"];
        answerText := text;
      case Unknown =>
        written := [];
    }
    if raised {
      written := written + [TryAgain];
    } else {
      session.AnswerCallBack(response.value.contextualized, answerText);
    }
  }

  /** The `while (true)` loop of `chat` (lines 58-129), run over the
      questions the terminal supplies. */
  method Chat(session: ChatSession, questions: seq<string>, rewrite: Rewriter, generate: Generator, decode: Decoder)
    returns (written: seq<string>)
    modifies session
    ensures Run(old(session.chatHistory), questions, rewrite, generate, decode)
      == TurnResult(written, session.chatHistory)
  {
    written := [];
    var i := 0;
    while i < |questions|
      invariant 0 <= i <= |questions|
      invariant Run(old(session.chatHistory), questions[..i], rewrite, generate, decode)
        == TurnResult(written, session.chatHistory)
    {
      assert questions[..i + 1][..i] == questions[..i];
      var w := ChatTurn(session, questions[i], rewrite, generate, decode);
      written := written + w;
      i := i + 1;
    }
    assert questions[..i] == questions;
  }
}
