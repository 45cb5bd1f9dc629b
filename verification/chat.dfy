/** The conversation kept by the page (app.py, the session's `history`):
    "Ask Kelly" appends the question and Kelly's answer, "Clear
    conversation" empties it. The page itself, its widgets and the display
    loop are not part of this model. */
module Chat {
  import opened Strings
  import Reply

  datatype Role = User | Assistant

  /** One message of the history: `{"role": ..., "content": ...}`. */
  datatype Turn = Turn(role: Role, content: string)

  /** The note appended to an answer that came from the local poem. */
  const FallbackNote := "\n\n(Kelly note: the model returned no text; showing a local analytical fallback.)"

  /** The assistant message shown for a reply: its text, followed by the note
      exactly when the reply is the local poem. */
  function AssistantContent(r: Reply.Reply): (content: string)
    ensures r.text <= content
    ensures content == r.text <==> r.source.Gemini?
  {
    if r.source.LocalFallback? then
      assert |r.text + FallbackNote| > |r.text|;
      r.text + FallbackNote
    else r.text
  }

  /** Kelly's answer to a question, as the history records it: never empty. */
  method Answer(userInput: string, modelName: string, maxRetries: int,
                remote: nat -> Reply.Outcome, unescape: string -> string)
    returns (text: string)
    ensures text == AssistantContent(Reply.KellyRun(userInput, modelName, maxRetries, remote, unescape).reply)
    ensures text != ""
  {
    var reply, calls, backoffs := Reply.KellyReply(userInput, modelName, maxRetries, remote, unescape);
    text := reply.text;
    if reply.source.LocalFallback? {
      text := text + FallbackNote;
    }
    Reply.ReplyNonEmpty(userInput, modelName, maxRetries, remote, unescape);
  }

  /** The history is a run of exchanges: a question that is not blank,
      then a non-empty answer. */
  ghost predicate Exchanges(h: seq<Turn>)
    decreases |h|
  {
    h == []
    || (&& |h| >= 2
        && h[0].role == User && !AllSpace(h[0].content)
        && h[1].role == Assistant && h[1].content != ""
        && Exchanges(h[2..]))
  }

  /** One more exchange at the end keeps the history a run of exchanges. */
  lemma {:induction false} ExchangesAppend(h: seq<Turn>, question: Turn, answer: Turn)
    requires Exchanges(h)
    requires question.role == User && !AllSpace(question.content)
    requires answer.role == Assistant && answer.content != ""
    ensures Exchanges(h + [question, answer])
    decreases |h|
  {
    if h == [] {
      assert [question, answer][2..] == [];
    } else {
      ExchangesAppend(h[2..], question, answer);
      assert (h + [question, answer])[2..] == h[2..] + [question, answer];
    }
  }

  /** The session state of the page: the conversation so far. */
  class Session {
    var history: seq<Turn>

    ghost predicate Valid()
      reads this
    {
      Exchanges(history)
    }

    /** A new session starts with an empty history. */
    constructor ()
      ensures history == [] && Valid()
    {
      history := [];
    }

    /** "Clear conversation": the history becomes empty. */
    method Clear()
      modifies this
      ensures history == [] && Valid()
    {
      history := [];
    }

    /** "Ask Kelly": a blank question changes nothing; otherwise the
        question is appended, Kelly is asked, and her answer is appended,
        with the note when it is the local poem. */
    method Ask(userInput: string, modelName: string, maxRetries: int,
               remote: nat -> Reply.Outcome, unescape: string -> string)
      requires Valid()
      modifies this
      ensures Valid()
      ensures AllSpace(userInput) ==> history == old(history)
      ensures !AllSpace(userInput) ==>
                history == old(history)
                           + [Turn(User, userInput),
                              Turn(Assistant, AssistantContent(Reply.KellyRun(userInput, modelName, maxRetries, remote, unescape).reply))]
    {
      StripEmptyIff(userInput);
      if Strip(userInput) != "" {
        ghost var before := history;
        history := history + [Turn(User, userInput)];
        var text := Answer(userInput, modelName, maxRetries, remote, unescape);
        history := history + [Turn(Assistant, text)];
        assert history == before + [Turn(User, userInput), Turn(Assistant, text)];
        ExchangesAppend(before, Turn(User, userInput), Turn(Assistant, text));
      }
    }
  }
}
