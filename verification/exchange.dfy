/** One round trip between the chat screen and the `/chat` endpoint: the
    text the screen posts is the message the handler reads, and the JSON the
    handler returns is the body the screen awaits. */
module Exchange {
  import opened Wrappers
  import opened Text
  import opened Knowledge
  import opened ChatEndpoint
  import opened ChatSession

  /** The handler's reply as the browser receives it. A 2xx status is ok;
      an error reply's body has no `response` or `sources` field. */
  function Transport(reply: Reply): FetchOutcome
  {
    match reply
    case Answered(response, sources) => Responded(true, Some(ObjectBody(Some(response), Some(sources))))
    case Rejected(status, _) => Responded(200 <= status < 300, Some(ObjectBody(None, None)))
  }

  /** Sending a non-blank text through to the handler: the screen gains the
      user's text and then a bot message holding the model's answer to the
      assembled prompt and that same text, with the matched entry's
      citations. The handler's "Message is required" refusal is therefore
      never reached from the chat screen. */
  lemma RoundTrip(s: Session, text: string, model: (string, string) -> string)
    requires !IsBlank(text)
    ensures var k := GetRelevantKnowledge(text);
      Send(s, text, Transport(HandleChat(Some(text), model).reply)).transcript
        == s.transcript + [UserMessage(text), BotMessage(Some(model(SystemPrompt(k), text)), SourcesOf(k))]
  {
    NonBlankIsNonEmpty(text);
    var k := GetRelevantKnowledge(text);
    var answer := model(SystemPrompt(k), text);
    var reply := HandleChat(Some(text), model).reply;
    assert reply == Answered(answer, SourcesOf(k));
    AnsweredSend(s, text, answer, SourcesOf(k));
  }

  /** An answered request shows its answer and citations unchanged. */
  lemma AnsweredSend(s: Session, text: string, answer: string, sources: seq<Source>)
    requires !IsBlank(text)
    ensures Send(s, text, Transport(Answered(answer, sources))).transcript
         == s.transcript + [UserMessage(text), BotMessage(Some(answer), sources)]
  {
    assert CallBackend(Transport(Answered(answer, sources))) == ObjectBody(Some(answer), Some(sources));
  }

  /** A refusal by the handler reaches the user as the connection fallback,
      not as the handler's error text. */
  lemma RefusalShowsFallback(message: Option<string>, model: (string, string) -> string)
    requires message == None || message == Some("")
    ensures BotReply(CallBackend(Transport(HandleChat(message, model).reply)))
         == BotMessage(Some(ConnectionFallback), [])
  {
  }
}
