/** The chat screen of unzipped_app/ChatInterface.jsx as an explicit state
    machine over (transcript, input field, loading flag). Message ids and
    timestamps are clock values and are not modelled; one send is split into
    its synchronous part (Begin) and the part after the backend call settles
    (Settle). */
module ChatSession {
  import opened Wrappers
  import opened Text
  import Knowledge

  type Source = Knowledge.Source

  /** The reply `callBackendAPI` substitutes for any failed request. */
  const ConnectionFallback: string :=
    "I'm sorry, I'm having trouble connecting to the server right now. Please try again later."

  /** The reply shown when reading the backend's answer itself throws. */
  const ErrorFallback: string := "I'm sorry, I encountered an error. Please try again."

  /** A transcript entry. A bot message's text is `None` when the answer had
      no `response` field (JavaScript's `undefined`). */
  datatype Message =
    | UserMessage(text: string)
    | BotMessage(reply: Option<string>, sources: seq<Source>)

  /** The component's three pieces of state. */
  datatype Session = Session(transcript: seq<Message>, input: string, loading: bool)

  /** The state the component mounts with. */
  const Initial: Session := Session([], "", false)

  /** The value `response.json()` yields for a parsed body: JSON `null`, or an
      object with optional `response` and `sources` fields. */
  datatype Body =
    | NullBody
    | ObjectBody(response: Option<string>, sources: Option<seq<Source>>)

  /** How the `fetch` of one request ends: it rejects, or a response arrives
      whose body parses to `Some` value or fails to parse (`None`). */
  datatype FetchOutcome =
    | FetchRejected
    | Responded(ok: bool, body: Option<Body>)

  /** The body `callBackendAPI` hands back when anything went wrong. */
  const FallbackBody: Body := ObjectBody(Some(ConnectionFallback), Some([]))

  /** `callBackendAPI`: a rejected fetch, a non-ok status and an unparsable
      body all become the fixed fallback; only a parsed body of an ok
      response passes through, unchanged. It never fails. */
  function CallBackend(outcome: FetchOutcome): (body: Body)
    ensures (outcome.FetchRejected? || !outcome.ok || outcome.body == None) ==> body == FallbackBody
    ensures (outcome.Responded? && outcome.ok && outcome.body.Some?) ==> body == outcome.body.value
  {
    match outcome
    case FetchRejected => FallbackBody
    case Responded(ok, parsed) =>
      if !ok then FallbackBody
      else match parsed
        case None => FallbackBody
        case Some(b) => b
  }

  /** The bot message built from the awaited answer: its `response` and its
      `sources` (an absent list read as empty); reading a field of `null`
      throws, and the handler's catch shows the error fallback instead. */
  function BotReply(body: Body): (m: Message)
    ensures m.BotMessage?
    ensures body.NullBody? ==> m == BotMessage(Some(ErrorFallback), [])
    ensures body.ObjectBody? ==> m.reply == body.response
    ensures body.ObjectBody? && body.sources.Some? ==> m.sources == body.sources.value
    ensures body.ObjectBody? && body.sources.None? ==> m.sources == []
  {
    match body
    case NullBody => BotMessage(Some(ErrorFallback), [])
    case ObjectBody(response, sources) => BotMessage(response, sources.GetOr([]))
  }

  /** The result of the synchronous part of a send: the new state and the
      text posted to the backend, if a request was made. */
  datatype Started = Started(state: Session, request: Option<string>)

  /** `handleSendMessage(messageText)` up to its `await`. Blank text changes
      nothing and posts nothing. Otherwise the text, untrimmed, is appended
      as one user message, the input is cleared, loading is set, and that
      same text is posted. */
  function Begin(s: Session, messageText: string): (r: Started)
    ensures IsBlank(messageText) <==> r.request == None
    ensures IsBlank(messageText) ==> r.state == s
    ensures !IsBlank(messageText) ==>
      && r.request == Some(messageText)
      && r.state == Session(s.transcript + [UserMessage(messageText)], "", true)
  {
    if IsBlank(messageText) then
      Started(s, None)
    else
      Started(Session(s.transcript + [UserMessage(messageText)], "", true), Some(messageText))
  }

  /** `handleSendMessage` after its `await`: exactly one bot message is
      appended and loading is cleared, whatever the answer was. */
  function Settle(s: Session, body: Body): (r: Session)
    ensures r.transcript == s.transcript + [BotReply(body)]
    ensures !r.loading
    ensures r.input == s.input
  {
    Session(s.transcript + [BotReply(body)], s.input, false)
  }

  /** One whole send of `messageText` whose request ends with `outcome`. */
  function Send(s: Session, messageText: string, outcome: FetchOutcome): (r: Session)
    ensures IsBlank(messageText) ==> r == s
    ensures !IsBlank(messageText) ==>
      && r.transcript == s.transcript + [UserMessage(messageText), BotReply(CallBackend(outcome))]
      && r.input == ""
      && !r.loading
  {
    var started := Begin(s, messageText);
    if started.request == None then
      started.state
    else
      SettleAfterBegin(s, messageText, started.state, CallBackend(outcome));
      Settle(started.state, CallBackend(outcome))
  }

  /** Settling the state a send began leaves the user message followed by
      the bot reply. */
  lemma SettleAfterBegin(s: Session, messageText: string, begun: Session, body: Body)
    requires begun == Session(s.transcript + [UserMessage(messageText)], "", true)
    ensures var r := Settle(begun, body);
      && r.transcript == s.transcript + [UserMessage(messageText), BotReply(body)]
      && r.input == ""
      && !r.loading
  {
    assert begun.transcript + [BotReply(body)] == s.transcript + [UserMessage(messageText), BotReply(body)];
  }

  /** The send button's enablement: not loading and a non-blank input. */
  predicate SendEnabled(s: Session)
  {
    !s.loading && !IsBlank(s.input)
  }

  /** `handleKeyPress`'s trigger: Enter without Shift. */
  predicate IsSendKey(key: string, shift: bool)
  {
    key == "Enter" && !shift
  }

  /** What the user or the network can do to the chat screen. */
  datatype Event =
    | Typed(value: string)
    | KeyPressed(key: string, shift: bool)
    | SendClicked
    | Settled(outcome: FetchOutcome)

  /** The effect of one event. The input field is disabled while loading,
      so typing and key presses then do nothing; a disabled send button
      does nothing; a backend call settles only while one is pending. */
  function Step(s: Session, e: Event): (r: Session)
    ensures e.Typed? && !s.loading ==> r == s.(input := e.value)
    ensures e.KeyPressed? && !s.loading && IsSendKey(e.key, e.shift) ==> r == Begin(s, s.input).state
    ensures e.KeyPressed? && !IsSendKey(e.key, e.shift) ==> r == s
    ensures e.SendClicked? ==> (SendEnabled(s) <==> r.loading && !s.loading)
    ensures e.SendClicked? && SendEnabled(s) ==> r == Begin(s, s.input).state
    ensures e.SendClicked? && !SendEnabled(s) ==> r == s
    ensures e.Settled? && s.loading ==> r == Settle(s, CallBackend(e.outcome))
    ensures e.Settled? && !s.loading ==> r == s
    ensures !e.Settled? && s.loading ==> r == s
  {
    match e
    case Typed(v) =>
      if s.loading then s else s.(input := v)
    case KeyPressed(key, shift) =>
      if s.loading || !IsSendKey(key, shift) then s else Begin(s, s.input).state
    case SendClicked =>
      if !SendEnabled(s) then s else Begin(s, s.input).state
    case Settled(outcome) =>
      if !s.loading then s else Settle(s, CallBackend(outcome))
  }

  /** The state after a sequence of events. */
  function Run(s: Session, events: seq<Event>): Session
    decreases |events|
  {
    if events == [] then s else Run(Step(s, events[0]), events[1..])
  }

  /** The mount effect: a non-empty `initialQuery` is sent once, as it is;
      an empty one sends nothing. */
  function Mount(initialQuery: string): (r: Started)
    ensures initialQuery == "" ==> r == Started(Initial, None)
    ensures !IsBlank(initialQuery) ==>
      r == Started(Session([UserMessage(initialQuery)], "", true), Some(initialQuery))
    ensures IsBlank(initialQuery) ==> r == Started(Initial, None)
  {
    if initialQuery != "" then
      Begin(Initial, initialQuery)
    else
      assert IsBlank(initialQuery);
      Started(Initial, None)
  }

  /** The transcript alternates user and bot messages starting with a user
      message, and the loading flag is up exactly when the last user message
      still awaits its reply: at most one request is ever outstanding and
      every bot message answers the user message just before it. */
  ghost predicate WellFormed(s: Session)
  {
    && (forall i :: 0 <= i < |s.transcript| ==> (s.transcript[i].UserMessage? <==> i % 2 == 0))
    && (s.loading <==> |s.transcript| % 2 == 1)
  }

  /** The transcript only ever grows at its end. */
  ghost predicate IsPrefix(a: seq<Message>, b: seq<Message>)
  {
    |a| <= |b| && b[..|a|] == a
  }

  /** Alternation survives appending a message of the sender whose turn it
      is. */
  lemma AppendAlternates(t: seq<Message>, m: Message)
    requires forall i :: 0 <= i < |t| ==> (t[i].UserMessage? <==> i % 2 == 0)
    requires m.UserMessage? <==> |t| % 2 == 0
    ensures forall i :: 0 <= i < |t + [m]| ==> ((t + [m])[i].UserMessage? <==> i % 2 == 0)
  {
    forall i | 0 <= i < |t + [m]|
      ensures (t + [m])[i].UserMessage? <==> i % 2 == 0
    {
      if i < |t| {
        assert (t + [m])[i] == t[i];
      }
    }
  }

  /** Every state the mount effect can produce is well formed. */
  lemma MountWellFormed(initialQuery: string)
    ensures WellFormed(Mount(initialQuery).state)
  {
    if !IsBlank(initialQuery) {
      AppendAlternates([], UserMessage(initialQuery));
    }
  }

  /** Appending the message whose turn it is, and flipping loading, keeps
      the state well formed and the old transcript as a prefix. */
  lemma AppendPreserves(s: Session, m: Message, r: Session)
    requires WellFormed(s)
    requires r.transcript == s.transcript + [m]
    requires m.UserMessage? <==> !s.loading
    requires r.loading == !s.loading
    ensures WellFormed(r)
    ensures IsPrefix(s.transcript, r.transcript)
  {
    AppendAlternates(s.transcript, m);
    assert r.transcript[..|s.transcript|] == s.transcript;
  }

  /** One event keeps the transcript's history and its shape. */
  lemma StepPreserves(s: Session, e: Event)
    requires WellFormed(s)
    ensures WellFormed(Step(s, e))
    ensures IsPrefix(s.transcript, Step(s, e).transcript)
  {
    var r := Step(s, e);
    match e
    case Typed(_) =>
      assert r.transcript == s.transcript && r.loading == s.loading;
    case Settled(o) =>
      if s.loading {
        AppendPreserves(s, BotReply(CallBackend(o)), r);
      } else {
        assert r == s;
      }
    case _ =>
      if r.transcript == s.transcript {
        assert r.loading == s.loading;
      } else {
        AppendPreserves(s, UserMessage(s.input), r);
      }
  }

  /** Over any sequence of events: nothing is ever removed from or changed
      in the transcript, the state stays well formed, and a settled request
      always leaves loading cleared. */
  lemma {:induction false} RunPreserves(s: Session, events: seq<Event>)
    requires WellFormed(s)
    ensures WellFormed(Run(s, events))
    ensures IsPrefix(s.transcript, Run(s, events).transcript)
    decreases |events|
  {
    if events != [] {
      var next := Step(s, events[0]);
      StepPreserves(s, events[0]);
      RunPreserves(next, events[1..]);
      var t := Run(s, events).transcript;
      assert t[..|next.transcript|][..|s.transcript|] == t[..|s.transcript|];
    }
  }

  /** Repeated failures always produce the same fallback bot message. */
  lemma FailuresLookAlike(o1: FetchOutcome, o2: FetchOutcome)
    requires o1.FetchRejected? || !o1.ok || o1.body == None
    requires o2.FetchRejected? || !o2.ok || o2.body == None
    ensures BotReply(CallBackend(o1)) == BotReply(CallBackend(o2))
            == BotMessage(Some(ConnectionFallback), [])
  {
  }
}
