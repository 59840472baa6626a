/** The two-screen router of App.jsx, and the entry flow it composes: the
    welcome screen's submission opens the chat screen, which sends the
    carried query when it mounts. */
module App {
  import opened Wrappers
  import opened Text
  import WelcomeScreen
  import ChatSession

  /** `showChat` and `initialQuery`. */
  datatype Router = Router(showChat: bool, initialQuery: string)

  const InitialRouter: Router := Router(false, "")

  /** Which component is rendered. */
  datatype Screen = WelcomeShown | ChatShown(initialQuery: string)

  /** `handleStartChat(query = '')`; `None` is a call without argument. The
      query is stored as given and the chat screen is switched on. */
  function StartChat(r: Router, query: Option<string>): (r': Router)
    ensures r'.showChat
    ensures query.Some? ==> r'.initialQuery == query.value
    ensures query == None ==> r'.initialQuery == ""
  {
    Router(true, query.GetOr(""))
  }

  /** The render: the welcome screen exactly when `showChat` is false,
      otherwise the chat screen given the stored query. */
  function View(r: Router): (s: Screen)
    ensures s == WelcomeShown <==> !r.showChat
    ensures r.showChat ==> s == ChatShown(r.initialQuery)
  {
    if !r.showChat then WelcomeShown else ChatShown(r.initialQuery)
  }

  /** The router after a sequence of `handleStartChat` calls. */
  function StartChats(r: Router, queries: seq<Option<string>>): Router
    decreases |queries|
  {
    if queries == [] then r else StartChats(StartChat(r, queries[0]), queries[1..])
  }

  /** Nothing turns the chat screen back off: once shown it stays shown, and
      any call at all shows it. */
  lemma {:induction false} ChatIsFinal(r: Router, queries: seq<Option<string>>)
    ensures r.showChat || queries != [] ==> StartChats(r, queries).showChat
    ensures queries == [] ==> StartChats(r, queries) == r
    decreases |queries|
  {
    if queries != [] {
      ChatIsFinal(StartChat(r, queries[0]), queries[1..]);
    }
  }

  /** Submitting the welcome form, wired to the router. */
  function SubmitWelcome(r: Router, w: WelcomeScreen.Welcome): Router
  {
    match WelcomeScreen.Submit(w).startChat
    case Some(q) => StartChat(r, Some(q))
    case None => r
  }

  /** The entry flow from a fresh page: typing `query` and submitting it
      leaves the router untouched when the query is blank; otherwise the
      chat screen opens with the raw query, mounts, and sends exactly that
      query as its first and only user message. */
  lemma EntryFlow(query: string)
    ensures var w := WelcomeScreen.Typed(WelcomeScreen.InitialWelcome, query);
      var r := SubmitWelcome(InitialRouter, w);
      && (IsBlank(query) ==> r == InitialRouter && View(r) == WelcomeShown)
      && (!IsBlank(query) ==>
          && View(r) == ChatShown(query)
          && ChatSession.Mount(r.initialQuery).request == Some(query)
          && ChatSession.Mount(r.initialQuery).state.transcript == [ChatSession.UserMessage(query)])
  {
  }
}
