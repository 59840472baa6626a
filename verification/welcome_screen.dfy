/** The welcome screen of WelcomeScreen.jsx: one text field and a form
    whose submission hands the query to the router. */
module WelcomeScreen {
  import opened Wrappers
  import opened Text

  /** The screen's only state, the text field's value. */
  datatype Welcome = Welcome(query: string)

  const InitialWelcome: Welcome := Welcome("")

  /** The field's change handler: the query becomes the field value as
      typed. */
  function Typed(w: Welcome, value: string): (r: Welcome)
    ensures r.query == value
  {
    w.(query := value)
  }

  /** What submitting the form does: the state afterwards, and the argument
      `onStartChat` was called with, if it was called. */
  datatype Submitted = Submitted(state: Welcome, startChat: Option<string>)

  /** `handleSubmit`: a query whose trim is empty calls nothing; any other
      query is forwarded once, untrimmed. The query itself is kept. */
  function Submit(w: Welcome): (r: Submitted)
    ensures r.state == w
    ensures r.startChat.Some? <==> !IsBlank(w.query)
    ensures r.startChat.Some? ==> r.startChat.value == w.query
  {
    if IsBlank(w.query) then Submitted(w, None) else Submitted(w, Some(w.query))
  }

  /** A query of whitespace only, of any length, never leaves the welcome
      screen; anything with a visible character does. */
  lemma OnlyVisibleQueriesStartChat(w: Welcome)
    ensures Submit(w).startChat == None <==>
      forall i :: 0 <= i < |w.query| ==> IsWhitespace(w.query[i])
  {
    BlankIffAllWhitespace(w.query);
  }
}
