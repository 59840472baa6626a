# BCA Expert chat — Dafny model

BCA Expert is a small chat application about the Building Code of Australia.
A welcome screen takes a first question. A router then swaps it for a chat
screen. The chat screen posts each question to a Flask `/chat` endpoint. That
endpoint matches the question against a four-entry knowledge base by keyword,
builds a system prompt from the matching entry, asks a language model, and
returns the answer together with the entry's citations.

This project models the deterministic parts of that flow and proves
properties about them:

- `Text` (text.dfy): the blank test behind JavaScript's `trim()`, ASCII
  lower-casing, and Python's substring test `needle in hay`.
- `Knowledge` (knowledge.dfy): the `BCA_KNOWLEDGE_BASE` table, the keyword
  lists and the priority classifier `get_relevant_knowledge`.
- `ChatEndpoint` (chat_endpoint.dfy): the `/chat` handler. It covers
  validation, system-prompt assembly (as a function and as the loop the
  handler runs) and the reply shape. The language model is the parameter
  `model: (string, string) -> string`.
- `ChatSession` (chat_session.dfy): the chat screen as a state machine over
  (transcript, input, loading). A send is split into `Begin` (up to the
  `await`) and `Settle` (after it). `callBackendAPI` maps the fetch outcome to
  a body, and `Step` applies UI events.
- `WelcomeScreen` (welcome_screen.dfy) and `App` (app.dfy): the trim gate on
  the welcome form, the two-screen router, and the entry flow into the chat
  screen.
- `Exchange` (exchange.dfy): one round trip from the chat screen through the
  handler and back.

Behaviour of the code that the model keeps, though a reader might expect otherwise:

- There are two fallback texts, not one. `callBackendAPI` substitutes the
  connection fallback for a rejected fetch, a non-ok status or an unparsable
  body.
- A body that parses to JSON `null` makes `apiResponse.response` throw. The
  handler's catch then shows "I'm sorry, I encountered an error. Please try
  again.".
- A bot message's text is whatever `response` field the body had. It is
  `undefined` (`None` here) when the field is missing.
- The backend refuses only an empty or missing message. A message of spaces is
  classified and sent to the model, while the client never posts one.

## Model

| member | source | states |
|---|---|---|
| Text.Contains | chat.py:76 | the executable search answers true exactly when the keyword occurs somewhere in the text as a contiguous substring |
| Text.Lower | chat.py:74 | lower-casing keeps the length and maps each character on its own, leaving no upper-case ASCII letter |
| Text.LowerIdempotent | chat.py:74 | lower-casing a lower-cased query changes nothing |
| Text.TrimIsSlice | unzipped_app/ChatInterface.jsx:51 | the trimmed text is a contiguous piece of the text, and only whitespace is cut away before and after it |
| Text.BlankIffAllWhitespace | unzipped_app/ChatInterface.jsx:51 | `text.trim()` is empty exactly when every character of the text is whitespace |
| Knowledge.EntryFor | chat.py:10-70 | every topic's key is in the table and its entry carries at least one citation |
| Knowledge.AnyKeyword | chat.py:76 | `any(keyword in q ...)` holds exactly when some keyword of the list is a substring of q |
| Knowledge.Classify | chat.py:72-85 | fire safety is chosen exactly when a fire keyword occurs in the lower-cased query; energy exactly when an energy keyword occurs and no fire keyword does; structural exactly when a structural keyword occurs and neither earlier list hits; accessibility exactly when only the last list hits |
| Knowledge.PriorityOrder | chat.py:76-83 | a topic is the answer exactly when the query mentions one of its keywords and no keyword of a topic tested earlier |
| Knowledge.NoneIffNoKeyword | chat.py:84-85 | no entry is found exactly when no keyword of any of the four lists is a substring of the lower-cased query |
| Knowledge.GetRelevantKnowledge | chat.py:72-85 | the result is None exactly when no topic is chosen, and otherwise the table entry of the chosen topic |
| Knowledge.FireWins | chat.py:76-77 | a fire keyword in the query selects the fire-safety entry whatever other keywords appear |
| Knowledge.CaseInsensitive | chat.py:74 | a query and its lower-cased form find the same entry |
| Knowledge.DownloadMatchesLoad | chat.py:80-81 | matching is by substring: "Download" contains "load" and selects the structural entry |
| ChatEndpoint.SourceLinesSnoc | chat.py:157-158 | each pass of the loop appends exactly the line of the next source to the lines built so far |
| ChatEndpoint.SourceLineAt | chat.py:157-158 | each source contributes its own line, which starts where the lines of the earlier sources end |
| ChatEndpoint.SystemPrompt | chat.py:141-159 | without knowledge the prompt is the base instructions; with it the prompt starts with them and continues with the summary block and the citation lines |
| ChatEndpoint.BuildSystemPrompt | chat.py:154-159 | growing the context one source line at a time, as the handler's loop does, yields the same prompt |
| ChatEndpoint.PromptCarriesEveryCitation | chat.py:155-159 | with a match, every citation of the entry appears in the prompt as its own line, in list order, after the base instructions and the summary |
| ChatEndpoint.HandleChat | chat.py:128-171 | a missing or empty message gets status 400 "Message is required" and no model call; any other message makes one model call with the assembled prompt and the message, returns the model's answer verbatim, and returns the matched entry's citations |
| ChatEndpoint.ReplySources | chat.py:165-167 | the returned citations are the matched entry's list in order, or empty when nothing matched |
| ChatEndpoint.WhitespaceMessageIsAnswered | chat.py:132-135 | the handler tests only for emptiness: a message of spaces is answered, with the base prompt alone |
| ChatSession.CallBackend | unzipped_app/ChatInterface.jsx:24-48 | a rejected fetch, a non-ok status or an unparsable body all give the connection fallback with empty sources; a parsed ok body passes through unchanged; no outcome escapes as an error |
| ChatSession.BotReply | unzipped_app/ChatInterface.jsx:64-85 | the bot message carries the body's `response` and its `sources`, empty when absent; a null body gives the error fallback with no sources |
| ChatSession.Begin | unzipped_app/ChatInterface.jsx:50-62 | blank text changes nothing and posts nothing; otherwise one user message with the untrimmed text is appended, the input is cleared, loading is set, and that text is posted |
| ChatSession.Settle | unzipped_app/ChatInterface.jsx:64-88 | exactly one bot message is appended, loading ends false, and the input is untouched, whatever the answer |
| ChatSession.Send | unzipped_app/ChatInterface.jsx:50-89 | a whole send of non-blank text appends the user message and then the bot reply, and ends with an empty input and loading off; blank text leaves the state as it was |
| ChatSession.Step | unzipped_app/ChatInterface.jsx:184-199 | typing sets the input; Enter without Shift sends the input and other keys do nothing; the send button works exactly when not loading and the trimmed input is non-empty, and a click on the disabled button changes nothing; the disabled input ignores events while loading; a settlement with no request pending changes nothing |
| ChatSession.Mount | unzipped_app/ChatInterface.jsx:18-22 | an empty initial query sends nothing; a non-blank one is sent once, as it is, and becomes the only user message |
| ChatSession.MountWellFormed | unzipped_app/ChatInterface.jsx:18-22 | the state the mount effect leaves is well formed: empty and idle, or one user message awaiting its reply |
| ChatSession.StepPreserves | unzipped_app/ChatInterface.jsx:60-88 | one event keeps the transcript as a prefix and keeps it alternating user then bot, with loading up exactly while a reply is awaited |
| ChatSession.RunPreserves | unzipped_app/ChatInterface.jsx:60-88 | over any event sequence the transcript is append-only, at most one request is outstanding, and every bot message follows the user message it answers |
| ChatSession.FailuresLookAlike | unzipped_app/ChatInterface.jsx:40-46 | any two failed requests produce the identical fallback bot message with no sources |
| WelcomeScreen.Typed | WelcomeScreen.jsx:39 | typing sets the query to the field value verbatim |
| WelcomeScreen.Submit | WelcomeScreen.jsx:7-12 | a query with an empty trim calls nothing; any other query is forwarded once, untrimmed; the query state is unchanged |
| WelcomeScreen.OnlyVisibleQueriesStartChat | WelcomeScreen.jsx:9 | the chat is started exactly when the query has a character that is not whitespace |
| App.StartChat | App.jsx:10-13 | the chat screen is switched on and the query is stored as given, or as '' when called without one |
| App.View | App.jsx:17-21 | the welcome screen is rendered exactly when showChat is false; otherwise the chat screen gets the stored query |
| App.ChatIsFinal | App.jsx:7-13 | once the chat screen is on, no sequence of calls turns it off |
| App.EntryFlow | App.jsx:17-21 | from the initial state, a blank query leaves the welcome screen in place; a non-blank one opens the chat with the raw query, which the chat sends as its first user message |
| Exchange.RoundTrip | unzipped_app/ChatInterface.jsx:24-75 | a non-blank send through the handler appends the user text and then the model's answer to the assembled prompt, with the matched entry's citations |
| Exchange.RefusalShowsFallback | unzipped_app/ChatInterface.jsx:34-46 | a 400 refusal from the handler reaches the user as the connection fallback |

## Left out

- `call_gemini_api` (HTTP, environment variables, the remote JSON shape): the model is the parameter `model` of `HandleChat`. Its own fallback texts belong to it and are not modelled.
- Flask routing, `request.get_json` and `jsonify`: the handler receives the `message` field as an optional string. A `message` that is a falsy non-string (`0`, `false`, `[]`, `{}`) is refused with 400 "Message is required" like a missing one; a truthy non-string reaches `query.lower()`, raises, and gets the catch-all 500 reply, as does a request body that is not a JSON object. The 500 path and non-string messages are not modelled.
- `health()`: a constant reply.
- Message ids (`Date.now()`), display timestamps and the reply's `timestamp` field: clock values. No claim is made that ids are unique.
- `fetch` scheduling and overlapping requests: a send is Begin followed by Settle. The disabled input field and send button are modelled as events that do nothing while loading, so no second request can start while one is pending.
- React's effect timing and StrictMode double invocation: the mount effect runs once. The router never changes `initialQuery` while the chat screen is shown.
- Rendering, CSS, scroll-into-view, the logo, the thumbs buttons and `console.error`: presentation only.
- The Home button's page reload: it discards all state and returns to the initial router state.
- Body shapes outside the documented wire format (a non-string `response`, a non-array `sources`, a JSON number or string as the whole body) are not modelled.
- Text.Lower: maps only ASCII `A`–`Z`, whereas Python's `str.lower()` folds all Unicode letters. This can change a classification: Python lowers U+212A KELVIN SIGN to ASCII `k`, so "SMO\u212AE" becomes "smoke" and selects the fire-safety entry, while `Lower` keeps U+212A and `Classify` finds nothing. U+0130 (lowered to `i` plus a combining dot) is the only other character whose lower-case form contains an ASCII letter.
- Text.BlankIffAllWhitespace: the whitespace set is the fixed list of ECMAScript WhiteSpace and LineTerminator code points in `Text.IsWhitespace`. It does not track later Unicode versions.
