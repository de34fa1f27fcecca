# Conversation client state machine, in Dafny

A model of the client of the Intelligent Conversational Engine: a single
React component (`frontend/src/App.jsx`) that keeps a chat transcript, an
input box, a loading flag, an error message and the engine's latest
analysis (`top_words`, `suggestions`, `next_word`, `related_words`). Its
`handleSend` handler drops blank input, appends the user's turn, POSTs the
text to the engine, and on success replaces the analysis wholesale and
appends the acknowledgement "Analyzed your input."; on failure it records an
error message; it always clears the loading flag. The render derives the
history, the input controls, the error line and the sidebar from that state.

Modules:

- `Wrappers`: `Option`, standing for a JavaScript value that may be `null`/`undefined`.
- `JsText`: `String.prototype.trim`, the white space it strips, and the blank-input test `!s.trim()`.
- `Chat`: turns, the decoded payload, the request body, how an exchange ends, and the fixed texts.
- `ChatSpec`: the state as one value; `SubmitStep`, `ResolveStep` and `HandleSendStep`; sessions of typing and sending (`Run`); a reference description of a session by its log of completed exchanges; the properties.
- `View`: the render as pure functions.
- `App`: class `Conversation`, whose fields are the five pieces of state and whose methods `Submit`, `Resolve` and `HandleSend` update them in place; each method is tied to its step function in `ChatSpec`.

The model follows what the code does, including three points where the code is looser than the client's intended design:

- The request body and the user turn carry the input as typed, untrimmed. Trimming only decides whether the input is blank.
- A decoded payload is stored as it is. A missing field is not replaced by an empty default. When a list field is missing, reading its `length` throws during the render. The component has no error boundary, so the whole component fails to render, not just the sidebar. In the model this shows as `View.SidebarView` returning `None`.
- Nothing inside `handleSend` refuses a second request while one is pending. Only the disabled input and button prevent it. `Submit` therefore `requires !loading`, standing for that UI guard, and `Resolve` `requires loading`.

## Model

| member | source | states |
|---|---|---|
| `JsText.TrimStart` | frontend/src/App.jsx:29 | the result is a suffix of the input, everything dropped is white space, and it does not start with white space |
| `JsText.TrimEnd` | frontend/src/App.jsx:29 | the result is a prefix of the input, everything dropped is white space, and it does not end with white space |
| `JsText.Trim` | frontend/src/App.jsx:29 | `trim()` is empty exactly when every character is white space; a non-empty result starts and ends with a character that is not white space |
| `JsText.StripBothEnds` | frontend/src/App.jsx:29 | stripping the leading white space and then the trailing white space leaves the slice of the input between them; this slice is empty iff the input is all white space, and otherwise its ends are not white space |
| `JsText.BlankIsEmptyTrim` | frontend/src/App.jsx:29 | the blank test used by the handler and the button is exactly "`trim()` returns the empty string" |
| `JsText.AllWhitespaceAt` | frontend/src/App.jsx:29 | "all white space" holds iff each character of the input is white space |
| `App.Conversation.constructor` | frontend/src/App.jsx:5-14 | the initial state: no turns, empty input, not loading, no error, empty lists and an empty next word |
| `App.Conversation.Type` | frontend/src/App.jsx:86-91 | typing replaces the input text and changes nothing else; the input only accepts typing while not loading |
| `App.Conversation.Submit` | frontend/src/App.jsx:28-35 | a blank input changes nothing and issues no request; otherwise the input is cleared, exactly one user turn with the untrimmed text is appended, loading is set, the error cleared, the panel kept, and the request body is that same text |
| `App.Conversation.Resolve` | frontend/src/App.jsx:46-59 | success: the panel becomes the payload exactly and one acknowledgement turn is appended; not-OK status: error "Failed to connect to engine", panel and transcript kept; exception: error is its message, panel and transcript kept; loading is false in every case |
| `App.Conversation.HandleSend` | frontend/src/App.jsx:27-61 | loading is false afterwards; the old transcript is a prefix of the new; no request iff the input is blank, and then nothing changes; an accepted send grows the transcript by 2 on success and 1 on failure, starting with the user turn carrying the request's text |
| `ChatSpec.HandleSendAccepted` | frontend/src/App.jsx:31-57 | an accepted send leaves exactly the state its log entry describes: turns appended, input cleared, not loading, error and panel by outcome |
| `ChatSpec.RunMatchesLog` | frontend/src/App.jsx:27-61 | after any session from mount, the transcript is the exchanges' turns in order, the panel is the last successful payload (or the initial one), the error is the last exchange's failure, and nothing is pending |
| `ChatSpec.RunAppendOnly` | frontend/src/App.jsx:33-55 | across any sequence of typing and sending, an earlier transcript is a prefix of every later one |
| `ChatSpec.UserTurnsAreSubmissions` | frontend/src/App.jsx:31-43 | the user turns of the transcript are exactly the sent texts, untrimmed, in submission order |
| `ChatSpec.BotTurnFollowsUserTurn` | frontend/src/App.jsx:55 | in the transcript of any log, every bot turn is the acknowledgement and directly follows a user turn |
| `ChatSpec.SessionTurns` | frontend/src/App.jsx:27-61 | after any session from mount, the user turns of the transcript are the sent texts in order, and every bot turn is the acknowledgement and directly follows a user turn |
| `ChatSpec.HelloWorldExchange` | frontend/src/App.jsx:31-55 | sending "hello world" with a successful reply appends that user turn and the acknowledgement and shows the payload exactly |
| `ChatSpec.SpacesAreDropped` | frontend/src/App.jsx:29 | an input of three spaces issues no request and changes no state |
| `ChatSpec.HttpFailureExchange` | frontend/src/App.jsx:46-57 | a reply with a failing status appends only the user turn, records "Failed to connect to engine" and keeps the panel |
| `ChatSpec.TwoSuccessfulSends` | frontend/src/App.jsx:27-61 | two successful sends from mount give four turns in submission order, and the second payload wholly replaces the first |
| `View.Bubbles` | frontend/src/App.jsx:77-81 | one bubble per turn, with its type and text, in transcript order |
| `View.History` | frontend/src/App.jsx:72-81 | the welcome bubble is shown exactly while the transcript is empty; otherwise the turns in order |
| `View.ControlsView` | frontend/src/App.jsx:91-94 | the input is disabled and the spinner shown exactly while loading; the send button is enabled iff not loading and the input holds a non-white-space character |
| `View.ErrorBanner` | frontend/src/App.jsx:97 | the error line appears iff there is an error with a non-empty message, and reads "Error: " followed by it |
| `View.TagContainer` | frontend/src/App.jsx:104-110 | a list field shows exactly its words, or its placeholder iff the list is empty; a missing field makes the render fail |
| `View.Prediction` | frontend/src/App.jsx:130 | "???" is shown iff the next word is missing or empty (or is itself "???"); any other word is shown as it is |
| `View.SidebarView` | frontend/src/App.jsx:100-146 | the sidebar renders iff all three list fields are present; it then shows each list of the payload exactly and its predicted word, and each card shows its placeholder ("Wait for input..." for top words, "None" for the other two) iff its list is empty |
| `View.InitialSidebar` | frontend/src/App.jsx:9-14 | before any reply the sidebar shows "Wait for input...", "None", "???" and "None" |
| `View.EmptyBodyBreaksSidebar` | frontend/src/App.jsx:49 | from any state, a successful reply decoded to `{}` is stored as is, and the next render then throws (the `length` of a missing list); with no error boundary the whole component fails to render |

## Left out

- `JsText.Trim`: its contract states only that the result is empty iff the input is all white space, and that a non-empty result has non-white-space ends. It does not state that the result is the slice of the input between the leading and trailing white space. That fact is `JsText.StripBothEnds`, stated over the results of `TrimStart` and `TrimEnd`. App.jsx lines 29 and 93 use only whether `trim()` is empty.
- The `fetch` call, the endpoint address (`VITE_API_URL` or its default), request headers and `response.json()` decoding (App.jsx lines 17, 38-48): network I/O. The exchange is a parameter of type `Outcome`.
- The `await` suspension and React's batching and re-rendering. `Submit` and `Resolve` are two atomic steps run one after the other.
- Decoded bodies that are not objects, and fields of the wrong JSON type (for example a `null` list): a payload field is modelled as present with the expected type, or missing.
- `e.preventDefault()` (line 28): a browser side effect with no effect on the state.
- The scroll-to-bottom effect (`useRef`/`useEffect`, lines 16-25): DOM manipulation.
- Markup, CSS class names, headings and keys of the rendered lists.
- UTF-16 code units: strings here are sequences of Unicode code points, not UTF-16 code units; lone surrogates are not modelled.
- `backend/api/index.py` is not part of this model: it wraps an engine whose source is not available, and its own logic is only the last-token extraction and defaulting a missing `next_word` to "".
