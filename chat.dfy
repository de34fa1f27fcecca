/**
 * The values the conversation client keeps in its React state (App.jsx
 * lines 5-14) and the values it exchanges with the analysis engine.
 */
module Chat {
  import opened Wrappers

  /** The `type` of a transcript entry: `'user'` or `'bot'`. */
  datatype Role = User | Bot

  /** One transcript entry `{ text, type }`; never edited once appended. */
  datatype Turn = Turn(text: string, role: Role)

  /**
   * The decoded JSON body of a successful reply,
   * `{ top_words, suggestions, next_word, related_words }`. It is stored as
   * decoded: a field the body lacks is `None` (JavaScript `undefined`), not
   * an empty default.
   */
  datatype EngineData = EngineData(
    topWords: Option<seq<string>>,
    suggestions: Option<seq<string>>,
    nextWord: Option<string>,
    relatedWords: Option<seq<string>>)

  /** The panel before any reply: three empty lists and an empty word. */
  const InitialEngineData := EngineData(Some([]), Some([]), Some(""), Some([]))

  /** The JSON body `{ message }` POSTed to `/chat`. */
  datatype Request = Request(message: string)

  /**
   * How the awaited exchange ends: a reply with an OK status whose body
   * decoded to `data`; a reply whose status is not OK; or an exception
   * (the transport failed, or the body was not JSON) carrying `message`.
   */
  datatype Outcome = Ok(data: EngineData) | HttpNotOk | Thrown(message: string)

  /** The bot turn appended after every successful exchange. */
  const AckText := "Analyzed your input."

  /** The message of the Error thrown for a reply whose status is not OK. */
  const ConnectFailureText := "Failed to connect to engine"

  /** The `err.message` the catch block records for a failed exchange. */
  function FailureMessage(o: Outcome): string
    requires !o.Ok?
  {
    if o.HttpNotOk? then ConnectFailureText else o.message
  }
}
