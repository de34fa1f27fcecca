/**
 * What App.jsx renders (lines 63-149), as values derived from the state:
 * the chat history, the input controls, the error line and the sidebar.
 * Markup, class names and headings are not modelled; what each element
 * shows is.
 */
module View {
  import opened Wrappers
  import opened JsText
  import opened Chat
  import ChatSpec

  const WelcomeText := "Welcome! Type something to see the engine in action."
  const TopWordsPlaceholder := "Wait for input..."
  const EmptyListPlaceholder := "None"
  const PredictionPlaceholder := "???"

  /** One `message <type>` bubble of the chat history. */
  datatype Bubble = Bubble(role: Role, text: string)

  /** `messages.map(...)` (lines 77-81): one bubble per turn, same order. */
  function Bubbles(messages: seq<Turn>): (v: seq<Bubble>)
    ensures |v| == |messages|
    ensures forall i :: 0 <= i < |messages| ==> v[i] == Bubble(messages[i].role, messages[i].text)
  {
    if messages == [] then []
    else
      var last := messages[|messages| - 1];
      Bubbles(messages[..|messages| - 1]) + [Bubble(last.role, last.text)]
  }

  /**
   * The chat history (lines 72-81): the welcome bubble exactly while the
   * transcript is empty, otherwise the turns as bubbles in order.
   */
  function History(messages: seq<Turn>): (v: seq<Bubble>)
    ensures messages == [] ==> v == [Bubble(Bot, WelcomeText)]
    ensures messages != [] ==> |v| == |messages|
    ensures forall i :: 0 <= i < |messages| ==> v[i] == Bubble(messages[i].role, messages[i].text)
  {
    (if |messages| == 0 then [Bubble(Bot, WelcomeText)] else []) + Bubbles(messages)
  }

  /** The input box, the send button and its face (lines 86-95). */
  datatype Controls = Controls(inputDisabled: bool, sendDisabled: bool, spinner: bool)

  /**
   * `disabled={loading}` on the input, `disabled={loading || !inputText.trim()}`
   * on the button, and a spinner instead of "Send" while loading: sending is
   * possible exactly when nothing is pending and the input holds a character
   * that is not white space.
   */
  function ControlsView(loading: bool, inputText: string): (c: Controls)
    ensures c.inputDisabled == loading && c.spinner == loading
    ensures !c.sendDisabled <==>
            !loading && exists i :: 0 <= i < |inputText| && !IsWhitespace(inputText[i])
  {
    AllWhitespaceAt(inputText);
    Controls(loading, loading || IsBlank(inputText), loading)
  }

  /**
   * Line 97: `{error && <div>Error: {error}</div>}`. A null error and an
   * empty message (falsy in JavaScript) show nothing.
   */
  function ErrorBanner(error: Option<string>): (b: Option<string>)
    ensures b.Some? <==> error.Some? && error.value != ""
    ensures b.Some? ==> b.value == "Error: " + error.value
  {
    match error
    case Some(message) => if message == "" then None else Some("Error: " + message)
    case None => None
  }

  /** The content of one tag container of the sidebar. */
  datatype Tags = Words(words: seq<string>) | Placeholder(caption: string)

  /** The words a tag container shows. */
  function Shown(t: Tags): seq<string> {
    if t.Words? then t.words else []
  }

  /**
   * `field.length > 0 ? field.map(...) : <placeholder>` (lines 104-110,
   * 117-123, 137-143): the words when there are any, the placeholder when
   * the list is empty; `None` when the field is missing, where reading its
   * `length` throws and the render fails.
   */
  function TagContainer(field: Option<seq<string>>, placeholder: string): (r: Option<Tags>)
    ensures r.None? <==> field.None?
    ensures r.Some? ==> Shown(r.value) == field.value
    ensures r.Some? ==> (r.value.Placeholder? <==> field.value == [])
    ensures r.Some? && r.value.Placeholder? ==> r.value.caption == placeholder
  {
    match field
    case None => None
    case Some(words) => Some(if |words| > 0 then Words(words) else Placeholder(placeholder))
  }

  /**
   * `next_word || "???"` (line 130): a missing or empty word is falsy and
   * shows "???"; any other word shows itself (so the word "???" is
   * indistinguishable from none).
   */
  function Prediction(nextWord: Option<string>): (p: string)
    ensures p == PredictionPlaceholder <==>
            nextWord == None || nextWord == Some("") || nextWord == Some(PredictionPlaceholder)
    ensures p != PredictionPlaceholder ==> nextWord == Some(p)
  {
    match nextWord
    case Some(word) => if word == "" then PredictionPlaceholder else word
    case None => PredictionPlaceholder
  }

  /** The four cards of the sidebar (lines 100-146). */
  datatype Sidebar = Sidebar(topWords: Tags, suggestions: Tags, prediction: string, relatedWords: Tags)

  /**
   * The sidebar for `engineData`: it renders exactly when all three lists
   * are present, and then shows each list of the payload exactly (an empty
   * list as its placeholder, never an older list) and its predicted word.
   */
  function SidebarView(d: EngineData): (r: Option<Sidebar>)
    ensures r.Some? <==> d.topWords.Some? && d.suggestions.Some? && d.relatedWords.Some?
    ensures r.Some? ==>
              Shown(r.value.topWords) == d.topWords.value &&
              Shown(r.value.suggestions) == d.suggestions.value &&
              Shown(r.value.relatedWords) == d.relatedWords.value &&
              r.value.prediction == Prediction(d.nextWord)
    ensures r.Some? ==>
              (r.value.topWords.Placeholder? <==> d.topWords.value == []) &&
              (r.value.suggestions.Placeholder? <==> d.suggestions.value == []) &&
              (r.value.relatedWords.Placeholder? <==> d.relatedWords.value == [])
    ensures r.Some? ==>
              (r.value.topWords.Placeholder? ==> r.value.topWords.caption == TopWordsPlaceholder) &&
              (r.value.suggestions.Placeholder? ==> r.value.suggestions.caption == EmptyListPlaceholder) &&
              (r.value.relatedWords.Placeholder? ==> r.value.relatedWords.caption == EmptyListPlaceholder)
  {
    var top := TagContainer(d.topWords, TopWordsPlaceholder);
    var suggestions := TagContainer(d.suggestions, EmptyListPlaceholder);
    var related := TagContainer(d.relatedWords, EmptyListPlaceholder);
    if top.None? || suggestions.None? || related.None? then None
    else Some(Sidebar(top.value, suggestions.value, Prediction(d.nextWord), related.value))
  }

  /** Before any reply the sidebar shows its three placeholders and "???". */
  lemma InitialSidebar()
    ensures SidebarView(InitialEngineData) ==
            Some(Sidebar(Placeholder(TopWordsPlaceholder), Placeholder(EmptyListPlaceholder),
                         PredictionPlaceholder, Placeholder(EmptyListPlaceholder)))
  {
  }

  /**
   * A successful reply that decoded to `{}` is stored as it is, whatever the
   * state before, and rendering the stored panel then throws (`None`).
   */
  lemma EmptyBodyBreaksSidebar(s: ChatSpec.State)
    ensures ChatSpec.ResolveStep(s, Ok(EngineData(None, None, None, None))).engineData ==
            EngineData(None, None, None, None)
    ensures SidebarView(ChatSpec.ResolveStep(s, Ok(EngineData(None, None, None, None))).engineData) == None
  {
  }
}
