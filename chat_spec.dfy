/**
 * The conversation state of App.jsx as one value, the steps of `handleSend`
 * as functions on it, and what a whole session of typing and sending does.
 */
module ChatSpec {
  import opened Wrappers
  import opened JsText
  import opened Chat

  /** The five pieces of React state of App.jsx lines 5-14. */
  datatype State = State(
    messages: seq<Turn>,
    inputText: string,
    loading: bool,
    error: Option<string>,
    engineData: EngineData)

  /** The state the component mounts with. */
  const Initial := State([], "", false, None, InitialEngineData)

  /** The state after the synchronous part of `handleSend`, and the request it issues, if any. */
  datatype Submission = Submission(state: State, request: Option<Request>)

  /**
   * Lines 28-35 and 43: a blank input is dropped; otherwise the input is
   * cleared, the untrimmed text becomes a user turn and the request body,
   * `loading` is set and `error` cleared.
   */
  function SubmitStep(s: State): Submission {
    if IsBlank(s.inputText) then Submission(s, None)
    else
      Submission(
        s.(messages := s.messages + [Turn(s.inputText, User)], inputText := "",
           loading := true, error := None),
        Some(Request(s.inputText)))
  }

  /**
   * Lines 46-59: a success replaces `engineData` and appends the
   * acknowledgement; a failure records its message; `loading` is cleared
   * either way.
   */
  function ResolveStep(s: State, o: Outcome): State {
    match o
    case Ok(data) =>
      s.(messages := s.messages + [Turn(AckText, Bot)], loading := false, engineData := data)
    case _ =>
      s.(loading := false, error := Some(FailureMessage(o)))
  }

  /** One whole `handleSend` (lines 27-61) whose exchange, if issued, ends in `o`. */
  function HandleSendStep(s: State, o: Outcome): State {
    var sub := SubmitStep(s);
    if sub.request.None? then sub.state else ResolveStep(sub.state, o)
  }

  /** What the user does: type into the input box (line 89), or submit the form (line 85). */
  datatype Event = Typed(text: string) | Sent(outcome: Outcome)

  function Apply(s: State, e: Event): State {
    match e
    case Typed(text) => s.(inputText := text)
    case Sent(o) => HandleSendStep(s, o)
  }

  /** The state after `events`, in order, starting from `s`. */
  function Run(s: State, events: seq<Event>): State {
    if events == [] then s
    else Apply(Run(s, events[..|events| - 1]), events[|events| - 1])
  }

  // ---------------------------------------------------------------------
  // A reference description of a session, by its completed exchanges.
  // ---------------------------------------------------------------------

  /** One accepted send: the text it carried and how its exchange ended. */
  datatype Exchange = Exchange(message: string, outcome: Outcome)

  /** The turns an exchange contributes: the user's, then the acknowledgement if it succeeded. */
  function TurnsOf(x: Exchange): seq<Turn> {
    [Turn(x.message, User)] + (if x.outcome.Ok? then [Turn(AckText, Bot)] else [])
  }

  /** The transcript a log of exchanges leaves behind. */
  function TranscriptOf(log: seq<Exchange>): seq<Turn> {
    if log == [] then [] else TranscriptOf(log[..|log| - 1]) + TurnsOf(log[|log| - 1])
  }

  /** The panel: the payload of the last successful exchange, or the initial one. */
  function PanelOf(log: seq<Exchange>): EngineData {
    if log == [] then InitialEngineData
    else if log[|log| - 1].outcome.Ok? then log[|log| - 1].outcome.data
    else PanelOf(log[..|log| - 1])
  }

  /** The error shown: the failure of the last exchange, none if it succeeded. */
  function ErrorOf(log: seq<Exchange>): Option<string> {
    if log == [] || log[|log| - 1].outcome.Ok? then None
    else Some(FailureMessage(log[|log| - 1].outcome))
  }

  /** The text in the input box after `events`: the last typed text, cleared by an accepted send. */
  function InputOf(events: seq<Event>): string {
    if events == [] then ""
    else
      match events[|events| - 1]
      case Typed(text) => text
      case Sent(_) =>
        var before := InputOf(events[..|events| - 1]);
        if IsBlank(before) then before else ""
  }

  /** The exchanges `events` start: one per send whose input is not blank. */
  function LogOf(events: seq<Event>): seq<Exchange> {
    if events == [] then []
    else
      var prefix := events[..|events| - 1];
      match events[|events| - 1]
      case Typed(_) => LogOf(prefix)
      case Sent(o) =>
        if IsBlank(InputOf(prefix)) then LogOf(prefix)
        else LogOf(prefix) + [Exchange(InputOf(prefix), o)]
  }

  /** The texts of the user turns of a transcript, in order. */
  function UserTexts(turns: seq<Turn>): seq<string> {
    if turns == [] then []
    else
      UserTexts(turns[..|turns| - 1]) +
      (if turns[|turns| - 1].role == User then [turns[|turns| - 1].text] else [])
  }

  /** The texts a log of exchanges sent, in order. */
  function Messages(log: seq<Exchange>): seq<string> {
    if log == [] then [] else Messages(log[..|log| - 1]) + [log[|log| - 1].message]
  }

  // ---------------------------------------------------------------------
  // Properties
  // ---------------------------------------------------------------------

  /**
   * A session from mount is described by its log: the transcript is the
   * exchanges' turns in order, the panel holds the last successful payload
   * (never a merge, never a failed or pending one), the error is that of the
   * last exchange, and no request is left pending.
   */
  lemma {:induction false} RunMatchesLog(events: seq<Event>)
    ensures Run(Initial, events) ==
            State(TranscriptOf(LogOf(events)), InputOf(events), false,
                  ErrorOf(LogOf(events)), PanelOf(LogOf(events)))
  {
    if events != [] {
      var prefix := events[..|events| - 1];
      RunMatchesLog(prefix);
      var before := Run(Initial, prefix);
      var log := LogOf(prefix);
      assert Run(Initial, events) == Apply(before, events[|events| - 1]);
      match events[|events| - 1]
      case Typed(_) =>
      case Sent(o) =>
        if IsBlank(before.inputText) {
          assert LogOf(events) == log;
        } else {
          var x := Exchange(before.inputText, o);
          assert LogOf(events) == log + [x];
          LogAppend(log, x);
          HandleSendAccepted(before, o);
        }
    }
  }

  /** An accepted send leaves the state its exchange's entry in the log describes. */
  lemma HandleSendAccepted(s: State, o: Outcome)
    requires !IsBlank(s.inputText)
    ensures HandleSendStep(s, o) ==
            State(s.messages + TurnsOf(Exchange(s.inputText, o)), "", false,
                  if o.Ok? then None else Some(FailureMessage(o)),
                  if o.Ok? then o.data else s.engineData)
  {
  }

  /** Adding one exchange to a log. */
  lemma LogAppend(log: seq<Exchange>, x: Exchange)
    ensures TranscriptOf(log + [x]) == TranscriptOf(log) + TurnsOf(x)
    ensures PanelOf(log + [x]) == if x.outcome.Ok? then x.outcome.data else PanelOf(log)
    ensures ErrorOf(log + [x]) == if x.outcome.Ok? then None else Some(FailureMessage(x.outcome))
  {
  }

  /** The transcript is append-only: an earlier state's transcript is a prefix of every later one. */
  lemma {:induction false} RunAppendOnly(s: State, events: seq<Event>, k: nat)
    requires k <= |events|
    ensures Run(s, events[..k]).messages <= Run(s, events).messages
  {
    if k < |events| {
      var prefix := events[..|events| - 1];
      assert events[..k] == prefix[..k];
      RunAppendOnly(s, prefix, k);
    } else {
      assert events[..k] == events;
    }
  }

  /** The user turns of the transcript are the sent texts, untrimmed and in submission order. */
  lemma {:induction false} UserTurnsAreSubmissions(log: seq<Exchange>)
    ensures UserTexts(TranscriptOf(log)) == Messages(log)
  {
    if log != [] {
      var prefix := log[..|log| - 1];
      var x := log[|log| - 1];
      UserTurnsAreSubmissions(prefix);
      UserTextsAppend(TranscriptOf(prefix), TurnsOf(x));
      var u := [Turn(x.message, User)];
      if x.outcome.Ok? {
        UserTextsAppend(u, [Turn(AckText, Bot)]);
        assert UserTexts([Turn(AckText, Bot)]) == [] by {
          assert [Turn(AckText, Bot)][..0] == [];
        }
      }
      assert UserTexts(u) == [x.message] by {
        assert u[..0] == [];
      }
    }
  }

  /** `UserTexts` distributes over concatenation. */
  lemma {:induction false} UserTextsAppend(a: seq<Turn>, b: seq<Turn>)
    ensures UserTexts(a + b) == UserTexts(a) + UserTexts(b)
  {
    if b != [] {
      var b' := b[..|b| - 1];
      assert (a + b)[..|a + b| - 1] == a + b';
      UserTextsAppend(a, b');
    } else {
      assert a + b == a;
    }
  }

  /**
   * Every acknowledgement directly follows a user turn: a failed exchange
   * appends no bot turn and a successful one exactly one.
   */
  lemma {:induction false} BotTurnFollowsUserTurn(log: seq<Exchange>, i: nat)
    requires i < |TranscriptOf(log)| && TranscriptOf(log)[i].role == Bot
    ensures 0 < i && TranscriptOf(log)[i - 1].role == User
    ensures TranscriptOf(log)[i].text == AckText
  {
    var prefix := log[..|log| - 1];
    var t := TranscriptOf(prefix);
    if i < |t| {
      BotTurnFollowsUserTurn(prefix, i);
    }
  }

  /**
   * What the user sees after any session from mount: the user turns are the
   * accepted sends' texts, untrimmed and in order, and every bot turn is the
   * acknowledgement directly after a user turn.
   */
  lemma SessionTurns(events: seq<Event>)
    ensures UserTexts(Run(Initial, events).messages) == Messages(LogOf(events))
    ensures forall i :: 0 <= i < |Run(Initial, events).messages| &&
                        Run(Initial, events).messages[i].role == Bot ==>
              0 < i && Run(Initial, events).messages[i - 1].role == User &&
              Run(Initial, events).messages[i].text == AckText
  {
    RunMatchesLog(events);
    UserTurnsAreSubmissions(LogOf(events));
    forall i | 0 <= i < |Run(Initial, events).messages| && Run(Initial, events).messages[i].role == Bot
      ensures 0 < i && Run(Initial, events).messages[i - 1].role == User
      ensures Run(Initial, events).messages[i].text == AckText
    {
      BotTurnFollowsUserTurn(LogOf(events), i);
    }
  }

  // ---------------------------------------------------------------------
  // Worked sessions
  // ---------------------------------------------------------------------

  /** "hello world" answered with a payload: two turns, the panel is that payload. */
  lemma HelloWorldExchange(s: State)
    requires s.inputText == "hello world"
    ensures var d := EngineData(Some(["hello", "world"]), Some(["hi"]), Some("there"), Some([]));
            HandleSendStep(s, Ok(d)) ==
            s.(messages := s.messages + [Turn("hello world", User), Turn(AckText, Bot)],
               inputText := "", loading := false, error := None, engineData := d)
  {
  }

  /** Input of three spaces: nothing is sent and nothing changes. */
  lemma SpacesAreDropped(s: State, o: Outcome)
    requires s.inputText == "   "
    ensures SubmitStep(s).request == None && HandleSendStep(s, o) == s
  {
    assert forall i :: 0 <= i < |s.inputText| ==> IsWhitespace(s.inputText[i]);
    AllWhitespaceAt(s.inputText);
  }

  /** A reply with a failing status: only the user turn, the fixed error, the panel kept. */
  lemma HttpFailureExchange(s: State)
    requires !IsBlank(s.inputText)
    ensures HandleSendStep(s, HttpNotOk) ==
            s.(messages := s.messages + [Turn(s.inputText, User)], inputText := "",
               loading := false, error := Some("Failed to connect to engine"))
  {
  }

  /**
   * Two successful sends from mount: four turns in submission order, and the
   * second payload wholly replaces the first.
   */
  lemma TwoSuccessfulSends(a: string, b: string, d1: EngineData, d2: EngineData)
    requires !IsBlank(a) && !IsBlank(b)
    ensures var r := Run(Initial, [Typed(a), Sent(Ok(d1)), Typed(b), Sent(Ok(d2))]);
            r.messages == [Turn(a, User), Turn(AckText, Bot), Turn(b, User), Turn(AckText, Bot)] &&
            r.engineData == d2 && r.error == None && !r.loading
  {
    var e1, e2, e3 := [Typed(a)], [Typed(a), Sent(Ok(d1))], [Typed(a), Sent(Ok(d1)), Typed(b)];
    var e4 := [Typed(a), Sent(Ok(d1)), Typed(b), Sent(Ok(d2))];
    assert e1[..0] == [] && e2[..1] == e1 && e3[..2] == e2 && e4[..3] == e3;
    var s1 := Run(Initial, e1);
    assert s1 == Apply(Run(Initial, []), Typed(a));
    HandleSendAccepted(s1, Ok(d1));
    var s2 := Run(Initial, e2);
    assert s2 == Apply(s1, Sent(Ok(d1)));
    assert s2 == Initial.(messages := [Turn(a, User), Turn(AckText, Bot)], engineData := d1);
    var s3 := Run(Initial, e3);
    assert s3 == Apply(s2, Typed(b));
    assert Run(Initial, e4) == Apply(s3, Sent(Ok(d2)));
    HandleSendAccepted(s3, Ok(d2));
  }
}
