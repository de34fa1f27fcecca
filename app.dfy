/**
 * The App component's conversation state (App.jsx lines 5-14) as an object
 * whose handlers update it in place. `handleSend` is split at its one
 * suspension point: `Submit` is the synchronous part before `fetch` is
 * awaited, `Resolve` the part after the exchange has ended.
 */
module App {
  import opened Wrappers
  import opened JsText
  import opened Chat
  import opened ChatSpec

  class Conversation {
    var messages: seq<Turn>
    var inputText: string
    var loading: bool
    var error: Option<string>
    var engineData: EngineData

    /** The five fields as one value. */
    function Snapshot(): State
      reads this
    {
      State(messages, inputText, loading, error, engineData)
    }

    /** The `useState` initial values: no turns, empty input, idle, no error, an empty panel. */
    constructor ()
      ensures messages == [] && inputText == "" && !loading && error == None
      ensures engineData == InitialEngineData
      ensures Snapshot() == Initial
    {
      messages := [];
      inputText := "";
      loading := false;
      error := None;
      engineData := InitialEngineData;
    }

    /** The input's `onChange` (line 89); the input is disabled while loading (line 91). */
    method Type(text: string)
      requires !loading
      modifies this
      ensures inputText == text
      ensures messages == old(messages) && !loading && error == old(error)
      ensures engineData == old(engineData)
    {
      inputText := text;
    }

    /**
     * `handleSend` up to the awaited `fetch` (lines 28-35, 43). A blank input
     * changes nothing and issues nothing. Otherwise the input is cleared, the
     * untrimmed text is appended as a user turn and is the request body,
     * `loading` is set and `error` cleared. `!loading` stands for the disabled
     * input and button (lines 91, 93): `handleSend` itself does not check it.
     */
    method Submit() returns (request: Option<Request>)
      requires !loading
      modifies this
      ensures IsBlank(old(inputText)) ==> request == None && unchanged(this)
      ensures !IsBlank(old(inputText)) ==>
                request == Some(Request(old(inputText))) &&
                inputText == "" &&
                messages == old(messages) + [Turn(old(inputText), User)] &&
                loading && error == None &&
                engineData == old(engineData)
      ensures request.Some? ==> messages[|messages| - 1] == Turn(request.value.message, User)
      ensures Snapshot() == SubmitStep(old(Snapshot())).state
      ensures request == SubmitStep(old(Snapshot())).request
    {
      if IsBlank(inputText) {
        return None;
      }
      var userMessage := inputText;
      inputText := "";
      messages := messages + [Turn(userMessage, User)];
      loading := true;
      error := None;
      request := Some(Request(userMessage));
    }

    /**
     * `handleSend` after the exchange (lines 46-59). On success the decoded
     * payload replaces `engineData` as it is and the acknowledgement is
     * appended; on a status that is not OK the fixed connection message is
     * recorded, on an exception its message; `loading` is cleared in every
     * case. `loading` holds because `Submit` has just issued the request.
     */
    method Resolve(outcome: Outcome)
      requires loading
      modifies this
      ensures !loading && inputText == old(inputText)
      ensures outcome.Ok? ==>
                engineData == outcome.data &&
                messages == old(messages) + [Turn(AckText, Bot)] &&
                error == old(error)
      ensures outcome.HttpNotOk? ==>
                error == Some(ConnectFailureText) &&
                engineData == old(engineData) && messages == old(messages)
      ensures outcome.Thrown? ==>
                error == Some(outcome.message) &&
                engineData == old(engineData) && messages == old(messages)
      ensures Snapshot() == ResolveStep(old(Snapshot()), outcome)
    {
      match outcome {
        case Ok(data) =>
          engineData := data;
          messages := messages + [Turn(AckText, Bot)];
        case HttpNotOk =>
          error := Some(ConnectFailureText);
        case Thrown(message) =>
          error := Some(message);
      }
      loading := false;
    }

    /**
     * One whole `handleSend` (lines 27-61) whose exchange, if one is issued,
     * ends in `outcome`. The transcript only grows; `loading` is false
     * afterwards; an accepted send adds the user turn carrying the request's
     * text, then the acknowledgement exactly when the exchange succeeded.
     */
    method HandleSend(outcome: Outcome) returns (request: Option<Request>)
      requires !loading
      modifies this
      ensures !loading
      ensures old(messages) <= messages
      ensures request.None? <==> IsBlank(old(inputText))
      ensures request.None? ==> unchanged(this)
      ensures request.Some? ==>
                request.value.message == old(inputText) && inputText == "" &&
                |messages| == |old(messages)| + (if outcome.Ok? then 2 else 1) &&
                messages[|old(messages)|] == Turn(old(inputText), User)
      ensures request.Some? && outcome.Ok? ==>
                messages[|messages| - 1] == Turn(AckText, Bot) &&
                engineData == outcome.data && error == None
      ensures request.Some? && !outcome.Ok? ==>
                engineData == old(engineData) && error == Some(FailureMessage(outcome))
      ensures Snapshot() == HandleSendStep(old(Snapshot()), outcome)
    {
      request := Submit();
      if request.Some? {
        Resolve(outcome);
      }
    }
  }
}
