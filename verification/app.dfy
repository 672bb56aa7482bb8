/**
 * The session controller (frontend/src/App.js): the five state fields, the
 * submit handler `handleSimplifyClick` and the focus handler
 * `handleInputFocus`. The network is an input: a submission issues a request
 * and later settles with a FetchOutcome, which the controller turns into a
 * stored result or an error message.
 */
module App {
  import opened Wrappers
  import opened Json
  import JsValues
  import InputForm
  import Text

  const EmptyInputMessage := "Please enter some text to analyze."
  const NonJsonErrorMessage := "Server returned a non-JSON error"
  const NotOkMessage := "Network response was not ok"
  const FetchFailedMessage := "Failed to fetch analysis. Please check the backend server and console for details."

  /** The only endpoint the client calls. */
  const SimplifyUrl := "http://127.0.0.1:5000/api/simplify"

  /** An HTTP request as issued by `fetch`. */
  datatype Request = Request(verb: string, url: string, contentType: string, body: Value)

  /** The request for one submission: a JSON POST of `{ text: inputText }`. */
  function SimplifyRequest(inputText: string): (r: Request)
    ensures r.verb == "POST" && r.url == SimplifyUrl && r.contentType == "application/json"
    ensures r.body.Obj? && r.body.fields.Keys == {"text"} && r.body.fields["text"] == Str(inputText)
  {
    Request("POST", SimplifyUrl, "application/json", Single("text", Str(inputText)))
  }

  /** What `response.json()` gives: the parsed body, or the message of the SyntaxError it rejects with. */
  datatype BodyParse = Parsed(value: Value) | NotJson(syntaxError: string)

  /** How the `fetch` of one submission ends. */
  datatype FetchOutcome =
    | NetworkError(message: string)               // fetch rejected: no response
    | Responded(status: int, body: BodyParse)      // a response, and what reading its body gave

  /** `response.ok`: a status in the range 200-299. */
  function StatusOk(status: int): (ok: bool)
    ensures ok <==> status / 100 == 2
  {
    200 <= status <= 299
  }

  /** `v.error` is present and truthy. */
  function HasTruthyError(v: Value): (h: bool)
    ensures h <==> var e := JsValues.ReadError(v); e.Success? && e.value.Some? && JsValues.Truthy(e.value.value)
  {
    v.Obj? && "error" in v.fields && JsValues.Truthy(v.fields["error"])
  }

  /**
   * The `try` block of handleSimplifyClick after the fetch: the value it stores
   * as the result, or the `message` of the error it throws.
   */
  function TryBlock(o: FetchOutcome): (r: Result<Value, string>)
    ensures o.NetworkError? ==> r == Failure(o.message)
    ensures o.Responded? && !StatusOk(o.status) && o.body.NotJson? ==> r == Failure(NonJsonErrorMessage)
    ensures o.Responded? && StatusOk(o.status) && o.body.NotJson? ==> r == Failure(o.body.syntaxError)
    ensures o.Responded? && o.body == Parsed(Null) ==> r == Failure(JsValues.NullErrorRead)
    ensures r.Success? <==>
      o.Responded? && StatusOk(o.status) && o.body.Parsed? && !o.body.value.Null? && !HasTruthyError(o.body.value)
    ensures r.Success? ==> r.value == o.body.value
  {
    match o
    case NetworkError(message) => Failure(message)
    case Responded(status, body) =>
      if !StatusOk(status) then
        var errorData := if body.Parsed? then body.value else Single("error", Str(NonJsonErrorMessage));
        match JsValues.ReadError(errorData)
        case Failure(typeError) => Failure(typeError)
        case Success(e) =>
          var reason := if e.Some? && JsValues.Truthy(e.value) then e.value else Str(NotOkMessage);
          var message := JsValues.ToJsString(reason);
          Failure(if message.Success? then message.value else message.error)
      else
        match body
        case NotJson(syntaxError) => Failure(syntaxError)
        case Parsed(data) =>
          match JsValues.ReadError(data)
          case Failure(typeError) => Failure(typeError)
          case Success(e) =>
            if e.Some? && JsValues.Truthy(e.value) then
              var message := JsValues.ToJsString(e.value);
              Failure(if message.Success? then message.value else message.error)
            else Success(data)
  }

  /**
   * The settlement of one submission, after the `catch` block: the result to
   * store, or the message to show (`err.message`, or the fixed fallback when
   * that is empty). A failure always carries a non-empty message, and a success
   * is exactly an ok response whose JSON body is not null and has no truthy
   * `error` field; the body is then kept whole.
   */
  function Settlement(o: FetchOutcome): (r: Result<Value, string>)
    ensures r.Failure? ==> r.error != ""
    ensures r.Success? <==>
      o.Responded? && StatusOk(o.status) && o.body.Parsed? && !o.body.value.Null? && !HasTruthyError(o.body.value)
    ensures r.Success? ==> r.value == o.body.value
  {
    match TryBlock(o)
    case Success(data) => Success(data)
    case Failure(message) => Failure(if message == "" then FetchFailedMessage else message)
  }

  /** A failed fetch shows its own message, or the fallback when it has none. */
  lemma NetworkErrorMessage(message: string)
    ensures Settlement(NetworkError(message)) == Failure(if message == "" then FetchFailedMessage else message)
  {
  }

  /**
   * A response that is not ok shows the `error` string of its JSON body; the
   * fixed "not ok" text when the body has no truthy `error`; and the fixed
   * "non-JSON" text when the body is not JSON at all.
   */
  lemma NotOkMessages(status: int, fields: map<string, Value>, syntaxError: string)
    requires !StatusOk(status)
    ensures "error" in fields && fields["error"].Str? && fields["error"].s != "" ==>
      Settlement(Responded(status, Parsed(Obj(fields)))) == Failure(fields["error"].s)
    ensures !("error" in fields && JsValues.Truthy(fields["error"])) ==>
      Settlement(Responded(status, Parsed(Obj(fields)))) == Failure(NotOkMessage)
    ensures Settlement(Responded(status, NotJson(syntaxError))) == Failure(NonJsonErrorMessage)
  {
  }

  /** An ok response whose body carries a non-empty `error` string ends in that message, not in a result. */
  lemma OkWithErrorField(status: int, fields: map<string, Value>, message: string)
    requires StatusOk(status) && "error" in fields && fields["error"] == Str(message) && message != ""
    ensures Settlement(Responded(status, Parsed(Obj(fields)))) == Failure(message)
  {
  }

  /**
   * An `error` field holding an object with its own `toString` key makes
   * `new Error(...)` itself throw, on an ok and on a failed response alike:
   * the message shown is that TypeError's.
   */
  lemma ErrorObjectThrows(status: int, fields: map<string, Value>)
    requires "error" in fields && fields["error"].Obj? && "toString" in fields["error"].fields
    ensures Settlement(Responded(status, Parsed(Obj(fields)))) == Failure(JsValues.ObjectConversionError)
  {
    JsValues.OwnToStringThrows(fields["error"].fields, []);
  }

  /**
   * An ok response whose JSON body is falsy but not null (0, false or "") is a
   * success: the falsy value is stored as the result.
   */
  lemma FalsyBodyStored(status: int, v: Value)
    requires StatusOk(status) && !v.Null? && !JsValues.Truthy(v)
    ensures Settlement(Responded(status, Parsed(v))) == Success(v)
    ensures v in {Num(0), Bool(false), Str("")}
  {
  }

  /**
   * The browser session's state: the five `useState` fields of App, the
   * number of submissions whose fetch has not settled, and the requests sent.
   */
  class Session {
    var inputText: string
    var analysisResult: Option<Value>   // None is `null`
    var isLoading: bool
    var error: string
    var isEditing: bool
    ghost var inFlight: nat
    var requests: seq<Request>

    /**
     * The single-flight invariant the bar's guard maintains: at most one
     * submission in flight, `isLoading` exactly while it is, and while it is
     * no stale result or error is shown.
     */
    ghost predicate SingleFlight()
      reads this
    {
      inFlight <= 1 && (isLoading <==> inFlight == 1)
      && (isLoading ==> error == "" && analysisResult == None)
    }

    constructor ()
      ensures inputText == "" && analysisResult == None && !isLoading && error == "" && isEditing
      ensures inFlight == 0 && requests == []
      ensures SingleFlight()
    {
      inputText := "";
      analysisResult := None;
      isLoading := false;
      error := "";
      isEditing := true;
      inFlight := 0;
      requests := [];
    }

    /** The textarea's `onChange`: the typed text replaces `inputText`. */
    method SetInputText(text: string)
      modifies this
      ensures inputText == text
      ensures analysisResult == old(analysisResult) && isLoading == old(isLoading) && error == old(error)
      ensures isEditing == old(isEditing) && inFlight == old(inFlight) && requests == old(requests)
      ensures old(SingleFlight()) ==> SingleFlight()
    {
      inputText := text;
    }

    /**
     * `handleSimplifyClick` up to its `await`: an empty input (the test is
     * `!inputText`, so whitespace passes) only sets the validation message;
     * otherwise the result and error are cleared, loading starts and the one
     * POST request is issued.
     */
    method HandleSimplifyClick() returns (issued: bool)
      modifies this
      ensures issued <==> old(inputText) != ""
      ensures inputText == old(inputText)
      ensures !issued ==> error == EmptyInputMessage && isLoading == old(isLoading)
                          && analysisResult == old(analysisResult) && isEditing == old(isEditing)
                          && inFlight == old(inFlight) && requests == old(requests)
      ensures issued ==> isLoading && analysisResult == None && error == "" && isEditing == old(isEditing)
                         && inFlight == old(inFlight) + 1 && requests == old(requests) + [SimplifyRequest(inputText)]
      ensures old(SingleFlight()) && !old(isLoading) ==> SingleFlight()
    {
      if inputText == "" {
        error := EmptyInputMessage;
        return false;
      }
      isLoading := true;
      analysisResult := None;
      error := "";
      requests := requests + [SimplifyRequest(inputText)];
      inFlight := inFlight + 1;
      issued := true;
    }

    /**
     * The rest of `handleSimplifyClick` once its fetch settles: on success the
     * body becomes the result and the bar leaves editing mode; on failure only
     * the error message is set; in every case (`finally`) loading ends.
     */
    method Settle(outcome: FetchOutcome)
      requires inFlight > 0
      modifies this
      ensures !isLoading && inFlight == old(inFlight) - 1
      ensures inputText == old(inputText) && requests == old(requests)
      ensures Settlement(outcome).Success? ==>
        analysisResult == Some(Settlement(outcome).value) && !isEditing && error == old(error)
      ensures Settlement(outcome).Failure? ==>
        error == Settlement(outcome).error && analysisResult == old(analysisResult) && isEditing == old(isEditing)
      ensures old(SingleFlight()) ==> SingleFlight() && inFlight == 0
      ensures old(SingleFlight()) && Settlement(outcome).Success? ==> error == ""
      ensures old(SingleFlight()) && Settlement(outcome).Failure? ==> analysisResult == None && error != ""
    {
      match Settlement(outcome) {
        case Success(data) =>
          analysisResult := Some(data);
          isEditing := false;
        case Failure(message) =>
          error := message;
      }
      isLoading := false;
      inFlight := inFlight - 1;
    }

    /** `handleInputFocus`: in result mode, return to editing and drop the result; in editing mode, nothing. */
    method HandleInputFocus()
      modifies this
      ensures old(isEditing) ==> analysisResult == old(analysisResult)
      ensures !old(isEditing) ==> analysisResult == None
      ensures isEditing
      ensures inputText == old(inputText) && isLoading == old(isLoading) && error == old(error)
      ensures inFlight == old(inFlight) && requests == old(requests)
      ensures old(SingleFlight()) ==> SingleFlight()
    {
      if !isEditing {
        isEditing := true;
        analysisResult := None;
      }
    }

    /**
     * A click on the bar's submit button. A disabled button fires nothing;
     * an enabled one runs handleSimplifyClick, which then always issues the
     * request, so the validation message is never produced this way.
     */
    method ClickSubmit() returns (issued: bool)
      requires SingleFlight()
      modifies this
      ensures SingleFlight()
      ensures issued <==> !InputForm.SubmitDisabled(old(isLoading), old(inputText))
      ensures !issued ==> inputText == old(inputText) && analysisResult == old(analysisResult)
                          && isLoading == old(isLoading) && error == old(error) && isEditing == old(isEditing)
                          && inFlight == old(inFlight) && requests == old(requests)
      ensures issued ==> isLoading && inFlight == 1 && requests == old(requests) + [SimplifyRequest(inputText)]
      ensures issued ==> inputText == old(inputText) && isEditing == old(isEditing) && analysisResult == None && error == ""
      ensures error == EmptyInputMessage ==> old(error) == EmptyInputMessage
    {
      if InputForm.SubmitDisabled(isLoading, inputText) {
        return false;
      }
      issued := HandleSimplifyClick();
    }
  }

  /**
   * The two guards differ: text made only of whitespace passes the
   * controller's `!inputText` test and would be sent, but the bar's trimmed
   * test keeps the button disabled.
   */
  lemma WhitespaceGuards(text: string)
    requires text != "" && Text.AllIn(text, Text.JsWhitespace)
    ensures InputForm.SubmitDisabled(false, text)
  {
  }

  /**
   * One whole submission through the bar: starting idle, a click with
   * non-blank text and the settlement of its fetch leave the session not
   * loading, with exactly the one request for that text sent, and storing
   * either the result or a non-empty error; the typed text is kept. A click
   * on the disabled button changes nothing.
   */
  method SubmitAndSettle(s: Session, outcome: FetchOutcome) returns (sent: bool)
    requires s.SingleFlight() && !s.isLoading
    modifies s
    ensures s.SingleFlight() && !s.isLoading && s.inFlight == 0
    ensures sent <==> !InputForm.SubmitDisabled(false, old(s.inputText))
    ensures s.inputText == old(s.inputText)
    ensures sent ==> s.requests == old(s.requests) + [SimplifyRequest(old(s.inputText))]
    ensures sent && Settlement(outcome).Success? ==>
      s.analysisResult == Some(Settlement(outcome).value) && s.error == "" && !s.isEditing
    ensures sent && Settlement(outcome).Failure? ==>
      s.analysisResult == None && s.error == Settlement(outcome).error && s.error != "" && s.isEditing == old(s.isEditing)
    ensures !sent ==> s.analysisResult == old(s.analysisResult) && s.isLoading == old(s.isLoading)
                      && s.error == old(s.error) && s.isEditing == old(s.isEditing) && s.requests == old(s.requests)
  {
    sent := s.ClickSubmit();
    if sent {
      s.Settle(outcome);
    }
  }
}
