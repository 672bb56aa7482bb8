/**
 * The two halves together: the request the client builds meets the Flask
 * handler's validation, and every response the handler can produce is turned
 * by the client into a specific result or message. Serialising a JSON value
 * (JSON.stringify, jsonify) and parsing it back (get_json, response.json) are
 * taken to give back the same value.
 */
module Protocol {
  import opened Wrappers
  import opened Json
  import Backend
  import App
  import Text
  import JsValues

  /** The client's view of a handler response: its status, and its body as `response.json()` reads it. */
  function Delivered(resp: Backend.Response, syntaxError: string): (o: App.FetchOutcome)
    ensures o.Responded? && o.status == resp.status
    ensures resp.body.JsonBody? ==> o.body == App.Parsed(resp.body.json)
    ensures resp.body.HtmlPage? ==> o.body == App.NotJson(syntaxError)
  {
    App.Responded(resp.status, match resp.body
      case JsonBody(v) => App.Parsed(v)
      case HtmlPage => App.NotJson(syntaxError))
  }

  /** Every submission the client sends passes validation with exactly the typed text, even blank text. */
  lemma RequestAccepted(inputText: string)
    ensures Backend.Validate(App.SimplifyRequest(inputText).body) == Backend.Accepted(Str(inputText))
  {
    var body := App.SimplifyRequest(inputText).body;
    assert "text" in body.fields;
    assert body.fields != map[];
  }

  /**
   * A submission end to end: the client never sees the 400 response; when
   * the model's reply is missing or does not parse, it shows the handler's
   * fixed 500 message; otherwise it settles on the parsed reply exactly as
   * on any ok response carrying that value.
   */
  lemma Submission(inputText: string, reply: Option<string>, loads: string -> Option<Value>, syntaxError: string)
    ensures var resp := Backend.SimplifyText(App.SimplifyRequest(inputText).body, reply, loads);
            resp.status != 400
            && App.Settlement(Delivered(resp, syntaxError)) ==
               if reply.Some? && loads(Backend.CleanFence(reply.value)).Some?
               then App.Settlement(App.Responded(200, App.Parsed(loads(Backend.CleanFence(reply.value)).value)))
               else Failure(Backend.ModelFailureMessage)
  {
    RequestAccepted(inputText);
    var resp := Backend.SimplifyText(App.SimplifyRequest(inputText).body, reply, loads);
    if resp.status != 200 {
      assert resp.body == Backend.ErrorBody(Backend.ModelFailureMessage);
      App.NotOkMessages(500, map["error" := Str(Backend.ModelFailureMessage)], syntaxError);
    }
  }

  /** The handler's error responses reach the user as these messages. */
  lemma ErrorResponsesShown(data: Value, reply: Option<string>, loads: string -> Option<Value>, syntaxError: string)
    ensures Backend.Validate(data) == Backend.Rejected ==>
      App.Settlement(Delivered(Backend.SimplifyText(data, reply, loads), syntaxError)) == Failure(Backend.NoTextMessage)
    ensures Backend.Validate(data) == Backend.Crashed ==>
      App.Settlement(Delivered(Backend.SimplifyText(data, reply, loads), syntaxError)) == Failure(App.NonJsonErrorMessage)
  {
    App.NotOkMessages(400, map["error" := Str(Backend.NoTextMessage)], syntaxError);
    App.NotOkMessages(500, map[], syntaxError);
  }

  /**
   * A reply the model wrapped in a fenced block reaches the user as the
   * result, when the parser reads the unwrapped text as an object without a
   * truthy `error` field.
   */
  lemma FencedReplyShown(inputText: string, before: string, body: string, after: string, tagged: bool,
                         loads: string -> Option<Value>, result: Value, syntaxError: string)
    requires Text.AllIn(before, Text.PyWhitespace) && Text.AllIn(after, Text.PyWhitespace)
    requires Text.Trimmed(body, Text.PyWhitespace)
    requires loads(body) == Some(result) && result.Obj? && !App.HasTruthyError(result)
    ensures var reply := Some(before + Backend.FencedBlock(body, tagged) + after);
            App.Settlement(Delivered(Backend.SimplifyText(App.SimplifyRequest(inputText).body, reply, loads), syntaxError))
            == Success(result)
  {
    Backend.CleanFenceUnwraps(before, body, after, tagged);
    Submission(inputText, Some(before + Backend.FencedBlock(body, tagged) + after), loads, syntaxError);
  }

  /**
   * The two halves judge a value's truth differently: whatever Python finds
   * true, JavaScript does too, and they disagree exactly on the empty list and
   * the empty dict, which Python finds false and JavaScript true.
   */
  lemma TruthinessDiffers(v: Value)
    ensures Backend.PyTruthy(v) ==> JsValues.Truthy(v)
    ensures JsValues.Truthy(v) && !Backend.PyTruthy(v) <==> v == Arr([]) || v == Obj(map[])
  {
  }
}
