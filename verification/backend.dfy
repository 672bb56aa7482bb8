/**
 * The Flask handler behind `POST /api/simplify` (app.py): validation of the
 * request body, removal of a Markdown code fence around the model's reply,
 * and the mapping of every outcome to an HTTP status and JSON body.
 * The generative model and `json.loads` are inputs: the model's reply text (or
 * its failure) and a parser from text to an optional JSON value.
 */
module Backend {
  import opened Wrappers
  import opened Json
  import Text

  const NoTextMessage := "No text provided in the request"
  const ModelFailureMessage := "Failed to process the text with the AI model."

  /** The fence that introduces a JSON code block, and a bare fence. */
  const JsonFence := "```json"
  const Fence := "```"

  /**
   * Python's truth value of the object a JSON document decodes to: the falsy
   * ones are exactly None, False, 0, and the empty str, list and dict.
   */
  function PyTruthy(v: Value): (t: bool)
    ensures !t <==> v in {Null, Bool(false), Num(0), Str(""), Arr([]), Obj(map[])}
  {
    match v
    case Null => false
    case Bool(b) => b
    case Num(n) => n != 0
    case Str(s) => s != ""
    case Arr(items) => items != []
    case Obj(fields) => fields != map[]
  }

  /**
   * Python's `'text' in data` on the decoded body: key membership for a dict,
   * element equality for a list, substring search for a str; `None` stands for
   * the TypeError raised for a bool, a number or None.
   */
  function PyHasText(data: Value): (r: Option<bool>)
    ensures r.None? <==> data.Null? || data.Bool? || data.Num?
  {
    match data
    case Obj(fields) => Some("text" in fields)
    case Arr(items) => Some(Str("text") in items)
    case Str(s) => Some(Text.Contains(s, "text"))
    case _ => None
  }

  /** How the opening lines of `simplify_text` end. */
  datatype Validation =
    | Accepted(text: Value)   // `original_text = data['text']` ran
    | Rejected                // the 400 response with NoTextMessage
    | Crashed                 // a TypeError raised outside the try block

  /**
   * The checks `if not data or 'text' not in data` followed by `data['text']`.
   * A dict is accepted exactly when it has the key, whatever the value bound to
   * it (an empty string or null included); a falsy body is rejected; other
   * truthy bodies either fail the membership test or raise.
   */
  function Validate(data: Value): (v: Validation)
    ensures v.Accepted? <==> data.Obj? && "text" in data.fields
    ensures v.Accepted? ==> v.text == data.fields["text"]
    ensures !PyTruthy(data) ==> v == Rejected
    ensures data.Obj? && "text" !in data.fields ==> v == Rejected
    ensures v == Crashed <==> PyTruthy(data) && !data.Obj? && PyHasText(data) != Some(false)
  {
    if !PyTruthy(data) then Rejected
    else match PyHasText(data)
      case None => Crashed
      case Some(has) =>
        if !has then Rejected
        // subscripting a list or a str with a str key raises TypeError
        else if data.Obj? then Accepted(data.fields["text"])
        else Crashed
  }

  /**
   * The clean-up of the model's reply: when the stripped reply starts with a
   * fence, the fence characters are sliced off both ends (seven for "```json",
   * checked first, three for "```") and the rest stripped again; otherwise the
   * reply is passed on untouched.
   */
  function CleanFence(reply: string): (r: string)
    ensures !(Fence <= Text.PyStrip(reply)) ==> r == reply
    ensures Fence <= Text.PyStrip(reply) ==> Text.Trimmed(r, Text.PyWhitespace)
    ensures |r| <= |reply|
  {
    var st := Text.PyStrip(reply);
    if JsonFence <= st then Text.PyStrip(Text.PySlice(st, 7, -3))
    else if Fence <= st then Text.PyStrip(Text.PySlice(st, 3, -3))
    else reply
  }

  /**
   * The fenced branches in terms of the stripped reply `st`: the text strictly
   * between the opening fence and the last three characters, stripped, or the
   * empty string when the reply is too short to hold both fences.
   */
  lemma CleanFenceBranches(reply: string)
    ensures var st := Text.PyStrip(reply);
            JsonFence <= st ==>
              CleanFence(reply) == (if |st| >= 10 then Text.PyStrip(st[7..|st| - 3]) else "")
    ensures var st := Text.PyStrip(reply);
            Fence <= st && !(JsonFence <= st) ==>
              CleanFence(reply) == (if |st| >= 6 then Text.PyStrip(st[3..|st| - 3]) else "")
  {
    var st := Text.PyStrip(reply);
    Text.SliceBetweenFences(st, 7);
    Text.SliceBetweenFences(st, 3);
    assert Text.Strip([], Text.PyWhitespace) == [];
  }

  /**
   * Why the "```json" test comes first: on a reply fenced as "```json", the
   * bare-fence rule would keep the language tag, while CleanFence drops the
   * whole opening fence.
   */
  lemma JsonTagRemoved(reply: string)
    requires JsonFence <= Text.PyStrip(reply) && |Text.PyStrip(reply)| >= 10
    ensures var st := Text.PyStrip(reply);
            "json" <= Text.PyStrip(Text.PySlice(st, 3, -3))
            && CleanFence(reply) == Text.PyStrip(st[7..|st| - 3])
  {
    var st := Text.PyStrip(reply);
    CleanFenceOfStripped(reply, st);
    Text.SliceBetweenFences(st, 7);
    BareRuleKeepsTag(st);
  }

  /** The bare-fence slice of a "```json" block starts with the tag. */
  lemma BareRuleKeepsTag(st: string)
    requires JsonFence <= st && |st| >= 10
    ensures "json" <= Text.PyStrip(Text.PySlice(st, 3, -3))
  {
    Text.SliceBetweenFences(st, 3);
    var mid := st[3..|st| - 3];
    assert st[3] == 'j' && st[4] == 's' && st[5] == 'o' && st[6] == 'n';
    assert "json" <= mid;
    Text.StripKeepsPrefix(mid, "json", Text.PyWhitespace);
  }

  /** CleanFence of a reply that strips to `block` depends on `block` alone. */
  lemma CleanFenceOfStripped(reply: string, block: string)
    requires Text.PyStrip(reply) == block
    ensures JsonFence <= block ==> CleanFence(reply) == Text.PyStrip(Text.PySlice(block, 7, -3))
    ensures !(JsonFence <= block) && Fence <= block ==> CleanFence(reply) == Text.PyStrip(Text.PySlice(block, 3, -3))
  {
  }

  /** The fenced block around `body`: opening fence, line break, body, line break, closing fence. */
  function FencedBlock(body: string, tagged: bool): (block: string)
    ensures Fence <= block && (tagged <==> JsonFence <= block)
    ensures Text.Trimmed(block, Text.PyWhitespace)
    ensures Text.PySlice(block, if tagged then 7 else 3, -3) == "\n" + body + "\n"
  {
    var open := if tagged then JsonFence else Fence;
    var block := open + "\n" + body + "\n" + Fence;
    assert block[..3] == Fence;
    assert !tagged ==> block[3] == '\n';
    Text.SliceBetweenFences(block, |open|);
    assert block[|open|..|block| - 3] == "\n" + body + "\n";
    block
  }

  /**
   * Round trip: a trimmed JSON text wrapped in a fenced block (with or without
   * the "json" tag), with any whitespace around the block, comes out exactly as
   * it went in.
   */
  lemma CleanFenceUnwraps(before: string, body: string, after: string, tagged: bool)
    requires Text.AllIn(before, Text.PyWhitespace) && Text.AllIn(after, Text.PyWhitespace)
    requires Text.Trimmed(body, Text.PyWhitespace)
    ensures CleanFence(before + FencedBlock(body, tagged) + after) == body
  {
    var block := FencedBlock(body, tagged);
    Text.StripFrame(before, block, after, Text.PyWhitespace);
    CleanFenceOfStripped(before + block + after, block);
    LinesStripped(body);
  }

  /** A trimmed text between two line breaks strips back to itself. */
  lemma LinesStripped(body: string)
    requires Text.Trimmed(body, Text.PyWhitespace)
    ensures Text.PyStrip("\n" + body + "\n") == body
  {
    assert Text.AllIn("\n", Text.PyWhitespace);
    Text.StripFrame("\n", body, "\n", Text.PyWhitespace);
  }

  /** A reply with no fence after stripping is handed to the parser verbatim, whitespace and all. */
  lemma UnfencedUntouched(reply: string)
    requires reply != [] && !Text.PyWhitespace(reply[0]) && reply[0] != '`'
    ensures CleanFence(reply) == reply
  {
    Text.LeadingRunIs(reply, 0, Text.PyWhitespace);
    assert Text.PyStrip(reply)[0] == reply[0];
  }

  /** The body of an HTTP response: JSON, or the HTML error page Flask renders for an uncaught exception. */
  datatype Body = JsonBody(json: Value) | HtmlPage

  datatype Response = Response(status: int, body: Body)

  /** `jsonify({"error": message})`. */
  function ErrorBody(message: string): (b: Body)
    ensures b.JsonBody? && b.json.Obj? && b.json.fields.Keys == {"error"} && b.json.fields["error"] == Str(message)
  {
    JsonBody(Single("error", Str(message)))
  }

  /**
   * `simplify_text`. `reply` is the text of the model's answer, or `None` when
   * generating it raised; `loads` is `json.loads`, `None` when it raises.
   */
  function SimplifyText(data: Value, reply: Option<string>, loads: string -> Option<Value>): (r: Response)
    ensures Validate(data) == Rejected ==> r == Response(400, ErrorBody(NoTextMessage))
    ensures Validate(data) == Crashed ==> r == Response(500, HtmlPage)
    ensures r.status == 200 <==> Validate(data).Accepted? && reply.Some? && loads(CleanFence(reply.value)).Some?
    ensures r.status == 200 ==> r.body == JsonBody(loads(CleanFence(reply.value)).value)
    ensures Validate(data).Accepted? && r.status != 200 ==> r == Response(500, ErrorBody(ModelFailureMessage))
  {
    match Validate(data)
    case Rejected => Response(400, ErrorBody(NoTextMessage))
    case Crashed => Response(500, HtmlPage)
    case Accepted(_) =>
      match reply
      case None => Response(500, ErrorBody(ModelFailureMessage))
      case Some(text) =>
        match loads(CleanFence(text))
        case None => Response(500, ErrorBody(ModelFailureMessage))
        case Some(parsed) => Response(200, JsonBody(parsed))
  }
}
