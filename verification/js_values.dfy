/**
 * The JavaScript semantics the client's error handling depends on: truthiness,
 * the string a value becomes when passed to `new Error(...)`, and reading the
 * `error` property of a parsed response body.
 */
module JsValues {
  import opened Wrappers
  import opened Json

  /**
   * JavaScript's ToBoolean on a parsed JSON value: the falsy values are exactly
   * null, false, 0 and ""; every array and object is truthy, even an empty one.
   */
  function Truthy(v: Value): (t: bool)
    ensures !t <==> v in {Null, Bool(false), Num(0), Str("")}
  {
    match v
    case Null => false
    case Bool(b) => b
    case Num(n) => n != 0
    case Str(s) => s != ""
    case Arr(_) => true
    case Obj(_) => true
  }

  /** The character for a decimal digit. */
  function DigitChar(d: nat): (c: char)
    requires d < 10
    ensures '0' <= c <= '9' && c as int - '0' as int == d
  {
    ('0' as int + d) as char
  }

  /** The number a string of decimal digits denotes, most significant digit first. */
  function DecValue(s: string): nat
  {
    if s == [] then 0
    else
      var d := s[|s| - 1] as int - '0' as int;
      10 * DecValue(s[..|s| - 1]) + (if 0 <= d then d else 0)
  }

  /** The decimal digits of `n`, most significant first, without leading zeros: they denote `n`. */
  function Digits(n: nat): (s: string)
    ensures |s| >= 1
    ensures forall i :: 0 <= i < |s| ==> '0' <= s[i] <= '9'
    ensures |s| > 1 ==> s[0] != '0'
    ensures DecValue(s) == n
    decreases n
  {
    if n < 10 then
      var s := [DigitChar(n)];
      assert s[..0] == [];
      s
    else
      var high := Digits(n / 10);
      var s := high + [DigitChar(n % 10)];
      assert s[0] == high[0] && s[..|s| - 1] == high;
      s
  }

  /** Number.prototype.toString for an integer below 10^21 in magnitude: a sign for negatives, then the digits. */
  function Decimal(n: int): (r: string)
    ensures r != []
    ensures r[0] == '-' <==> n < 0
    ensures n >= 0 ==> DecValue(r) == n
    ensures n < 0 ==> DecValue(r[1..]) == -n
    ensures var d := if n < 0 then r[1..] else r;
            d != [] && (forall i :: 0 <= i < |d| ==> '0' <= d[i] <= '9') && (|d| > 1 ==> d[0] != '0')
  {
    if n < 0 then
      var r := "-" + Digits(-n);
      assert r[1..] == Digits(-n);
      r
    else Digits(n)
  }

  /** Array.prototype.join with the default separator ",": one comma between each two neighbours. */
  function JoinComma(parts: seq<string>): (r: string)
    ensures parts == [] ==> r == ""
    ensures |parts| == 1 ==> r == parts[0]
    ensures |r| == Sum(parts) + (if parts == [] then 0 else |parts| - 1)
  {
    if parts == [] then ""
    else if |parts| == 1 then parts[0]
    else parts[0] + "," + JoinComma(parts[1..])
  }

  /** The total length of the parts. */
  function Sum(parts: seq<string>): nat
  {
    if parts == [] then 0 else |parts[0]| + Sum(parts[1..])
  }

  /** The message of the TypeError thrown when an object has no usable conversion to a primitive (V8's wording). */
  const ObjectConversionError := "Cannot convert object to primitive value"

  /**
   * Whether String(v) throws. An object parsed from JSON with its own
   * `toString` key shadows Object.prototype.toString with a value that is not
   * callable, and the inherited valueOf returns the object itself, so no
   * primitive is reached and a TypeError is thrown; an array throws when one
   * of its elements does, since join converts each element.
   */
  predicate ConversionThrows(v: Value)
  {
    match v
    case Obj(fields) => "toString" in fields
    case Arr(items) => exists i :: 0 <= i < |items| && ConversionThrows(items[i])
    case _ => false
  }

  /**
   * JavaScript's String(v), the `message` that `new Error(v)` records, or the
   * TypeError's message when the conversion throws: a string is itself, a
   * number its decimal form, an array joins its elements with "," (null
   * elements become ""), and an object without its own `toString` key becomes
   * "[object Object]".
   */
  function ToJsString(v: Value): (r: Result<string, string>)
    ensures r.Failure? <==> ConversionThrows(v)
    ensures r.Failure? ==> r.error == ObjectConversionError
    ensures v.Str? ==> r == Success(v.s)
    ensures v.Bool? ==> r == Success(if v.b then "true" else "false")
    ensures v.Num? ==> r == Success(Decimal(v.n))
    ensures v.Obj? && "toString" !in v.fields ==> r == Success("[object Object]")
    ensures v == Arr([]) ==> r == Success("")
    decreases v, 0
  {
    match v
    case Null => Success("null")
    case Bool(b) => Success(if b then "true" else "false")
    case Num(n) => Success(Decimal(n))
    case Str(s) => Success(s)
    case Arr(items) =>
      var rs := seq(|items|, i requires 0 <= i < |items| => Part(items[i]));
      var parts := Parts(rs);
      if parts.Success? then
        assert forall i :: 0 <= i < |items| ==> rs[i] == Part(items[i]) && rs[i].Success?;
        Success(JoinComma(parts.value))
      else Failure(parts.error)
    case Obj(fields) =>
      if "toString" in fields then Failure(ObjectConversionError) else Success("[object Object]")
  }

  /**
   * Joining two non-empty lists is joining each and putting one comma between:
   * with the empty and one-part cases this fixes JoinComma completely, the parts
   * in order with a comma between each two neighbours.
   */
  lemma {:induction false} JoinAppend(a: seq<string>, b: seq<string>)
    requires a != [] && b != []
    ensures JoinComma(a + b) == JoinComma(a) + "," + JoinComma(b)
  {
    if |a| == 1 {
      assert (a + b)[0] == a[0] && (a + b)[1..] == b;
    } else {
      assert (a + b)[0] == a[0] && (a + b)[1..] == a[1..] + b;
      JoinAppend(a[1..], b);
    }
  }

  /** The part an array element contributes to the array's String(): "" for null, its own String() otherwise. */
  function Part(x: Value): (r: Result<string, string>)
    ensures x.Null? ==> r == Success("")
    ensures !x.Null? ==> r == ToJsString(x)
    decreases x, 1
  {
    if x.Null? then Success("") else ToJsString(x)
  }

  /**
   * Converting the elements one after another, as join does: the texts of all
   * of them, or the first conversion that throws (the later ones are never
   * reached).
   */
  function Parts(rs: seq<Result<string, string>>): (r: Result<seq<string>, string>)
    ensures r.Success? <==> forall i :: 0 <= i < |rs| ==> rs[i].Success?
    ensures r.Success? ==> |r.value| == |rs| && forall i :: 0 <= i < |rs| ==> rs[i] == Success(r.value[i])
    ensures r.Failure? ==> exists i :: 0 <= i < |rs| && rs[i] == Failure(r.error) && forall j :: 0 <= j < i ==> rs[j].Success?
  {
    if rs == [] then Success([])
    else if rs[0].Failure? then Failure(rs[0].error)
    else
      var rest := Parts(rs[1..]);
      if rest.Failure? then
        assert exists i :: 0 <= i < |rs| - 1 && rs[1..][i] == Failure(rest.error) && forall j :: 0 <= j < i ==> rs[1..][j].Success?;
        var i :| 0 <= i < |rs| - 1 && rs[1..][i] == Failure(rest.error) && forall j :: 0 <= j < i ==> rs[1..][j].Success?;
        assert rs[i + 1] == Failure(rest.error) && forall j :: 0 <= j < i + 1 ==> rs[j].Success?;
        Failure(rest.error)
      else
        Success([rs[0].value] + rest.value)
  }

  /** Converting a concatenation converts the first list and then, if nothing threw, the second. */
  lemma {:induction false} PartsAppend(a: seq<Result<string, string>>, b: seq<Result<string, string>>)
    ensures Parts(a + b) ==
      if Parts(a).Failure? then Parts(a)
      else if Parts(b).Failure? then Parts(b)
      else Success(Parts(a).value + Parts(b).value)
  {
    if a == [] {
      assert a + b == b;
      if Parts(b).Success? {
        assert Parts(a).value + Parts(b).value == Parts(b).value;
      }
    } else {
      assert (a + b)[0] == a[0] && (a + b)[1..] == a[1..] + b;
      PartsAppend(a[1..], b);
      if a[0].Success? && Parts(a[1..]).Success? && Parts(b).Success? {
        assert [a[0].value] + (Parts(a[1..]).value + Parts(b).value) == ([a[0].value] + Parts(a[1..]).value) + Parts(b).value;
      }
    }
  }

  /**
   * An array's String() splits at any point into the two halves' String()s
   * joined by a comma, and it throws exactly when one of the halves does.
   */
  lemma ArrayMessageAppend(xs: seq<Value>, ys: seq<Value>)
    requires xs != [] && ys != []
    ensures ToJsString(Arr(xs + ys)).Failure? <==> ToJsString(Arr(xs)).Failure? || ToJsString(Arr(ys)).Failure?
    ensures ToJsString(Arr(xs)).Success? && ToJsString(Arr(ys)).Success? ==>
      ToJsString(Arr(xs + ys)) == Success(ToJsString(Arr(xs)).value + "," + ToJsString(Arr(ys)).value)
  {
    var ps := seq(|xs|, i requires 0 <= i < |xs| => Part(xs[i]));
    var qs := seq(|ys|, i requires 0 <= i < |ys| => Part(ys[i]));
    var zs := xs + ys;
    var all := seq(|zs|, i requires 0 <= i < |zs| => Part(zs[i]));
    assert all == ps + qs;
    PartsAppend(ps, qs);
    if Parts(ps).Success? && Parts(qs).Success? {
      JoinAppend(Parts(ps).value, Parts(qs).value);
    }
  }

  /** A one-element array converts to what its element converts to, and a null element to "". */
  lemma SingletonMessage(x: Value)
    ensures ToJsString(Arr([x])) == if x.Null? then Success("") else ToJsString(x)
  {
  }

  /**
   * An object with its own `toString` key throws the TypeError, alone and
   * inside an array, even after elements that convert.
   */
  lemma OwnToStringThrows(fields: map<string, Value>, before: seq<Value>)
    requires "toString" in fields
    ensures ToJsString(Obj(fields)) == Failure(ObjectConversionError)
    ensures ToJsString(Arr(before + [Obj(fields)])) == Failure(ObjectConversionError)
  {
    var items := before + [Obj(fields)];
    assert items[|before|] == Obj(fields);
  }

  /** A numeric `error` becomes a message whose digits denote the number, with a sign exactly when negative. */
  lemma NumberMessage(n: int)
    ensures ToJsString(Num(n)).Success?
    ensures var m := ToJsString(Num(n)).value;
            m != [] && (m[0] == '-' <==> n < 0)
            && DecValue(if n < 0 then m[1..] else m) == (if n < 0 then -n else n)
  {
  }

  /** The message of the TypeError thrown when a property of `null` is read (V8's wording). */
  const NullErrorRead := "Cannot read properties of null (reading 'error')"

  /**
   * The expression `v.error`: the property's value, `None` for `undefined`
   * (every primitive and array lacks the property), or the TypeError message
   * when `v` is null.
   */
  function ReadError(v: Value): (r: Result<Option<Value>, string>)
    ensures r.Failure? <==> v.Null?
    ensures r == Success(None) <==> !v.Null? && !(v.Obj? && "error" in v.fields)
    ensures v.Obj? && "error" in v.fields ==> r == Success(Some(v.fields["error"]))
  {
    match v
    case Null => Failure(NullErrorRead)
    case Obj(fields) => if "error" in fields then Success(Some(fields["error"])) else Success(None)
    case _ => Success(None)
  }

  /** A string converts to itself, and the message of a non-empty string is non-empty. */
  lemma StringMessage(s: string)
    ensures ToJsString(Str(s)) == Success(s)
    ensures Truthy(Str(s)) <==> s != ""
  {
  }

  /**
   * A truthy value can still convert to the empty string: `[""]` is truthy
   * (every array is) and String([""]) is "".
   */
  lemma TruthyButEmptyMessage()
    ensures Truthy(Arr([Str("")])) && ToJsString(Arr([Str("")])) == Success("")
    ensures Truthy(Arr([Null])) && ToJsString(Arr([Null])) == Success("")
  {
  }
}
