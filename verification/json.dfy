/** JSON documents as exchanged between the browser client and the Flask backend. */
module Json {

  /**
   * A parsed JSON value. Numbers are integers (see README, "Left out");
   * an object maps each key to its value (for a duplicated key the last one wins
   * in both JSON.parse and json.loads, so a map loses nothing).
   */
  datatype Value =
    | Null
    | Bool(b: bool)
    | Num(n: int)
    | Str(s: string)
    | Arr(items: seq<Value>)
    | Obj(fields: map<string, Value>)

  /** The one-field object `{ key: v }`. */
  function Single(key: string, v: Value): (o: Value)
    ensures o.Obj? && key in o.fields && o.fields[key] == v && |o.fields| == 1
  {
    Obj(map[key := v])
  }
}
