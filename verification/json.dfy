/** Loosely typed JSON payloads (request bodies, persisted chat messages) and
    the JavaScript truthiness rule on them. A missing property is `None` in an
    `Option<Json>`, distinct from an explicit `null`.
 */
module Json {
  import opened Wrappers

  datatype Json =
    | Null
    | Bool(b: bool)
    | Num(n: real)
    | Str(s: string)
    | Arr(items: seq<Json>)
    | Obj(fields: map<string, Json>)

  /** JavaScript `Boolean(v)`: `null`, `false`, `0` and `""` are falsy; every
      array and object is truthy, even an empty one. */
  predicate Truthy(v: Json) {
    match v
    case Null => false
    case Bool(b) => b
    case Num(n) => n != 0.0
    case Str(s) => |s| > 0
    case Arr(_) => true
    case Obj(_) => true
  }

  /** Truthiness of a property that may be missing (`undefined` is falsy). */
  predicate TruthyField(v: Option<Json>) {
    v.Some? && Truthy(v.value)
  }

  /** An array every element of which is a string. */
  function StringList(items: seq<Json>): (r: Option<seq<string>>)
    ensures r.Some? <==> forall i :: 0 <= i < |items| ==> items[i].Str?
    ensures r.Some? ==> |r.value| == |items| && forall i :: 0 <= i < |items| ==> items[i] == Str(r.value[i])
    decreases |items|
  {
    if |items| == 0 then Some([])
    else if !items[0].Str? then None
    else
      match StringList(items[1..])
      case None => None
      case Some(rest) => Some([items[0].s] + rest)
  }

  function StringsToJson(ss: seq<string>): (items: seq<Json>)
    ensures |items| == |ss| && forall i :: 0 <= i < |ss| ==> items[i] == Str(ss[i])
  {
    seq(|ss|, i requires 0 <= i < |ss| => Str(ss[i]))
  }

  lemma StringListOfStrings(ss: seq<string>)
    ensures StringList(StringsToJson(ss)) == Some(ss)
  {
    var r := StringList(StringsToJson(ss));
    assert r.Some?;
    assert r.value == ss;
  }
}
