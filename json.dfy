// A parsed JSON document (`serde_json::Value`), as the HF ImageFolder
// reader, the format detector and the HF preflight inspect it. Parsing and
// printing the text are not modelled. Objects keep their members in key
// order, as serde_json's default `Map` does. A number is an integer
// (`u64` or `i64`) or a float. A float is the real it denotes; JSON has no
// NaN or infinity.
module JsonValue {
  import opened Wrappers
  import Numbers

  datatype Number = Int(i: int) | Float(f: real)

  datatype Value =
    | Null
    | Bool(b: bool)
    | Num(n: Number)
    | Str(s: string)
    | Array(items: seq<Value>)
    | Object(members: seq<(string, Value)>)

  /** `Map::get`: the value of the first member named `key`. */
  function Get(members: seq<(string, Value)>, key: string): (r: Option<Value>)
    ensures r.Some? <==> Has(members, key)
    ensures r.Some? ==> exists k :: 0 <= k < |members| && members[k] == (key, r.value)
  {
    if |members| == 0 then None
    else if members[0].0 == key then Some(members[0].1)
    else
      var rest := Get(members[1..], key);
      assert rest.Some? ==> exists k :: 1 <= k < |members| && members[k] == (key, rest.value);
      rest
  }

  /** `Value::get(key)`: a member of an object; `None` for every other kind of value. */
  function Field(v: Value, key: string): (r: Option<Value>)
    ensures r.Some? <==> v.Object? && Has(v.members, key)
  {
    if v.Object? then Get(v.members, key) else None
  }

  /** `Map::contains_key`. */
  predicate Has(members: seq<(string, Value)>, key: string) {
    exists k :: 0 <= k < |members| && members[k].0 == key
  }

  /** The member names, in order. */
  function Keys(members: seq<(string, Value)>): (keys: seq<string>)
    ensures |keys| == |members| && forall k :: 0 <= k < |members| ==> keys[k] == members[k].0
  {
    seq(|members|, k requires 0 <= k < |members| => members[k].0)
  }

  function AsStr(v: Value): Option<string> {
    if v.Str? then Some(v.s) else None
  }

  function AsArray(v: Value): Option<seq<Value>> {
    if v.Array? then Some(v.items) else None
  }

  function AsObject(v: Value): Option<seq<(string, Value)>> {
    if v.Object? then Some(v.members) else None
  }

  /** `as_u64`: an integer that fits in `u64`. */
  function AsU64(v: Value): (r: Option<nat>)
    ensures r.Some? ==> r.value <= Numbers.U64_MAX
  {
    if v.Num? && v.n.Int? && 0 <= v.n.i <= Numbers.U64_MAX then Some(v.n.i as nat) else None
  }

  /** `as_i64`: an integer that fits in `i64`. */
  function AsI64(v: Value): (r: Option<int>)
    ensures r.Some? ==> Numbers.I64_MIN <= r.value <= Numbers.I64_MAX
  {
    if v.Num? && v.n.Int? && Numbers.I64_MIN <= v.n.i <= Numbers.I64_MAX then Some(v.n.i) else None
  }

  /** `as_f64`: any number; integers are taken at their value (rounding to `f64` is not modelled). */
  function AsF64(v: Value): (r: Option<real>)
    ensures r.Some? <==> v.Num?
  {
    if !v.Num? then None
    else match v.n
      case Int(i) => Some(i as real)
      case Float(f) => Some(f)
  }
}
