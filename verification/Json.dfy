/** JSON values and the accessors of `serde_json::Value` that the gateway uses. */
module Json {
  import opened Wrappers
  import Numbers

  const U64_BOUND: int := Numbers.U64_BOUND
  const I64_MIN: int := Numbers.I64_MIN

  /** The integers a `serde_json::Number` holds without turning into a float. */
  type Number = n: int | -0x8000_0000_0000_0000 <= n < 0x1_0000_0000_0000_0000

  type U64 = n: int | 0 <= n < 0x1_0000_0000_0000_0000

  datatype Json =
    | Null
    | Bool(b: bool)
    | Num(n: Number)
    | Float(x: Numbers.Float)
    | Str(s: string)
    | Arr(items: seq<Json>)
    | Obj(fields: map<string, Json>)
  {
    /** `v.get(key)`: None on anything but an object. */
    function Get(key: string): Option<Json> {
      if Obj? && key in fields then Some(fields[key]) else None
    }

    /** `v.get(0)` on an array. */
    function First(): Option<Json> {
      if Arr? && |items| > 0 then Some(items[0]) else None
    }

    function AsStr(): Option<string> {
      if Str? then Some(s) else None
    }

    function AsU64(): Option<U64> {
      if Num? && n >= 0 then Some(n) else None
    }

    function AsBool(): Option<bool> {
      if Bool? then Some(b) else None
    }

    function AsArr(): Option<seq<Json>> {
      if Arr? then Some(items) else None
    }
  }

  /** `v.get(key).and_then(as_str)`. */
  function GetStr(v: Json, key: string): Option<string> {
    match v.Get(key)
    case Some(x) => x.AsStr()
    case None => None
  }

  /** `v.get(key).and_then(as_u64)`. */
  function GetU64(v: Json, key: string): Option<U64> {
    match v.Get(key)
    case Some(x) => x.AsU64()
    case None => None
  }

  /** `v.get(key).and_then(as_array)`. */
  function GetArr(v: Json, key: string): Option<seq<Json>> {
    match v.Get(key)
    case Some(x) => x.AsArr()
    case None => None
  }

  /** The token counts of a reply; what is missing or not a u64 counts as 0. */
  function ExtractUsage(resp: Json): (U64, U64) {
    var usage := resp.Get("usage").GetOr(Obj(map[]));
    (GetU64(usage, "prompt_tokens").GetOr(0), GetU64(usage, "completion_tokens").GetOr(0))
  }
}
