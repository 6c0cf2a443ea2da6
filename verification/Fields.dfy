/** Reading JSON by field names and positions, step by step; what the laws about messages, chunks
    and replies are stated in. */
module Fields {
  import opened Wrappers
  import opened Json

  ghost function Field(v: Option<Json>, key: string): Option<Json> {
    if v.Some? && v.value.Obj? && key in v.value.fields then Some(v.value.fields[key]) else None
  }

  ghost function Item(v: Option<Json>, i: nat): Option<Json> {
    if v.Some? && v.value.Arr? && i < |v.value.items| then Some(v.value.items[i]) else None
  }

  ghost function TextIn(v: Option<Json>): Option<string> {
    if v.Some? && v.value.Str? then Some(v.value.s) else None
  }

  ghost function NumberIn(v: Option<Json>): Option<U64> {
    if v.Some? && v.value.Num? && v.value.n >= 0 then Some(v.value.n) else None
  }

  ghost function ItemsIn(v: Option<Json>): Option<seq<Json>> {
    if v.Some? && v.value.Arr? then Some(v.value.items) else None
  }
}
