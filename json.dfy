/** Parsed JSON values. A prediction record is a JSON object: a map from
    property names to values. Property order is not modelled. */
module Json {

  datatype Value =
    | Null
    | Bool(b: bool)
    | Num(n: real)
    | Str(s: string)
    | Arr(items: seq<Value>)
    | Obj(fields: map<string, Value>)

  /** A prediction as the page and the service handle it: the vendor's
      fields (`breedName`, `confidence`, `breedInfo`, ...) plus the ones
      added locally (`timestamp`, `id`, `imageUrl`). */
  type Record = map<string, Value>
}
