/** Inbound event payloads: arbitrary JSON that is transported and echoed, never interpreted. */
module Payloads {

  datatype Json =
    | Null
    | Bool(b: bool)
    | Num(n: int)
    | Str(s: string)
    | Arr(items: seq<Json>)
    | Obj(fields: seq<(string, Json)>)

  /** Python truthiness of a decoded body: `not data` holds exactly when this is false. */
  predicate Provided(data: Json)
    ensures !Provided(data) <==>
              data in {Null, Bool(false), Num(0), Str(""), Arr([]), Obj([])}
  {
    match data
    case Null => false
    case Bool(b) => b
    case Num(n) => n != 0
    case Str(s) => s != ""
    case Arr(items) => items != []
    case Obj(fields) => fields != []
  }
}
