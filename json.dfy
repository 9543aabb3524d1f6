/** The values PHP arrays hold when they are sent to, or rendered for, the
    remote service: what `json_encode` receives. */
module Json {

  datatype Json =
    | JBool(b: bool)
    | JInt(i: int)
    | JNum(r: real)
    | JStr(s: string)
    | JList(items: seq<Json>)
    | JObj(fields: seq<(string, Json)>)

  /** `json_encode($value, $pretty ? JSON_PRETTY_PRINT : 0)`. The encoder is
      PHP library code outside the model; the model takes it as a parameter
      and assumes nothing about it. */
  type Encoder = (Json, bool) -> string
}
