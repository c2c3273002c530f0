/** JSON values as the decoder hands them over, and the result tables built from them. */
module JsonValues {

  datatype Option<+T> = None | Some(value: T)

  /** A decoded JSON value. Numbers are kept as integers; fractional numbers are not modelled. */
  datatype Json =
    | JNull
    | JBool(b: bool)
    | JNum(n: int)
    | JStr(s: string)
    | JArr(items: seq<Json>)
    | JObj(fields: map<string, Json>)

  /** One row of a result table: field name to value. */
  type Record = map<string, Json>

  /** A result table: its rows in order. The empty table is []. */
  type Table = seq<Record>
}
