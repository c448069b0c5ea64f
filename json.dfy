/** Values of the loosely-typed field records the game hands to persistence and
    gets back from it: a record maps field names to numbers or strings. */
module Json {

  datatype Option<+T> = None | Some(value: T)

  /** A field value as the record stores it: an integer, a real number, a string. */
  datatype Value = VInt(i: int) | VReal(r: real) | VStr(s: string)

  /** A field-named record (a JSON object with scalar members). */
  type Record = map<string, Value>
}
