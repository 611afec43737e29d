/** The JSON-like values that appear in the dictionaries the scraper builds:
    query variables and product dictionaries. */
module Values {

  datatype Value = VNull | VBool(b: bool) | VInt(i: int) | VReal(r: real) | VStr(s: string)

  /** A Python `dict` with string keys. */
  type Dict = map<string, Value>
}
