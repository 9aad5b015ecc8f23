/** Scalar values that a filter compares against and the flat documents it is
    evaluated on. */
module Values {

  /** A scalar literal of a filter, or the value a document holds at a field. */
  datatype Value = Int(i: int) | Str(s: string) | Bool(b: bool) | Null

  /** A document as the evaluator sees it: field name to value. */
  type Doc = map<string, Value>

  /** The value a document holds at a field; a missing field reads as null. */
  function Lookup(doc: Doc, field: string): (v: Value)
    ensures field in doc ==> v == doc[field]
    ensures field !in doc ==> v == Null
  {
    if field in doc then doc[field] else Null
  }
}
