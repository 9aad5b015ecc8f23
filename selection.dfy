/** What a parsed specification selects: parsing followed by evaluation. */
module Selection {
  import opened Values
  import opened Filter
  import opened Conditions
  import opened Parser
  import opened ParserProperties
  import opened Evaluator

  /** `{field: v}` selects exactly the documents whose value at `field` (null
      when missing) equals `v`. */
  lemma ScalarFieldSelector(field: string, v: Value, doc: Doc)
    requires Classify(field).FieldKey?
    ensures Parse([Entry(field, Scalar(v))]) == Ok([Leaf(Eq, field, v)])
    ensures AllHold(Parse([Entry(field, Scalar(v))]).value, doc) <==> Lookup(doc, field) == v
  {
    ParseSingle(Entry(field, Scalar(v)));
    var cs := [Leaf(Eq, field, v)];
    assert AllHold(cs, doc) <==> Holds(cs[0], doc);
  }

  /** A specification built from two parts selects a document exactly when
      both parts do: sibling keys are combined by AND. */
  lemma SiblingsConjunction(a: seq<Entry>, b: seq<Entry>, doc: Doc)
    requires Parse(a).Ok? && Parse(b).Ok?
    ensures Parse(a + b).Ok?
    ensures AllHold(Parse(a + b).value, doc) <==>
            AllHold(Parse(a).value, doc) && AllHold(Parse(b).value, doc)
  {
    ParseAppend(a, b);
    AllHoldAppend(Parse(a).value, Parse(b).value, doc);
  }
}
