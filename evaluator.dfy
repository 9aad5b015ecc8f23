/** Evaluation of a condition list against one document: the AND loop of the
    selector closure, with each condition turned into a closure first. */
module Evaluator {
  import opened Values
  import opened Filter
  import opened Conditions

  /** Lexicographic order on strings. */
  predicate StrBelow(x: string, y: string)
  {
    if x == [] then y != []
    else if y == [] then false
    else if x[0] != y[0] then x[0] < y[0]
    else StrBelow(x[1..], y[1..])
  }

  /** Ordering is defined between two integers or two strings only. */
  predicate Comparable(a: Value, b: Value)
  {
    (a.Int? && b.Int?) || (a.Str? && b.Str?)
  }

  predicate Below(a: Value, b: Value)
  {
    if a.Int? && b.Int? then a.i < b.i
    else if a.Str? && b.Str? then StrBelow(a.s, b.s)
    else false
  }

  /** `actual op literal`. Equality is same-kind equality; an ordering between
      values of different kinds simply does not hold. */
  predicate Compare(op: Op, actual: Value, literal: Value)
  {
    match op
    case Eq => actual == literal
    case Ne => actual != literal
    case Gt => Below(literal, actual)
    case Gte => Below(literal, actual) || (Comparable(actual, literal) && actual == literal)
    case Lt => Below(actual, literal)
    case Lte => Below(actual, literal) || (Comparable(actual, literal) && actual == literal)
  }

  /** Whether one condition holds of a document. A NOT group negates the
      conjunction of its children; an OR group holds when one of its branches
      holds entirely. */
  predicate Holds(c: Cond, doc: Doc)
  {
    match c
    case Leaf(op, field, literal) => Compare(op, Lookup(doc, field), literal)
    case Not(cs) => !(forall i :: 0 <= i < |cs| ==> Holds(cs[i], doc))
    case Or(bs) =>
      exists j :: 0 <= j < |bs| && forall i :: 0 <= i < |bs[j].conds| ==> Holds(bs[j].conds[i], doc)
  }

  /** The meaning of a condition list: every condition holds. */
  predicate AllHold(cs: seq<Cond>, doc: Doc)
  {
    forall i :: 0 <= i < |cs| ==> Holds(cs[i], doc)
  }

  /** Builds one selector closure per condition, appending them in order. */
  method Selectors(conds: seq<Cond>) returns (list: seq<Doc -> bool>)
    ensures |list| == |conds|
    ensures forall i, doc :: 0 <= i < |list| ==> list[i](doc) == Holds(conds[i], doc)
  {
    list := [];
    for k := 0 to |conds|
      invariant |list| == k
      invariant forall i, doc :: 0 <= i < k ==> list[i](doc) == Holds(conds[i], doc)
    {
      var c := conds[k];
      list := list + [(doc: Doc) => Holds(c, doc)];
    }
  }

  /** Runs the selectors in order and stops at the first one that fails;
      `evaluated` is how many selectors were called. */
  method Matches(list: seq<Doc -> bool>, doc: Doc) returns (r: bool, evaluated: nat)
    ensures r <==> forall i :: 0 <= i < |list| ==> list[i](doc)
    ensures evaluated <= |list|
    ensures forall i :: 0 <= i < evaluated - 1 ==> list[i](doc)
    ensures r ==> evaluated == |list|
    ensures !r ==> evaluated > 0 && !list[evaluated - 1](doc)
  {
    evaluated := 0;
    while evaluated < |list|
      invariant evaluated <= |list|
      invariant forall i :: 0 <= i < evaluated ==> list[i](doc)
    {
      var result := list[evaluated](doc);
      evaluated := evaluated + 1;
      if !result {
        return false, evaluated;
      }
    }
    return true, evaluated;
  }

  /** The selector closure: a document matches a condition list exactly when
      every condition holds; the empty list matches every document. */
  method EvalAll(conds: seq<Cond>, doc: Doc) returns (r: bool)
    ensures r == AllHold(conds, doc)
  {
    var list := Selectors(conds);
    var evaluated;
    r, evaluated := Matches(list, doc);
  }

  /** An `$eq` leaf holds exactly when the document's value at that field,
      null when the field is missing, equals the literal. */
  lemma EqLeafHolds(field: string, literal: Value, doc: Doc)
    ensures Holds(Leaf(Eq, field, literal), doc) <==>
            (field in doc && doc[field] == literal) || (field !in doc && literal == Null)
  {
  }

  /** The conjunction of two lists is the conjunction of their meanings. */
  lemma AllHoldAppend(a: seq<Cond>, b: seq<Cond>, doc: Doc)
    ensures AllHold(a + b, doc) <==> AllHold(a, doc) && AllHold(b, doc)
  {
    if AllHold(a, doc) && AllHold(b, doc) {
      forall i | 0 <= i < |a + b| ensures Holds((a + b)[i], doc) {
        if i >= |a| { assert (a + b)[i] == b[i - |a|]; }
      }
    }
    if AllHold(a + b, doc) {
      forall i | 0 <= i < |a| ensures Holds(a[i], doc) {
        assert (a + b)[i] == a[i];
      }
      forall i | 0 <= i < |b| ensures Holds(b[i], doc) {
        assert (a + b)[|a| + i] == b[i];
      }
    }
  }
}
