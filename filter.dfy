/** The input of the parser: a nested, ordered filter specification in the
    shape of a PHP array, and the reserved keys it may contain. */
module Filter {
  import opened Values

  /** One node of a filter specification: a scalar, an ordered mapping with
      string keys, or a list (a PHP array with consecutive integer keys). */
  datatype Node =
    | Scalar(v: Value)
    | Mapping(entries: seq<Entry>)
    | List(items: seq<Node>)

  datatype Option<T> = None | Some(value: T)

  /** One key of a mapping together with its value. */
  datatype Entry = Entry(key: string, val: Node)

  // Sizes used only to show that the parser's mutual recursion terminates.

  function NodeSize(n: Node): (k: nat)
    ensures k >= 1
  {
    match n
    case Scalar(_) => 1
    case Mapping(es) => 1 + EntriesSize(es)
    case List(items) => 1 + ListSize(items)
  }

  function EntriesSize(es: seq<Entry>): (k: nat)
  {
    if es == [] then 0 else 1 + NodeSize(es[0].val) + EntriesSize(es[1..])
  }

  function ListSize(items: seq<Node>): (k: nat)
  {
    if items == [] then 0 else 1 + NodeSize(items[0]) + ListSize(items[1..])
  }

  /** A node read as a mapping. PHP's empty array `[]` is both an empty
      mapping and an empty list, so `List([])` reads as the empty mapping too;
      both encodings of `[]` therefore parse alike. */
  function AsMapping(n: Node): (r: Option<seq<Entry>>)
    ensures r.Some? <==> n.Mapping? || n == List([])
    ensures n.Mapping? ==> r == Some(n.entries)
    ensures n == List([]) ==> r == Some([])
    ensures r.Some? ==> EntriesSize(r.value) < NodeSize(n)
  {
    match n
    case Mapping(es) => Some(es)
    case List(items) => if items == [] then Some([]) else None
    case Scalar(_) => None
  }

  /** The comparison operators an operator mapping may use. */
  datatype Op = Eq | Ne | Gt | Gte | Lt | Lte

  /** The reserved key that names an operator. */
  function OpKey(op: Op): (key: string)
  {
    match op
    case Eq => "$eq"
    case Ne => "$ne"
    case Gt => "$gt"
    case Gte => "$gte"
    case Lt => "$lt"
    case Lte => "$lte"
  }

  /** The operator a key of an operator mapping names, if any. */
  function OperatorOf(key: string): (r: Option<Op>)
    ensures r.Some? ==> OpKey(r.value) == key
  {
    if key == "$eq" then Some(Eq)
    else if key == "$ne" then Some(Ne)
    else if key == "$gt" then Some(Gt)
    else if key == "$gte" then Some(Gte)
    else if key == "$lt" then Some(Lt)
    else if key == "$lte" then Some(Lte)
    else None
  }

  /** Every operator is recognised by its own key, and only by it. */
  lemma OperatorKeyRoundTrip(op: Op, key: string)
    ensures OperatorOf(OpKey(op)) == Some(op)
    ensures OperatorOf(key) == Some(op) <==> key == OpKey(op)
  {
  }

  const OrKey: string := "$or"
  const NotKey: string := "$not"
  const AndKey: string := "$and"

  /** What a key of a filter mapping stands for. */
  datatype KeyKind = FieldKey(name: string) | LogicOr | LogicNot | LogicAnd

  /** Each key is classified once: one of the logic keys, or else a field name. */
  function Classify(key: string): (k: KeyKind)
    ensures k.FieldKey? <==> key !in {OrKey, NotKey, AndKey}
    ensures k.FieldKey? ==> k.name == key
    ensures k == LogicOr <==> key == OrKey
    ensures k == LogicNot <==> key == NotKey
  {
    if key == OrKey then LogicOr
    else if key == NotKey then LogicNot
    else if key == AndKey then LogicAnd
    else FieldKey(key)
  }

  /** A key that does not start with `$` always names a field. */
  lemma PlainKeyIsField(key: string)
    requires key == [] || key[0] != '$'
    ensures Classify(key) == FieldKey(key)
  {
    assert OrKey[0] == '$' && NotKey[0] == '$' && AndKey[0] == '$';
  }

  /** A mapping whose keys are all field names (no logic key). */
  predicate FieldsOnly(es: seq<Entry>)
  {
    forall i :: 0 <= i < |es| ==> Classify(es[i].key).FieldKey?
  }
}
