/** `QueryExecuter::parse`: recursive descent from a filter specification to an
    ordered, AND-combined list of conditions. */
module Parser {
  import opened Filter
  import opened Conditions

  /** Parses a mapping key by key, in order; each key contributes its
      conditions to the output in that order. The first error wins. */
  function Parse(spec: seq<Entry>): (r: Result<seq<Cond>>)
    decreases EntriesSize(spec)
    ensures r.Ok? ==> AllWellFormed(r.value)
    ensures r.Ok? && FieldsOnly(spec) ==> AllLeaves(r.value)
  {
    if spec == [] then Ok([])
    else
      match ParseEntry(spec[0])
      case Err(e) => Err(e)
      case Ok(head) =>
        match Parse(spec[1..])
        case Err(e) => Err(e)
        case Ok(tail) => Ok(head + tail)
  }

  /** The conditions one key of a mapping contributes. */
  function ParseEntry(e: Entry): (r: Result<seq<Cond>>)
    decreases NodeSize(e.val)
    ensures r.Ok? ==> AllWellFormed(r.value)
    ensures r.Ok? && Classify(e.key).FieldKey? ==> AllLeaves(r.value)
    ensures Classify(e.key).FieldKey? ==> r == ParseField(e.key, e.val)
    ensures Classify(e.key) == LogicAnd ==> r == Err(UnsupportedLogic(e.key))
    ensures r.Ok? && Classify(e.key) == LogicNot ==> |r.value| == 1 && r.value[0].Not?
    ensures r.Ok? && Classify(e.key) == LogicOr ==> |r.value| == 1 && r.value[0].Or?
  {
    match Classify(e.key)
    case FieldKey(name) => ParseField(name, e.val)
    case LogicNot =>
      (match AsMapping(e.val)
       case Some(es) =>
         if !FieldsOnly(es) then Err(InvalidNotShape)
         else
           (match Parse(es)
            case Err(x) => Err(x)
            case Ok(cs) => if cs == [] then Err(InvalidNotShape) else Ok([Not(cs)]))
       case None => Err(InvalidNotShape))
    case LogicOr =>
      (match e.val
       case List(items) =>
         if items == [] then Err(InvalidOrShape)
         else
           (match ParseBranches(items)
            case Err(x) => Err(x)
            case Ok(bs) => Ok([Or(bs)]))
       case _ => Err(InvalidOrShape))
    case LogicAnd => Err(UnsupportedLogic(e.key))
  }

  /** Each element of an `$or` list, parsed as a mapping of its own. */
  function ParseBranches(items: seq<Node>): (r: Result<seq<Branch>>)
    decreases ListSize(items)
    ensures r.Ok? ==> |r.value| == |items|
    ensures r.Ok? ==> forall j :: 0 <= j < |r.value| ==> AllWellFormed(r.value[j].conds)
  {
    if items == [] then Ok([])
    else
      match AsMapping(items[0])
      case Some(es) =>
        (match Parse(es)
         case Err(x) => Err(x)
         case Ok(cs) =>
           (match ParseBranches(items[1..])
            case Err(x) => Err(x)
            case Ok(rest) => Ok([Branch(cs)] + rest)))
      case None => Err(InvalidOrShape)
  }

  /** A field key: a scalar is an `$eq` test, a mapping lists operators
      (the empty array lists none); a non-empty list is rejected. */
  function ParseField(name: string, n: Node): (r: Result<seq<Cond>>)
    ensures r.Ok? ==> AllLeaves(r.value)
    ensures r.Ok? ==> forall i :: 0 <= i < |r.value| ==> r.value[i].field == name
    ensures n.Scalar? ==> r == Ok([Leaf(Eq, name, n.v)])
    ensures n.List? && n.items != [] ==> r == Err(InvalidFieldShape(name))
  {
    if n.Scalar? then Ok([Leaf(Eq, name, n.v)])
    else
      match AsMapping(n)
      case Some(es) => ParseOperators(name, es)
      case None => Err(InvalidFieldShape(name))
  }

  /** An entry of an operator mapping: a recognised operator with a scalar operand. */
  predicate ValidOperand(e: Entry)
  {
    OperatorOf(e.key).Some? && e.val.Scalar?
  }

  /** The leaf each entry of a valid operator mapping stands for. */
  function OperatorLeaf(name: string, e: Entry): (c: Cond)
    requires ValidOperand(e)
  {
    Leaf(OperatorOf(e.key).value, name, e.val.v)
  }

  /** An operator mapping on one field: one leaf per operator, in order. */
  function ParseOperators(name: string, es: seq<Entry>): (r: Result<seq<Cond>>)
    ensures r.Ok? <==> forall i :: 0 <= i < |es| ==> ValidOperand(es[i])
    ensures r.Ok? ==> |r.value| == |es|
    ensures r.Ok? ==> forall i :: 0 <= i < |es| ==> r.value[i] == OperatorLeaf(name, es[i])
  {
    if es == [] then Ok([])
    else
      match OperatorOf(es[0].key)
      case None => Err(UnknownOperator(es[0].key))
      case Some(op) =>
        (match es[0].val
         case Scalar(v) =>
           (match ParseOperators(name, es[1..])
            case Err(x) => Err(x)
            case Ok(rest) => Ok([Leaf(op, name, v)] + rest))
         case _ => Err(InvalidOperand(name, es[0].key)))
  }
}
