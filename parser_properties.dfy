/** What the parser promises about the shape of its output. */
module ParserProperties {
  import opened Filter
  import opened Conditions
  import opened Parser

  /** The result of parsing two mappings one after the other: the first
      error, or the two condition lists concatenated. */
  function Concat(ra: Result<seq<Cond>>, rb: Result<seq<Cond>>): (r: Result<seq<Cond>>)
  {
    match ra
    case Err(e) => Err(e)
    case Ok(x) =>
      match rb
      case Err(e) => Err(e)
      case Ok(y) => Ok(x + y)
  }

  /** Keys are parsed independently and in order: the conditions of a
      mapping are those of its first part followed by those of the rest. */
  lemma {:induction false} ParseAppend(a: seq<Entry>, b: seq<Entry>)
    ensures Parse(a + b) == Concat(Parse(a), Parse(b))
  {
    if a == [] {
      assert a + b == b;
      match Parse(b)
      case Err(_) =>
      case Ok(y) => assert [] + y == y;
    } else {
      assert (a + b)[0] == a[0];
      assert (a + b)[1..] == a[1..] + b;
      ParseAppend(a[1..], b);
      match ParseEntry(a[0])
      case Err(_) =>
      case Ok(head) =>
        match Parse(a[1..])
        case Err(_) =>
        case Ok(x) =>
          match Parse(b)
          case Err(_) =>
          case Ok(y) => assert head + (x + y) == (head + x) + y;
    }
  }

  /** A mapping of one key contributes exactly that key's conditions. */
  lemma ParseSingle(e: Entry)
    ensures Parse([e]) == ParseEntry(e)
  {
    assert [e][1..] == [];
    match ParseEntry(e)
    case Err(_) =>
    case Ok(head) => assert head + [] == head;
  }

  /** Scalar field values: one `$eq` leaf per field, in the mapping's order. */
  lemma {:induction false} ScalarFields(spec: seq<Entry>)
    requires FieldsOnly(spec)
    requires forall i :: 0 <= i < |spec| ==> spec[i].val.Scalar?
    ensures Parse(spec).Ok?
    ensures |Parse(spec).value| == |spec|
    ensures forall i :: 0 <= i < |spec| ==>
              Parse(spec).value[i] == Leaf(Eq, spec[i].key, spec[i].val.v)
  {
    if spec != [] {
      assert Classify(spec[0].key).FieldKey?;
      assert ParseEntry(spec[0]) == Ok([Leaf(Eq, spec[0].key, spec[0].val.v)]);
      assert FieldsOnly(spec[1..]) by {
        forall i | 0 <= i < |spec[1..]| ensures Classify(spec[1..][i].key).FieldKey? {
          assert spec[1..][i] == spec[i + 1];
        }
      }
      ScalarFields(spec[1..]);
    }
  }

  /** An operator mapping on a field: one leaf per operator, in the mapping's
      order, all naming that field; an unrecognised operator or a non-scalar
      operand rejects the whole specification. */
  lemma OperatorMap(name: string, es: seq<Entry>)
    requires Classify(name).FieldKey?
    ensures Parse([Entry(name, Mapping(es))]).Ok? <==>
            forall i :: 0 <= i < |es| ==> ValidOperand(es[i])
    ensures Parse([Entry(name, Mapping(es))]).Ok? ==>
              |Parse([Entry(name, Mapping(es))]).value| == |es| &&
              forall i :: 0 <= i < |es| ==>
                Parse([Entry(name, Mapping(es))]).value[i] == OperatorLeaf(name, es[i]) &&
                Parse([Entry(name, Mapping(es))]).value[i].field == name
  {
    ParseSingle(Entry(name, Mapping(es)));
  }

  /** `$not` yields a single NOT group whose children are exactly the flat
      leaf list its mapping yields when parsed at top level. The mapping may
      hold field keys only and must yield at least one leaf. */
  lemma NotGroup(n: Node)
    ensures Parse([Entry(NotKey, n)]).Ok? <==>
            AsMapping(n).Some? && FieldsOnly(AsMapping(n).value) &&
            Parse(AsMapping(n).value).Ok? && Parse(AsMapping(n).value).value != []
    ensures Parse([Entry(NotKey, n)]).Ok? ==>
            Parse([Entry(NotKey, n)]).value == [Not(Parse(AsMapping(n).value).value)]
    ensures AsMapping(n).None? ==> Parse([Entry(NotKey, n)]) == Err(InvalidNotShape)
  {
    ParseSingle(Entry(NotKey, n));
  }

  /** The element of an `$or` list read as a mapping that parses. */
  predicate ParsableBranch(n: Node)
  {
    AsMapping(n).Some? && Parse(AsMapping(n).value).Ok?
  }

  /** The branches of an `$or` list, element by element. */
  lemma {:induction false} BranchesPointwise(items: seq<Node>)
    ensures ParseBranches(items).Ok? <==>
            forall j :: 0 <= j < |items| ==> ParsableBranch(items[j])
    ensures ParseBranches(items).Ok? ==>
            forall j :: 0 <= j < |items| ==>
              ParseBranches(items).value[j] == Branch(Parse(AsMapping(items[j]).value).value)
  {
    if items != [] {
      BranchesPointwise(items[1..]);
      if ParsableBranch(items[0]) {
        if ParseBranches(items[1..]).Ok? {
          var rest := ParseBranches(items[1..]).value;
          assert ParseBranches(items).value == [Branch(Parse(AsMapping(items[0]).value).value)] + rest;
          forall j | 1 <= j < |items|
            ensures ParsableBranch(items[j])
            ensures ParseBranches(items).value[j] == Branch(Parse(AsMapping(items[j]).value).value)
          {
            assert items[j] == items[1..][j - 1];
          }
        } else {
          var j :| 0 <= j < |items[1..]| && !ParsableBranch(items[1..][j]);
          assert items[1..][j] == items[j + 1];
        }
      }
    }
  }

  /** `$or` yields a single OR group with one branch per list element, in
      order; each branch is the recursive parse of that element as a mapping
      of its own. Anything but a non-empty list of mappings is rejected. */
  lemma OrGroup(n: Node)
    ensures Parse([Entry(OrKey, n)]).Ok? <==>
            n.List? && n.items != [] &&
            forall j :: 0 <= j < |n.items| ==> ParsableBranch(n.items[j])
    ensures Parse([Entry(OrKey, n)]).Ok? ==>
            var r := Parse([Entry(OrKey, n)]).value;
            |r| == 1 && r[0].Or? && |r[0].branches| == |n.items| &&
            forall j :: 0 <= j < |n.items| ==>
              r[0].branches[j].conds == Parse(AsMapping(n.items[j]).value).value
    ensures !n.List? ==> Parse([Entry(OrKey, n)]) == Err(InvalidOrShape)
  {
    ParseSingle(Entry(OrKey, n));
    if n.List? {
      BranchesPointwise(n.items);
    }
  }

  /** An `$or` element that parses to a single condition is still a
      one-element list, never the bare condition. */
  lemma OrSingleLeafBranch(items: seq<Node>, j: nat, c: Cond)
    requires Parse([Entry(OrKey, List(items))]).Ok?
    requires j < |items| && items[j].Mapping? && Parse(items[j].entries) == Ok([c])
    ensures var r := Parse([Entry(OrKey, List(items))]).value;
            |r| == 1 && r[0].Or? && j < |r[0].branches| &&
            r[0].branches[j] == Branch([c])
  {
    OrGroup(List(items));
  }

  /** PHP's empty array `[]` means the same in both of its encodings: no
      condition as a field's value, an always-true branch as an `$or`
      element, and a rejected `$not` or `$or` value. */
  lemma EmptyArrayEncodingsAgree(field: string)
    requires Classify(field).FieldKey?
    ensures Parse([Entry(field, Mapping([]))]) == Parse([Entry(field, List([]))]) == Ok([])
    ensures Parse([Entry(OrKey, List([Mapping([])]))]) ==
            Parse([Entry(OrKey, List([List([])]))]) == Ok([Or([Branch([])])])
    ensures Parse([Entry(NotKey, Mapping([]))]) ==
            Parse([Entry(NotKey, List([]))]) == Err(InvalidNotShape)
    ensures Parse([Entry(OrKey, Mapping([]))]) ==
            Parse([Entry(OrKey, List([]))]) == Err(InvalidOrShape)
  {
    ParseSingle(Entry(field, Mapping([])));
    ParseSingle(Entry(field, List([])));
    ParseSingle(Entry(OrKey, List([Mapping([])])));
    ParseSingle(Entry(OrKey, List([List([])])));
    OrGroup(List([Mapping([])]));
    OrGroup(List([List([])]));
    assert AsMapping(List([])) == Some([]) && Parse([]) == Ok([]);
    assert ParsableBranch(List([]));
    var r := Parse([Entry(OrKey, List([List([])]))]).value;
    assert r[0].branches[0] == Branch([]);
    assert r[0].branches == [Branch([])];
    assert r == [Or([Branch([])])];
    ParseSingle(Entry(NotKey, Mapping([])));
    ParseSingle(Entry(NotKey, List([])));
    ParseSingle(Entry(OrKey, Mapping([])));
    ParseSingle(Entry(OrKey, List([])));
  }

  /** Field keys and logic keys in one mapping give sibling entries in key
      order: those of the first key, then those of the second. */
  lemma SiblingsInKeyOrder(first: Entry, second: Entry)
    ensures Parse([first, second]) == Concat(ParseEntry(first), ParseEntry(second))
  {
    ParseAppend([first], [second]);
    ParseSingle(first);
    ParseSingle(second);
    assert [first] + [second] == [first, second];
  }
}
