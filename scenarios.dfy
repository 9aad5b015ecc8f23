/** The results `QueryExecuterTest` expects of the parser, one lemma per case. */
module Scenarios {
  import opened Values
  import opened Filter
  import opened Conditions
  import opened Parser
  import opened Evaluator
  import opened ParserProperties
  import opened Selection

  /** `["age" => 20]` selects the documents whose age equals 20. */
  lemma VerySimple(doc: Doc)
    ensures Parse([Entry("age", Scalar(Int(20)))]) == Ok([Leaf(Eq, "age", Int(20))])
    ensures AllHold(Parse([Entry("age", Scalar(Int(20)))]).value, doc) <==>
            Lookup(doc, "age") == Int(20)
  {
    PlainKeyIsField("age");
    ScalarFieldSelector("age", Int(20), doc);
  }

  const VerySimpleArraySpec: seq<Entry> :=
    [Entry("age", Scalar(Int(20))),
     Entry("phone", Scalar(Str("1234567"))),
     Entry("name", Scalar(Str("Thomas")))]

  /** Three scalar fields give three `$eq` leaves in key order, and the
      result selects what the hand-written AND closure selects. */
  lemma VerySimpleArray(doc: Doc)
    ensures Parse(VerySimpleArraySpec) ==
            Ok([Leaf(Eq, "age", Int(20)),
                Leaf(Eq, "phone", Str("1234567")),
                Leaf(Eq, "name", Str("Thomas"))])
    ensures AllHold(Parse(VerySimpleArraySpec).value, doc) <==>
            Lookup(doc, "age") == Int(20) &&
            Lookup(doc, "phone") == Str("1234567") &&
            Lookup(doc, "name") == Str("Thomas")
  {
    var s := VerySimpleArraySpec;
    PlainKeyIsField("age");
    PlainKeyIsField("phone");
    PlainKeyIsField("name");
    assert FieldsOnly(s);
    ScalarFields(s);
    var cs := Parse(s).value;
    assert cs == [Leaf(Eq, "age", Int(20)),
                  Leaf(Eq, "phone", Str("1234567")),
                  Leaf(Eq, "name", Str("Thomas"))];
    assert AllHold(cs, doc) <==> Holds(cs[0], doc) && Holds(cs[1], doc) && Holds(cs[2], doc);
  }

  const AgePhoneSpec: seq<Entry> :=
    [Entry("age", Mapping([Entry("$gt", Scalar(Int(20))), Entry("$lt", Scalar(Int(40)))])),
     Entry("phone", Mapping([Entry("$ne", Scalar(Bool(true)))]))]

  const AgePhoneLeaves: seq<Cond> :=
    [Leaf(Gt, "age", Int(20)), Leaf(Lt, "age", Int(40)), Leaf(Ne, "phone", Bool(true))]

  /** Two operator mappings with two and one operators give three leaves. */
  lemma Simple()
    ensures Parse(AgePhoneSpec) == Ok(AgePhoneLeaves)
  {
    PlainKeyIsField("age");
    PlainKeyIsField("phone");
    OperatorKeyRoundTrip(Gt, "$gt");
    OperatorKeyRoundTrip(Lt, "$lt");
    OperatorKeyRoundTrip(Ne, "$ne");
    var age := AgePhoneSpec[0];
    var phone := AgePhoneSpec[1];
    var ageOps := age.val.entries;
    assert ValidOperand(ageOps[0]) && ValidOperand(ageOps[1]);
    OperatorMap("age", ageOps);
    ParseSingle(age);
    var ageLeaves := ParseEntry(age).value;
    assert ageLeaves[0] == Leaf(Gt, "age", Int(20));
    assert ageLeaves[1] == Leaf(Lt, "age", Int(40));
    assert ageLeaves == AgePhoneLeaves[..2];
    var phoneOps := phone.val.entries;
    assert ValidOperand(phoneOps[0]);
    OperatorMap("phone", phoneOps);
    ParseSingle(phone);
    assert ParseEntry(phone).value == AgePhoneLeaves[2..];
    SiblingsInKeyOrder(age, phone);
    assert AgePhoneLeaves[..2] + AgePhoneLeaves[2..] == AgePhoneLeaves;
  }

  /** `$not` over the same mapping gives one NOT group holding those leaves. */
  lemma SimpleWithNot()
    ensures Parse([Entry("$not", Mapping(AgePhoneSpec))]) == Ok([Not(AgePhoneLeaves)])
  {
    Simple();
    PlainKeyIsField("age");
    PlainKeyIsField("phone");
    assert FieldsOnly(AgePhoneSpec);
    NotGroup(Mapping(AgePhoneSpec));
  }

  /** A field whose operator mapping holds `$eq` alone. */
  lemma EqOperatorField(name: string, v: Value)
    requires Classify(name).FieldKey?
    ensures Parse([Entry(name, Mapping([Entry("$eq", Scalar(v))]))]) == Ok([Leaf(Eq, name, v)])
  {
    OperatorKeyRoundTrip(Eq, "$eq");
    var ops := [Entry("$eq", Scalar(v))];
    assert ValidOperand(ops[0]);
    OperatorMap(name, ops);
    var leaves := Parse([Entry(name, Mapping(ops))]).value;
    assert leaves[0] == OperatorLeaf(name, ops[0]) == Leaf(Eq, name, v);
    assert leaves == [Leaf(Eq, name, v)];
  }

  /** `$or` with two elements: one OR group, one branch per element. */
  lemma SimpleOnlyOr()
    ensures Parse([Entry("$or", List([
              Mapping([Entry("age", Mapping([Entry("$eq", Scalar(Int(20)))])),
                       Entry("phone", Mapping([Entry("$eq", Scalar(Str("12345")))]))]),
              Mapping([Entry("age", Mapping([Entry("$eq", Scalar(Int(40)))]))])]))]) ==
            Ok([Or([Branch([Leaf(Eq, "age", Int(20)), Leaf(Eq, "phone", Str("12345"))]),
                    Branch([Leaf(Eq, "age", Int(40))])])])
  {
    PlainKeyIsField("age");
    PlainKeyIsField("phone");
    var age20 := Entry("age", Mapping([Entry("$eq", Scalar(Int(20)))]));
    var phone := Entry("phone", Mapping([Entry("$eq", Scalar(Str("12345")))]));
    var age40 := Entry("age", Mapping([Entry("$eq", Scalar(Int(40)))]));
    EqOperatorField("age", Int(20));
    EqOperatorField("phone", Str("12345"));
    EqOperatorField("age", Int(40));
    ParseSingle(age20);
    ParseSingle(phone);
    SiblingsInKeyOrder(age20, phone);
    assert ParseEntry(age20) == Ok([Leaf(Eq, "age", Int(20))]);
    assert ParseEntry(phone) == Ok([Leaf(Eq, "phone", Str("12345"))]);
    assert [Leaf(Eq, "age", Int(20))] + [Leaf(Eq, "phone", Str("12345"))] ==
           [Leaf(Eq, "age", Int(20)), Leaf(Eq, "phone", Str("12345"))];
    assert Parse([age20, phone]) == Ok([Leaf(Eq, "age", Int(20)), Leaf(Eq, "phone", Str("12345"))]);
    var items := [Mapping([age20, phone]), Mapping([age40])];
    OrGroup(List(items));
    var r := Parse([Entry(OrKey, List(items))]).value;
    assert r[0].branches[0].conds == Parse([age20, phone]).value;
    assert r[0].branches[1].conds == Parse([age40]).value;
    assert r[0].branches == [Branch([Leaf(Eq, "age", Int(20)), Leaf(Eq, "phone", Str("12345"))]),
                             Branch([Leaf(Eq, "age", Int(40))])];
    assert r == [Or(r[0].branches)];
  }

  /** A field followed by `$or`: the leaf first, then the OR group, whose
      single-leaf branches stay one-element lists. */
  lemma SimpleDeepOr()
    ensures Parse([Entry("name", Mapping([Entry("$eq", Scalar(Str("Thomas")))])),
                   Entry("$or", List([
                     Mapping([Entry("age", Mapping([Entry("$eq", Scalar(Int(20)))]))]),
                     Mapping([Entry("age", Mapping([Entry("$eq", Scalar(Int(40)))]))])]))]) ==
            Ok([Leaf(Eq, "name", Str("Thomas")),
                Or([Branch([Leaf(Eq, "age", Int(20))]), Branch([Leaf(Eq, "age", Int(40))])])])
  {
    PlainKeyIsField("name");
    PlainKeyIsField("age");
    var name := Entry("name", Mapping([Entry("$eq", Scalar(Str("Thomas")))]));
    var age20 := Entry("age", Mapping([Entry("$eq", Scalar(Int(20)))]));
    var age40 := Entry("age", Mapping([Entry("$eq", Scalar(Int(40)))]));
    EqOperatorField("name", Str("Thomas"));
    EqOperatorField("age", Int(20));
    EqOperatorField("age", Int(40));
    ParseSingle(name);
    var items := [Mapping([age20]), Mapping([age40])];
    var or := Entry(OrKey, List(items));
    OrGroup(List(items));
    ParseSingle(or);
    var r := Parse([or]).value;
    assert r[0].branches[0].conds == Parse([age20]).value;
    assert r[0].branches[1].conds == Parse([age40]).value;
    assert r[0].branches == [Branch([Leaf(Eq, "age", Int(20))]), Branch([Leaf(Eq, "age", Int(40))])];
    assert r == [Or(r[0].branches)];
    SiblingsInKeyOrder(name, or);
    assert ParseEntry(name) == Ok([Leaf(Eq, "name", Str("Thomas"))]);
    assert ParseEntry(or) == Ok(r);
    assert Parse([name, or]) == Ok([Leaf(Eq, "name", Str("Thomas"))] + r);
    assert [Leaf(Eq, "name", Str("Thomas"))] + r ==
           [Leaf(Eq, "name", Str("Thomas")),
            Or([Branch([Leaf(Eq, "age", Int(20))]), Branch([Leaf(Eq, "age", Int(40))])])];
  }
}
