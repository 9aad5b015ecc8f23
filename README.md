# QueryExecuter filter compiler, modelled in Dafny

The core of RoNoLo/jsondatabase compiles a Mongo-style filter into a list of
condition tuples. `QueryExecuter::parse` takes an ordered PHP array. A field
key with a scalar becomes a `['$eq', field, value]` tuple. A field key with an
operator map (`$eq`, `$ne`, `$gt`, `$gte`, `$lt`, `$lte`) becomes one tuple per
operator. `$not` over a mapping becomes one `[LOGIC_NOT => leaves]` group.
`$or` over a list of mappings becomes one `[LOGIC_OR => branches]` group, and
each branch is the recursive parse of one element. All results are joined in
key order. A document matches a condition list when every condition holds.
This is the AND closure with early exit at the first failing condition.

The `QueryExecuter` class itself is not modelled; this model covers the
behaviour that `tests/src/QueryExecuterTest.php` pins down.

Files:

- `values.dfy` (`Values`): scalar values `Int | Str | Bool | Null`; a document
  is a map from field name to value, and a missing field reads as `Null`.
- `filter.dfy` (`Filter`): the input specification as a nested PHP-array-like
  `Node` (scalar, ordered mapping of `Entry(key, val)`, or list), the
  operators with their `$` keys, and key classification (field key vs the
  logic keys `$or`, `$not`, `$and`).
- `conditions.dfy` (`Conditions`): the condition tree `Leaf(op, field,
  literal) | Not(children) | Or(branches)`, with each branch a `Branch(conds)`
  list; parse errors; the well-formedness predicate.
- `parser.dfy` (`Parser`): `Parse`, a recursive descent over the mapping.
- `parser_properties.dfy` (`ParserProperties`): lemmas about the output shape.
- `evaluator.dfy` (`Evaluator`): condition semantics and the selector closure.
  `Selectors` builds one closure per condition, like `$list[] = ...`.
  `Matches` is the `foreach` loop with early `return false`. `EvalAll` runs both.
- `selection.dfy` (`Selection`): lemmas about parsing followed by evaluation.
- `scenarios.dfy` (`Scenarios`): the expected values of each test case.

Modelling decisions:

- Equality is same-kind equality on `Value`. PHP's loose `==` is not modelled.
- `JsonQuery::get` is not modelled, and the test file never reads a missing
  field. Reading a missing field as `Null` is this model's own choice.
  `Evaluator.EqLeafHolds`, `Selection.ScalarFieldSelector` and
  `Scenarios.VerySimple` rely on it.
- A PHP array is either a `Mapping` (string keys, ordered) or a `List`.
  A `Mapping` never has a key that PHP would turn into an integer, such as
  `"0"`, because such an array is encoded as a `List`.
  Duplicate keys cannot occur in PHP. The model processes a repeated key
  entry by entry and does not reject it.
- PHP's empty array `[]` has two encodings here, `Mapping([])` and `List([])`;
  `AsMapping` reads both as the empty mapping, so they always parse alike:
  - `"field" => []` gives no condition (`Ok([])`), so it matches every document;
  - an `$or` element `[]` gives the branch `Branch([])`, which always holds;
  - `'$not' => []` is `InvalidNotShape` and `'$or' => []` is `InvalidOrShape`.
- The test file shows only successful parses, so every error path is this
  model's own choice:
  - `UnknownOperator`: an operator map key is not one of the six operators.
  - `InvalidNotShape`: `$not` is not given a mapping of field keys, or that
    mapping yields no leaf.
  - `InvalidOrShape`: `$or` is not given a non-empty list of mappings.
  - `InvalidOperand`: an operator's value is not a scalar.
  - `InvalidFieldShape`: a field's value is a non-empty list.
  - `UnsupportedLogic`: the key is `$and`. The only `$and` test is commented
    out, and its expected shape (tests/src/QueryExecuterTest.php:193-197) has
    no outer list wrapper, unlike every `$or` result. So the model does not
    parse `$and` like `$or`.
- The first error in key order is the result, with one exception. A `$not`
  mapping that holds a logic key is rejected as `InvalidNotShape` before its
  entries are parsed. This holds even when an earlier entry of that mapping
  has an error of its own.

## Model

| member | source | states |
|---|---|---|
| `Filter.OperatorKeyRoundTrip` | tests/src/QueryExecuterTest.php:91-105 | each of the six operators is recognised by its own `$` key and by no other key |
| `Filter.Classify` | tests/src/QueryExecuterTest.php:147-163 | `$or`, `$not` and `$and` are logic keys; every other key is a field key named by the key itself |
| `Values.Lookup` | tests/src/QueryExecuterTest.php:35-41 | the model's stand-in for `get(field)`: the document's value when the field is present, and null, by this model's choice, when it is missing |
| `Filter.AsMapping` | tests/src/QueryExecuterTest.php:114-126 | a mapping node reads as its entries and the empty list as the empty mapping; every other node is not a mapping |
| `Parser.ParseEntry` | tests/src/QueryExecuterTest.php:147-171 | the per-key dispatch. A field key gives that field's conditions, all leaves. A successful `$not` gives exactly one NOT group and a successful `$or` exactly one OR group. `$and` is `UnsupportedLogic`. Every result is well formed |
| `Parser.Parse` | tests/src/QueryExecuterTest.php:64-171 | every group in a successful parse is well formed: a NOT group has at least one child, all of them leaves, and an OR group has at least one branch, each well formed; a mapping of field keys yields only leaves |
| `Parser.ParseBranches` | tests/src/QueryExecuterTest.php:130-140 | a successful `$or` parse has exactly one branch per list element, each branch well formed |
| `Parser.ParseField` | tests/src/QueryExecuterTest.php:26-30 | a scalar field value yields exactly one `$eq` leaf on that field; any successful field parse yields only leaves, all naming that field |
| `Parser.ParseOperators` | tests/src/QueryExecuterTest.php:91-105 | an operator map parses exactly when every key is an operator with a scalar operand; it then yields one leaf per entry, in order, with that entry's operator and operand |
| `ParserProperties.ParseAppend` | tests/src/QueryExecuterTest.php:147-171 | the conditions of a mapping are those of its first part followed by those of the rest, or the first error |
| `ParserProperties.ScalarFields` | tests/src/QueryExecuterTest.php:55-59 | a mapping of scalar fields yields one `$eq` leaf per field, in key order, with that key and value |
| `ParserProperties.OperatorMap` | tests/src/QueryExecuterTest.php:91-105 | a field with an operator map parses exactly when all operators are valid, and then yields one leaf per operator, in order, all naming the field |
| `ParserProperties.NotGroup` | tests/src/QueryExecuterTest.php:66-84 | `$not` parses exactly when its value is a non-leafless mapping of field keys; the result is one NOT group whose children are that mapping's top-level parse; any non-mapping value is `InvalidNotShape` |
| `ParserProperties.BranchesPointwise` | tests/src/QueryExecuterTest.php:112-140 | the `$or` element list parses exactly when every element is a mapping that parses; branch j is then the parse of element j |
| `ParserProperties.OrGroup` | tests/src/QueryExecuterTest.php:112-140 | `$or` parses exactly when its value is a non-empty list of parseable mappings; the result is one OR group with one branch per element, in order, each the recursive parse of that element; any non-list value is `InvalidOrShape` |
| `ParserProperties.OrSingleLeafBranch` | tests/src/QueryExecuterTest.php:152-170 | an `$or` element whose mapping parses to a single condition, such as `["age" => ['$eq' => 20]]`, becomes a one-element branch list, not the bare condition |
| `ParserProperties.EmptyArrayEncodingsAgree` | tests/src/QueryExecuterTest.php:112-128 | both encodings of the empty array parse alike. As a field value it gives no condition; as an `$or` element, an empty branch; as a `$not` or `$or` value, the shape error |
| `ParserProperties.SiblingsInKeyOrder` | tests/src/QueryExecuterTest.php:147-171 | two keys of one mapping give sibling conditions in key order: those of the first key, then those of the second |
| `Evaluator.Selectors` | tests/src/QueryExecuterTest.php:33-43 | builds one closure per condition, in order; closure i holds of a document exactly when condition i does |
| `Evaluator.Matches` | tests/src/QueryExecuterTest.php:44-52 | returns true exactly when every closure holds, so an empty list matches; on false, the last closure called is the first that fails and all before it hold; on true, all were called |
| `Evaluator.EvalAll` | tests/src/QueryExecuterTest.php:32-53 | a document matches a condition list exactly when every condition in it holds |
| `Evaluator.EqLeafHolds` | tests/src/QueryExecuterTest.php:34-42 | an `$eq` leaf holds exactly when the document's value at the field equals the literal, with a missing field read as null |
| `Evaluator.AllHoldAppend` | tests/src/QueryExecuterTest.php:44-52 | a concatenated condition list holds exactly when both parts hold |
| `Selection.ScalarFieldSelector` | tests/src/QueryExecuterTest.php:13-19 | `{field: v}` parses to one `$eq` leaf and selects exactly the documents whose value at `field` equals `v` |
| `Selection.SiblingsConjunction` | tests/src/QueryExecuterTest.php:147-171 | a specification made of two parseable parts selects a document exactly when both parts do |
| `Scenarios.VerySimple` | tests/src/QueryExecuterTest.php:11-22 | `["age" => 20]` yields `[$eq, age, 20]` and selects exactly the documents with age 20 |
| `Scenarios.VerySimpleArray` | tests/src/QueryExecuterTest.php:24-61 | three scalar fields yield the three expected `$eq` tuples in order; the result selects what the hand-written AND closure selects |
| `Scenarios.Simple` | tests/src/QueryExecuterTest.php:89-107 | two operator maps yield exactly the three expected leaves |
| `Scenarios.SimpleWithNot` | tests/src/QueryExecuterTest.php:64-87 | `$not` over the same maps yields one NOT group of those three leaves |
| `Scenarios.SimpleOnlyOr` | tests/src/QueryExecuterTest.php:110-143 | `$or` over two mappings yields the expected OR group of two branches |
| `Scenarios.SimpleDeepOr` | tests/src/QueryExecuterTest.php:145-174 | a field followed by `$or` yields the leaf, then the OR group, with one-element branches |

## Left out

- Comparison of the selector closure itself with `getSelectors()` (tests/src/QueryExecuterTest.php:21). PHP closure equality has nothing to state. `Selection.ScalarFieldSelector` states what the closure selects instead.
- `$and`. Its only test is commented out, and its expected shape is inconsistent with `$or`. The model rejects `$and` with `UnsupportedLogic` and asserts nothing else about it.
- `Evaluator.Holds` on `$ne`, `$gt`, `$gte`, `$lt`, `$lte` leaves and on NOT and OR groups. Its meaning here is this model's own choice: same-kind comparison, lexicographic order on strings, false across kinds, NOT as the negation of the conjunction, OR as any branch. The test file evaluates none of these, so no row above claims them.
- PHP loose equality and floats. Numeric strings compared with integers and type juggling differ across PHP versions. Equality here is same-kind equality over Int, Str, Bool and Null.
- Dotted-path resolution through `JsonQuery::get`. Only flat field names occur, so a document is a flat map.
- The repository, storage and fluent `find()->execute()` tests (tests/src/QueryExecuterTest.php:203-237 and tests/src/query/simple/QuerySimpleEqualTest.php). They are file I/O over fixture data that is not part of this model.
- `Evaluator.Matches` also returns how many selectors it called. The PHP loop does not return this count. It exists to state the early exit.
