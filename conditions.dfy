/** The parser's output: a list of conditions, implicitly combined by AND. */
module Conditions {
  import opened Filter

  /** A condition. `Leaf(op, field, literal)` is the tuple `[op, field, literal]`;
      `Not(children)` is `[LOGIC_NOT => children]`, negating the conjunction of
      its leaves; `Or(branches)` is `[LOGIC_OR => branches]`, each branch being
      its own AND-combined list. */
  datatype Cond =
    | Leaf(op: Op, field: string, literal: Values.Value)
    | Not(children: seq<Cond>)
    | Or(branches: seq<Branch>)

  /** One element of an OR group: the condition list of one `$or` element,
      kept as a list even when it holds a single leaf. */
  datatype Branch = Branch(conds: seq<Cond>)

  /** Why a specification is rejected. */
  datatype ParseError =
    | UnknownOperator(key: string)
    | InvalidOperand(field: string, key: string)
    | InvalidFieldShape(field: string)
    | InvalidOrShape
    | InvalidNotShape
    | UnsupportedLogic(key: string)

  datatype Result<T> = Ok(value: T) | Err(error: ParseError)

  predicate AllLeaves(cs: seq<Cond>)
  {
    forall i :: 0 <= i < |cs| ==> cs[i].Leaf?
  }

  /** Every group has at least one child; a NOT group holds only leaves and
      every OR branch is itself well formed. */
  predicate WellFormed(c: Cond)
  {
    match c
    case Leaf(_, _, _) => true
    case Not(cs) => |cs| > 0 && AllLeaves(cs)
    case Or(bs) =>
      |bs| > 0 &&
      forall j, i :: 0 <= j < |bs| && 0 <= i < |bs[j].conds| ==> WellFormed(bs[j].conds[i])
  }

  predicate AllWellFormed(cs: seq<Cond>)
  {
    forall i :: 0 <= i < |cs| ==> WellFormed(cs[i])
  }
}
