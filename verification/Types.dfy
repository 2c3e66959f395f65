/** Scalar types, operators and the cast rules between scalar types. */
module Types {

  /** The five scalar types.  The declaration order carries no meaning here; `Priority` does. */
  datatype Prim = Void | Bool | Int32 | Float | Double

  datatype BinOp =
    | Assign | Add | Sub | Mul | Div
    | Eq | NotEq | LAnd | LOr | Gt | Lt | Gte | Lte

  predicate IsComparison(op: BinOp) {
    op in {Eq, NotEq, Gt, Lt, Gte, Lte}
  }

  predicate IsLogical(op: BinOp) {
    op == LAnd || op == LOr
  }

  /** The numeric value of the primitive type enumeration, used as the operand priority. */
  function Priority(t: Prim): nat {
    match t
    case Void => 1
    case Bool => 2
    case Int32 => 3
    case Float => 4
    case Double => 5
  }

  predicate CanDoArithmetic(t: Prim) {
    t in {Int32, Float, Double}
  }

  /** May a value of type `from` be converted to `to` without being asked to? */
  predicate CanImplicitCast(from: Prim, to: Prim) {
    if from == to then false
    else if from == Bool then false
    else if to == Bool then true
    else Priority(from) <= Priority(to)
  }

  /** May a value of type `from` be converted to `to` by a written cast? */
  predicate CanExplicitCast(from: Prim, to: Prim) {
    if from == to then false
    else if from == Bool then false
    else Priority(from) >= Priority(to)
  }

  /** Position of a type in the chain of implicit conversions: Bool sits at the top. */
  function Rank(t: Prim): nat {
    if t == Bool then 6 else Priority(t)
  }

  /** The higher of two types in the chain of implicit conversions. */
  function Join(a: Prim, b: Prim): Prim {
    if Rank(a) <= Rank(b) then b else a
  }

  /** The two branching predicates of the source are one strict total order. */
  lemma ImplicitCastIsStrictOrder(a: Prim, b: Prim)
    ensures CanImplicitCast(a, b) <==> Rank(a) < Rank(b)
    ensures a == b || CanImplicitCast(a, b) || CanImplicitCast(b, a)
    ensures !(CanImplicitCast(a, b) && CanImplicitCast(b, a))
  {
  }
}
