/** The expression tree shared by the cast pass and the emitter, on scalar types. */
module Tree {
  import opened Common
  import opened Types

  /** A symbol owns its type; the id tells apart symbols of one name. */
  datatype Sym = Sym(id: nat, ty: Prim)

  /** A float is its 32-bit pattern. */
  type F32 = x: int | 0 <= x < 0x1_0000_0000

  /** A double is its 64-bit pattern. */
  type F64 = x: int | 0 <= x < 0x1_0000_0000_0000_0000
  type Int = x: int | -0x8000_0000 <= x < 0x8000_0000

  datatype CastKind = Explicit | Implicit

  datatype Expr =
    | LitInt(n: Int)
    | LitFloat(f: F32)
    | LitBool(b: bool)
    | Var(sym: Sym, access: Access)
    | Binary(op: BinOp, l: Expr, r: Expr)
    | Cast(kind: CastKind, toType: Prim, v: Expr)
    | If(cond: Expr, thn: Expr, els: Option<Expr>)
    | While(cond: Expr, body: Expr)
    | Assert(line: nat, cond: Expr)
    | Compound(es: seq<Expr>)

  /** The `exprType()` of a node; `None` when asking for it throws a debug assertion
      (an empty compound, or operands whose types differ). */
  function TypeOf(e: Expr): Option<Prim> {
    match e
    case LitInt(_) => Some(Int32)
    case LitFloat(_) => Some(Float)
    case LitBool(_) => Some(Bool)
    case Var(sym, _) => Some(sym.ty)
    case Binary(op, l, r) =>
      if IsComparison(op) then Some(Bool)
      else if TypeOf(l).Some? && TypeOf(l) == TypeOf(r) then TypeOf(r)
      else None
    case Cast(_, t, _) => Some(t)
    case If(_, thn, els) =>
      if els.None? then Some(Void)
      else if TypeOf(thn).None? || TypeOf(els.value).None? then None
      else if TypeOf(thn) == TypeOf(els.value) then TypeOf(thn)
      else Some(Void)
    case While(_, _) => Some(Void)
    case Assert(_, _) => Some(Void)
    case Compound(es) => if es == [] then None else TypeOf(es[|es| - 1])
  }
}
