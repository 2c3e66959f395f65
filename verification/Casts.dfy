/** The pass that inserts implicit casts, and the two checking passes that follow it. */
module Casts {
  import opened Common
  import opened Types
  import opened Tree

  /** What a pass over a tree leaves: a tree and an error count, or a failed debug assertion. */
  datatype Passed = Crash | Passed(tree: Expr, errors: nat)

  // ----- inserting casts -----

  function Implicitly(t: Prim, e: Expr): Expr {
    Cast(Implicit, t, e)
  }

  /** A condition (of `if`, `while`, `assert`) must be a bool. */
  function CastCondition(c: Expr): Passed {
    if TypeOf(c).None? then Crash
    else if TypeOf(c) == Some(Bool) then Passed(c, 0)
    else if CanImplicitCast(TypeOf(c).value, Bool) then Passed(Implicitly(Bool, c), 0)
    else Passed(c, 1)
  }

  function ToBool(e: Expr): Expr {
    if TypeOf(e) == Some(Bool) then e else Implicitly(Bool, e)
  }

  /** The operands of a binary operator, both already visited. */
  function CastOperands(op: BinOp, l: Expr, r: Expr): Passed {
    if TypeOf(l).None? || TypeOf(r).None? then Crash
    else
      var tl, tr := TypeOf(l).value, TypeOf(r).value;
      if IsLogical(op) then Passed(Binary(op, ToBool(l), ToBool(r)), 0)
      else if tl == tr then Passed(Binary(op, l, r), 0)
      else if CanImplicitCast(tl, tr) && op != Assign then Passed(Binary(op, Implicitly(tr, l), r), 0)
      else if CanImplicitCast(tr, tl) then Passed(Binary(op, l, Implicitly(tl, r)), 0)
      else Passed(Binary(op, l, r), 1)
  }

  /** The branches of an `if` with an `else`: the `else` branch is cast if that is possible. */
  function CastBranches(c: Expr, thn: Expr, els: Expr): Passed {
    if TypeOf(thn).None? || TypeOf(els).None? then Crash
    else
      var tt, te := TypeOf(thn).value, TypeOf(els).value;
      if tt == te then Passed(If(c, thn, Some(els)), 0)
      else if CanImplicitCast(te, tt) then Passed(If(c, thn, Some(Implicitly(tt, els))), 0)
      else if CanImplicitCast(tt, te) then Passed(If(c, Implicitly(te, thn), Some(els)), 0)
      else Passed(If(c, thn, Some(els)), 1)
  }

  function Plus(p: Passed, n: nat): Passed {
    if p.Crash? then Crash else Passed(p.tree, p.errors + n)
  }

  function CastPass(e: Expr): Passed
    decreases e, 1
  {
    match e
    case Binary(op, l, r) =>
      var pl, pr := CastPass(l), CastPass(r);
      if pl.Crash? || pr.Crash? then Crash
      else Plus(CastOperands(op, pl.tree, pr.tree), pl.errors + pr.errors)
    case Cast(kind, t, v) =>
      var p := CastPass(v);
      if p.Crash? then Crash else Passed(Cast(kind, t, p.tree), p.errors)
    case If(cond, thn, els) => CastIf(cond, thn, els)
    case While(cond, body) => CastWhile(cond, body)
    case Assert(line, cond) =>
      var p := CastPass(cond);
      if p.Crash? then Crash
      else
        var q := CastCondition(p.tree);
        if q.Crash? then Crash else Passed(Assert(line, q.tree), p.errors + q.errors)
    case Compound(es) =>
      var ps := CastAll(es);
      if ps.None? then Crash else Passed(Compound(ps.value.0), ps.value.1)
    case _ => Passed(e, 0)
  }

  /** An `if` whose parts have been visited. */
  function FinishIf(c: Expr, thn: Expr, els: Option<Expr>): Passed {
    var q := CastCondition(c);
    if q.Crash? then Crash
    else if els.None? then Passed(If(q.tree, thn, None), q.errors)
    else Plus(CastBranches(q.tree, thn, els.value), q.errors)
  }

  function CastIf(cond: Expr, thn: Expr, els: Option<Expr>): Passed
    decreases If(cond, thn, els), 0
  {
    var pc, pt := CastPass(cond), CastPass(thn);
    if pc.Crash? || pt.Crash? then Crash
    else if els.None? then Plus(FinishIf(pc.tree, pt.tree, None), pc.errors + pt.errors)
    else
      var pe := CastPass(els.value);
      if pe.Crash? then Crash
      else Plus(FinishIf(pc.tree, pt.tree, Some(pe.tree)), pc.errors + pt.errors + pe.errors)
  }

  /** The condition of a loop is examined before its own parts have been visited. */
  function CastWhile(cond: Expr, body: Expr): Passed
    decreases While(cond, body), 0
  {
    var q := CastCondition(cond);
    var pc, pb := CastPass(cond), CastPass(body);
    if q.Crash? || pc.Crash? || pb.Crash? then Crash
    else
      var c := if TypeOf(cond) == Some(Bool) || q.errors > 0 then pc.tree else Implicitly(Bool, pc.tree);
      Passed(While(c, pb.tree), q.errors + pc.errors + pb.errors)
  }

  function CastAll(es: seq<Expr>): Option<(seq<Expr>, nat)>
    decreases es, 0
  {
    if es == [] then Some(([], 0))
    else
      var p, ps := CastPass(es[0]), CastAll(es[1..]);
      if p.Crash? || ps.None? then None else Some(([p.tree] + ps.value.0, p.errors + ps.value.1))
  }

  /** The implicit return of a function body. */
  function CastReturn(body: Expr, ret: Prim): Passed {
    if ret == Void then Passed(body, 0)
    else if TypeOf(body).None? then Crash
    else if TypeOf(body) == Some(ret) then Passed(body, 0)
    else if CanImplicitCast(TypeOf(body).value, ret) then Passed(Implicitly(ret, body), 0)
    else Passed(body, 1)
  }

  function CastFunction(body: Expr, ret: Prim): Passed {
    var p := CastPass(body);
    if p.Crash? then Crash else Plus(CastReturn(p.tree, ret), p.errors)
  }

  // ----- the checks -----

  /** Assignments need a variable on the left, arithmetic needs arithmetic operands. */
  predicate BinaryOk(e: Expr) {
    match e
    case Binary(op, l, r) =>
      && BinaryOk(l) && BinaryOk(r)
      && (IsComparison(op) || IsLogical(op)
          || (if op == Assign then l.Var? else TypeOf(e).Some? && CanDoArithmetic(TypeOf(e).value)))
    case Cast(_, _, v) => BinaryOk(v)
    case If(cond, thn, els) => BinaryOk(cond) && BinaryOk(thn) && (els.Some? ==> BinaryOk(els.value))
    case While(cond, body) => BinaryOk(cond) && BinaryOk(body)
    case Assert(_, cond) => BinaryOk(cond)
    case Compound(es) => forall i | 0 <= i < |es| :: BinaryOk(es[i])
    case _ => true
  }

  /** No cast is refused; an implicit cast that is not allowed fails a debug assertion. */
  predicate CastsOk(e: Expr) {
    match e
    case Binary(_, l, r) => CastsOk(l) && CastsOk(r)
    case Cast(kind, t, v) =>
      && CastsOk(v) && TypeOf(v).Some?
      && (CanImplicitCast(TypeOf(v).value, t) || (kind == Explicit && CanExplicitCast(TypeOf(v).value, t)))
    case If(cond, thn, els) => CastsOk(cond) && CastsOk(thn) && (els.Some? ==> CastsOk(els.value))
    case While(cond, body) => CastsOk(cond) && CastsOk(body)
    case Assert(_, cond) => CastsOk(cond)
    case Compound(es) => forall i | 0 <= i < |es| :: CastsOk(es[i])
    case _ => true
  }

  /** The passes run to the end over a function body and leave `t`. */
  predicate Accepted(body: Expr, ret: Prim, t: Expr) {
    CastFunction(body, ret) == Passed(t, 0) && BinaryOk(t) && CastsOk(t)
  }

  // ----- the pass on one kind of node, from its definition -----

  predicate IsLeaf(e: Expr) {
    e.LitInt? || e.LitFloat? || e.LitBool? || e.Var?
  }

  lemma LeafPasses(e: Expr)
    requires IsLeaf(e)
    ensures CastPass(e) == Passed(e, 0)
  {
  }

  lemma CastPasses(kind: CastKind, t: Prim, v: Expr)
    ensures CastPass(Cast(kind, t, v)) == if CastPass(v).Crash? then Crash else Passed(Cast(kind, t, CastPass(v).tree), CastPass(v).errors)
  {
  }

  lemma AssertPasses(line: nat, c: Expr)
    ensures CastPass(Assert(line, c))
         == var p := CastPass(c);
            if p.Crash? then Crash
            else var q := CastCondition(p.tree); if q.Crash? then Crash else Passed(Assert(line, q.tree), p.errors + q.errors)
  {
    hide CastCondition;
  }

  lemma BinaryPasses(op: BinOp, l: Expr, r: Expr)
    ensures CastPass(Binary(op, l, r))
         == if CastPass(l).Crash? || CastPass(r).Crash? then Crash
            else Plus(CastOperands(op, CastPass(l).tree, CastPass(r).tree), CastPass(l).errors + CastPass(r).errors)
  {
    hide CastOperands, Plus, CastIf, CastWhile, CastAll, CastCondition;
  }

  lemma IfPasses(cond: Expr, thn: Expr, els: Option<Expr>)
    ensures CastPass(If(cond, thn, els)) == CastIf(cond, thn, els)
  {
    hide CastIf;
  }
}
