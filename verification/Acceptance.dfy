/** Which function bodies the passes accept, read off the source: the errors of the cast pass, the check of
    operators and the check of casts together. */
module Acceptance {
  import opened Common
  import opened Types
  import opened Tree
  import opened Casts
  import opened CastTypes
  import opened CastErrors
  import opened CastMeaning

  /** Assignments have a variable on the left, and arithmetic is done on numbers, by the promoted types. */
  predicate OperatorsOk(e: Expr) {
    match e
    case Binary(op, l, r) => OperatorsOk(l) && OperatorsOk(r) && OperatorOk(op, l, PType(e))
    case Cast(_, _, v) => OperatorsOk(v)
    case If(cond, thn, els) => OperatorsOk(cond) && OperatorsOk(thn) && (els.Some? ==> OperatorsOk(els.value))
    case While(cond, body) => OperatorsOk(cond) && OperatorsOk(body)
    case Assert(_, cond) => OperatorsOk(cond)
    case Compound(es) => forall i | 0 <= i < |es| :: OperatorsOk(es[i])
    case _ => true
  }

  predicate OperatorOk(op: BinOp, l: Expr, t: Option<Prim>) {
    && (op == Assign ==> l.Var?)
    && (op in {Add, Sub, Mul, Div} ==> t in {Some(Int32), Some(Float), Some(Double)})
  }

  /** Casts that are written are allowed between the promoted types, and the condition of a loop was written as
      a bool or does not become one. */
  predicate CastsAllowed(e: Expr) {
    match e
    case Binary(_, l, r) => CastsAllowed(l) && CastsAllowed(r)
    case Cast(kind, t, v) => CastsAllowed(v) && CastAllowed(kind, PType(v), t)
    case If(cond, thn, els) => CastsAllowed(cond) && CastsAllowed(thn) && (els.Some? ==> CastsAllowed(els.value))
    case While(cond, body) => CastsAllowed(cond) && CastsAllowed(body) && (TypeOf(cond) == Some(Bool) || PType(cond) != Some(Bool))
    case Assert(_, cond) => CastsAllowed(cond)
    case Compound(es) => forall i | 0 <= i < |es| :: CastsAllowed(es[i])
    case _ => true
  }

  predicate CastAllowed(kind: CastKind, from: Option<Prim>, to: Prim) {
    from.Some? && (CanImplicitCast(from.value, to) || (kind == Explicit && CanExplicitCast(from.value, to)))
  }

  /** The checks of the visited tree say what the source says. */
  predicate Checked(e: Expr, t: Expr) {
    && (BinaryOk(t) <==> OperatorsOk(e))
    && (CastsOk(t) <==> CastsAllowed(e))
  }

  // ----- the checks, node by node -----

  lemma ImplicitChecked(t: Prim, e: Expr)
    ensures BinaryOk(Implicitly(t, e)) <==> BinaryOk(e)
    ensures CastsOk(Implicitly(t, e)) <==> CastsOk(e) && TypeOf(e).Some? && CanImplicitCast(TypeOf(e).value, t)
  {
  }

  lemma BinaryChecked(op: BinOp, l: Expr, r: Expr)
    ensures CastsOk(Binary(op, l, r)) <==> CastsOk(l) && CastsOk(r)
    ensures BinaryOk(Binary(op, l, r)) <==>
      && BinaryOk(l) && BinaryOk(r)
      && (op in {Assign, Add, Sub, Mul, Div} ==> OperatorOk(op, l, TypeOf(Binary(op, l, r))))
  {
    hide TypeOf;
  }

  /** `n` is `e`, or `e` with an implicit cast around it that is allowed. */
  predicate Lifted(e: Expr, n: Expr) {
    n == e || (TypeOf(e).Some? && exists t: Prim :: n == Implicitly(t, e) && CanImplicitCast(TypeOf(e).value, t))
  }

  lemma LiftedChecked(e: Expr, n: Expr)
    requires Lifted(e, n)
    ensures (BinaryOk(n) <==> BinaryOk(e)) && (CastsOk(n) <==> CastsOk(e))
  {
    hide TypeOf, BinaryOk, CastsOk, CanImplicitCast;
    if n != e {
      var t: Prim :| n == Implicitly(t, e) && CanImplicitCast(TypeOf(e).value, t);
      ImplicitChecked(t, e);
    }
  }

  /** Some operands, as they stand in the result. */
  predicate Lifts(op: BinOp, l: Expr, r: Expr, t: Expr) {
    t.Binary? && t.op == op && Lifted(l, t.l) && Lifted(r, t.r) && (op == Assign ==> t.l == l)
  }

  lemma OperandsLifted(op: BinOp, l: Expr, r: Expr)
    requires CastOperands(op, l, r).Passed? && CastOperands(op, l, r).errors == 0
    ensures Lifts(op, l, r, CastOperands(op, l, r).tree)
  {
    hide TypeOf, CanImplicitCast, Implicitly, Lifts, IsLogical, ToBool;
    var tl, tr := TypeOf(l).value, TypeOf(r).value;
    if IsLogical(op) {
      BothLifted(op, l, r);
    } else if tl == tr {
      NoneLifted(op, l, r);
    } else if CanImplicitCast(tl, tr) && op != Assign {
      LeftLifted(op, l, r, tr);
    } else {
      RightLifted(op, l, r, tl);
    }
  }

  lemma BothLifted(op: BinOp, l: Expr, r: Expr)
    requires IsLogical(op) && TypeOf(l).Some? && TypeOf(r).Some?
    ensures Lifts(op, l, r, Binary(op, ToBool(l), ToBool(r)))
  {
    hide TypeOf, Lifted, ToBool;
    LiftedToBool(l);
    LiftedToBool(r);
  }

  lemma NoneLifted(op: BinOp, l: Expr, r: Expr)
    ensures Lifts(op, l, r, Binary(op, l, r))
  {
    hide Lifted;
    LiftedSelf(l);
    LiftedSelf(r);
  }

  lemma LeftLifted(op: BinOp, l: Expr, r: Expr, t: Prim)
    requires op != Assign && TypeOf(l).Some? && CanImplicitCast(TypeOf(l).value, t)
    ensures Lifts(op, l, r, Binary(op, Implicitly(t, l), r))
  {
    hide TypeOf, Lifted, Implicitly, CanImplicitCast;
    LiftedTo(t, l);
    LiftedSelf(r);
  }

  lemma RightLifted(op: BinOp, l: Expr, r: Expr, t: Prim)
    requires TypeOf(r).Some? && CanImplicitCast(TypeOf(r).value, t)
    ensures Lifts(op, l, r, Binary(op, l, Implicitly(t, r)))
  {
    hide TypeOf, Lifted, Implicitly, CanImplicitCast;
    LiftedSelf(l);
    LiftedTo(t, r);
  }

  lemma LiftedToBool(e: Expr)
    requires TypeOf(e).Some?
    ensures Lifted(e, ToBool(e))
  {
    hide TypeOf;
    ToBoolAllowed(TypeOf(e).value);
  }

  lemma LiftedSelf(e: Expr)
    ensures Lifted(e, e)
  {
  }

  lemma LiftedTo(t: Prim, e: Expr)
    requires TypeOf(e).Some? && CanImplicitCast(TypeOf(e).value, t)
    ensures Lifted(e, Implicitly(t, e))
  {
  }

  lemma OperandsChecked(op: BinOp, l: Expr, r: Expr)
    requires CastOperands(op, l, r).Passed? && CastOperands(op, l, r).errors == 0
    ensures var t := CastOperands(op, l, r).tree;
      && (CastsOk(t) <==> CastsOk(l) && CastsOk(r))
      && (BinaryOk(t) <==> BinaryOk(l) && BinaryOk(r) && OperatorOk(op, l, TypeOf(t)))
  {
    hide TypeOf, BinaryOk, CastsOk, CastOperands, Lifted;
    var t := CastOperands(op, l, r).tree;
    OperandsLifted(op, l, r);
    BinaryChecked(op, t.l, t.r);
    LiftedChecked(l, t.l);
    LiftedChecked(r, t.r);
  }

  lemma ToBoolAllowed(t: Prim)
    ensures t != Bool ==> CanImplicitCast(t, Bool)
  {
  }

  lemma ConditionChecked(c: Expr)
    requires CastCondition(c).Passed? && CastCondition(c).errors == 0
    ensures (BinaryOk(CastCondition(c).tree) <==> BinaryOk(c)) && (CastsOk(CastCondition(c).tree) <==> CastsOk(c))
  {
    hide TypeOf, BinaryOk, CastsOk, CanImplicitCast;
    ImplicitChecked(Bool, c);
  }

  lemma IfChecked(c: Expr, thn: Expr, els: Option<Expr>)
    ensures BinaryOk(If(c, thn, els)) <==> BinaryOk(c) && BinaryOk(thn) && (els.Some? ==> BinaryOk(els.value))
    ensures CastsOk(If(c, thn, els)) <==> CastsOk(c) && CastsOk(thn) && (els.Some? ==> CastsOk(els.value))
  {
  }

  lemma FinishChecked(c: Expr, thn: Expr, els: Option<Expr>)
    requires FinishIf(c, thn, els).Passed? && FinishIf(c, thn, els).errors == 0
    ensures var t := FinishIf(c, thn, els).tree;
      && (BinaryOk(t) <==> BinaryOk(c) && BinaryOk(thn) && (els.Some? ==> BinaryOk(els.value)))
      && (CastsOk(t) <==> CastsOk(c) && CastsOk(thn) && (els.Some? ==> CastsOk(els.value)))
  {
    hide TypeOf, BinaryOk, CastsOk, CanImplicitCast, CastCondition;
    var t := FinishIf(c, thn, els).tree;
    ConditionChecked(c);
    IfChecked(t.cond, t.thn, t.els);
    if els.Some? {
      ImplicitChecked(TypeOf(thn).value, els.value);
      ImplicitChecked(TypeOf(els.value).value, thn);
    }
  }

  // ----- every tree -----

  /** Without errors of the cast pass, what the two checks find on the visited tree can be read off the source. */
  lemma {:induction false} CheckedExactly(e: Expr)
    requires CastPass(e).Passed? && CastPass(e).errors == 0
    ensures Checked(e, CastPass(e).tree)
    decreases e, 1
  {
    hide CastPass, TypeOf, PType, CastOperands, CastCondition, FinishIf, CastAll, CanImplicitCast, CanExplicitCast;
    PassAgrees(e);
    match e
    case Binary(op, l, r) => CheckedBinary(op, l, r);
    case Cast(kind, t, v) =>
      CastPasses(kind, t, v);
      CheckedExactly(v);
      PassAgrees(v);
    case If(cond, thn, els) => CheckedIf(cond, thn, els);
    case While(cond, body) => CheckedWhile(cond, body);
    case Assert(line, cond) =>
      AssertPasses(line, cond);
      CheckedExactly(cond);
      ConditionChecked(CastPass(cond).tree);
    case Compound(es) =>
      SequencePasses(es);
      CastAllMembers(es);
      var ts := CastPass(e).tree.es;
      forall i | 0 <= i < |es| ensures Checked(es[i], ts[i]) { CheckedExactly(es[i]); }
      SequenceChecked(es, ts);
    case _ => LeafPasses(e);
  }

  lemma SequenceChecked(es: seq<Expr>, ts: seq<Expr>)
    requires |ts| == |es| && forall i | 0 <= i < |es| :: Checked(es[i], ts[i])
    ensures Checked(Compound(es), Compound(ts))
  {
    assert forall i | 0 <= i < |es| :: Checked(es[i], ts[i]);
  }

  lemma {:induction false} CheckedBinary(op: BinOp, l: Expr, r: Expr)
    requires CastPass(Binary(op, l, r)).Passed? && CastPass(Binary(op, l, r)).errors == 0
    ensures Checked(Binary(op, l, r), CastPass(Binary(op, l, r)).tree)
    decreases Binary(op, l, r), 0
  {
    hide CastPass, TypeOf, PType, CastOperands, BinaryOk, CastsOk;
    BinaryPasses(op, l, r);
    CheckedExactly(l);
    CheckedExactly(r);
    PassAgrees(Binary(op, l, r));
    OperandsChecked(op, CastPass(l).tree, CastPass(r).tree);
    VarStays(l);
  }

  lemma {:induction false} CheckedIf(cond: Expr, thn: Expr, els: Option<Expr>)
    requires CastPass(If(cond, thn, els)).Passed? && CastPass(If(cond, thn, els)).errors == 0
    ensures Checked(If(cond, thn, els), CastPass(If(cond, thn, els)).tree)
    decreases If(cond, thn, els), 0
  {
    hide CastPass, TypeOf, PType, FinishIf, BinaryOk, CastsOk;
    IfPasses(cond, thn, els);
    CheckedExactly(cond);
    CheckedExactly(thn);
    if els.Some? { CheckedExactly(els.value); }
    FinishChecked(CastPass(cond).tree, CastPass(thn).tree, if els.Some? then Some(CastPass(els.value).tree) else None);
  }

  lemma {:induction false} CheckedWhile(cond: Expr, body: Expr)
    requires CastPass(While(cond, body)).Passed? && CastPass(While(cond, body)).errors == 0
    ensures Checked(While(cond, body), CastPass(While(cond, body)).tree)
    decreases While(cond, body), 0
  {
    hide CastPass, TypeOf, PType;
    LoopPasses(cond, body);
    CheckedExactly(cond);
    CheckedExactly(body);
    PassAgrees(cond);
    ConditionExactly(cond);
    var c := CastPass(cond).tree;
    ImplicitChecked(Bool, c);
    if PType(cond).Some? { ToBoolAllowed(PType(cond).value); }
    TypedSource(cond);
  }

  // ----- functions -----

  /** A body is accepted exactly when the pass gets through, every assignment and the result fit, operators have
      the operands they need, and casts are allowed; all of it by the promoted types of the source. */
  lemma AcceptedExactly(body: Expr, ret: Prim)
    ensures (exists t: Expr :: Accepted(body, ret, t)) <==>
      && Passes(body) && AssignmentsFit(body) && OperatorsOk(body) && CastsAllowed(body)
      && (ret != Void ==> Settled(body) && PType(body).Some? && Rank(PType(body).value) <= Rank(ret))
  {
    hide CastPass, TypeOf, PType, Passes, Settled, AssignmentsFit, OperatorsOk, CastsAllowed, BinaryOk, CastsOk, Rank;
    FunctionErrorsExactly(body, ret);
    if CastFunction(body, ret).Passed? && CastFunction(body, ret).errors == 0 {
      var t := CastFunction(body, ret).tree;
      ReturnChecked(body, ret);
      CheckedExactly(body);
      assert Accepted(body, ret, t) <==> BinaryOk(t) && CastsOk(t);
    }
  }

  lemma ReturnChecked(body: Expr, ret: Prim)
    requires CastFunction(body, ret).Passed? && CastFunction(body, ret).errors == 0
    ensures var t := CastFunction(body, ret).tree;
      && CastPass(body).Passed? && CastPass(body).errors == 0
      && (BinaryOk(t) <==> BinaryOk(CastPass(body).tree)) && (CastsOk(t) <==> CastsOk(CastPass(body).tree))
  {
    hide CastPass, TypeOf, BinaryOk, CastsOk, CanImplicitCast;
    if CastPass(body).Passed? { ImplicitChecked(ret, CastPass(body).tree); }
  }
}
