/** When the cast pass gets through a tree, and how many errors it reports, read off the source tree. */
module CastErrors {
  import opened Common
  import opened Types
  import opened Tree
  import opened Casts
  import opened CastTypes

  /** The right side can become what the left side is. */
  predicate Fits(l: Option<Prim>, r: Option<Prim>) {
    l.Some? && r.Some? && (r == l || CanImplicitCast(r.value, l.value))
  }

  /** The tree has a type once it has been visited. */
  predicate Settled(e: Expr) {
    match e
    case Binary(op, l, r) => op == Assign ==> Fits(PType(l), PType(r))
    case Compound(es) => es != [] && Settled(es[|es| - 1])
    case _ => true
  }

  /** The pass gets through: wherever it asks for a type there is one.  For the condition of a loop it asks
      before the visit. */
  predicate Passes(e: Expr) {
    match e
    case Binary(_, l, r) => Passes(l) && Passes(r) && Settled(l) && Settled(r)
    case Cast(_, _, v) => Passes(v)
    case If(cond, thn, els) =>
      && Passes(cond) && Passes(thn) && Settled(cond)
      && (els.Some? ==> Passes(els.value) && Settled(thn) && Settled(els.value))
    case While(cond, body) => Passes(cond) && Passes(body) && TypeOf(cond).Some?
    case Assert(_, cond) => Passes(cond) && Settled(cond)
    case Compound(es) => forall i | 0 <= i < |es| :: Passes(es[i])
    case _ => true
  }

  /** How many assignments have a right side that does not fit. */
  function Misfits(e: Expr): nat {
    match e
    case Binary(op, l, r) => Misfits(l) + Misfits(r) + if op == Assign && !Fits(PType(l), PType(r)) then 1 else 0
    case Cast(_, _, v) => Misfits(v)
    case If(cond, thn, els) => Misfits(cond) + Misfits(thn) + if els.Some? then Misfits(els.value) else 0
    case While(cond, body) => Misfits(cond) + Misfits(body)
    case Assert(_, cond) => Misfits(cond)
    case Compound(es) => MisfitsAll(es)
    case _ => 0
  }

  function MisfitsAll(es: seq<Expr>): nat {
    if es == [] then 0 else Misfits(es[0]) + MisfitsAll(es[1..])
  }

  /** Every assignment has a right side whose promoted type is not higher than that of its target. */
  predicate AssignmentsFit(e: Expr) {
    match e
    case Binary(op, l, r) =>
      && AssignmentsFit(l) && AssignmentsFit(r)
      && (op == Assign ==> PType(l).Some? && PType(r).Some? && Rank(PType(r).value) <= Rank(PType(l).value))
    case Cast(_, _, v) => AssignmentsFit(v)
    case If(cond, thn, els) => AssignmentsFit(cond) && AssignmentsFit(thn) && (els.Some? ==> AssignmentsFit(els.value))
    case While(cond, body) => AssignmentsFit(cond) && AssignmentsFit(body)
    case Assert(_, cond) => AssignmentsFit(cond)
    case Compound(es) => forall i | 0 <= i < |es| :: AssignmentsFit(es[i])
    case _ => true
  }

  /** The outcome `p` of visiting `e` is as foreseen. */
  predicate Foreseen(e: Expr, p: Passed) {
    && (p.Passed? <==> Passes(e))
    && (p.Passed? ==> p.errors == Misfits(e) && TypeOf(p.tree) == if Settled(e) then PType(e) else None)
    && (Passes(e) && Settled(e) ==> PType(e).Some?)
  }

  // ----- one node at a time -----

  lemma OperandsExactly(op: BinOp, l: Expr, r: Expr)
    ensures CastOperands(op, l, r).Passed? <==> TypeOf(l).Some? && TypeOf(r).Some?
    ensures CastOperands(op, l, r).Passed? ==>
      && CastOperands(op, l, r).errors == (if op == Assign && !Fits(TypeOf(l), TypeOf(r)) then 1 else 0)
      && TypeOf(CastOperands(op, l, r).tree)
         == if IsComparison(op) || IsLogical(op) then Some(Bool)
            else if op == Assign then (if Fits(TypeOf(l), TypeOf(r)) then TypeOf(l) else None)
            else JoinType(TypeOf(l), TypeOf(r))
  {
    hide TypeOf;
    if TypeOf(l).Some? && TypeOf(r).Some? {
      var tl, tr := TypeOf(l).value, TypeOf(r).value;
      BinaryType(op, l, r);
      BinaryType(op, ToBool(l), ToBool(r));
      BinaryType(op, Implicitly(tr, l), r);
      BinaryType(op, l, Implicitly(tl, r));
      ImplicitType(tr, l);
      ImplicitType(tl, r);
      ImplicitType(Bool, l);
      ImplicitType(Bool, r);
    }
  }

  lemma BinaryType(op: BinOp, l: Expr, r: Expr)
    ensures TypeOf(Binary(op, l, r))
         == if IsComparison(op) then Some(Bool) else if TypeOf(l).Some? && TypeOf(l) == TypeOf(r) then TypeOf(r) else None
  {
  }

  lemma ImplicitType(t: Prim, e: Expr)
    ensures TypeOf(Implicitly(t, e)) == Some(t)
  {
  }

  lemma IfType(c: Expr, thn: Expr, els: Expr)
    ensures TypeOf(thn).Some? && TypeOf(thn) == TypeOf(els) ==> TypeOf(If(c, thn, Some(els))) == TypeOf(thn)
  {
  }

  lemma ConditionExactly(c: Expr)
    ensures CastCondition(c).Passed? <==> TypeOf(c).Some?
    ensures CastCondition(c).Passed? ==> CastCondition(c).errors == 0
  {
  }

  lemma BranchesExactly(c: Expr, thn: Expr, els: Expr)
    ensures CastBranches(c, thn, els).Passed? <==> TypeOf(thn).Some? && TypeOf(els).Some?
    ensures CastBranches(c, thn, els).Passed? ==>
      CastBranches(c, thn, els).errors == 0 && TypeOf(CastBranches(c, thn, els).tree) == JoinType(TypeOf(thn), TypeOf(els))
  {
    hide TypeOf;
    if TypeOf(thn).Some? && TypeOf(els).Some? {
      var tt, te := TypeOf(thn).value, TypeOf(els).value;
      IfType(c, thn, els);
      IfType(c, thn, Implicitly(tt, els));
      IfType(c, Implicitly(te, thn), els);
      ImplicitType(tt, els);
      ImplicitType(te, thn);
    }
  }

  lemma FinishExactly(c: Expr, thn: Expr, els: Option<Expr>)
    ensures FinishIf(c, thn, els).Passed? <==> TypeOf(c).Some? && (els.Some? ==> TypeOf(thn).Some? && TypeOf(els.value).Some?)
    ensures FinishIf(c, thn, els).Passed? ==>
      && FinishIf(c, thn, els).errors == 0
      && TypeOf(FinishIf(c, thn, els).tree) == if els.None? then Some(Void) else JoinType(TypeOf(thn), TypeOf(els.value))
  {
    hide TypeOf, CastCondition, CastBranches, JoinType;
    ConditionExactly(c);
    if els.Some? {
      if CastCondition(c).Passed? { BranchesExactly(CastCondition(c).tree, thn, els.value); }
    } else if CastCondition(c).Passed? {
      NoElseType(CastCondition(c).tree, thn);
    }
  }

  lemma NoElseType(c: Expr, thn: Expr)
    ensures TypeOf(If(c, thn, None)) == Some(Void)
  {
  }

  // ----- every tree -----

  /** The pass gets through exactly the trees that have a type wherever it asks for one, and reports one error
      for each assignment whose right side is higher than its left: no operator, condition or pair of branches
      of the scalar types ever gives another. */
  lemma {:induction false} ErrorsExactly(e: Expr)
    ensures Foreseen(e, CastPass(e))
    decreases e, 1
  {
    hide CastPass, CastOperands, CastCondition, FinishIf, CastAll, CanImplicitCast, JoinType;
    match e
    case Binary(op, l, r) => BinaryExactly(op, l, r);
    case Cast(kind, t, v) =>
      CastPasses(kind, t, v);
      ErrorsExactly(v);
    case If(cond, thn, els) => IfExactly(cond, thn, els);
    case While(cond, body) =>
      LoopPasses(cond, body);
      ErrorsExactly(cond);
      ErrorsExactly(body);
      ConditionExactly(cond);
    case Assert(line, cond) =>
      AssertPasses(line, cond);
      ErrorsExactly(cond);
      if CastPass(cond).Passed? { ConditionExactly(CastPass(cond).tree); }
    case Compound(es) =>
      SequencePasses(es);
      forall i | 0 <= i < |es| ensures Foreseen(es[i], CastPass(es[i])) { ErrorsExactly(es[i]); }
      SequenceExactly(es);
    case _ => LeafPasses(e);
  }

  lemma {:induction false} BinaryExactly(op: BinOp, l: Expr, r: Expr)
    ensures Foreseen(Binary(op, l, r), CastPass(Binary(op, l, r)))
    decreases Binary(op, l, r), 0
  {
    hide CastPass, CastOperands, TypeOf, CanImplicitCast;
    BinaryPasses(op, l, r);
    ErrorsExactly(l);
    ErrorsExactly(r);
    if CastPass(l).Passed? && CastPass(r).Passed? { OperandsExactly(op, CastPass(l).tree, CastPass(r).tree); }
  }

  lemma {:induction false} IfExactly(cond: Expr, thn: Expr, els: Option<Expr>)
    ensures Foreseen(If(cond, thn, els), CastPass(If(cond, thn, els)))
    decreases If(cond, thn, els), 0
  {
    hide CastPass, FinishIf, TypeOf;
    IfPasses(cond, thn, els);
    ErrorsExactly(cond);
    ErrorsExactly(thn);
    if els.Some? { ErrorsExactly(els.value); }
    var pc, pt := CastPass(cond), CastPass(thn);
    if pc.Passed? && pt.Passed? && (els.Some? ==> CastPass(els.value).Passed?) {
      FinishExactly(pc.tree, pt.tree, if els.Some? then Some(CastPass(els.value).tree) else None);
    }
  }

  lemma {:induction false} SequenceExactly(es: seq<Expr>)
    requires forall i | 0 <= i < |es| :: Foreseen(es[i], CastPass(es[i]))
    ensures CastAll(es).Some? <==> forall i | 0 <= i < |es| :: Passes(es[i])
    ensures CastAll(es).Some? ==>
      && |CastAll(es).value.0| == |es| && CastAll(es).value.1 == MisfitsAll(es)
      && forall i | 0 <= i < |es| :: CastPass(es[i]).Passed? && CastAll(es).value.0[i] == CastPass(es[i]).tree
    decreases |es|
  {
    hide CastPass, TypeOf, PType, Passes, Settled, Misfits;
    if es != [] {
      assert forall i | 0 <= i < |es[1..]| :: es[1..][i] == es[i + 1];
      SequenceExactly(es[1..]);
      assert (forall i | 0 <= i < |es| :: Passes(es[i])) <==> Passes(es[0]) && forall i | 0 <= i < |es[1..]| :: Passes(es[1..][i]) by {
        assert forall i | 1 <= i < |es| :: es[i] == es[1..][i - 1];
      }
    }
  }

  lemma {:induction false} NoMisfits(e: Expr)
    ensures Misfits(e) == 0 <==> AssignmentsFit(e)
    decreases e, 1
  {
    hide PType, CanImplicitCast, Rank;
    match e
    case Binary(op, l, r) =>
      NoMisfits(l);
      NoMisfits(r);
      if op == Assign { FitsByRank(PType(l), PType(r)); }
    case Cast(_, _, v) => NoMisfits(v);
    case If(cond, thn, els) =>
      NoMisfits(cond);
      NoMisfits(thn);
      if els.Some? { NoMisfits(els.value); }
    case While(cond, body) =>
      NoMisfits(cond);
      NoMisfits(body);
    case Assert(_, cond) => NoMisfits(cond);
    case Compound(es) =>
      forall i | 0 <= i < |es| ensures Misfits(es[i]) == 0 <==> AssignmentsFit(es[i]) { NoMisfits(es[i]); }
      NoMisfitsAll(es);
    case _ =>
  }

  lemma {:induction false} NoMisfitsAll(es: seq<Expr>)
    requires forall i | 0 <= i < |es| :: Misfits(es[i]) == 0 <==> AssignmentsFit(es[i])
    ensures MisfitsAll(es) == 0 <==> forall i | 0 <= i < |es| :: AssignmentsFit(es[i])
    decreases |es|
  {
    hide Misfits, AssignmentsFit;
    if es != [] {
      NoMisfitsAll(es[1..]);
      assert forall i | 1 <= i < |es| :: es[i] == es[1..][i - 1];
    }
  }

  lemma FitsByRank(l: Option<Prim>, r: Option<Prim>)
    ensures Fits(l, r) <==> l.Some? && r.Some? && Rank(r.value) <= Rank(l.value)
  {
  }

  /** With the pass through, there is no error exactly when every assignment fits. */
  lemma NoErrorsExactly(e: Expr)
    requires CastPass(e).Passed?
    ensures CastPass(e).errors == 0 <==> AssignmentsFit(e)
  {
    hide CastPass, PType, TypeOf, Misfits, Passes, AssignmentsFit, Settled;
    ErrorsExactly(e);
    NoMisfits(e);
  }

  /** A function: its body, and the body's type against the result type. */
  lemma FunctionErrorsExactly(body: Expr, ret: Prim)
    ensures CastFunction(body, ret).Passed? <==> Passes(body) && (ret != Void ==> Settled(body))
    ensures CastFunction(body, ret).Passed? ==>
      CastFunction(body, ret).errors == Misfits(body) + (if ret != Void && !Fits(Some(ret), PType(body)) then 1 else 0)
    ensures CastFunction(body, ret).Passed? ==>
      (CastFunction(body, ret).errors == 0 <==>
         AssignmentsFit(body) && (ret != Void ==> PType(body).Some? && Rank(PType(body).value) <= Rank(ret)))
  {
    hide CastPass, PType, TypeOf, Misfits, Passes, AssignmentsFit, Settled, CanImplicitCast, Rank;
    ErrorsExactly(body);
    NoMisfits(body);
    FitsByRank(Some(ret), PType(body));
  }

  /** `1 + 2.0`: the left operand is cast, and there is nothing to report. */
  lemma OnePlusTwo(i: Int, f: F32)
    ensures CastPass(Binary(Add, LitInt(i), LitFloat(f))) == Passed(Binary(Add, Implicitly(Float, LitInt(i)), LitFloat(f)), 0)
  {
  }
}
