/** What the cast pass achieves for types: everything that must agree agrees, a second run changes
    nothing, nothing but implicit casts is added, and which loops get through. */
module CastTypes {
  import opened Common
  import opened Types
  import opened Tree
  import opened Casts
  import opened Emitter
  import opened Runs

  // ----- the types of a source tree, computed without the pass -----

  function JoinType(a: Option<Prim>, b: Option<Prim>): Option<Prim> {
    if a.Some? && b.Some? then Some(Join(a.value, b.value)) else None
  }

  /** The type of a tree when operands are promoted to the higher of their types. */
  function PType(e: Expr): Option<Prim> {
    match e
    case LitInt(_) => Some(Int32)
    case LitFloat(_) => Some(Float)
    case LitBool(_) => Some(Bool)
    case Var(sym, _) => Some(sym.ty)
    case Binary(op, l, r) =>
      if IsComparison(op) || IsLogical(op) then Some(Bool)
      else if op == Assign then PType(l)
      else JoinType(PType(l), PType(r))
    case Cast(_, t, _) => Some(t)
    case If(_, thn, els) => if els.None? then Some(Void) else JoinType(PType(thn), PType(els.value))
    case While(_, _) => Some(Void)
    case Assert(_, _) => Some(Void)
    case Compound(es) => if es == [] then None else PType(es[|es| - 1])
  }

  // ----- completeness -----

  predicate IsBool(e: Expr) {
    TypeOf(e) == Some(Bool)
  }

  /** Operand pairs and branch pairs have one type, conditions and logical operands are bools. */
  predicate Agrees(e: Expr) {
    match e
    case Binary(op, l, r) =>
      && Agrees(l) && Agrees(r) && TypeOf(l).Some? && TypeOf(l) == TypeOf(r)
      && (IsLogical(op) ==> IsBool(l))
    case Cast(_, _, v) => Agrees(v)
    case If(cond, thn, els) =>
      && Agrees(cond) && IsBool(cond) && Agrees(thn)
      && (els.Some? ==> Agrees(els.value) && TypeOf(thn).Some? && TypeOf(thn) == TypeOf(els.value))
    case While(cond, body) => Agrees(cond) && IsBool(cond) && Agrees(body)
    case Assert(_, cond) => Agrees(cond) && IsBool(cond)
    case Compound(es) => forall i | 0 <= i < |es| :: Agrees(es[i])
    case _ => true
  }

  /** A sequence is rewritten member by member. */
  lemma {:induction false} CastAllMembers(es: seq<Expr>)
    requires CastAll(es).Some?
    ensures var (ts, n) := CastAll(es).value;
            && |ts| == |es|
            && (forall i | 0 <= i < |es| :: CastPass(es[i]).Passed? && CastPass(es[i]).tree == ts[i])
            && (n == 0 <==> forall i | 0 <= i < |es| :: CastPass(es[i]).Passed? && CastPass(es[i]).errors == 0)
    decreases |es|
  {
    hide CastPass;
    if es != [] {
      CastAllMembers(es[1..]);
      assert forall i | 1 <= i < |es| :: es[i] == es[1..][i - 1];
    }
  }

  /** The reverse: when no member crashes, neither does the sequence. */
  lemma {:induction false} CastAllTotal(es: seq<Expr>, ts: seq<Expr>)
    requires |ts| == |es| && forall i | 0 <= i < |es| :: CastPass(es[i]) == Passed(ts[i], 0)
    ensures CastAll(es) == Some((ts, 0))
    decreases |es|
  {
    hide CastPass;
    if es != [] {
      assert CastPass(es[0]) == Passed(ts[0], 0);
      CastAllTotal(es[1..], ts[1..]);
      assert [ts[0]] + ts[1..] == ts;
    } else {
      assert ts == [];
    }
  }

  /** A condition that is already a bool stays one. */
  lemma {:induction false} BoolStays(e: Expr)
    requires CastPass(e).Passed? && IsBool(e)
    ensures IsBool(CastPass(e).tree)
  {
    match e
    case Binary(op, l, r) =>
      if !IsComparison(op) {
        BoolStays(l);
        BoolStays(r);
      }
    case If(cond, thn, els) =>
      BoolStays(thn);
      BoolStays(els.value);
    case Compound(es) =>
      CastAllMembers(es);
      BoolStays(es[|es| - 1]);
    case _ =>
  }

  /** With no error reported everything that must agree agrees, and every tree has the
      promoted type of the source tree. */
  lemma {:induction false} PassAgrees(e: Expr)
    requires CastPass(e).Passed? && CastPass(e).errors == 0
    ensures Agrees(CastPass(e).tree) && TypeOf(CastPass(e).tree) == PType(e)
    decreases e, 1
  {
    match e
    case Binary(op, l, r) =>
      PassAgrees(l);
      PassAgrees(r);
      OperandsAgree(op, CastPass(l).tree, CastPass(r).tree);
    case Cast(_, _, v) => PassAgrees(v);
    case If(cond, thn, els) => PassAgreesIf(cond, thn, els);
    case While(cond, body) =>
      PassAgrees(cond);
      PassAgrees(body);
      if IsBool(cond) { BoolStays(cond); }
    case Assert(_, cond) => PassAgrees(cond);
    case Compound(es) =>
      CastAllMembers(es);
      forall i | 0 <= i < |es| ensures Agrees(CastPass(es[i]).tree) && TypeOf(CastPass(es[i]).tree) == PType(es[i]) {
        PassAgrees(es[i]);
      }
    case _ =>
  }

  lemma {:induction false} PassAgreesIf(cond: Expr, thn: Expr, els: Option<Expr>)
    requires CastIf(cond, thn, els).Passed? && CastIf(cond, thn, els).errors == 0
    ensures Agrees(CastIf(cond, thn, els).tree) && TypeOf(CastIf(cond, thn, els).tree) == PType(If(cond, thn, els))
    decreases If(cond, thn, els), 0
  {
    hide CastPass, TypeOf, Agrees, CastCondition, CastBranches, IsBool;
    PassAgrees(cond);
    PassAgrees(thn);
    var c, t := CastPass(cond).tree, CastPass(thn).tree;
    ConditionAgrees(c);
    if els.Some? {
      PassAgrees(els.value);
      BranchesAgree(CastCondition(c).tree, t, CastPass(els.value).tree);
    } else {
      IfAloneAgrees(CastCondition(c).tree, t);
    }
  }

  lemma ConditionAgrees(c: Expr)
    requires CastCondition(c).Passed? && CastCondition(c).errors == 0
    ensures IsBool(CastCondition(c).tree) && (Agrees(CastCondition(c).tree) <==> Agrees(c))
  {
    hide TypeOf, Agrees;
    WrappedAgrees(Bool, c);
  }

  lemma IfAloneAgrees(c: Expr, thn: Expr)
    requires Agrees(c) && IsBool(c) && Agrees(thn)
    ensures Agrees(If(c, thn, None)) && TypeOf(If(c, thn, None)) == Some(Void)
  {
  }

  lemma WrappedAgrees(t: Prim, e: Expr)
    ensures TypeOf(Implicitly(t, e)) == Some(t) && (Agrees(Implicitly(t, e)) <==> Agrees(e))
  {
  }

  lemma BinaryAgrees(op: BinOp, l: Expr, r: Expr)
    requires Agrees(l) && Agrees(r) && TypeOf(l).Some? && TypeOf(l) == TypeOf(r) && (IsLogical(op) ==> IsBool(l))
    ensures Agrees(Binary(op, l, r)) && TypeOf(Binary(op, l, r)) == if IsComparison(op) then Some(Bool) else TypeOf(r)
  {
  }

  lemma IfAgrees(c: Expr, thn: Expr, els: Expr)
    requires Agrees(c) && IsBool(c) && Agrees(thn) && Agrees(els) && TypeOf(thn).Some? && TypeOf(thn) == TypeOf(els)
    ensures Agrees(If(c, thn, Some(els))) && TypeOf(If(c, thn, Some(els))) == TypeOf(thn)
  {
  }

  /** Operands that have been brought to one type. */
  lemma OperandsMeet(op: BinOp, l: Expr, r: Expr, t: Expr)
    requires Agrees(l) && Agrees(r) && CastOperands(op, l, r) == Passed(t, 0)
    ensures t.Binary? && t.op == op && Agrees(t.l) && Agrees(t.r) && TypeOf(t.l).Some? && TypeOf(t.l) == TypeOf(t.r)
    ensures TypeOf(t.r) == if IsLogical(op) then Some(Bool) else if op == Assign then TypeOf(l) else JoinType(TypeOf(l), TypeOf(r))
  {
    hide TypeOf, Agrees;
    if TypeOf(l).Some? { WrappedAgrees(if IsLogical(op) then Bool else TypeOf(l).value, r); }
    if TypeOf(r).Some? { WrappedAgrees(if IsLogical(op) then Bool else TypeOf(r).value, l); }
  }

  lemma OperandsAgree(op: BinOp, l: Expr, r: Expr)
    requires Agrees(l) && Agrees(r) && CastOperands(op, l, r).Passed? && CastOperands(op, l, r).errors == 0
    ensures var t := CastOperands(op, l, r).tree;
            && Agrees(t)
            && TypeOf(t) == if IsComparison(op) || IsLogical(op) then Some(Bool)
                            else if op == Assign then TypeOf(l)
                            else JoinType(TypeOf(l), TypeOf(r))
  {
    hide TypeOf, Agrees, CastOperands, JoinType;
    var t := CastOperands(op, l, r).tree;
    OperandsMeet(op, l, r, t);
    BinaryAgrees(op, t.l, t.r);
  }

  lemma BranchesAgree(c: Expr, thn: Expr, els: Expr)
    requires Agrees(c) && IsBool(c) && Agrees(thn) && Agrees(els) && CastBranches(c, thn, els).Passed?
    ensures CastBranches(c, thn, els).errors == 0
    ensures Agrees(CastBranches(c, thn, els).tree)
        && TypeOf(CastBranches(c, thn, els).tree) == JoinType(TypeOf(thn), TypeOf(els))
  {
    hide TypeOf, Agrees;
    var t := CastBranches(c, thn, els).tree;
    if TypeOf(thn).Some? { WrappedAgrees(TypeOf(thn).value, els); }
    if TypeOf(els).Some? { WrappedAgrees(TypeOf(els).value, thn); }
    IfAgrees(c, t.thn, t.els.value);
  }

  /** A tree in which everything agrees is left alone. */
  lemma {:induction false} AgreesIsFixed(t: Expr)
    requires Agrees(t)
    ensures CastPass(t) == Passed(t, 0)
  {
    match t
    case Binary(op, l, r) =>
      AgreesIsFixed(l);
      AgreesIsFixed(r);
    case Cast(_, _, v) => AgreesIsFixed(v);
    case If(cond, thn, els) =>
      AgreesIsFixed(cond);
      AgreesIsFixed(thn);
      if els.Some? { AgreesIsFixed(els.value); }
    case While(cond, body) =>
      AgreesIsFixed(cond);
      AgreesIsFixed(body);
    case Assert(_, cond) => AgreesIsFixed(cond);
    case Compound(es) =>
      forall i | 0 <= i < |es| ensures CastPass(es[i]) == Passed(es[i], 0) {
        AgreesIsFixed(es[i]);
      }
      CastAllTotal(es, es);
    case _ =>
  }

  /** Running the pass again changes nothing. */
  lemma CastPassIsIdempotent(e: Expr)
    requires CastPass(e).Passed? && CastPass(e).errors == 0
    ensures CastPass(CastPass(e).tree) == Passed(CastPass(e).tree, 0)
  {
    hide CastPass, Agrees;
    PassAgrees(e);
    AgreesIsFixed(CastPass(e).tree);
  }

  // ----- the type of an arithmetic tree does not depend on its shape -----

  predicate IsArithmeticTree(e: Expr) {
    match e
    case Binary(op, l, r) => op in {Add, Sub, Mul, Div} && IsArithmeticTree(l) && IsArithmeticTree(r)
    case If(_, _, _) => false
    case While(_, _) => false
    case Assert(_, _) => false
    case Compound(_) => false
    case _ => true
  }

  /** The types of the operands at the leaves, left to right. */
  function LeafTypes(e: Expr): (ts: seq<Prim>)
    requires IsArithmeticTree(e)
    ensures ts != []
  {
    match e
    case LitInt(_) => [Int32]
    case LitFloat(_) => [Float]
    case LitBool(_) => [Bool]
    case Var(sym, _) => [sym.ty]
    case Binary(_, l, r) => LeafTypes(l) + LeafTypes(r)
    case Cast(_, t, _) => [t]
  }

  /** The type of an arithmetic tree is the highest type among its leaves, whatever its shape. */
  lemma {:induction false} ArithmeticTypeIsHighestLeaf(e: Expr)
    requires IsArithmeticTree(e) && CastPass(e).Passed? && CastPass(e).errors == 0
    ensures TypeOf(CastPass(e).tree).Some?
    ensures var t := TypeOf(CastPass(e).tree).value; t in LeafTypes(e) && forall x | x in LeafTypes(e) :: Rank(x) <= Rank(t)
  {
    hide CastPass, TypeOf, Agrees;
    PassAgrees(e);
    HighestLeaf(e);
  }

  lemma {:induction false} HighestLeaf(e: Expr)
    requires IsArithmeticTree(e)
    ensures PType(e).Some? && PType(e).value in LeafTypes(e) && forall x | x in LeafTypes(e) :: Rank(x) <= Rank(PType(e).value)
  {
    if e.Binary? {
      HighestLeaf(e.l);
      HighestLeaf(e.r);
    }
  }

  // ----- loop conditions, which are examined too early -----

  lemma {:induction false} TypedSource(e: Expr)
    requires TypeOf(e).Some?
    ensures PType(e).Some?
  {
    match e
    case Binary(op, l, r) =>
      if !IsComparison(op) {
        TypedSource(l);
        TypedSource(r);
      }
    case If(_, thn, els) =>
      if els.Some? {
        TypedSource(thn);
        TypedSource(els.value);
      }
    case Compound(es) => TypedSource(es[|es| - 1]);
    case _ =>
  }

  /** A loop gets through exactly when its condition has a type as written, and was written as a
      bool or does not become one by itself. */
  lemma LoopConditionExactly(cond: Expr, body: Expr)
    requires CastPass(cond).Passed? && CastPass(cond).errors == 0 && CastsOk(CastPass(cond).tree)
    requires CastPass(body).Passed? && CastPass(body).errors == 0 && CastsOk(CastPass(body).tree)
    ensures CastPass(While(cond, body)).Passed? && CastPass(While(cond, body)).errors == 0
        && CastsOk(CastPass(While(cond, body)).tree)
       <==> TypeOf(cond).Some? && (TypeOf(cond) == Some(Bool) || PType(cond) != Some(Bool))
  {
    hide CastPass, TypeOf, PType, CastsOk, Agrees;
    LoopPasses(cond, body);
    PassAgrees(cond);
    var c := CastPass(cond).tree;
    LoopCasts(c, CastPass(body).tree);
    LoopCasts(Implicitly(Bool, c), CastPass(body).tree);
    CastCasts(c);
    if TypeOf(cond).Some? { TypedSource(cond); }
  }

  lemma LoopPasses(cond: Expr, body: Expr)
    ensures CastPass(While(cond, body)) == CastWhile(cond, body)
  {
    hide CastWhile;
  }

  lemma LoopCasts(c: Expr, b: Expr)
    ensures CastsOk(While(c, b)) <==> CastsOk(c) && CastsOk(b)
  {
  }

  lemma CastCasts(c: Expr)
    ensures CastsOk(Implicitly(Bool, c)) <==> CastsOk(c) && TypeOf(c).Some? && CanImplicitCast(TypeOf(c).value, Bool)
  {
  }

  lemma IntAnd(i: Sym, j: Sym, cond: Expr)
    requires i.ty == Int32 && j.ty == Int32 && cond == Binary(LAnd, Var(i, Read), Var(j, Read))
    ensures TypeOf(cond) == Some(Int32) && PType(cond) == Some(Bool)
    ensures CastPass(cond) == Passed(Binary(LAnd, Implicitly(Bool, Var(i, Read)), Implicitly(Bool, Var(j, Read))), 0)
    ensures CastsOk(CastPass(cond).tree)
  {
    assert TypeOf(Var(i, Read)) == Some(Int32) && TypeOf(Var(j, Read)) == Some(Int32);
    assert CastPass(Var(i, Read)) == Passed(Var(i, Read), 0) && CastPass(Var(j, Read)) == Passed(Var(j, Read), 0);
    CastCasts(Var(i, Read));
    CastCasts(Var(j, Read));
  }

  /** `while (i && j)` on two ints: the condition is cast to bool although it becomes one. */
  lemma IntLoopConditionFails(i: Sym, j: Sym, body: Expr)
    requires i.ty == Int32 && j.ty == Int32
    requires CastPass(body).Passed? && CastPass(body).errors == 0 && CastsOk(CastPass(body).tree)
    ensures var loop := While(Binary(LAnd, Var(i, Read), Var(j, Read)), body);
            CastPass(loop).Passed? && CastPass(loop).errors == 0 && !CastsOk(CastPass(loop).tree)
  {
    hide CastPass, TypeOf, PType, CastsOk;
    var cond := Binary(LAnd, Var(i, Read), Var(j, Read));
    IntAnd(i, j, cond);
    LoopPasses(cond, body);
    LoopConditionExactly(cond, body);
  }

  // ----- nothing but implicit casts is added -----

  /** The tree without its implicit casts. */
  function Bare(e: Expr): Expr {
    match e
    case Binary(op, l, r) => Binary(op, Bare(l), Bare(r))
    case Cast(kind, t, v) => if kind == Implicit then Bare(v) else Cast(kind, t, Bare(v))
    case If(cond, thn, els) => If(Bare(cond), Bare(thn), if els.Some? then Some(Bare(els.value)) else None)
    case While(cond, body) => While(Bare(cond), Bare(body))
    case Assert(line, cond) => Assert(line, Bare(cond))
    case Compound(es) => Compound(BareAll(es))
    case _ => e
  }

  function BareAll(es: seq<Expr>): (r: seq<Expr>)
    ensures |r| == |es| && forall i | 0 <= i < |es| :: r[i] == Bare(es[i])
  {
    if es == [] then [] else [Bare(es[0])] + BareAll(es[1..])
  }

  lemma BareOperands(op: BinOp, l: Expr, r: Expr)
    requires CastOperands(op, l, r).Passed?
    ensures Bare(CastOperands(op, l, r).tree) == Bare(Binary(op, l, r))
  {
    hide TypeOf, CanImplicitCast, IsLogical;
  }

  lemma BareCondition(c: Expr)
    requires CastCondition(c).Passed?
    ensures Bare(CastCondition(c).tree) == Bare(c)
  {
    hide TypeOf;
  }

  lemma BareBranches(c: Expr, thn: Expr, els: Expr)
    requires CastBranches(c, thn, els).Passed?
    ensures Bare(CastBranches(c, thn, els).tree) == Bare(If(c, thn, Some(els)))
  {
    hide TypeOf, CanImplicitCast;
  }

  lemma BareIf(c: Expr, thn: Expr, els: Option<Expr>)
    requires FinishIf(c, thn, els).Passed?
    ensures Bare(FinishIf(c, thn, els).tree) == Bare(If(c, thn, els))
  {
    hide TypeOf, CastCondition, CastBranches;
    BareCondition(c);
    if els.Some? { BareBranches(CastCondition(c).tree, thn, els.value); }
  }

  /** Taking the implicit casts out of what the pass leaves gives back the source, errors or not. */
  lemma {:induction false} OnlyCastsAdded(e: Expr)
    requires CastPass(e).Passed?
    ensures Bare(CastPass(e).tree) == Bare(e)
  {
    hide CastPass, TypeOf, CastOperands, CastCondition, FinishIf, CastAll;
    match e
    case Binary(op, l, r) =>
      BinaryPasses(op, l, r);
      OnlyCastsAdded(l);
      OnlyCastsAdded(r);
      BareOperands(op, CastPass(l).tree, CastPass(r).tree);
    case Cast(kind, t, v) =>
      CastPasses(kind, t, v);
      OnlyCastsAdded(v);
    case If(cond, thn, els) =>
      IfPasses(cond, thn, els);
      OnlyCastsAdded(cond);
      OnlyCastsAdded(thn);
      if els.Some? { OnlyCastsAdded(els.value); }
      BareIf(CastPass(cond).tree, CastPass(thn).tree, if els.Some? then Some(CastPass(els.value).tree) else None);
    case While(cond, body) =>
      LoopPasses(cond, body);
      OnlyCastsAdded(cond);
      OnlyCastsAdded(body);
    case Assert(line, cond) =>
      AssertPasses(line, cond);
      OnlyCastsAdded(cond);
      BareCondition(CastPass(cond).tree);
    case Compound(es) =>
      SequencePasses(es);
      CastAllMembers(es);
      forall i | 0 <= i < |es| ensures BareAll(CastPass(e).tree.es)[i] == BareAll(es)[i] {
        OnlyCastsAdded(es[i]);
      }
    case _ => LeafPasses(e);
  }

  lemma SequencePasses(es: seq<Expr>)
    ensures CastPass(Compound(es)) == if CastAll(es).None? then Crash else Passed(Compound(CastAll(es).value.0), CastAll(es).value.1)
  {
    hide CastAll;
  }
}
