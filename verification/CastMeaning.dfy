/** The cast pass preserves meaning: the rewritten tree, whose operands need no promotion, means
    what the source tree means when mixed operands are promoted as they meet. */
module CastMeaning {
  import opened Common
  import opened Types
  import opened Tree
  import opened Values
  import opened Eval
  import opened Emitter
  import opened Typing
  import opened Casts
  import opened Simulation
  import opened CastTypes

  // ----- the source tree, evaluated with promotion -----

  function Promote(ops: FloatOps, t: Prim, v: Value): Option<Value> {
    if TagOf(v) == t then Some(v) else Convert(ops, t, v)
  }

  function Promoted(ops: FloatOps, t: Prim, o: Outcome): Outcome {
    if HasValue(o) then Yield(o.mem, Promote(ops, t, o.value.value)) else Propagate(o)
  }

  /** The operator on operands promoted to the higher of their types. */
  function ApplyP(ops: FloatOps, op: BinOp, a: Value, b: Value): Option<Value> {
    var j := Join(TagOf(a), TagOf(b));
    var x, y := Promote(ops, j, a), Promote(ops, j, b);
    if x.Some? && y.Some? then Apply(ops, op, x.value, y.value) else None
  }

  function EvalP(ops: FloatOps, e: Expr, m: Mem, fuel: nat): Outcome
    decreases fuel, e, 2
  {
    match e
    case LitInt(n) => Done(m, Some(IntV(n)))
    case LitFloat(f) => Done(m, Some(FloatV(f)))
    case LitBool(b) => Done(m, Some(BoolV(b)))
    case Var(sym, _) => if sym in m.vars then Done(m, Some(m.vars[sym])) else Stuck
    case Binary(op, _, _) =>
      if IsLogical(op) then EvalPLogical(ops, e, m, fuel)
      else if op == Assign then EvalPAssign(ops, e, m, fuel)
      else EvalPArithmetic(ops, e, m, fuel)
    case Cast(_, t, v) => EvalCast(ops, t, EvalP(ops, v, m, fuel))
    case If(_, _, _) => EvalPIf(ops, e, m, fuel)
    case While(cond, body) => EvalPWhile(ops, cond, body, m, fuel)
    case Assert(line, cond) => EvalAssert(line, Promoted(ops, Bool, EvalP(ops, cond, m, fuel)))
    case Compound(es) => EvalPSeq(ops, es, m, None, fuel)
  }

  function EvalPLogical(ops: FloatOps, e: Expr, m: Mem, fuel: nat): Outcome
    requires e.Binary?
    decreases fuel, e, 1
  {
    var o := Promoted(ops, Bool, EvalP(ops, e.l, m, fuel));
    if !o.Done? || o.value.value == BoolV(e.op == LOr) then o
    else Promoted(ops, Bool, EvalP(ops, e.r, o.mem, fuel))
  }

  /** The right side is promoted to the variable's type. */
  function EvalPAssign(ops: FloatOps, e: Expr, m: Mem, fuel: nat): Outcome
    requires e.Binary?
    decreases fuel, e, 1
  {
    if !e.l.Var? then Stuck
    else
      var o := Promoted(ops, e.l.sym.ty, EvalP(ops, e.r, m, fuel));
      if o.Done? then Done(o.mem.(vars := o.mem.vars[e.l.sym := o.value.value]), o.value) else o
  }

  function EvalPArithmetic(ops: FloatOps, e: Expr, m: Mem, fuel: nat): Outcome
    requires e.Binary?
    decreases fuel, e, 1
  {
    var o := EvalP(ops, e.r, m, fuel);
    if HasValue(o) then EvalPOperator(ops, e, o.mem, o.value.value, fuel) else Propagate(o)
  }

  function EvalPOperator(ops: FloatOps, e: Expr, m: Mem, vr: Value, fuel: nat): Outcome
    requires e.Binary?
    decreases fuel, e, 0
  {
    var o := EvalP(ops, e.l, m, fuel);
    if HasValue(o) then Yield(o.mem, ApplyP(ops, e.op, o.value.value, vr)) else Propagate(o)
  }

  /** The branches are promoted to the higher of their types. */
  function EvalPIf(ops: FloatOps, e: Expr, m: Mem, fuel: nat): Outcome
    requires e.If?
    decreases fuel, e, 1
  {
    var o := Promoted(ops, Bool, EvalP(ops, e.cond, m, fuel));
    if !o.Done? then o
    else if o.value.value == BoolV(true) then BranchP(ops, PType(e), EvalP(ops, e.thn, o.mem, fuel))
    else if e.els.Some? then BranchP(ops, PType(e), EvalP(ops, e.els.value, o.mem, fuel))
    else Done(o.mem, None)
  }

  function BranchP(ops: FloatOps, t: Option<Prim>, o: Outcome): Outcome {
    if !o.Done? then o
    else if t.None? || t == Some(Void) then Done(o.mem, None)
    else Promoted(ops, t.value, o)
  }

  function EvalPSeq(ops: FloatOps, es: seq<Expr>, m: Mem, last: Option<Value>, fuel: nat): Outcome
    decreases fuel, es, 0
  {
    if es == [] then Done(m, last)
    else
      var o := EvalP(ops, es[0], m, fuel);
      if o.Done? then EvalPSeq(ops, es[1..], o.mem, if o.value.Some? then o.value else last, fuel) else o
  }

  function EvalPWhile(ops: FloatOps, cond: Expr, body: Expr, m: Mem, fuel: nat): Outcome
    decreases fuel, While(cond, body), 1
  {
    if fuel == 0 then Timeout
    else
      var o := Promoted(ops, Bool, EvalP(ops, cond, m, fuel));
      if !o.Done? then o
      else if o.value.value == BoolV(false) then Done(o.mem, None)
      else
        var o2 := EvalP(ops, body, o.mem, fuel - 1);
        if o2.Done? then EvalPWhile(ops, cond, body, o2.mem, fuel - 1) else o2
  }

  // ----- one cast -----

  function CastTo(t: Prim, c: Expr): Expr {
    if TypeOf(c) == Some(t) then c else Implicitly(t, c)
  }

  lemma PromoteUp(ops: FloatOps, t: Prim, v: Value)
    requires Rank(TagOf(v)) <= Rank(t) && Supported(t) && TagOf(v) != Double
    ensures Promote(ops, t, v).Some? && TagOf(Promote(ops, t, v).value) == t
  {
  }

  /** A cast that was inserted because types differ does what promotion does. */
  lemma CastToMeaning(ops: FloatOps, t: Prim, c: Expr, m: Mem, fuel: nat)
    requires Emittable(c) && TypedMem(m) && Valued(c)
    ensures EvalExpr(ops, CastTo(t, c), m, fuel) == Promoted(ops, t, EvalExpr(ops, c, m, fuel))
  {
    EvalTyped(ops, c, m, fuel);
  }

  // ----- what the pass makes of the parts of a node -----

  /** The type both operands are brought to. */
  function OperandType(op: BinOp, l: Expr, r: Expr): Prim
    requires TypeOf(l).Some? && TypeOf(r).Some?
  {
    if IsLogical(op) then Bool else if op == Assign then TypeOf(l).value else Join(TypeOf(l).value, TypeOf(r).value)
  }

  lemma OperandsShape(op: BinOp, l: Expr, r: Expr)
    requires CastOperands(op, l, r).Passed? && CastOperands(op, l, r).errors == 0
    ensures TypeOf(l).Some? && TypeOf(r).Some?
    ensures CastOperands(op, l, r).tree == Binary(op, CastTo(OperandType(op, l, r), l), CastTo(OperandType(op, l, r), r))
    ensures Rank(TypeOf(r).value) <= Rank(OperandType(op, l, r))
  {
    hide TypeOf;
  }

  lemma CastToEmittable(t: Prim, c: Expr)
    requires TypeOf(c).Some?
    ensures TypeOf(CastTo(t, c)) == Some(t)
    ensures Emittable(CastTo(t, c)) <==> Emittable(c) && (TypeOf(c) == Some(t) || CastSupported(TypeOf(c).value, t))
  {
  }

  lemma OperandsEmittable(op: BinOp, l: Expr, r: Expr)
    requires CastOperands(op, l, r).Passed? && CastOperands(op, l, r).errors == 0 && Emittable(CastOperands(op, l, r).tree)
    ensures Emittable(r) && Valued(r)
    ensures if op == Assign then l.Var? && Storable(l.sym.ty) && TypeOf(l) == Some(l.sym.ty) else Emittable(l) && Valued(l) && Supported(OperandType(op, l, r))
    ensures op != Assign ==> TypeOf(l) != Some(Double) && TypeOf(r) != Some(Double)
  {
    OperandsShape(op, l, r);
    var t := OperandType(op, l, r);
    var l2, r2 := CastTo(t, l), CastTo(t, r);
    BinaryEmittable(op, l2, r2);
    hide Emittable, TypeOf, CastOperands;
    CastToEmittable(t, l);
    CastToEmittable(t, r);
    assert t != Void;
  }

  lemma BinaryEmittable(op: BinOp, l: Expr, r: Expr)
    requires Emittable(Binary(op, l, r))
    ensures Emittable(r) && TypeOf(r).Some? && TypeOf(l) == TypeOf(r) && Storable(TypeOf(r).value)
    ensures op != Assign ==> Supported(TypeOf(r).value)
    ensures if op == Assign then l.Var? && TypeOf(l) == Some(l.sym.ty) else Emittable(l)
  {
  }

  // ----- preservation -----

  /** The pass reported nothing on `e`, left `t`, and the emitter can handle `t`. */
  predicate Elaborated(e: Expr, t: Expr) {
    CastPass(e) == Passed(t, 0) && Emittable(t)
  }

  lemma {:induction false} CastPassPreservesMeaning(ops: FloatOps, e: Expr, t: Expr, m: Mem, fuel: nat)
    requires Elaborated(e, t) && TypedMem(m)
    ensures EvalP(ops, e, m, fuel) == EvalExpr(ops, t, m, fuel)
    decreases fuel, e, 3
  {
    match e
    case Binary(op, l, r) =>
      if IsLogical(op) { MeaningLogical(ops, op, l, r, t, m, fuel); }
      else if op == Assign { MeaningAssign(ops, l, r, t, m, fuel); }
      else { MeaningArithmetic(ops, op, l, r, t, m, fuel); }
    case Cast(_, _, v) => CastPassPreservesMeaning(ops, v, t.v, m, fuel);
    case If(cond, thn, els) => MeaningIf(ops, cond, thn, els, t, m, fuel);
    case While(cond, body) => MeaningWhile(ops, cond, body, t, m, fuel);
    case Assert(line, cond) => MeaningAssert(ops, line, cond, t, m, fuel);
    case Compound(es) => MeaningCompound(ops, es, t, m, fuel);
    case _ =>
  }

  /** A part of a construct, brought to type `to`. */
  lemma {:induction false} MeaningPart(ops: FloatOps, e: Expr, t: Expr, to: Prim, m: Mem, fuel: nat)
    requires Elaborated(e, t) && TypedMem(m) && Valued(t) && (TypeOf(t) == Some(to) || CastSupported(TypeOf(t).value, to))
    ensures Promoted(ops, to, EvalP(ops, e, m, fuel)) == EvalExpr(ops, CastTo(to, t), m, fuel)
    ensures TypedOutcome(CastTo(to, t), EvalExpr(ops, CastTo(to, t), m, fuel)) && TypeOf(CastTo(to, t)) == Some(to)
    decreases fuel, e, 4
  {
    hide EvalP, EvalExpr, CastPass, Emittable, TypeOf, CastTo, TypedMem, TypedOutcome, Promoted;
    CastPassPreservesMeaning(ops, e, t, m, fuel);
    CastToMeaning(ops, to, t, m, fuel);
    CastToEmittable(to, t);
    EvalTyped(ops, CastTo(to, t), m, fuel);
  }

  lemma BinaryParts(op: BinOp, l: Expr, r: Expr, t: Expr)
    requires CastPass(Binary(op, l, r)) == Passed(t, 0)
    ensures CastPass(l).Passed? && CastPass(l).errors == 0 && CastPass(r).Passed? && CastPass(r).errors == 0
    ensures CastOperands(op, CastPass(l).tree, CastPass(r).tree) == Passed(t, 0)
  {
    hide CastPass, CastOperands;
    BinaryPasses(op, l, r);
  }

  /** A variable is left alone, and nothing else becomes one. */
  lemma VarStays(e: Expr)
    requires CastPass(e).Passed?
    ensures e.Var? ==> CastPass(e).tree == e
    ensures CastPass(e).tree.Var? ==> e.Var?
  {
    hide TypeOf, CastAll;
  }

  lemma LogicalIs(ops: FloatOps, op: BinOp, l: Expr, r: Expr, m: Mem, fuel: nat)
    requires IsLogical(op)
    ensures EvalExpr(ops, Binary(op, l, r), m, fuel) == EvalLogical(ops, Binary(op, l, r), m, fuel)
    ensures EvalP(ops, Binary(op, l, r), m, fuel) == EvalPLogical(ops, Binary(op, l, r), m, fuel)
  {
  }

  lemma {:induction false} MeaningLogical(ops: FloatOps, op: BinOp, l: Expr, r: Expr, t: Expr, m: Mem, fuel: nat)
    requires Elaborated(Binary(op, l, r), t) && TypedMem(m) && IsLogical(op)
    ensures EvalP(ops, Binary(op, l, r), m, fuel) == EvalExpr(ops, t, m, fuel)
    decreases fuel, Binary(op, l, r), 2
  {
    hide EvalP, EvalExpr, CastPass, Emittable, TypeOf, CastTo, CastOperands, TypedMem, Promoted;
    BinaryParts(op, l, r, t);
    var tl, tr := CastPass(l).tree, CastPass(r).tree;
    OperandsShape(op, tl, tr);
    BinaryEmittable(op, t.l, t.r);
    CastToEmittable(Bool, tl);
    CastToEmittable(Bool, tr);
    LogicalIs(ops, op, l, r, m, fuel);
    LogicalIs(ops, op, t.l, t.r, m, fuel);
    MeaningPart(ops, l, tl, Bool, m, fuel);
    PromotedKinds(ops, Bool, EvalP(ops, l, m, fuel));
    var o := EvalExpr(ops, t.l, m, fuel);
    if o.Done? && o.value.value != BoolV(op == LOr) {
      MeaningPart(ops, r, tr, Bool, o.mem, fuel);
      PromotedKinds(ops, Bool, EvalP(ops, r, o.mem, fuel));
    }
  }

  lemma PromotedKinds(ops: FloatOps, t: Prim, o: Outcome)
    ensures var p := Promoted(ops, t, o); p.Done? ==> p.value.Some? && o.Done?
  {
  }

  lemma AssignIs(ops: FloatOps, l: Expr, r: Expr, m: Mem, fuel: nat)
    ensures EvalExpr(ops, Binary(Assign, l, r), m, fuel) == EvalAssign(ops, Binary(Assign, l, r), m, fuel)
    ensures EvalP(ops, Binary(Assign, l, r), m, fuel) == EvalPAssign(ops, Binary(Assign, l, r), m, fuel)
  {
  }

  lemma {:induction false} MeaningAssign(ops: FloatOps, l: Expr, r: Expr, t: Expr, m: Mem, fuel: nat)
    requires Elaborated(Binary(Assign, l, r), t) && TypedMem(m)
    ensures EvalP(ops, Binary(Assign, l, r), m, fuel) == EvalExpr(ops, t, m, fuel)
    decreases fuel, Binary(Assign, l, r), 2
  {
    hide EvalP, EvalExpr, CastPass, Emittable, TypeOf, CastOperands, TypedMem, Promoted;
    BinaryParts(Assign, l, r, t);
    VarStays(l);
    var tl, tr := CastPass(l).tree, CastPass(r).tree;
    OperandsShape(Assign, tl, tr);
    OperandsEmittable(Assign, tl, tr);
    BinaryEmittable(Assign, t.l, t.r);
    CastToEmittable(TypeOf(tl).value, tr);
    AssignIs(ops, l, r, m, fuel);
    AssignIs(ops, t.l, t.r, m, fuel);
    MeaningPart(ops, r, tr, TypeOf(tl).value, m, fuel);
    PromotedKinds(ops, TypeOf(tl).value, EvalP(ops, r, m, fuel));
  }

  lemma ArithmeticIs(ops: FloatOps, op: BinOp, l: Expr, r: Expr, m: Mem, fuel: nat)
    requires op != Assign && !IsLogical(op)
    ensures EvalExpr(ops, Binary(op, l, r), m, fuel) == EvalArithmetic(ops, Binary(op, l, r), m, fuel)
    ensures EvalP(ops, Binary(op, l, r), m, fuel) == EvalPArithmetic(ops, Binary(op, l, r), m, fuel)
  {
  }

  /** The facts about the right operand of an operator: its value has its type, and promoting it
      cannot fail. */
  lemma OperandUp(ops: FloatOps, c: Expr, j: Prim, o: Outcome)
    requires TypedOutcome(c, o) && Valued(c) && Rank(TypeOf(c).value) <= Rank(j) && Supported(j) && TypeOf(c) != Some(Double)
    ensures HasValue(o) ==> TagOf(o.value.value) == TypeOf(c).value && Promote(ops, j, o.value.value).Some? && TypedMem(o.mem)
    ensures o.Done? ==> HasValue(o)
  {
    hide TypeOf;
    if HasValue(o) { PromoteUp(ops, j, o.value.value); }
  }

  lemma {:induction false} MeaningArithmetic(ops: FloatOps, op: BinOp, l: Expr, r: Expr, t: Expr, m: Mem, fuel: nat)
    requires Elaborated(Binary(op, l, r), t) && TypedMem(m) && op != Assign && !IsLogical(op)
    ensures EvalP(ops, Binary(op, l, r), m, fuel) == EvalExpr(ops, t, m, fuel)
    decreases fuel, Binary(op, l, r), 2
  {
    hide EvalP, EvalExpr, CastPass, Emittable, TypeOf, CastTo, CastOperands, TypedMem, TypedOutcome, Promote, Apply;
    BinaryParts(op, l, r, t);
    var tl, tr := CastPass(l).tree, CastPass(r).tree;
    OperandsShape(op, tl, tr);
    OperandsEmittable(op, tl, tr);
    var j := OperandType(op, tl, tr);
    ArithmeticIs(ops, op, l, r, m, fuel);
    ArithmeticIs(ops, op, t.l, t.r, m, fuel);
    CastPassPreservesMeaning(ops, r, tr, m, fuel);
    CastToMeaning(ops, j, tr, m, fuel);
    EvalTyped(ops, tr, m, fuel);
    var o := EvalExpr(ops, tr, m, fuel);
    OperandUp(ops, tr, j, o);
    if HasValue(o) {
      CastPassPreservesMeaning(ops, l, tl, o.mem, fuel);
      CastToMeaning(ops, j, tl, o.mem, fuel);
      EvalTyped(ops, tl, o.mem, fuel);
      OperandUp(ops, tl, j, EvalExpr(ops, tl, o.mem, fuel));
    }
  }

  // ----- conditions -----

  lemma ConditionShape(c: Expr)
    requires CastCondition(c).Passed? && CastCondition(c).errors == 0
    ensures TypeOf(c).Some? && CastCondition(c).tree == CastTo(Bool, c)
  {
    hide TypeOf;
  }

  lemma ConditionEmittable(c: Expr)
    requires TypeOf(c).Some? && Emittable(CastTo(Bool, c))
    ensures Emittable(c) && Valued(c) && (TypeOf(c) == Some(Bool) || CastSupported(TypeOf(c).value, Bool))
  {
    hide TypeOf, Emittable;
    CastToEmittable(Bool, c);
  }

  /** A promoted condition is a bool whenever it is anything. */
  predicate Decides(o: Outcome) {
    o.Done? ==> HasBool(o) && TypedMem(o.mem)
  }

  lemma {:induction false} MeaningCondition(ops: FloatOps, e: Expr, c: Expr, m: Mem, fuel: nat)
    requires CastPass(e) == Passed(c, 0) && TypeOf(c).Some? && Emittable(CastTo(Bool, c)) && TypedMem(m)
    ensures Promoted(ops, Bool, EvalP(ops, e, m, fuel)) == EvalExpr(ops, CastTo(Bool, c), m, fuel)
    ensures Decides(EvalExpr(ops, CastTo(Bool, c), m, fuel))
    decreases fuel, e, 5
  {
    hide EvalP, EvalExpr, CastPass, Emittable, TypeOf, CastTo, TypedMem, Promoted;
    ConditionEmittable(c);
    MeaningPart(ops, e, c, Bool, m, fuel);
    assert Valued(CastTo(Bool, c));
  }

  lemma {:induction false} MeaningAssert(ops: FloatOps, line: nat, cond: Expr, t: Expr, m: Mem, fuel: nat)
    requires Elaborated(Assert(line, cond), t) && TypedMem(m)
    ensures EvalP(ops, Assert(line, cond), m, fuel) == EvalExpr(ops, t, m, fuel)
    decreases fuel, Assert(line, cond), 2
  {
    hide CastCondition, TypedMem, Promoted;
    var c := CastPass(cond).tree;
    ConditionShape(c);
    MeaningCondition(ops, cond, c, m, fuel);
  }

  // ----- if -----

  lemma {:induction false} BranchesShape(c: Expr, thn: Expr, els: Expr)
    requires CastBranches(c, thn, els).Passed? && CastBranches(c, thn, els).errors == 0
    ensures TypeOf(thn).Some? && TypeOf(els).Some?
    ensures var j := Join(TypeOf(thn).value, TypeOf(els).value);
            CastBranches(c, thn, els).tree == If(c, CastTo(j, thn), Some(CastTo(j, els)))
  {
    hide TypeOf;
  }

  /** What the pass makes of an `if`. */
  predicate IfShape(cond: Expr, thn: Expr, els: Option<Expr>, t: Expr) {
    && CastPass(cond).Passed? && CastPass(cond).errors == 0 && CastPass(thn).Passed? && CastPass(thn).errors == 0
    && t.If? && t.els.Some? == els.Some? && TypeOf(CastPass(cond).tree).Some? && t.cond == CastTo(Bool, CastPass(cond).tree)
    && if els.None? then t.thn == CastPass(thn).tree
       else
         && CastPass(els.value).Passed? && CastPass(els.value).errors == 0
         && TypeOf(CastPass(thn).tree).Some? && TypeOf(CastPass(els.value).tree).Some?
         && t.thn == CastTo(Join(TypeOf(CastPass(thn).tree).value, TypeOf(CastPass(els.value).tree).value), CastPass(thn).tree)
         && t.els.value == CastTo(Join(TypeOf(CastPass(thn).tree).value, TypeOf(CastPass(els.value).tree).value), CastPass(els.value).tree)
  }

  lemma {:induction false} IfShapes(cond: Expr, thn: Expr, els: Option<Expr>, t: Expr)
    requires CastPass(If(cond, thn, els)) == Passed(t, 0)
    ensures IfShape(cond, thn, els, t)
  {
    hide CastPass, TypeOf, CastCondition, CastBranches, CastTo;
    IfPasses(cond, thn, els);
    var c := CastPass(cond).tree;
    ConditionShape(c);
    if els.Some? {
      BranchesShape(CastCondition(c).tree, CastPass(thn).tree, CastPass(els.value).tree);
    }
  }

  /** One branch, dropped to no value or promoted to the type `j` of the whole. */
  lemma {:induction false} MeaningBranch(ops: FloatOps, e: Expr, b: Expr, j: Prim, m: Mem, fuel: nat)
    requires CastPass(e) == Passed(b, 0) && TypeOf(b).Some? && Emittable(CastTo(j, b)) && TypedMem(m) && (j == Void ==> TypeOf(b) == Some(Void))
    ensures BranchP(ops, Some(j), EvalP(ops, e, m, fuel)) == BranchValue(j != Void, EvalExpr(ops, CastTo(j, b), m, fuel))
    decreases fuel, e, 5
  {
    hide EvalP, EvalExpr, CastPass, Emittable, TypeOf, TypedMem;
    CastToEmittable(j, b);
    if j == Void {
      CastPassPreservesMeaning(ops, e, b, m, fuel);
    } else {
      MeaningPart(ops, e, b, j, m, fuel);
    }
  }

  lemma IfIs(ops: FloatOps, cond: Expr, thn: Expr, els: Option<Expr>, t: Expr, m: Mem, fuel: nat)
    requires t.If?
    ensures EvalExpr(ops, t, m, fuel) == EvalIf(ops, t, m, fuel)
    ensures EvalP(ops, If(cond, thn, els), m, fuel) == EvalPIf(ops, If(cond, thn, els), m, fuel)
  {
  }

  lemma IfTypes(cond: Expr, thn: Expr, els: Option<Expr>, t: Expr)
    requires Elaborated(If(cond, thn, els), t)
    ensures t.If? && TypeOf(t).Some? && TypeOf(t) == PType(If(cond, thn, els))
    ensures Emittable(t.cond) && Emittable(t.thn)
    ensures t.els.Some? ==> Emittable(t.els.value) && TypeOf(t.thn).Some? && TypeOf(t.thn) == TypeOf(t.els.value) == TypeOf(t)
    ensures t.els.None? ==> TypeOf(t) == Some(Void)
  {
    hide CastPass, CastIf, PType;
    PassAgrees(If(cond, thn, els));
    IfShapes(cond, thn, els, t);
  }

  lemma {:induction false} MeaningIf(ops: FloatOps, cond: Expr, thn: Expr, els: Option<Expr>, t: Expr, m: Mem, fuel: nat)
    requires Elaborated(If(cond, thn, els), t) && TypedMem(m)
    ensures EvalP(ops, If(cond, thn, els), m, fuel) == EvalExpr(ops, t, m, fuel)
    decreases fuel, If(cond, thn, els), 2
  {
    hide EvalP, EvalExpr, CastPass, Emittable, TypeOf, TypedMem, PType, Promoted, CastTo, BranchP;
    IfShapes(cond, thn, els, t);
    IfTypes(cond, thn, els, t);
    IfIs(ops, cond, thn, els, t, m, fuel);
    MeaningCondition(ops, cond, CastPass(cond).tree, m, fuel);
    var o := EvalExpr(ops, t.cond, m, fuel);
    if o.Done? {
      if els.Some? {
        var j := Join(TypeOf(CastPass(thn).tree).value, TypeOf(CastPass(els.value).tree).value);
        CastToEmittable(j, CastPass(thn).tree);
        if o.value.value == BoolV(true) {
          MeaningBranch(ops, thn, CastPass(thn).tree, j, o.mem, fuel);
        } else {
          MeaningBranch(ops, els.value, CastPass(els.value).tree, j, o.mem, fuel);
        }
      } else if o.value.value == BoolV(true) {
        CastPassPreservesMeaning(ops, thn, t.thn, o.mem, fuel);
        DroppedBranch(ops, EvalExpr(ops, t.thn, o.mem, fuel));
      }
    }
  }

  lemma DroppedBranch(ops: FloatOps, o: Outcome)
    ensures BranchP(ops, Some(Void), o) == BranchValue(false, o)
  {
  }

  // ----- while and sequences -----

  lemma WhilePasses(cond: Expr, body: Expr, t: Expr)
    requires CastPass(While(cond, body)) == Passed(t, 0)
    ensures CastPass(cond).Passed? && CastPass(cond).errors == 0 && CastPass(body).Passed?
        && CastPass(body).errors == 0 && t.While? && t.body == CastPass(body).tree
    ensures t.cond == CastPass(cond).tree || t.cond == Implicitly(Bool, CastPass(cond).tree)
  {
    hide TypeOf, CastAll, CastIf, CastOperands;
  }

  lemma ImplicitEmittable(t: Prim, e: Expr)
    requires Emittable(Implicitly(t, e))
    ensures TypeOf(e).Some? && CastSupported(TypeOf(e).value, t)
  {
  }

  /** The loop condition is a bool by itself, or was made one: a cast of what is a bool already
      is something the emitter refuses. */
  lemma WhileShape(cond: Expr, body: Expr, t: Expr)
    requires Elaborated(While(cond, body), t)
    ensures CastPass(cond).Passed? && CastPass(cond).errors == 0 && t.While? && Elaborated(body, t.body)
    ensures TypeOf(CastPass(cond).tree).Some? && t.cond == CastTo(Bool, CastPass(cond).tree) && Emittable(t.cond)
  {
    hide CastPass;
    WhilePasses(cond, body, t);
    if t.cond == Implicitly(Bool, CastPass(cond).tree) {
      ImplicitEmittable(Bool, CastPass(cond).tree);
    }
  }

  lemma {:induction false} MeaningWhile(ops: FloatOps, cond: Expr, body: Expr, t: Expr, m: Mem, fuel: nat)
    requires Elaborated(While(cond, body), t) && TypedMem(m)
    ensures EvalP(ops, While(cond, body), m, fuel) == EvalExpr(ops, t, m, fuel)
    decreases fuel, While(cond, body), 2
  {
    hide CastPass, Emittable, TypeOf, TypedMem, CastTo, EvalWhile, EvalPWhile;
    WhileShape(cond, body, t);
    MeaningLoop(ops, cond, body, CastPass(cond).tree, t.body, m, fuel);
  }

  lemma {:induction false} MeaningLoop(ops: FloatOps, cond: Expr, body: Expr, c: Expr, b: Expr, m: Mem, fuel: nat)
    requires CastPass(cond) == Passed(c, 0) && TypeOf(c).Some? && Emittable(CastTo(Bool, c))
        && Elaborated(body, b) && TypedMem(m)
    ensures EvalPWhile(ops, cond, body, m, fuel) == EvalWhile(ops, CastTo(Bool, c), b, m, fuel)
    decreases fuel, While(cond, body), 1
  {
    hide EvalP, EvalExpr, Elaborated, Emittable, CastPass, TypeOf, TypedMem, CastTo, Promoted, EvalWhile, EvalPWhile;
    LoopIs(ops, CastTo(Bool, c), b, m, fuel);
    LoopPIs(ops, cond, body, m, fuel);
    if fuel > 0 {
      MeaningCondition(ops, cond, c, m, fuel);
      var o := EvalExpr(ops, CastTo(Bool, c), m, fuel);
      if o.Done? && o.value.value.b {
        MeaningRound(ops, cond, body, c, b, o.mem, fuel - 1);
      }
    }
  }

  lemma LoopIs(ops: FloatOps, cond: Expr, body: Expr, m: Mem, fuel: nat)
    ensures fuel == 0 ==> EvalWhile(ops, cond, body, m, fuel) == Timeout
    ensures fuel > 0 ==>
      var o := EvalExpr(ops, cond, m, fuel);
      EvalWhile(ops, cond, body, m, fuel)
      == if !HasBool(o) then Propagate(o)
         else if !o.value.value.b then Done(o.mem, None)
         else var o2 := EvalExpr(ops, body, o.mem, fuel - 1); if o2.Done? then EvalWhile(ops, cond, body, o2.mem, fuel - 1) else o2
  {
  }

  lemma LoopPIs(ops: FloatOps, cond: Expr, body: Expr, m: Mem, fuel: nat)
    ensures fuel == 0 ==> EvalPWhile(ops, cond, body, m, fuel) == Timeout
    ensures fuel > 0 ==>
      var o := Promoted(ops, Bool, EvalP(ops, cond, m, fuel));
      EvalPWhile(ops, cond, body, m, fuel)
      == if !o.Done? then o
         else if o.value == Some(BoolV(false)) then Done(o.mem, None)
         else var o2 := EvalP(ops, body, o.mem, fuel - 1); if o2.Done? then EvalPWhile(ops, cond, body, o2.mem, fuel - 1) else o2
  {
  }

  lemma {:induction false} MeaningRound(ops: FloatOps, cond: Expr, body: Expr, c: Expr, b: Expr, m: Mem, fuel: nat)
    requires CastPass(cond) == Passed(c, 0) && TypeOf(c).Some? && Emittable(CastTo(Bool, c))
        && Elaborated(body, b) && TypedMem(m)
    ensures var o := EvalExpr(ops, b, m, fuel);
            EvalP(ops, body, m, fuel) == o && (o.Done? ==> EvalPWhile(ops, cond, body, o.mem, fuel) == EvalWhile(ops, CastTo(Bool, c), b, o.mem, fuel))
    decreases fuel, While(cond, body), 2
  {
    hide EvalP, EvalExpr, Elaborated, Emittable, CastPass, TypeOf, TypedMem, CastTo, EvalWhile, EvalPWhile;
    ElaboratedEmittable(body, b);
    CastPassPreservesMeaning(ops, body, b, m, fuel);
    EvalTyped(ops, b, m, fuel);
    var o := EvalExpr(ops, b, m, fuel);
    if o.Done? {
      TypedAfter(b, o);
      MeaningLoop(ops, cond, body, c, b, o.mem, fuel);
    }
  }

  lemma TypedAfter(e: Expr, o: Outcome)
    requires TypedOutcome(e, o) && o.Done?
    ensures TypedMem(o.mem)
  {
  }

  lemma {:induction false} MeaningCompound(ops: FloatOps, es: seq<Expr>, t: Expr, m: Mem, fuel: nat)
    requires Elaborated(Compound(es), t) && TypedMem(m)
    ensures EvalP(ops, Compound(es), m, fuel) == EvalExpr(ops, t, m, fuel)
    decreases fuel, Compound(es), 2
  {
    CastAllMembers(es);
    MeaningSeq(ops, es, t.es, m, None, fuel);
  }

  lemma {:induction false} MeaningSeq(ops: FloatOps, es: seq<Expr>, ts: seq<Expr>, m: Mem, last: Option<Value>, fuel: nat)
    requires |ts| == |es| && (forall i | 0 <= i < |es| :: Elaborated(es[i], ts[i])) && TypedMem(m)
    ensures EvalPSeq(ops, es, m, last, fuel) == EvalSeq(ops, ts, m, last, fuel)
    decreases fuel, es, 1
  {
    hide EvalP, EvalExpr, Elaborated, TypedMem;
    if es != [] {
      CastPassPreservesMeaning(ops, es[0], ts[0], m, fuel);
      var o := EvalExpr(ops, ts[0], m, fuel);
      if o.Done? {
        ElaboratedEmittable(es[0], ts[0]);
        EvalTyped(ops, ts[0], m, fuel);
        TypedAfter(ts[0], o);
        MeaningSeq(ops, es[1..], ts[1..], o.mem, if o.value.Some? then o.value else last, fuel);
      }
    }
  }

  lemma ElaboratedEmittable(e: Expr, t: Expr)
    requires Elaborated(e, t)
    ensures Emittable(t)
  {
  }
}
