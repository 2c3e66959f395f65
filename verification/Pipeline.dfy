/** The passes and the emitter together: which accepted trees the emitter can handle, and that
    running what comes out is evaluating what went in. */
module Pipeline {
  import opened Common
  import opened Types
  import opened Tree
  import opened Values
  import opened Eval
  import opened Machine
  import opened Emitter
  import opened Typing
  import opened Runs
  import opened Functions
  import opened ModuleCheck
  import opened WellFormed
  import opened Casts
  import opened CastTypes
  import opened CastMeaning
  import opened EmitterBuilder

  predicate IsRelational(op: BinOp) {
    op in {Gt, Lt, Gte, Lte}
  }

  /** A value that the emitter can compute with; a double it can only load and store. */
  predicate Computes(t: Option<Prim>) {
    t != Some(Void) && t != Some(Double)
  }

  /** A value that can be brought to a variable of type `to`. */
  predicate Assignable(t: Option<Prim>, to: Prim) {
    Storable(to) && t != Some(Void) && (t == Some(Double) <==> to == Double)
  }

  /** Two values that the emitter can bring to one type, or two that are none. */
  predicate SameSort(a: Option<Prim>, b: Option<Prim>) {
    (a == Some(Void) <==> b == Some(Void)) && (a == Some(Double) <==> b == Some(Double))
  }

  /** A check on the source tree alone: doubles are only loaded and stored, no operand, condition or
      cast is without a value, no relational operator has bools, and write marks are on exactly the
      targets of assignments. */
  predicate Clean(e: Expr) {
    match e
    case Var(sym, access) => access == Read && Storable(sym.ty)
    case Binary(op, l, r) =>
      && Clean(r)
      && if op == Assign then l.Var? && l.access == Write && Assignable(PType(r), l.sym.ty)
         else Clean(l) && Computes(PType(l)) && Computes(PType(r)) && (IsRelational(op) ==> PType(l) != Some(Bool) && PType(r) != Some(Bool))
    case Cast(_, t, v) => Clean(v) && Computes(PType(v)) && Supported(t)
    case If(cond, thn, els) =>
      && Clean(cond) && Computes(PType(cond)) && Clean(thn)
      && (els.Some? ==> Clean(els.value) && SameSort(PType(thn), PType(els.value)))
    case While(cond, body) => Clean(cond) && Computes(PType(cond)) && Clean(body)
    case Assert(_, cond) => Clean(cond) && Computes(PType(cond))
    case Compound(es) => forall i | 0 <= i < |es| :: Clean(es[i])
    case _ => true
  }

  predicate CleanBody(body: Expr, ret: Prim) {
    Clean(body) && (ret != Void ==> Assignable(PType(body), ret))
  }

  /** Making a condition a bool: possible exactly when its value can be computed with. */
  lemma CastToBoolWhen(t: Expr)
    requires TypeOf(t).Some?
    ensures Emittable(CastTo(Bool, t)) <==> Emittable(t) && Computes(TypeOf(t))
  {
    hide Emittable, TypeOf, CastTo;
    CastToEmittable(Bool, t);
    PrimIs(TypeOf(t).value);
  }

  lemma PrimIs(t: Prim)
    ensures t == Void || t == Bool || t == Int32 || t == Float || t == Double
  {
  }

  lemma OperandsWhen(op: BinOp, l: Expr, r: Expr)
    requires CastOperands(op, l, r).Passed? && CastOperands(op, l, r).errors == 0 && BinaryOk(CastOperands(op, l, r).tree)
    ensures TypeOf(l).Some? && TypeOf(r).Some?
    ensures Emittable(CastOperands(op, l, r).tree)
       <==> Emittable(r)
            && if op == Assign then l.Var? && l.access == Write && Assignable(TypeOf(r), l.sym.ty)
               else Emittable(l) && Computes(TypeOf(l)) && Computes(TypeOf(r))
                    && (IsRelational(op) ==> TypeOf(l) != Some(Bool) && TypeOf(r) != Some(Bool))
  {
    hide Emittable, TypeOf, BinaryOk, CastOperands;
    OperandsShape(op, l, r);
    VarType(l);
    var j := OperandType(op, l, r);
    CastToEmittable(j, l);
    CastToEmittable(j, r);
    BinaryWhen(op, CastTo(j, l), CastTo(j, r));
    PrimIs(TypeOf(l).value);
    PrimIs(TypeOf(r).value);
  }

  lemma VarType(e: Expr)
    ensures e.Var? ==> TypeOf(e) == Some(e.sym.ty)
  {
  }

  lemma BinaryWhen(op: BinOp, l: Expr, r: Expr)
    requires TypeOf(l).Some? && TypeOf(r) == TypeOf(l) && BinaryOk(Binary(op, l, r)) && (IsLogical(op) ==> TypeOf(r) == Some(Bool))
    ensures op == Assign ==> l.Var?
    ensures Emittable(Binary(op, l, r))
       <==> Emittable(r)
            && if op == Assign then l.Var? && l.access == Write && Storable(TypeOf(r).value)
               else Emittable(l) && Supported(TypeOf(r).value) && (IsRelational(op) ==> TypeOf(l) != Some(Bool))
  {
  }

  /** The later passes said nothing of `t`. */
  predicate Checked(t: Expr) {
    BinaryOk(t) && CastsOk(t)
  }

  lemma CastToChecked(to: Prim, c: Expr)
    requires Checked(CastTo(to, c))
    ensures Checked(c)
  {
  }

  lemma BinaryChecked(op: BinOp, l: Expr, r: Expr)
    requires Checked(Binary(op, l, r))
    ensures Checked(l) && Checked(r)
  {
  }

  /** Accepted trees are the ones the emitter can handle exactly when the source is clean. */
  lemma {:induction false} EmittableExactlyWhenClean(e: Expr, t: Expr)
    requires CastPass(e) == Passed(t, 0) && Checked(t)
    ensures Emittable(t) <==> Clean(e)
    decreases e, 1
  {
    match e
    case Binary(op, l, r) => BinaryExactly(op, l, r, t);
    case Cast(_, to, v) =>
      EmittableExactlyWhenClean(v, t.v);
      PassAgrees(v);
    case If(cond, thn, els) => IfExactly(cond, thn, els, t);
    case While(cond, body) => WhileExactly(cond, body, t);
    case Assert(line, cond) =>
      ConditionShape(CastPass(cond).tree);
      CastToChecked(Bool, CastPass(cond).tree);
      EmittableExactlyWhenClean(cond, CastPass(cond).tree);
      PassAgrees(cond);
      CastToBoolWhen(CastPass(cond).tree);
    case Compound(es) =>
      CastAllMembers(es);
      forall i | 0 <= i < |es| ensures Emittable(t.es[i]) <==> Clean(es[i]) {
        EmittableExactlyWhenClean(es[i], t.es[i]);
      }
    case _ =>
  }

  lemma {:induction false} BinaryExactly(op: BinOp, l: Expr, r: Expr, t: Expr)
    requires CastPass(Binary(op, l, r)) == Passed(t, 0) && Checked(t)
    ensures Emittable(t) <==> Clean(Binary(op, l, r))
    decreases Binary(op, l, r), 0
  {
    hide Emittable, CastPass, TypeOf, PType, CastTo, CastOperands, BinaryOk, CastsOk, Agrees;
    BinaryParts(op, l, r, t);
    var tl, tr := CastPass(l).tree, CastPass(r).tree;
    OperandsShape(op, tl, tr);
    var j := OperandType(op, tl, tr);
    BinaryChecked(op, CastTo(j, tl), CastTo(j, tr));
    CastToChecked(j, tl);
    CastToChecked(j, tr);
    EmittableExactlyWhenClean(r, tr);
    EmittableExactlyWhenClean(l, tl);
    VarStays(l);
    PassAgrees(l);
    PassAgrees(r);
    OperandsWhen(op, tl, tr);
  }

  lemma IfChecked(cond: Expr, thn: Expr, els: Option<Expr>)
    requires Checked(If(cond, thn, els))
    ensures Checked(cond) && Checked(thn) && (els.Some? ==> Checked(els.value))
  {
  }

  lemma IfWhen(t: Expr)
    requires t.If? && TypeOf(t.cond) == Some(Bool) && TypeOf(t).Some?
    ensures Emittable(t) <==> Emittable(t.cond) && Emittable(t.thn) && (t.els.Some? ==> Emittable(t.els.value))
  {
  }

  /** Two branches brought to one type. */
  lemma BranchesWhen(a: Expr, b: Expr)
    requires TypeOf(a).Some? && TypeOf(b).Some?
    ensures var j := Join(TypeOf(a).value, TypeOf(b).value);
            Emittable(CastTo(j, a)) && Emittable(CastTo(j, b))
            <==> Emittable(a) && Emittable(b) && SameSort(TypeOf(a), TypeOf(b))
  {
    hide Emittable, TypeOf, CastTo;
    var j := Join(TypeOf(a).value, TypeOf(b).value);
    CastToEmittable(j, a);
    CastToEmittable(j, b);
  }

  lemma {:induction false} IfExactly(cond: Expr, thn: Expr, els: Option<Expr>, t: Expr)
    requires CastPass(If(cond, thn, els)) == Passed(t, 0) && Checked(t)
    ensures Emittable(t) <==> Clean(If(cond, thn, els))
    decreases If(cond, thn, els), 0
  {
    hide Emittable, CastPass, TypeOf, PType, CastTo, Checked, Agrees;
    IfShapes(cond, thn, els, t);
    IfChecked(t.cond, t.thn, t.els);
    PassTypes(If(cond, thn, els), t);
    var c, a := CastPass(cond).tree, CastPass(thn).tree;
    CastToChecked(Bool, c);
    CastToEmittable(Bool, c);
    EmittableExactlyWhenClean(cond, c);
    PassAgrees(cond);
    PassAgrees(thn);
    CastToBoolWhen(c);
    IfWhen(t);
    if els.Some? {
      var b := CastPass(els.value).tree;
      var j := Join(TypeOf(a).value, TypeOf(b).value);
      CastToChecked(j, a);
      CastToChecked(j, b);
      EmittableExactlyWhenClean(thn, a);
      EmittableExactlyWhenClean(els.value, b);
      PassAgrees(els.value);
      BranchesWhen(a, b);
    } else {
      EmittableExactlyWhenClean(thn, a);
    }
  }

  lemma PassTypes(e: Expr, t: Expr)
    requires CastPass(e) == Passed(t, 0) && e.If?
    ensures TypeOf(t).Some?
  {
    hide CastPass;
    PassAgrees(e);
    IfShapes(e.cond, e.thn, e.els, t);
  }

  lemma WhileWhen(t: Expr)
    requires t.While? && Agrees(t) && Checked(t)
    ensures Emittable(t) <==> Emittable(t.cond) && Emittable(t.body)
    ensures Checked(t.cond) && Checked(t.body) && TypeOf(t.cond) == Some(Bool)
  {
  }

  lemma ImplicitChecked(to: Prim, c: Expr)
    requires Checked(Implicitly(to, c))
    ensures CastTo(to, c) == Implicitly(to, c)
  {
  }

  lemma {:induction false} WhileExactly(cond: Expr, body: Expr, t: Expr)
    requires CastPass(While(cond, body)) == Passed(t, 0) && Checked(t)
    ensures Emittable(t) <==> Clean(While(cond, body))
    decreases While(cond, body), 0
  {
    hide Emittable, CastPass, TypeOf, PType, Checked, Agrees;
    WhilePasses(cond, body, t);
    PassAgrees(While(cond, body));
    WhileWhen(t);
    var c := CastPass(cond).tree;
    if t.cond == Implicitly(Bool, c) { ImplicitChecked(Bool, c); }
    assert t.cond == CastTo(Bool, c);
    CastToChecked(Bool, c);
    EmittableExactlyWhenClean(cond, c);
    EmittableExactlyWhenClean(body, t.body);
    PassAgrees(cond);
    TypedCondition(t, c);
    CastToBoolWhen(c);
  }

  lemma TypedCondition(t: Expr, c: Expr)
    requires t.While? && Checked(t.cond) && TypeOf(t.cond).Some? && (t.cond == c || t.cond == Implicitly(Bool, c))
    ensures TypeOf(c).Some?
  {
  }

  // ----- the whole of a function -----

  /** Inserting casts neither opens a block nor hides one. */
  lemma {:induction false} CastKeepsShape(e: Expr)
    requires CastPass(e).Passed? && CastPass(e).errors == 0
    ensures Straight(CastPass(e).tree) <==> Straight(e)
    ensures LogicalOk(CastPass(e).tree) <==> LogicalOk(e)
    decreases e, 1
  {
    match e
    case Binary(op, l, r) => BinaryKeepsShape(op, l, r);
    case Cast(_, _, v) => CastKeepsShape(v);
    case If(cond, thn, els) => IfKeepsShape(cond, thn, els);
    case While(cond, body) =>
      CastKeepsShape(cond);
      CastKeepsShape(body);
    case Assert(_, cond) => CastKeepsShape(cond);
    case Compound(es) =>
      CastAllMembers(es);
      forall i | 0 <= i < |es|
        ensures (Straight(CastPass(es[i]).tree) <==> Straight(es[i])) && (LogicalOk(CastPass(es[i]).tree) <==> LogicalOk(es[i])) {
        CastKeepsShape(es[i]);
      }
    case _ =>
  }

  lemma CastToShape(to: Prim, c: Expr)
    ensures (Straight(CastTo(to, c)) <==> Straight(c)) && (LogicalOk(CastTo(to, c)) <==> LogicalOk(c))
  {
    hide TypeOf;
  }

  lemma {:induction false} BinaryKeepsShape(op: BinOp, l: Expr, r: Expr)
    requires CastPass(Binary(op, l, r)).Passed? && CastPass(Binary(op, l, r)).errors == 0
    ensures Straight(CastPass(Binary(op, l, r)).tree) <==> Straight(Binary(op, l, r))
    ensures LogicalOk(CastPass(Binary(op, l, r)).tree) <==> LogicalOk(Binary(op, l, r))
    decreases Binary(op, l, r), 0
  {
    hide CastPass, TypeOf, CastTo, CastOperands;
    BinaryParts(op, l, r, CastPass(Binary(op, l, r)).tree);
    var tl, tr := CastPass(l).tree, CastPass(r).tree;
    OperandsShape(op, tl, tr);
    CastKeepsShape(l);
    CastKeepsShape(r);
    CastToShape(OperandType(op, tl, tr), tl);
    CastToShape(OperandType(op, tl, tr), tr);
  }

  lemma {:induction false} IfKeepsShape(cond: Expr, thn: Expr, els: Option<Expr>)
    requires CastPass(If(cond, thn, els)).Passed? && CastPass(If(cond, thn, els)).errors == 0
    ensures !Straight(CastPass(If(cond, thn, els)).tree)
    ensures LogicalOk(CastPass(If(cond, thn, els)).tree) <==> LogicalOk(If(cond, thn, els))
    decreases If(cond, thn, els), 0
  {
    hide CastPass, TypeOf, CastTo;
    var t := CastPass(If(cond, thn, els)).tree;
    IfShapes(cond, thn, els, t);
    CastKeepsShape(cond);
    CastKeepsShape(thn);
    CastToShape(Bool, CastPass(cond).tree);
    if els.Some? {
      CastKeepsShape(els.value);
      var j := Join(TypeOf(CastPass(thn).tree).value, TypeOf(CastPass(els.value).tree).value);
      CastToShape(j, CastPass(thn).tree);
      CastToShape(j, CastPass(els.value).tree);
    }
  }

  /** The value of a function: that of its body, promoted to the result type. */
  function EvalBodyP(ops: FloatOps, body: Expr, ret: Prim, m: Mem, fuel: nat): Outcome {
    if ret == Void then EvalP(ops, body, m, fuel) else Promoted(ops, ret, EvalP(ops, body, m, fuel))
  }

  lemma ReturnShape(body: Expr, ret: Prim, t: Expr)
    requires CastFunction(body, ret) == Passed(t, 0)
    ensures CastPass(body).Passed? && CastPass(body).errors == 0
    ensures t == if ret == Void then CastPass(body).tree else CastTo(ret, CastPass(body).tree)
    ensures ret != Void ==> TypeOf(CastPass(body).tree).Some? && Rank(TypeOf(CastPass(body).tree).value) <= Rank(ret)
  {
    hide CastPass, TypeOf;
  }

  /** An accepted body can be emitted exactly when its source is clean. */
  lemma BodyFitsExactlyWhenClean(body: Expr, ret: Prim, t: Expr)
    requires Accepted(body, ret, t)
    ensures BodyFits(t, ret) <==> CleanBody(body, ret)
  {
    hide CastPass, TypeOf, CastTo, Emittable, BinaryOk, CastsOk, Clean, PType, Agrees;
    ReturnShape(body, ret, t);
    var b := CastPass(body).tree;
    PassAgrees(body);
    if ret == Void {
      EmittableExactlyWhenClean(body, b);
    } else {
      CastToChecked(ret, b);
      CastToEmittable(ret, b);
      EmittableExactlyWhenClean(body, b);
    }
  }

  /** Inserting casts moves no mark. */
  lemma {:induction false} CastKeepsMarks(e: Expr)
    requires CastPass(e).Passed? && Marked(e)
    ensures Marked(CastPass(e).tree)
  {
    hide CastPass, TypeOf, CastOperands, CastCondition, FinishIf, CastAll;
    match e
    case Binary(op, l, r) =>
      BinaryPasses(op, l, r);
      CastKeepsMarks(r);
      if op == Assign && l.Var? { VarStays(l); } else { CastKeepsMarks(l); VarStays(l); }
      OperandsMarked(op, CastPass(l).tree, CastPass(r).tree);
    case Cast(kind, t, v) =>
      CastPasses(kind, t, v);
      CastKeepsMarks(v);
    case If(cond, thn, els) =>
      IfPasses(cond, thn, els);
      CastKeepsMarks(cond);
      CastKeepsMarks(thn);
      if els.Some? { CastKeepsMarks(els.value); }
      IfMarked(CastPass(cond).tree, CastPass(thn).tree, if els.Some? then Some(CastPass(els.value).tree) else None);
    case While(cond, body) =>
      LoopPasses(cond, body);
      CastKeepsMarks(cond);
      CastKeepsMarks(body);
    case Assert(line, cond) =>
      AssertPasses(line, cond);
      CastKeepsMarks(cond);
      ConditionMarked(CastPass(cond).tree);
    case Compound(es) =>
      SequencePasses(es);
      CastAllMembers(es);
      forall i | 0 <= i < |es| ensures Marked(CastPass(e).tree.es[i]) {
        CastKeepsMarks(es[i]);
      }
    case _ => LeafPasses(e);
  }

  lemma OperandsMarked(op: BinOp, l: Expr, r: Expr)
    requires CastOperands(op, l, r).Passed? && Marked(Binary(op, l, r))
    ensures Marked(CastOperands(op, l, r).tree)
  {
    hide TypeOf, CanImplicitCast;
  }

  lemma ConditionMarked(c: Expr)
    requires CastCondition(c).Passed? && Marked(c)
    ensures Marked(CastCondition(c).tree)
  {
    hide TypeOf;
  }

  lemma IfMarked(c: Expr, thn: Expr, els: Option<Expr>)
    requires FinishIf(c, thn, els).Passed? && Marked(If(c, thn, els))
    ensures Marked(FinishIf(c, thn, els).tree)
  {
    hide TypeOf, CastCondition, CanImplicitCast;
    ConditionMarked(c);
  }

  /** What the passes hand to the emitter. */
  lemma AcceptedIsReady(body: Expr, ret: Prim, t: Expr)
    requires Accepted(body, ret, t) && Marked(body)
    ensures Agrees(t) && Marked(t) && (ret != Void ==> TypeOf(t) == Some(ret))
  {
    hide CastPass, TypeOf, Agrees, BinaryOk, CastsOk;
    ReturnShape(body, ret, t);
    PassAgrees(body);
    CastKeepsMarks(body);
    if ret != Void { WrappedAgrees(ret, CastPass(body).tree); }
  }

  /** The emitter on a body that the passes have accepted: an assertion fails in it, or LLVM refuses what it is
      handed, exactly when the source is not clean. */
  method EmitAccepted(ghost body: Expr, ret: Prim, t: Expr) returns (ok: bool, code: Builder)
    requires Accepted(body, ret, t) && Marked(body)
    ensures ok <==> CleanBody(body, ret)
    ensures ok ==> code == EmitFunction(t, ret)
  {
    AcceptedIsReady(body, ret, t);
    BodyFitsExactlyWhenClean(body, ret, t);
    var e := new ExprEmitter();
    ok := e.DefineFunction(t, ret);
    code := e.State();
  }

  predicate SourceEnds(ops: FloatOps, body: Expr, ret: Prim, m: Mem, fuel: nat, r: Run) {
    var o := EvalBodyP(ops, body, ret, m, fuel);
    !o.Timeout? && Ending(o, ret) == r
  }

  lemma BodyMeaning(ops: FloatOps, body: Expr, ret: Prim, t: Expr, m: Mem, fuel: nat)
    requires Accepted(body, ret, t) && BodyFits(t, ret) && TypedMem(m)
    ensures EvalBodyP(ops, body, ret, m, fuel) == EvalExpr(ops, t, m, fuel)
  {
    hide CastPass, TypeOf, CastTo, Emittable, BinaryOk, CastsOk, EvalExpr, EvalP, TypedMem, Promoted;
    ReturnShape(body, ret, t);
    var b := CastPass(body).tree;
    if ret == Void {
      CastPassPreservesMeaning(ops, body, b, m, fuel);
    } else {
      CastToEmittable(ret, b);
      MeaningPart(ops, body, b, ret, m, fuel);
    }
  }

  /** From source to running code: an accepted, clean body whose logical operators have plain
      operands passes the module verifier, and calling it ends as evaluating its source does. */
  lemma CompiledCodeMeansSource(ops: FloatOps, body: Expr, ret: Prim, t: Expr, m: Mem, r: Run)
    requires Accepted(body, ret, t) && CleanBody(body, ret) && LogicalOk(body) && TypedMem(m) && !r.At?
    ensures ModuleVerified(t, ret)
    ensures (exists n: nat :: Call(ops, t, ret, m, n) == r) <==> (exists fuel: nat :: SourceEnds(ops, body, ret, m, fuel, r))
  {
    hide SourceEnds, EvalEnds, LogicalOk, TypedMem, Call, Accepted, CleanBody, BodyFits, Verified, EmitFunction;
    BodyFitsExactlyWhenClean(body, ret, t);
    FunctionKeepsShape(body, ret, t);
    VerifiedExactlyWhenLogicalOk(t, ret);
    EmissionPreservesMeaning(ops, t, ret, m, r);
    forall fuel: nat ensures SourceEnds(ops, body, ret, m, fuel, r) <==> EvalEnds(ops, t, ret, m, fuel, r) {
      EndsAlike(ops, body, ret, t, m, fuel, r);
    }
  }

  /** And calling it runs for ever exactly when evaluating its source does. */
  lemma CompiledCodeDiverges(ops: FloatOps, body: Expr, ret: Prim, t: Expr, m: Mem)
    requires Accepted(body, ret, t) && CleanBody(body, ret) && LogicalOk(body) && TypedMem(m)
    ensures (forall n: nat :: Call(ops, t, ret, m, n).At?) <==> (forall fuel: nat :: EvalBodyP(ops, body, ret, m, fuel).Timeout?)
  {
    hide EvalExpr, EvalBodyP, LogicalOk, TypedMem, Call, Accepted, CleanBody, BodyFits;
    BodyFitsExactlyWhenClean(body, ret, t);
    FunctionKeepsShape(body, ret, t);
    EmissionPreservesDivergence(ops, t, ret, m);
    if fuel: nat :| !EvalBodyP(ops, body, ret, m, fuel).Timeout? {
      BodyMeaning(ops, body, ret, t, m, fuel);
      assert !EvalExpr(ops, t, m, fuel).Timeout?;
    } else {
      forall fuel: nat ensures EvalExpr(ops, t, m, fuel).Timeout? {
        BodyMeaning(ops, body, ret, t, m, fuel);
        assert EvalBodyP(ops, body, ret, m, fuel).Timeout?;
      }
    }
  }

  lemma EndsAlike(ops: FloatOps, body: Expr, ret: Prim, t: Expr, m: Mem, fuel: nat, r: Run)
    requires Accepted(body, ret, t) && BodyFits(t, ret) && TypedMem(m)
    ensures SourceEnds(ops, body, ret, m, fuel, r) <==> EvalEnds(ops, t, ret, m, fuel, r)
  {
    hide EvalBodyP, EvalExpr, TypedMem, Accepted, BodyFits;
    BodyMeaning(ops, body, ret, t, m, fuel);
  }

  ghost predicate ModuleVerified(t: Expr, ret: Prim) {
    Verified(EmitFunction(t, ret))
  }

  lemma FunctionKeepsShape(body: Expr, ret: Prim, t: Expr)
    requires Accepted(body, ret, t)
    ensures LogicalOk(t) <==> LogicalOk(body)
  {
    hide CastPass, TypeOf, CastTo, BinaryOk, CastsOk;
    ReturnShape(body, ret, t);
    CastKeepsShape(body);
    CastToShape(ret, CastPass(body).tree);
  }
}
