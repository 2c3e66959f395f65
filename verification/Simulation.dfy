/** Running emitted code is evaluating the tree: the machine, started where emission of an
    expression began, reaches the place where it ended, with the value, memory and outcome of
    the source evaluation. */
module Simulation {
  import opened Common
  import opened Types
  import opened Tree
  import opened Values
  import opened Eval
  import opened Machine
  import opened Emitter
  import opened EmitterFrame
  import opened Typing
  import opened Runs

  lemma {:induction false} Sim(ops: FloatOps, g: Code, s: Builder, e: Expr, c: Config, fuel: nat) returns (n: nat)
    requires Ready(s) && Emittable(e) && LogicalOk(e) && Within(Emit(s, e).st, g) && AtPoint(s, c) && TypedMem(c.mem)
    ensures Simulates(Steps(ops, g, c, n), c, n, fuel, s, Emit(s, e), EvalExpr(ops, e, c.mem, fuel))
    decreases fuel, e, 4
  {
    match e
    case Var(sym, _) =>
      hide Within;
      AppendWithin(s, Load(s.nextReg, Addr(sym)), g);
      StepAppend(ops, g, s, Load(s.nextReg, Addr(sym)), c);
      n := 1;
    case Binary(op, l, r) =>
      if IsLogical(op) { n := SimLogical(ops, g, s, op, l, r, c, fuel); }
      else if op == Assign { n := SimAssign(ops, g, s, l, r, c, fuel); }
      else { n := SimArithmetic(ops, g, s, op, l, r, c, fuel); }
    case Cast(_, t, v) => n := SimCast(ops, g, s, t, v, c, fuel);
    case If(cond, thn, els) => n := SimIf(ops, g, s, cond, thn, els, c, fuel);
    case While(cond, body) => n := SimWhile(ops, g, s, cond, body, c, fuel);
    case Assert(line, cond) => n := SimAssert(ops, g, s, line, cond, c, fuel);
    case Compound(es) => n := SimSeq(ops, g, s, es, None, None, c, fuel);
    case _ => n := 0;
  }

  /** Running the code of a part `e` of a construct whose whole emission is `y`. */
  lemma {:induction false} SimPart(ops: FloatOps, g: Code, s: Builder, e: Expr, y: Emission, c: Config, fuel: nat)
      returns (n: nat)
    requires Ready(s) && Emittable(e) && LogicalOk(e) && Within(Emit(s, e).st, g) && AtPoint(s, c) && TypedMem(c.mem)
    ensures var o, r := EvalExpr(ops, e, c.mem, fuel), Steps(ops, g, c, n);
            if o.Done? then PartDone(r, c, s, e, Emit(s, e), o) else Simulates(r, c, n, fuel, s, y, o)
    decreases fuel, e, 5
  {
    hide Simulates, Within, Keeps, Emit, EvalExpr, Steps, AtPoint, Append, Ready, Emittable, LogicalOk, Straight,
         TypeOf, TypedMem, Agree;
    EmitKeeps(s, e);
    KeepsSize(s, Emit(s, e).st);
    EvalTyped(ops, e, c.mem, fuel);
    n := Sim(ops, g, s, e, c, fuel);
    SimDone(Steps(ops, g, c, n), c, n, fuel, s, Emit(s, e), y, EvalExpr(ops, e, c.mem, fuel));
  }

  // ----- assignment, operators, casts -----

  lemma OperandFacts(op: BinOp, l: Expr, r: Expr)
    requires Emittable(Binary(op, l, r)) && LogicalOk(Binary(op, l, r)) && !IsLogical(op)
    ensures Emittable(r) && LogicalOk(r) && Valued(r)
    ensures if op == Assign then l.Var? else Emittable(l) && LogicalOk(l) && TypeOf(l) == TypeOf(r) && OpcodeFor(TypeOf(r).value, op).Some?
  {
  }

  lemma {:induction false} SimAssign(ops: FloatOps, g: Code, s: Builder, l: Expr, r: Expr, c: Config, fuel: nat)
      returns (n: nat)
    requires Ready(s) && Emittable(Binary(Assign, l, r)) && LogicalOk(Binary(Assign, l, r)) && AtPoint(s, c)
        && TypedMem(c.mem)
    requires Within(EmitAssign(s, l, r).st, g)
    ensures Simulates(Steps(ops, g, c, n), c, n, fuel, s, EmitAssign(s, l, r), EvalAssign(ops, Binary(Assign, l, r), c.mem, fuel))
    decreases fuel, Binary(Assign, l, r), 3
  {
    hide Simulates, Within, Keeps, Emit, EvalExpr, Steps, AtPoint, Append, Ready, Emittable, LogicalOk, Straight,
         TypeOf, TypedMem, Agree;
    OperandFacts(Assign, l, r);
    EmitKeeps(s, r);
    var x := Emit(s, r);
    var i := Store(Get(x.val), Addr(l.sym));
    KeepsSelf(x.st);
    AppendKeeps(x.st, x.st, i);
    KeepsWithin(x.st, Append(x.st, i), g);
    n := SimPart(ops, g, s, r, EmitAssign(s, l, r), c, fuel);
    var o := EvalExpr(ops, r, c.mem, fuel);
    if o.Done? {
      SimAt(Steps(ops, g, c, n), c, n, fuel, s, x, o.mem, o.value);
      SimStore(ops, g, s, x, l.sym, o, c, n, fuel);
      n := n + 1;
    }
  }

  lemma {:induction false} SimArithmetic(ops: FloatOps, g: Code, s: Builder, op: BinOp, l: Expr, r: Expr, c: Config, fuel: nat)
      returns (n: nat)
    requires Ready(s) && Emittable(Binary(op, l, r)) && LogicalOk(Binary(op, l, r)) && AtPoint(s, c) && TypedMem(c.mem)
    requires op != Assign && !IsLogical(op) && Within(EmitArithmetic(s, op, l, r).st, g)
    ensures Simulates(Steps(ops, g, c, n), c, n, fuel, s, EmitArithmetic(s, op, l, r), EvalArithmetic(ops, Binary(op, l, r), c.mem, fuel))
    decreases fuel, Binary(op, l, r), 3
  {
    hide Simulates, Within, Keeps, Emit, EvalExpr, EvalOperator, EmitOperator, Steps, AtPoint, Append, Ready,
         Emittable, LogicalOk, Straight, TypeOf, TypedMem, Agree;
    OperandFacts(op, l, r);
    var x, o := Emit(s, r), EvalExpr(ops, r, c.mem, fuel);
    EmitKeeps(s, r);
    EmitKeeps(x.st, l);
    var y := Emit(x.st, l);
    OperatorWithin(y, TypeOf(r).value, op, Get(x.val), g);
    KeepsWithin(x.st, y.st, g);
    n := SimPart(ops, g, s, r, EmitArithmetic(s, op, l, r), c, fuel);
    if o.Done? {
      var c1 := Steps(ops, g, c, n).c;
      var n2 := SimOperator(ops, g, x.st, op, l, r, Get(x.val), o.value.value, c1, fuel);
      SimTrans(ops, g, c, n, c1, n2, fuel, fuel, s, x.st, EmitArithmetic(s, op, l, r), EvalOperator(ops, Binary(op, l, r), o.mem, o.value.value, fuel));
      n := n + n2;
    }
  }

  lemma OperatorWithin(y: Emission, t: Prim, op: BinOp, vr: Operand, g: Code)
    requires Ready(y.st) && Within(EmitOperator(y, Some(t), op, vr).st, g)
    ensures Within(y.st, g)
  {
    hide Within, Append, Ready, OpcodeFor;
    var code := if OpcodeFor(t, op).Some? then OpcodeFor(t, op).value else AddI;
    AppendWithin(y.st, Op2(y.st.nextReg, code, Get(y.val), vr), g);
  }

  /** From the point where the right operand of an operator has been computed. */
  lemma {:induction false} SimOperator(ops: FloatOps, g: Code, s1: Builder, op: BinOp, l: Expr, r: Expr, vr: Operand, b: Value, c1: Config, fuel: nat)
      returns (n: nat)
    requires Ready(s1) && Emittable(l) && LogicalOk(l) && AtPoint(s1, c1) && TypedMem(c1.mem)
    requires TypeOf(l) == TypeOf(r) && TypeOf(l) == Some(TagOf(b)) && OpcodeFor(TagOf(b), op).Some?
    requires Settled(Some(vr), s1.nextReg) && OperandValue(c1.regs, vr) == Some(b)
    requires Within(Emit(s1, l).st, g) && Within(EmitOperator(Emit(s1, l), TypeOf(r), op, vr).st, g)
    ensures Simulates(Steps(ops, g, c1, n), c1, n, fuel, s1, EmitOperator(Emit(s1, l), TypeOf(r), op, vr),
                      EvalOperator(ops, Binary(op, l, r), c1.mem, b, fuel))
    decreases fuel, Binary(op, l, r), 0
  {
    hide Simulates, Within, Keeps, Emit, EvalExpr, EmitOperator, Steps, AtPoint, Append, Ready, Emittable,
         LogicalOk, Straight, TypeOf, TypedMem, Agree;
    EmitKeeps(s1, l);
    var y := Emit(s1, l);
    n := SimPart(ops, g, s1, l, EmitOperator(y, TypeOf(r), op, vr), c1, fuel);
    var o := EvalExpr(ops, l, c1.mem, fuel);
    if o.Done? {
      SimAt(Steps(ops, g, c1, n), c1, n, fuel, s1, y, o.mem, o.value);
      n := SimOp2(ops, g, s1, y, op, TagOf(b), vr, b, o, c1, n, fuel);
    }
  }

  lemma {:induction false} SimCast(ops: FloatOps, g: Code, s: Builder, t: Prim, v: Expr, c: Config, fuel: nat)
      returns (n: nat)
    requires Ready(s) && Emittable(v) && LogicalOk(v) && AtPoint(s, c) && TypedMem(c.mem)
    requires TypeOf(v).Some? && CastSupported(TypeOf(v).value, t) && Within(EmitCast(Emit(s, v), TypeOf(v), t).st, g)
    ensures Simulates(Steps(ops, g, c, n), c, n, fuel, s, EmitCast(Emit(s, v), TypeOf(v), t), EvalCast(ops, t, EvalExpr(ops, v, c.mem, fuel)))
    decreases fuel, v, 6
  {
    hide Simulates, Within, Keeps, Emit, EvalExpr, Steps, AtPoint, Append, Ready, Emittable, LogicalOk, Straight,
         TypeOf, TypedMem, Agree;
    EmitKeeps(s, v);
    var x := Emit(s, v);
    var from := TypeOf(v).value;
    var i := Conv(x.st.nextReg, ConvFor(from, t), Get(x.val));
    if from != t { AppendWithin(x.st, i, g); }
    n := SimPart(ops, g, s, v, EmitCast(x, Some(from), t), c, fuel);
    var o := EvalExpr(ops, v, c.mem, fuel);
    if o.Done? {
      SimAt(Steps(ops, g, c, n), c, n, fuel, s, x, o.mem, o.value);
      n := SimConv(ops, g, s, x, from, t, o, c, n, fuel);
    }
  }

  // ----- sequences -----

  lemma {:induction false} SimSeq(ops: FloatOps, g: Code, s: Builder, es: seq<Expr>, last: Option<Operand>,
      lastVal: Option<Value>,
                                  c: Config, fuel: nat) returns (n: nat)
    requires Ready(s) && (forall i | 0 <= i < |es| :: Emittable(es[i]) && LogicalOk(es[i]))
    requires Within(EmitSeq(s, es, last).st, g) && AtPoint(s, c) && TypedMem(c.mem)
    requires SameValue(c.regs, last, lastVal) && Settled(last, s.nextReg)
    ensures Simulates(Steps(ops, g, c, n), c, n, fuel, s, EmitSeq(s, es, last), EvalSeq(ops, es, c.mem, lastVal, fuel))
    decreases fuel, es, 1
  {
    if es == [] {
      n := 0;
    } else {
      n := SimCons(ops, g, s, es, last, lastVal, c, fuel);
    }
  }

  /** The first member of a sequence, and the rest. */
  lemma {:induction false} SimCons(ops: FloatOps, g: Code, s: Builder, es: seq<Expr>, last: Option<Operand>,
      lastVal: Option<Value>,
                                   c: Config, fuel: nat) returns (n: nat)
    requires es != [] && Ready(s) && (forall i | 0 <= i < |es| :: Emittable(es[i]) && LogicalOk(es[i]))
    requires Within(EmitSeq(s, es, last).st, g) && AtPoint(s, c) && TypedMem(c.mem)
    requires SameValue(c.regs, last, lastVal) && Settled(last, s.nextReg)
    ensures Simulates(Steps(ops, g, c, n), c, n, fuel, s, EmitSeq(s, es, last), EvalSeq(ops, es, c.mem, lastVal, fuel))
    decreases fuel, es, 0
  {
    hide Simulates, Within, Keeps, Emit, EvalExpr, Steps, AtPoint, Append, Ready, Emittable, LogicalOk, Straight,
         TypeOf, TypedMem, Agree, SameValue;
    EmitKeeps(s, es[0]);
    var x, o := Emit(s, es[0]), EvalExpr(ops, es[0], c.mem, fuel);
    var last1 := if x.val.Some? then x.val else last;
    KeepsSize(s, x.st);
    EmitSeqKeeps(x.st, es[1..], last1);
    KeepsWithin(x.st, EmitSeq(x.st, es[1..], last1).st, g);
    n := SimPart(ops, g, s, es[0], EmitSeq(s, es, last), c, fuel);
    if o.Done? {
      var c1 := Steps(ops, g, c, n).c;
      var val1 := if o.value.Some? then o.value else lastVal;
      AgreeValue(c.regs, c1.regs, s.nextReg, last, lastVal);
      ValueKinds(c1.regs, x.val, o.value);
      var n2 := SimSeq(ops, g, x.st, es[1..], last1, val1, c1, fuel);
      SimTrans(ops, g, c, n, c1, n2, fuel, fuel, s, x.st, EmitSeq(s, es, last), EvalSeq(ops, es[1..], o.mem, val1, fuel));
      n := n + n2;
    }
  }

  // ----- logical operators -----

  lemma {:induction false} StraightStays(s: Builder, e: Expr)
    requires Ready(s) && Emittable(e) && Straight(e)
    ensures Emit(s, e).st.cur == s.cur
    decreases e, 1
  {
    match e
    case Binary(op, l, r) =>
      EmitKeeps(s, r);
      StraightStays(s, r);
      if op != Assign { StraightStays(Emit(s, r).st, l); }
    case Cast(_, _, v) => StraightStays(s, v);
    case Compound(es) => StraightSeqStays(s, es, None);
    case _ =>
  }

  lemma {:induction false} StraightSeqStays(s: Builder, es: seq<Expr>, last: Option<Operand>)
    requires Ready(s) && forall i | 0 <= i < |es| :: Emittable(es[i]) && Straight(es[i])
    ensures EmitSeq(s, es, last).st.cur == s.cur
    decreases es, 0
  {
    if es != [] {
      EmitKeeps(s, es[0]);
      StraightStays(s, es[0]);
      var x := Emit(s, es[0]);
      StraightSeqStays(x.st, es[1..], if x.val.Some? then x.val else last);
    }
  }

  /** How the parts of a logical operator fit together in the finished code. */
  predicate LogicalFits(p: LogicalParts, s: Builder, g: Code) {
    && LogicalLaid(p, s)
    && p.t == LogicalBranch(p.op, Get(p.x.val), p.rBlock, p.endBlock)
    && p.phi == LogicalPhi(p.op, p.s4.nextReg, p.lBlock, Get(p.y.val), p.rBlock)
    && p.lBlock == s.cur == p.x.st.cur && p.y.st.cur == p.rBlock && p.lBlock != p.rBlock
    && s.nextReg <= p.s2.nextReg <= p.s4.nextReg
    && Within(p.x.st, g) && Within(Terminate(p.x.st, p.t), g)
    && Within(p.y.st, g) && Within(Terminate(p.y.st, Br(p.endBlock)), g)
    && Within(Append(p.s4, p.phi), g)
  }

  lemma LogicalBlocks(p: LogicalParts, s: Builder, l: Expr, r: Expr)
    requires Ready(s) && p == LogicalPartsOf(s, p.op, l, r)
    ensures p.s0.cur == s.cur != p.rBlock && !p.t.Open? && p.s2.cur == p.rBlock
  {
  }

  lemma {:induction false} LogicalFit(p: LogicalParts, s: Builder, op: BinOp, l: Expr, r: Expr, g: Code)
    requires Ready(s) && Emittable(l) && Emittable(r) && Straight(l) && Straight(r)
    requires p == LogicalPartsOf(s, op, l, r) && Within(LogicalWhole(p).st, g)
    ensures LogicalFits(p, s, g)
  {
    hide LogicalBranch, Within, Keeps, Emit, Create, Branch, Detached, Append, AppendReg, Ready, Emittable,
         Straight, Terminate, LogicalPhi;
    LogicalBlocks(p, s, l, r);
    LogicalLays(p, s, l, r);
    StraightStays(p.s0, l);
    StraightStays(p.s2, r);
    KeepsSize(p.s0, p.x.st);
    KeepsSize(p.s2, p.y.st);
    AppendWithin(p.s4, p.phi, g);
    KeepsSelf(p.s4);
    BranchWithin(p.y.st, Br(p.endBlock), p.endBlock, p.s4, g);
    BranchWithin(p.x.st, p.t, p.rBlock, p.y.st, g);
  }

  /** Into the end block and through the phi, from the block of either operand. */
  lemma LogicalJoin(ops: FloatOps, g: Code, p: LogicalParts, from: Emission, tm: Term, c: Config, n: nat,
      c1: Config, fuel: nat, s: Builder, s1: Builder, v: Value)
    requires LogicalFits(p, s, g) && Steps(ops, g, c, n) == At(c1) && AtPoint(from.st, c1)
    requires (from == p.x && tm == p.t && v == BoolV(p.op == LOr))
          || (from == p.y && tm == Br(p.endBlock) && OperandValue(c1.regs, Get(p.y.val)) == Some(v))
    requires StepTerm(tm, c1) == Jump(c1, p.endBlock)
    requires Agree(c.regs, c1.regs, s1.nextReg) && s1.nextReg <= p.s2.nextReg
    ensures Simulates(Steps(ops, g, c, n + 2), c, n + 2, fuel, s1, LogicalWhole(p), Done(c1.mem, Some(v)))
  {
    hide Within, Detached, Append, AppendReg, Ready, Terminate, Branch, AtPoint, Steps, StepInstr, StepTerm, Keeps;
    var c2 := Jump(c1, p.endBlock).c;
    var c3 := c2.(pc := c2.pc + 1, regs := c2.regs[p.s4.nextReg := v]);
    OneBranch(ops, g, c, n, from.st, tm, p.endBlock);
    StepPhi(ops, p.phi, c2, if from == p.x then 0 else 1);
    EnterPoint(p.y.st, Br(p.endBlock), p.endBlock, c2);
    OneMore(ops, g, c, n + 1, p.s4, p.phi, c3);
  }

  predicate LeftEnds(p: LogicalParts, s: Builder, c: Config, r: Run, n: nat, fuel: nat, o: Outcome) {
    if !o.Done? then Simulates(r, c, n, fuel, s, LogicalWhole(p), o)
    else
      && HasBool(o) && TypedMem(o.mem)
      && if o.value.value.b == (p.op == LOr) then Simulates(r, c, n, fuel, s, LogicalWhole(p), o)
         else r.At? && AtPoint(p.s2, r.c) && r.c.mem == o.mem && Agree(c.regs, r.c.regs, s.nextReg)
  }

  function OnlyBool(o: Outcome): Outcome {
    if HasBool(o) then o else Propagate(o)
  }

  /** The left operand, and what follows when it decides; otherwise up to the right operand. */
  lemma {:induction false} SimLeft(ops: FloatOps, g: Code, s: Builder, p: LogicalParts, l: Expr, c: Config, fuel: nat)
      returns (n: nat)
    requires LogicalFits(p, s, g) && Emittable(l) && LogicalOk(l) && TypeOf(l) == Some(Bool) && IsLogical(p.op)
    requires p.x == Emit(p.s0, l) && AtPoint(p.s0, c) && TypedMem(c.mem)
    ensures LeftEnds(p, s, c, Steps(ops, g, c, n), n, fuel, EvalExpr(ops, l, c.mem, fuel))
    decreases fuel, l, 6
  {
    hide Simulates, Within, Keeps, Emit, EvalExpr, LogicalWhole, Steps, AtPoint, Append, Ready, Emittable,
         LogicalOk, TypeOf, TypedMem, Agree, Detached, Branch;
    var o := EvalExpr(ops, l, c.mem, fuel);
    assert Valued(l);
    n := SimPart(ops, g, p.s0, l, LogicalWhole(p), c, fuel);
    if !o.Done? {
      SimWeaken(Steps(ops, g, c, n), c, n, fuel, p.s0, s, LogicalWhole(p), o);
    } else {
      var c1 := Steps(ops, g, c, n).c;
      if o.value.value.b == (p.op == LOr) {
        LogicalJoin(ops, g, p, p.x, p.t, c, n, c1, fuel, s, s, o.value.value);
        n := n + 2;
      } else {
        OneBranch(ops, g, c, n, p.x.st, p.t, p.rBlock);
        EnterPoint(p.x.st, p.t, p.rBlock, Jump(c1, p.rBlock).c);
        n := n + 1;
      }
    }
  }

  /** From the block of the right operand. */
  lemma {:induction false} SimRight(ops: FloatOps, g: Code, s: Builder, p: LogicalParts, r: Expr, c: Config, fuel: nat)
      returns (n: nat)
    requires LogicalFits(p, s, g) && Emittable(r) && LogicalOk(r) && TypeOf(r) == Some(Bool)
    requires p.y == Emit(p.s2, r) && AtPoint(p.s2, c) && TypedMem(c.mem)
    ensures Simulates(Steps(ops, g, c, n), c, n, fuel, s, LogicalWhole(p), OnlyBool(EvalExpr(ops, r, c.mem, fuel)))
    decreases fuel, r, 6
  {
    hide Simulates, Within, Keeps, Emit, EvalExpr, LogicalWhole, Steps, AtPoint, Append, Ready, Emittable,
         LogicalOk, TypeOf, TypedMem, Agree, Detached, Branch;
    var o := EvalExpr(ops, r, c.mem, fuel);
    assert Valued(r);
    n := SimPart(ops, g, p.s2, r, LogicalWhole(p), c, fuel);
    if o.Done? {
      LogicalJoin(ops, g, p, p.y, Br(p.endBlock), c, n, Steps(ops, g, c, n).c, fuel, s, p.s2, o.value.value);
      n := n + 2;
    }
    SimWeaken(Steps(ops, g, c, n), c, n, fuel, p.s2, s, LogicalWhole(p), OnlyBool(o));
  }

  /** The facts about `&&` and `||` that the simulation uses, from the definitions. */
  lemma LogicalFacts(ops: FloatOps, s: Builder, op: BinOp, l: Expr, r: Expr, p: LogicalParts, c: Config, fuel: nat)
    requires Ready(s) && Emittable(Binary(op, l, r)) && LogicalOk(Binary(op, l, r)) && AtPoint(s, c) && IsLogical(op)
    requires p == LogicalPartsOf(s, op, l, r)
    ensures Emittable(l) && Emittable(r) && LogicalOk(l) && LogicalOk(r) && Straight(l) && Straight(r)
        && TypeOf(l) == Some(Bool) == TypeOf(r)
    ensures EmitLogical(s, op, l, r) == LogicalWhole(p) && AtPoint(p.s0, c)
    ensures p.op == op && p.x == Emit(p.s0, l) && p.y == Emit(p.s2, r)
  {
  }

  lemma {:induction false} SimLogical(ops: FloatOps, g: Code, s: Builder, op: BinOp, l: Expr, r: Expr, c: Config, fuel: nat)
      returns (n: nat)
    requires Ready(s) && Emittable(Binary(op, l, r)) && LogicalOk(Binary(op, l, r)) && AtPoint(s, c) && TypedMem(c.mem)
    requires IsLogical(op) && Within(EmitLogical(s, op, l, r).st, g)
    ensures Simulates(Steps(ops, g, c, n), c, n, fuel, s, EmitLogical(s, op, l, r), EvalLogical(ops, Binary(op, l, r), c.mem, fuel))
    decreases fuel, Binary(op, l, r), 3
  {
    hide EmitLogical, LogicalWhole, LogicalPartsOf, LogicalFits, Emit, EvalExpr, Emittable, LogicalOk, Straight,
         TypeOf, Steps, Within, AtPoint, Ready, TypedMem, Simulates, Agree;
    var p, o := LogicalPartsOf(s, op, l, r), EvalExpr(ops, l, c.mem, fuel);
    LogicalFacts(ops, s, op, l, r, p, c, fuel);
    LogicalFit(p, s, op, l, r, g);
    n := SimLeft(ops, g, s, p, l, c, fuel);
    if o.Done? && o.value.value.b != (op == LOr) {
      var c2 := Steps(ops, g, c, n).c;
      var n2 := SimRight(ops, g, s, p, r, c2, fuel);
      SimTrans(ops, g, c, n, c2, n2, fuel, fuel, s, s, LogicalWhole(p), OnlyBool(EvalExpr(ops, r, o.mem, fuel)));
      n := n + n2;
    }
  }

  // ----- if -----

  /** How the parts of an `if` fit together in the finished code. */
  predicate IfFits(p: IfParts, s: Builder, g: Code) {
    && IfLaid(p, s) && p.s0 == Create(p.c.st, 3)
    && p.t == CondBr(Get(p.c.val), p.thenBlock, p.elseBlock)
    && p.phi == Phi(p.s5.nextReg, [(Get(p.x.val), p.x.st.cur), (Get(p.y.val), p.y.st.cur)])
    && p.x.st.cur != p.y.st.cur
    && s.nextReg <= p.s1.nextReg <= p.s3.nextReg <= p.s5.nextReg
    && Within(p.c.st, g) && Within(p.s0, g) && Within(Terminate(p.s0, p.t), g)
    && Within(p.x.st, g) && Within(Terminate(p.x.st, Br(p.endBlock)), g)
    && Within(p.y.st, g) && Within(Terminate(p.y.st, Br(p.endBlock)), g)
    && (p.valued ==> Within(Append(p.s5, p.phi), g))
  }

  lemma {:induction false} IfFit(p: IfParts, s: Builder, cond: Expr, thn: Expr, els: Option<Expr>, g: Code)
    requires Ready(s) && Emittable(cond) && Emittable(thn) && (els.Some? ==> Emittable(els.value))
    requires p == IfPartsOf(s, cond, thn, els) && Within(IfWhole(p).st, g)
    ensures IfFits(p, s, g)
  {
    hide Within, Keeps, Emit, Create, Branch, Detached, Append, AppendReg, Ready, Emittable, Terminate, TypeOf, Valued;
    IfLays(p, s, cond, thn, els);
    BranchesDiffer(p.x.st, Br(p.endBlock), p.elseBlock, p.y.st);
    KeepsSize(s, p.c.st);
    KeepsSize(p.s1, p.x.st);
    KeepsSize(p.s3, p.y.st);
    if p.valued { AppendWithin(p.s5, p.phi, g); }
    KeepsSelf(p.s5);
    BranchWithin(p.y.st, Br(p.endBlock), p.endBlock, p.s5, g);
    BranchWithin(p.x.st, Br(p.endBlock), p.elseBlock, p.y.st, g);
    BranchWithin(p.s0, p.t, p.thenBlock, p.x.st, g);
    KeepsWithin(p.c.st, p.s0, g);
  }

  /** Whatever is emitted from a branch to another block ends in another block. */
  lemma BranchesDiffer(s: Builder, t: Term, b: BlockId, u: Builder)
    requires Ready(s) && Detached(s, b) && Keeps(Branch(s, t, b), u)
    ensures u.cur != s.cur
  {
  }

  /** From the end of either branch into the end block, and through the phi if there is one. */
  lemma IfJoin(ops: FloatOps, g: Code, p: IfParts, from: Emission, c: Config, n: nat, c1: Config, fuel: nat, s: Builder, s1: Builder, v: Option<Value>)
      returns (n2: nat)
    requires IfFits(p, s, g) && (from == p.x || from == p.y) && s1.nextReg <= p.s3.nextReg
    requires Steps(ops, g, c, n) == At(c1) && AtPoint(from.st, c1) && Agree(c.regs, c1.regs, s1.nextReg)
    requires p.valued ==> v.Some? && OperandValue(c1.regs, Get(from.val)) == v
    ensures Simulates(Steps(ops, g, c, n2), c, n2, fuel, s1, IfWhole(p), Done(c1.mem, if p.valued then v else None))
  {
    hide Within, Detached, Append, AppendReg, Ready, Terminate, Branch, AtPoint, Steps, StepInstr, Keeps;
    var c2 := Jump(c1, p.endBlock).c;
    OneBranch(ops, g, c, n, from.st, Br(p.endBlock), p.endBlock);
    EnterPoint(p.y.st, Br(p.endBlock), p.endBlock, c2);
    n2 := n + 1;
    if p.valued {
      StepPhi(ops, p.phi, c2, if from == p.x then 0 else 1);
      OneMore(ops, g, c, n2, p.s5, p.phi, c2.(pc := c2.pc + 1, regs := c2.regs[p.s5.nextReg := v.value]));
      n2 := n2 + 1;
    }
  }

  /** After the condition: at the start of the branch it selects. */
  predicate CondEnds(p: IfParts, s: Builder, c: Config, r: Run, n: nat, fuel: nat, o: Outcome) {
    if !o.Done? then Simulates(r, c, n, fuel, s, IfWhole(p), o)
    else
      && HasBool(o) && TypedMem(o.mem) && r.At? && r.c.mem == o.mem && Agree(c.regs, r.c.regs, s.nextReg)
      && AtPoint(if o.value.value.b then p.s1 else p.s3, r.c)
  }

  lemma {:induction false} SimCond(ops: FloatOps, g: Code, s: Builder, p: IfParts, cond: Expr, c: Config, fuel: nat)
      returns (n: nat)
    requires IfFits(p, s, g) && Ready(s) && Emittable(cond) && LogicalOk(cond) && TypeOf(cond) == Some(Bool)
    requires p.c == Emit(s, cond) && AtPoint(s, c) && TypedMem(c.mem)
    ensures CondEnds(p, s, c, Steps(ops, g, c, n), n, fuel, EvalExpr(ops, cond, c.mem, fuel))
    decreases fuel, cond, 6
  {
    hide Simulates, Within, Keeps, Emit, EvalExpr, IfWhole, Steps, AtPoint, Append, Ready, Emittable, LogicalOk,
         TypeOf, TypedMem, Agree, Detached, Branch;
    var o := EvalExpr(ops, cond, c.mem, fuel);
    assert Valued(cond);
    n := SimPart(ops, g, s, cond, IfWhole(p), c, fuel);
    if o.Done? {
      var c1 := Steps(ops, g, c, n).c;
      var b := if o.value.value.b then p.thenBlock else p.elseBlock;
      CreatePoint(p.c.st, 3, c1);
      OneBranch(ops, g, c, n, p.s0, p.t, b);
      if o.value.value.b {
        EnterPoint(p.s0, p.t, p.thenBlock, Jump(c1, b).c);
      } else {
        EnterPoint(p.x.st, Br(p.endBlock), p.elseBlock, Jump(c1, b).c);
      }
      n := n + 1;
    }
  }

  /** From the start of a branch to the end of the whole. */
  lemma {:induction false} SimBranch(ops: FloatOps, g: Code, s: Builder, p: IfParts, s1: Builder, e: Expr, x: Emission, c: Config, fuel: nat)
      returns (n: nat)
    requires IfFits(p, s, g) && Emittable(e) && LogicalOk(e) && (p.valued ==> Valued(e)) && x == Emit(s1, e)
    requires (s1 == p.s1 && x == p.x) || (s1 == p.s3 && x == p.y)
    requires AtPoint(s1, c) && TypedMem(c.mem)
    ensures Simulates(Steps(ops, g, c, n), c, n, fuel, s, IfWhole(p), BranchValue(p.valued, EvalExpr(ops, e, c.mem, fuel)))
    decreases fuel, e, 6
  {
    hide Simulates, Within, Keeps, Emit, EvalExpr, IfWhole, Steps, AtPoint, Append, Ready, Emittable, LogicalOk,
         TypeOf, TypedMem, Agree, Detached, Branch;
    var o := EvalExpr(ops, e, c.mem, fuel);
    n := SimPart(ops, g, s1, e, IfWhole(p), c, fuel);
    if o.Done? {
      n := IfJoin(ops, g, p, x, c, n, Steps(ops, g, c, n).c, fuel, s, s1, o.value);
    }
    SimWeaken(Steps(ops, g, c, n), c, n, fuel, s1, s, IfWhole(p), BranchValue(p.valued, o));
  }

  function BranchValue(valued: bool, o: Outcome): Outcome {
    if o.Done? && !valued then Done(o.mem, None) else o
  }

  lemma IfFacts(ops: FloatOps, s: Builder, cond: Expr, thn: Expr, els: Option<Expr>, p: IfParts)
    requires Emittable(If(cond, thn, els)) && LogicalOk(If(cond, thn, els)) && p == IfPartsOf(s, cond, thn, els)
    ensures Emittable(cond) && LogicalOk(cond) && TypeOf(cond) == Some(Bool) && Emittable(thn) && LogicalOk(thn)
    ensures els.Some? ==> Emittable(els.value) && LogicalOk(els.value)
    ensures p.valued == Valued(If(cond, thn, els)) && (p.valued ==> els.Some? && Valued(thn) && Valued(els.value))
    ensures EmitIf(s, cond, thn, els) == IfWhole(p)
    ensures p.c == Emit(s, cond) && p.x == Emit(p.s1, thn) && p.y == if els.Some? then Emit(p.s3, els.value) else Emission(p.s3, None)
  {
  }

  lemma {:induction false} SimIf(ops: FloatOps, g: Code, s: Builder, cond: Expr, thn: Expr, els: Option<Expr>, c: Config, fuel: nat)
      returns (n: nat)
    requires Ready(s) && Emittable(If(cond, thn, els)) && LogicalOk(If(cond, thn, els)) && AtPoint(s, c) && TypedMem(c.mem)
    requires Within(EmitIf(s, cond, thn, els).st, g)
    ensures Simulates(Steps(ops, g, c, n), c, n, fuel, s, EmitIf(s, cond, thn, els), EvalIf(ops, If(cond, thn, els), c.mem, fuel))
    decreases fuel, If(cond, thn, els), 3
  {
    hide EmitIf, IfWhole, IfPartsOf, IfFits, Emit, EvalExpr, Emittable, LogicalOk, TypeOf, Valued, Steps, Within,
         AtPoint, Ready, TypedMem, Simulates, Agree;
    var p, o := IfPartsOf(s, cond, thn, els), EvalExpr(ops, cond, c.mem, fuel);
    IfFacts(ops, s, cond, thn, els, p);
    IfFit(p, s, cond, thn, els, g);
    n := SimCond(ops, g, s, p, cond, c, fuel);
    if o.Done? {
      var c1 := Steps(ops, g, c, n).c;
      var n1 := SimTaken(ops, g, s, p, o.value.value.b, cond, thn, els, c1, fuel);
      SimTrans(ops, g, c, n, c1, n1, fuel, fuel, s, s, IfWhole(p), EvalIf(ops, If(cond, thn, els), c.mem, fuel));
      n := n + n1;
    }
  }

  /** The branch the condition selected; a missing `else` goes straight to the end block. */
  lemma {:induction false} SimTaken(ops: FloatOps, g: Code, s: Builder, p: IfParts, b: bool, cond: Expr, thn: Expr, els: Option<Expr>, c: Config, fuel: nat)
      returns (n: nat)
    requires IfFits(p, s, g) && Emittable(thn) && LogicalOk(thn) && (els.Some? ==> Emittable(els.value) && LogicalOk(els.value))
    requires p.valued ==> els.Some? && Valued(thn) && Valued(els.value)
    requires p.x == Emit(p.s1, thn) && p.y == if els.Some? then Emit(p.s3, els.value) else Emission(p.s3, None)
    requires AtPoint(if b then p.s1 else p.s3, c) && TypedMem(c.mem)
    ensures Simulates(Steps(ops, g, c, n), c, n, fuel, s, IfWhole(p),
                      if b then BranchValue(p.valued, EvalExpr(ops, thn, c.mem, fuel))
                      else if els.Some? then BranchValue(p.valued, EvalExpr(ops, els.value, c.mem, fuel))
                      else Done(c.mem, None))
    decreases fuel, If(cond, thn, els), 0
  {
    hide Simulates, Within, Keeps, Emit, EvalExpr, IfWhole, AtPoint, Append, Ready, Emittable, LogicalOk, TypeOf,
         Valued, TypedMem, Detached, Branch;
    if b {
      n := SimBranch(ops, g, s, p, p.s1, thn, p.x, c, fuel);
    } else if els.Some? {
      n := SimBranch(ops, g, s, p, p.s3, els.value, p.y, c, fuel);
    } else {
      n := IfJoin(ops, g, p, p.y, c, 0, c, fuel, s, p.s3, None);
      SimWeaken(Steps(ops, g, c, n), c, n, fuel, p.s3, s, IfWhole(p), Done(c.mem, None));
    }
  }

  // ----- while -----

  /** How the parts of a `while` fit together in the finished code. */
  predicate WhileFits(p: WhileParts, s: Builder, g: Code) {
    && WhileLaid(p, s) && p.s0 == Create(s, 3)
    && p.t == CondBr(Get(p.c.val), p.bodyBlock, p.endBlock)
    && p.s1.nextReg <= p.s3.nextReg <= p.s5.nextReg
    && Within(Terminate(p.s0, Br(p.condBlock)), g)
    && Within(p.c.st, g) && Within(Terminate(p.c.st, p.t), g)
    && Within(p.x.st, g) && Within(Terminate(p.x.st, Br(p.condBlock)), g)
  }

  lemma {:induction false} WhileFit(p: WhileParts, s: Builder, cond: Expr, body: Expr, g: Code)
    requires Ready(s) && Emittable(cond) && Emittable(body)
    requires p == WhilePartsOf(s, cond, body) && Within(p.s5, g)
    ensures WhileFits(p, s, g)
  {
    hide Within, Keeps, Emit, Create, Branch, Detached, Append, AppendReg, Ready, Emittable, Terminate;
    WhileLays(p, s, cond, body);
    KeepsSize(p.s1, p.c.st);
    KeepsSize(p.s3, p.x.st);
    KeepsSelf(p.s5);
    BranchWithin(p.x.st, Br(p.condBlock), p.endBlock, p.s5, g);
    BranchWithin(p.c.st, p.t, p.bodyBlock, p.x.st, g);
    BranchWithin(p.s0, Br(p.condBlock), p.condBlock, p.c.st, g);
  }

  predicate RoundEnds(p: WhileParts, c: Config, r: Run, n: nat, fuel: nat, o: Outcome) {
    if !o.Done? then Simulates(r, c, n, fuel, p.s1, Emission(p.s5, None), o)
    else
      && HasBool(o) && TypedMem(o.mem)
      && if o.value.value.b then r.At? && AtPoint(p.s3, r.c) && r.c.mem == o.mem && Agree(c.regs, r.c.regs, p.s1.nextReg)
         else Simulates(r, c, n, fuel, p.s1, Emission(p.s5, None), Done(o.mem, None))
  }

  /** The condition of a loop, and out of it when it is false. */
  lemma {:induction false} SimTest(ops: FloatOps, g: Code, s: Builder, p: WhileParts, cond: Expr, c: Config, fuel: nat)
      returns (n: nat)
    requires WhileFits(p, s, g) && Emittable(cond) && LogicalOk(cond) && TypeOf(cond) == Some(Bool)
    requires p.c == Emit(p.s1, cond) && AtPoint(p.s1, c) && TypedMem(c.mem)
    ensures RoundEnds(p, c, Steps(ops, g, c, n), n, fuel, EvalExpr(ops, cond, c.mem, fuel)) && (EvalExpr(ops, cond, c.mem, fuel).Done? ==> n > 0)
    decreases fuel, cond, 6
  {
    hide Simulates, Within, Keeps, Emit, EvalExpr, Steps, AtPoint, Append, Ready, Emittable, LogicalOk, TypeOf,
         TypedMem, Agree, Detached, Branch;
    var o := EvalExpr(ops, cond, c.mem, fuel);
    assert Valued(cond);
    n := SimPart(ops, g, p.s1, cond, Emission(p.s5, None), c, fuel);
    if o.Done? {
      var c1 := Steps(ops, g, c, n).c;
      var b := if o.value.value.b then p.bodyBlock else p.endBlock;
      OneBranch(ops, g, c, n, p.c.st, p.t, b);
      n := n + 1;
      if o.value.value.b {
        EnterPoint(p.c.st, p.t, p.bodyBlock, Jump(c1, b).c);
      } else {
        EnterPoint(p.x.st, Br(p.condBlock), p.endBlock, Jump(c1, b).c);
        SimAt(Steps(ops, g, c, n), c, n, fuel, p.s1, Emission(p.s5, None), o.mem, None);
      }
    }
  }

  predicate BodyEnds(p: WhileParts, c: Config, r: Run, n: nat, fuel: nat, o: Outcome) {
    if !o.Done? then Simulates(r, c, n, fuel, p.s1, Emission(p.s5, None), o)
    else TypedMem(o.mem) && r.At? && AtPoint(p.s1, r.c) && r.c.mem == o.mem && Agree(c.regs, r.c.regs, p.s1.nextReg)
  }

  /** The body of a loop, and back to its condition. */
  lemma {:induction false} SimBody(ops: FloatOps, g: Code, s: Builder, p: WhileParts, body: Expr, c: Config, fuel: nat)
      returns (n: nat)
    requires WhileFits(p, s, g) && Emittable(body) && LogicalOk(body)
    requires p.x == Emit(p.s3, body) && AtPoint(p.s3, c) && TypedMem(c.mem)
    ensures BodyEnds(p, c, Steps(ops, g, c, n), n, fuel, EvalExpr(ops, body, c.mem, fuel))
    decreases fuel, body, 6
  {
    hide Simulates, Within, Keeps, Emit, EvalExpr, Steps, AtPoint, Append, Ready, Emittable, LogicalOk, TypeOf,
         TypedMem, Agree, Detached, Branch;
    n := SimPart(ops, g, p.s3, body, Emission(p.s5, None), c, fuel);
    var o := EvalExpr(ops, body, c.mem, fuel);
    if !o.Done? {
      SimWeaken(Steps(ops, g, c, n), c, n, fuel, p.s3, p.s1, Emission(p.s5, None), o);
    } else {
      AgreeLess(c.regs, Steps(ops, g, c, n).c.regs, p.s3.nextReg, p.s1.nextReg);
      OneBranch(ops, g, c, n, p.x.st, Br(p.condBlock), p.condBlock);
      EnterPoint(p.s0, Br(p.condBlock), p.condBlock, Jump(Steps(ops, g, c, n).c, p.condBlock).c);
      n := n + 1;
    }
  }

  /** The loop, from its condition: every round uses at least one step, so a loop that never
      ends runs for ever. */
  lemma {:induction false} SimLoop(ops: FloatOps, g: Code, s: Builder, p: WhileParts, cond: Expr, body: Expr, c: Config, fuel: nat)
      returns (n: nat)
    requires WhileFits(p, s, g) && Emittable(cond) && LogicalOk(cond) && TypeOf(cond) == Some(Bool)
        && Emittable(body) && LogicalOk(body)
    requires p.c == Emit(p.s1, cond) && p.x == Emit(p.s3, body) && AtPoint(p.s1, c) && TypedMem(c.mem)
    ensures Simulates(Steps(ops, g, c, n), c, n, fuel, p.s1, Emission(p.s5, None), EvalWhile(ops, cond, body, c.mem, fuel))
    decreases fuel, While(cond, body), 1
  {
    hide Simulates, Steps, WhileFits, Within, Keeps, Emit, EvalExpr, AtPoint, Append, Ready, Emittable, LogicalOk,
         TypeOf, TypedMem, Agree, Terminate;
    if fuel == 0 {
      n := 0;
      SimNow(ops, g, c, p.s1, Emission(p.s5, None));
    } else {
      var y := Emission(p.s5, None);
      var o := EvalExpr(ops, cond, c.mem, fuel);
      n := SimTest(ops, g, s, p, cond, c, fuel);
      if o.Done? && o.value.value.b {
        var c1 := Steps(ops, g, c, n).c;
        var o2 := EvalExpr(ops, body, o.mem, fuel - 1);
        var n1 := SimBody(ops, g, s, p, body, c1, fuel - 1);
        if o2.Done? {
          var c2 := Steps(ops, g, c1, n1).c;
          var n2 := SimLoop(ops, g, s, p, cond, body, c2, fuel - 1);
          SimTrans(ops, g, c1, n1, c2, n2, fuel - 1, fuel - 1, p.s1, p.s1, y, EvalWhile(ops, cond, body, o2.mem, fuel - 1));
          n1 := n1 + n2;
        }
        SimTrans(ops, g, c, n, c1, n1, fuel, fuel - 1, p.s1, p.s1, y, EvalWhile(ops, cond, body, c.mem, fuel));
        n := n + n1;
      }
    }
  }

  lemma WhileFacts(s: Builder, cond: Expr, body: Expr, p: WhileParts)
    requires Emittable(While(cond, body)) && LogicalOk(While(cond, body)) && p == WhilePartsOf(s, cond, body)
    ensures Emittable(cond) && LogicalOk(cond) && TypeOf(cond) == Some(Bool) && Emittable(body) && LogicalOk(body)
    ensures EmitWhile(s, cond, body) == Emission(p.s5, None) && p.c == Emit(p.s1, cond) && p.x == Emit(p.s3, body)
  {
  }

  lemma {:induction false} SimWhile(ops: FloatOps, g: Code, s: Builder, cond: Expr, body: Expr, c: Config, fuel: nat)
      returns (n: nat)
    requires Ready(s) && Emittable(While(cond, body)) && LogicalOk(While(cond, body)) && AtPoint(s, c) && TypedMem(c.mem)
    requires Within(EmitWhile(s, cond, body).st, g)
    ensures Simulates(Steps(ops, g, c, n), c, n, fuel, s, EmitWhile(s, cond, body), EvalWhile(ops, cond, body, c.mem, fuel))
    decreases fuel, While(cond, body), 3
  {
    hide EmitWhile, WhilePartsOf, EvalWhile, Branch, Emit, EvalExpr, Emittable, LogicalOk, TypeOf, Steps, Within,
         AtPoint, Ready, TypedMem, Simulates, Keeps, Detached;
    var p := WhilePartsOf(s, cond, body);
    WhileFacts(s, cond, body, p);
    WhileFit(p, s, cond, body, g);
    CreatePoint(s, 3, c);
    var c1 := Jump(c, p.condBlock).c;
    NoSteps(ops, g, c);
    OneBranch(ops, g, c, 0, p.s0, Br(p.condBlock), p.condBlock);
    EnterPoint(p.s0, Br(p.condBlock), p.condBlock, c1);
    n := SimLoop(ops, g, s, p, cond, body, c1, fuel);
    SimTrans(ops, g, c, 1, c1, n, fuel, fuel, s, p.s1, Emission(p.s5, None), EvalWhile(ops, cond, body, c.mem, fuel));
    n := 1 + n;
  }

  // ----- assert -----

  /** The states an assertion's emission passes through. */
  datatype AssertParts = AssertParts(passBlock: BlockId, failBlock: BlockId, endBlock: BlockId, line: nat,
                                     c: Emission, s0: Builder, t: Term, s1: Builder, s2: Builder, s3: Builder, s4: Builder, s5: Builder)

  function AssertPartsOf(c: Emission, line: nat): AssertParts {
    var n := |c.st.blocks|;
    var s0 := Create(c.st, 3);
    var t := CondBr(Get(c.val), n, n + 1);
    var s1 := Branch(s0, t, n);
    var s2 := Append(s1, CallAssertPass);
    var s3 := Branch(s2, Br(n + 2), n + 1);
    var s4 := Append(s3, CallAssertFail(line));
    AssertParts(n, n + 1, n + 2, line, c, s0, t, s1, s2, s3, s4, Branch(s4, Br(n + 2), n + 2))
  }

  predicate AssertFits(p: AssertParts, g: Code) {
    && p.s0 == Create(p.c.st, 3) && p.t == CondBr(Get(p.c.val), p.passBlock, p.failBlock)
    && Ready(p.c.st) && Ready(p.s0) && Detached(p.s0, p.passBlock)
    && p.s1 == Branch(p.s0, p.t, p.passBlock) && Ready(p.s1) && p.s2 == Append(p.s1, CallAssertPass)
    && Ready(p.s2) && Detached(p.s2, p.failBlock)
    && p.s3 == Branch(p.s2, Br(p.endBlock), p.failBlock) && Ready(p.s3) && p.s4 == Append(p.s3, CallAssertFail(p.line))
    && Ready(p.s4) && Detached(p.s4, p.endBlock)
    && p.s5 == Branch(p.s4, Br(p.endBlock), p.endBlock)
    && Within(p.c.st, g) && Within(Terminate(p.s0, p.t), g) && Within(p.s2, g)
    && Within(Terminate(p.s2, Br(p.endBlock)), g) && Within(p.s4, g)
  }

  lemma AssertLays(p: AssertParts, c: Emission, line: nat)
    requires Ready(c.st) && p == AssertPartsOf(c, line)
    ensures Ready(p.s0) && Keeps(c.st, p.s0) && Detached(p.s0, p.passBlock) && Ready(p.s1)
    ensures Ready(p.s2) && Keeps(p.s1, p.s2) && Detached(p.s2, p.failBlock) && Ready(p.s3)
    ensures Ready(p.s4) && Keeps(p.s3, p.s4) && Detached(p.s4, p.endBlock)
  {
    hide Keeps, Branch, Create, Detached, Append, Ready;
    CreateKeeps(c.st, 3);
    BranchReady(p.s0, p.t, p.passBlock);
    BranchDetached(p.s0, p.t, p.passBlock, p.failBlock);
    BranchDetached(p.s0, p.t, p.passBlock, p.endBlock);
    KeepsSelf(p.s1);
    AppendKeeps(p.s1, p.s1, CallAssertPass);
    KeepsDetached(p.s1, p.s2, p.failBlock);
    KeepsDetached(p.s1, p.s2, p.endBlock);
    BranchReady(p.s2, Br(p.endBlock), p.failBlock);
    BranchDetached(p.s2, Br(p.endBlock), p.failBlock, p.endBlock);
    KeepsSelf(p.s3);
    AppendKeeps(p.s3, p.s3, CallAssertFail(line));
    KeepsDetached(p.s3, p.s4, p.endBlock);
  }

  lemma AssertFit(p: AssertParts, c: Emission, line: nat, g: Code)
    requires Ready(c.st) && p == AssertPartsOf(c, line) && Within(p.s5, g)
    ensures AssertFits(p, g)
  {
    hide Within, Keeps, Branch, Create, Detached, Append, Ready, Terminate;
    AssertLays(p, c, line);
    KeepsSelf(p.s5);
    BranchWithin(p.s4, Br(p.endBlock), p.endBlock, p.s5, g);
    BranchWithin(p.s2, Br(p.endBlock), p.failBlock, p.s4, g);
    BranchWithin(p.s0, p.t, p.passBlock, p.s2, g);
    KeepsWithin(c.st, p.s0, g);
  }

  /** From the end of the condition: through the passing block, or into the failing call. */
  lemma AssertRun(ops: FloatOps, g: Code, s: Builder, p: AssertParts, c: Config, n: nat, c1: Config, fuel: nat, b: bool)
      returns (n2: nat)
    requires AssertFits(p, g) && Steps(ops, g, c, n) == At(c1) && AtPoint(p.c.st, c1) && Agree(c.regs, c1.regs, s.nextReg)
    requires OperandValue(c1.regs, Get(p.c.val)) == Some(BoolV(b))
    ensures Simulates(Steps(ops, g, c, n2), c, n2, fuel, s, Emission(p.s5, None),
                      if b then Done(c1.mem.(passes := c1.mem.passes + 1), None) else AssertFailed(p.line, c1.mem))
  {
    hide Within, Detached, Append, Ready, Terminate, Branch, Create, AtPoint, Steps, Agree, OperandValue;
    var to := if b then p.passBlock else p.failBlock;
    CreatePoint(p.c.st, 3, c1);
    OneBranch(ops, g, c, n, p.s0, p.t, to);
    var c2 := Jump(c1, to).c;
    if b {
      EnterPoint(p.s0, p.t, p.passBlock, c2);
      var c3 := c2.(pc := c2.pc + 1, mem := c2.mem.(passes := c2.mem.passes + 1));
      OneMore(ops, g, c, n + 1, p.s1, CallAssertPass, c3);
      OneBranch(ops, g, c, n + 2, p.s2, Br(p.endBlock), p.endBlock);
      EnterPoint(p.s4, Br(p.endBlock), p.endBlock, Jump(c3, p.endBlock).c);
      n2 := n + 3;
    } else {
      EnterPoint(p.s2, Br(p.endBlock), p.failBlock, c2);
      StepAppend(ops, g, p.s3, CallAssertFail(p.line), c2);
      StepsCompose(ops, g, c, n + 1, 1, c2);
      n2 := n + 2;
    }
  }

  lemma AssertFacts(line: nat, cond: Expr, c: Emission)
    requires Emittable(Assert(line, cond)) && LogicalOk(Assert(line, cond))
    ensures Emittable(cond) && LogicalOk(cond) && TypeOf(cond) == Some(Bool)
    ensures EmitAssert(c, line) == Emission(AssertPartsOf(c, line).s5, None)
  {
  }

  lemma {:induction false} SimAssert(ops: FloatOps, g: Code, s: Builder, line: nat, cond: Expr, c: Config, fuel: nat)
      returns (n: nat)
    requires Ready(s) && Emittable(Assert(line, cond)) && LogicalOk(Assert(line, cond)) && AtPoint(s, c) && TypedMem(c.mem)
    requires Within(EmitAssert(Emit(s, cond), line).st, g)
    ensures Simulates(Steps(ops, g, c, n), c, n, fuel, s, EmitAssert(Emit(s, cond), line), EvalAssert(line, EvalExpr(ops, cond, c.mem, fuel)))
    decreases fuel, Assert(line, cond), 3
  {
    hide EmitAssert, AssertPartsOf, Simulates, Within, Keeps, Emit, EvalExpr, Steps, AtPoint, Append, Ready,
         Emittable, LogicalOk, TypeOf, TypedMem, Agree, Detached, Branch;
    var x := Emit(s, cond);
    var p := AssertPartsOf(x, line);
    AssertFacts(line, cond, x);
    EmitKeeps(s, cond);
    AssertFit(p, x, line, g);
    PartLine(x, line);
    n := SimPart(ops, g, s, cond, Emission(p.s5, None), c, fuel);
    var o := EvalExpr(ops, cond, c.mem, fuel);
    if o.Done? {
      assert Valued(cond);
      n := AssertRun(ops, g, s, p, c, n, Steps(ops, g, c, n).c, fuel, o.value.value.b);
    }
  }

  lemma PartLine(c: Emission, line: nat)
    ensures AssertPartsOf(c, line).c == c && AssertPartsOf(c, line).line == line
  {
  }
}
