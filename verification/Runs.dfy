/** How runs of emitted code are put together: what it means for a run to simulate an
    evaluation, and the steps that single instructions and branches take. */
module Runs {
  import opened Common
  import opened Types
  import opened Tree
  import opened Values
  import opened Eval
  import opened Machine
  import opened Emitter
  import opened EmitterFrame
  import opened Typing

  /** Emitting `e` opens no new block. */
  predicate Straight(e: Expr) {
    match e
    case Binary(op, l, r) => !IsLogical(op) && Straight(l) && Straight(r)
    case Cast(_, _, v) => Straight(v)
    case If(_, _, _) => false
    case While(_, _) => false
    case Assert(_, _) => false
    case Compound(es) => forall i | 0 <= i < |es| :: Straight(es[i])
    case _ => true
  }

  /** Every operand of `&&` and `||` in `e` opens no new block. */
  predicate LogicalOk(e: Expr) {
    match e
    case Binary(op, l, r) => LogicalOk(l) && LogicalOk(r) && (IsLogical(op) ==> Straight(l) && Straight(r))
    case Cast(_, _, v) => LogicalOk(v)
    case If(cond, thn, els) => LogicalOk(cond) && LogicalOk(thn) && (els.Some? ==> LogicalOk(els.value))
    case While(cond, body) => LogicalOk(cond) && LogicalOk(body)
    case Assert(_, cond) => LogicalOk(cond)
    case Compound(es) => forall i | 0 <= i < |es| :: LogicalOk(es[i])
    case _ => true
  }

  /** `g` completes the code built so far: finished blocks are the same in `g`, open ones
      are a beginning of theirs. */
  predicate Within(s: Builder, g: Code) {
    && |s.blocks| <= |g|
    && forall b | 0 <= b < |s.blocks| ::
         if s.blocks[b].term.Open? then s.blocks[b].instrs <= g[b].instrs else s.blocks[b] == g[b]
  }

  /** The registers below `n` have not changed. */
  predicate Agree(a: map<RegId, Value>, b: map<RegId, Value>, n: nat) {
    forall r | r in a && r < n :: r in b && a[r] == b[r]
  }

  /** Control is at the builder's insertion point. */
  predicate AtPoint(s: Builder, c: Config) {
    s.cur < |s.blocks| && c.blk == s.cur && c.pc == |s.blocks[s.cur].instrs|
  }

  /** An operand that no later instruction can change agrees with a source value. */
  predicate SameValue(regs: map<RegId, Value>, o: Option<Operand>, v: Option<Value>) {
    o.Some? == v.Some? && (o.Some? ==> OperandValue(regs, o.value) == v)
  }

  /** The run `r` from `c`, of `n` steps, is what the source outcome `o` asks for, when the
      code in between was emitted from `s` with result `x`. */
  predicate Simulates(r: Run, c: Config, n: nat, fuel: nat, s: Builder, x: Emission, o: Outcome) {
    match o
    case Done(m, ov) =>
      r.At? && AtPoint(x.st, r.c) && r.c.mem == m && Agree(c.regs, r.c.regs, s.nextReg) && SameValue(r.c.regs, x.val, ov)
    case AssertFailed(line, m) => r == Failed(line, m)
    case Stuck => r == Undefined
    case Timeout => r.At? && n >= fuel
  }

  // ----- growth of the code -----

  lemma KeepsWithin(s: Builder, t: Builder, g: Code)
    requires Ready(s) && Keeps(s, t) && Within(t, g)
    ensures Within(s, g)
  {
  }

  lemma AppendWithin(s: Builder, i: Instr, g: Code)
    requires Ready(s) && Within(AppendReg(s, i), g)
    ensures Within(Append(s, i), g) && Within(s, g)
  {
    AppendKeeps(s, s, i);
    KeepsWithin(s, Append(s, i), g);
  }

  /** Within carries back over a branch from the insertion block to block `b`. */
  lemma BranchWithin(s: Builder, t: Term, b: BlockId, u: Builder, g: Code)
    requires Ready(s) && Detached(s, b) && !t.Open? && Keeps(Branch(s, t, b), u) && Within(u, g)
    ensures Within(Terminate(s, t), g) && Within(s, g)
  {
    KeepsWithin(Branch(s, t, b), u, g);
    assert Keeps(s, Terminate(s, t));
    KeepsWithin(s, Terminate(s, t), g);
  }

  // ----- single steps -----

  lemma StepAppend(ops: FloatOps, g: Code, s: Builder, i: Instr, c: Config)
    requires Ready(s) && AtPoint(s, c) && Within(Append(s, i), g)
    ensures Steps(ops, g, c, 1) == StepInstr(ops, i, c)
    ensures StepInstr(ops, i, c).At? ==> AtPoint(Append(s, i), StepInstr(ops, i, c).c) && AtPoint(AppendReg(s, i), StepInstr(ops, i, c).c)
  {
    var b := Append(s, i).blocks[s.cur].instrs;
    assert b == s.blocks[s.cur].instrs + [i] && b <= g[c.blk].instrs;
    assert g[c.blk].instrs[c.pc] == b[c.pc];
    assert Steps(ops, g, c, 1) == Step(ops, g, c);
  }

  lemma StepTerminate(ops: FloatOps, g: Code, s: Builder, t: Term, c: Config)
    requires Ready(s) && !t.Open? && AtPoint(s, c) && Within(Terminate(s, t), g)
    ensures Steps(ops, g, c, 1) == StepTerm(t, c)
  {
    assert g[s.cur] == Terminate(s, t).blocks[s.cur];
    assert Steps(ops, g, c, 1) == Step(ops, g, c);
  }

  /** One more instruction after a run that is still going. */
  lemma OneMore(ops: FloatOps, g: Code, c: Config, n: nat, s: Builder, i: Instr, c2: Config)
    requires Steps(ops, g, c, n).At? && Ready(s) && AtPoint(s, Steps(ops, g, c, n).c) && Within(Append(s, i), g)
    requires StepInstr(ops, i, Steps(ops, g, c, n).c) == At(c2)
    ensures Steps(ops, g, c, n + 1) == At(c2) && AtPoint(Append(s, i), c2) && AtPoint(AppendReg(s, i), c2)
  {
    StepAppend(ops, g, s, i, Steps(ops, g, c, n).c);
    StepsCompose(ops, g, c, n, 1, Steps(ops, g, c, n).c);
  }

  /** One more branch after a run that is still going. */
  lemma OneBranch(ops: FloatOps, g: Code, c: Config, n: nat, s: Builder, t: Term, b: BlockId)
    requires Steps(ops, g, c, n).At? && Ready(s) && AtPoint(s, Steps(ops, g, c, n).c) && Within(Terminate(s, t), g)
    requires !t.Open? && StepTerm(t, Steps(ops, g, c, n).c) == Jump(Steps(ops, g, c, n).c, b)
    ensures Steps(ops, g, c, n + 1) == Jump(Steps(ops, g, c, n).c, b) && Steps(ops, g, c, n).c.blk == s.cur
  {
    StepTerminate(ops, g, s, t, Steps(ops, g, c, n).c);
    StepsCompose(ops, g, c, n, 1, Steps(ops, g, c, n).c);
  }

  /** A phi of two entries picks the one for the block control came from. */
  lemma StepPhi(ops: FloatOps, i: Instr, c: Config, k: nat)
    requires i.Phi? && |i.incoming| == 2 && k < 2 && i.incoming[0].1 != i.incoming[1].1 && c.prev == i.incoming[k].1
    ensures StepInstr(ops, i, c)
         == if OperandValue(c.regs, i.incoming[k].0).Some? then SetReg(c, i.dst, OperandValue(c.regs, i.incoming[k].0)) else Undefined
  {
    assert i.incoming[1..][0] == i.incoming[1];
    assert PhiOperand(i.incoming, c.prev) == if k == 0 then Some(i.incoming[0].0) else PhiOperand(i.incoming[1..], c.prev);
  }

  /** The start of a block is the insertion point once the builder goes on there. */
  lemma EnterPoint(s: Builder, t: Term, b: BlockId, c: Config)
    requires Ready(s) && Detached(s, b) && c.blk == b && c.pc == 0
    ensures AtPoint(Branch(s, t, b), c)
  {
  }

  /** What a simulation says of an evaluation that went through, and that one that did not is
      the outcome of the whole. */
  lemma SimDone(r: Run, c: Config, n: nat, fuel: nat, s: Builder, x: Emission, y: Emission, o: Outcome)
    requires Simulates(r, c, n, fuel, s, x, o)
    ensures o.Done? ==> r.At? && AtPoint(x.st, r.c) && r.c.mem == o.mem && Agree(c.regs, r.c.regs, s.nextReg) && SameValue(r.c.regs, x.val, o.value)
    ensures !o.Done? ==> Simulates(r, c, n, fuel, s, y, o)
  {
  }

  /** A simulation can be preceded by a run that keeps the registers it may rely on. */
  lemma SimTrans(ops: FloatOps, g: Code, c: Config, n: nat, c1: Config, n1: nat, fuel: nat, fuel1: nat, s: Builder,
      s1: Builder, x: Emission, o: Outcome)
    requires Steps(ops, g, c, n) == At(c1) && Agree(c.regs, c1.regs, s.nextReg) && s.nextReg <= s1.nextReg
    requires Simulates(Steps(ops, g, c1, n1), c1, n1, fuel1, s1, x, o) && fuel <= fuel1 + n
    ensures Simulates(Steps(ops, g, c, n + n1), c, n + n1, fuel, s, x, o)
  {
    StepsCompose(ops, g, c, n, n1, c1);
  }

  lemma SimAt(r: Run, c: Config, n: nat, fuel: nat, s: Builder, x: Emission, m: Mem, v: Option<Value>)
    requires r.At? && AtPoint(x.st, r.c) && r.c.mem == m && Agree(c.regs, r.c.regs, s.nextReg)
        && SameValue(r.c.regs, x.val, v)
    ensures Simulates(r, c, n, fuel, s, x, Done(m, v))
  {
  }

  /** A simulation promises to keep the registers used so far; it may promise fewer. */
  lemma SimWeaken(r: Run, c: Config, n: nat, fuel: nat, s0: Builder, s: Builder, x: Emission, o: Outcome)
    requires Simulates(r, c, n, fuel, s0, x, o) && s.nextReg <= s0.nextReg
    ensures Simulates(r, c, n, fuel, s, x, o)
  {
  }

  /** What the code of a larger construct may rely on after one of its parts has run. */
  predicate PartDone(r: Run, c: Config, s: Builder, e: Expr, x: Emission, o: Outcome) {
    && o.Done? && r.At?
    && Ready(x.st) && s.nextReg <= x.st.nextReg && Settled(x.val, x.st.nextReg)
    && AtPoint(x.st, r.c) && r.c.mem == o.mem && TypedMem(o.mem)
    && Agree(c.regs, r.c.regs, s.nextReg) && SameValue(r.c.regs, x.val, o.value)
    && (Valued(e) ==> o.value.Some? && TagOf(o.value.value) == TypeOf(e).value)
  }

  lemma SimStore(ops: FloatOps, g: Code, s: Builder, x: Emission, sym: Sym, o: Outcome, c: Config, n: nat, fuel: nat)
    requires Simulates(Steps(ops, g, c, n), c, n, fuel, s, x, o) && HasValue(o)
    requires Ready(x.st) && Within(Append(x.st, Store(Get(x.val), Addr(sym))), g)
    ensures Simulates(Steps(ops, g, c, n + 1), c, n + 1, fuel, s, Emission(Append(x.st, Store(Get(x.val), Addr(sym))), x.val),
                      Done(o.mem.(vars := o.mem.vars[sym := o.value.value]), o.value))
  {
    hide Within, AtPoint, Append, Ready, Steps;
    var c1 := Steps(ops, g, c, n).c;
    var c2 := c1.(pc := c1.pc + 1, mem := o.mem.(vars := o.mem.vars[sym := o.value.value]));
    OneMore(ops, g, c, n, x.st, Store(Get(x.val), Addr(sym)), c2);
  }

  lemma SimOp2(ops: FloatOps, g: Code, s1: Builder, y: Emission, op: BinOp, t: Prim, vr: Operand, b: Value, o: Outcome, c1: Config, n: nat, fuel: nat)
      returns (n2: nat)
    requires Ready(y.st) && s1.nextReg <= y.st.nextReg && Settled(Some(vr), s1.nextReg) && y.val.Some?
    requires Simulates(Steps(ops, g, c1, n), c1, n, fuel, s1, y, o)
    requires OpcodeFor(t, op).Some? && OperandValue(c1.regs, vr) == Some(b) && TagOf(b) == t && HasValue(o)
        && TagOf(o.value.value) == t
    requires Within(EmitOperator(y, Some(t), op, vr).st, g)
    ensures Simulates(Steps(ops, g, c1, n2), c1, n2, fuel, s1, EmitOperator(y, Some(t), op, vr), Yield(o.mem, Apply(ops, op, o.value.value, b)))
  {
    var i := Op2(y.st.nextReg, OpcodeFor(t, op).value, Get(y.val), vr);
    OpcodeMeaning(ops, t, op, o.value.value, b);
    hide Within, AtPoint, Append, Ready, RunOpcode, Apply, Steps, OpcodeFor;
    AppendWithin(y.st, i, g);
    n2 := SimReg(ops, g, s1, y, i, o.mem, Apply(ops, op, o.value.value, b), c1, n, fuel);
  }

  lemma SimConv(ops: FloatOps, g: Code, s: Builder, x: Emission, from: Prim, t: Prim, o: Outcome, c: Config, n: nat, fuel: nat)
      returns (n2: nat)
    requires Ready(x.st) && s.nextReg <= x.st.nextReg && x.val.Some? && HasValue(o)
        && TagOf(o.value.value) == from && CastSupported(from, t)
    requires Simulates(Steps(ops, g, c, n), c, n, fuel, s, x, o) && Within(EmitCast(x, Some(from), t).st, g)
    ensures Simulates(Steps(ops, g, c, n2), c, n2, fuel, s, EmitCast(x, Some(from), t), EvalCast(ops, t, o))
  {
    if from == t {
      n2 := n;
    } else {
      var i := Conv(x.st.nextReg, ConvFor(from, t), Get(x.val));
      ConvMeaning(ops, from, t, o.value.value);
      hide Within, AtPoint, Append, Ready, RunConv, Convert, Steps, ConvFor;
      AppendWithin(x.st, i, g);
      n2 := SimReg(ops, g, s, x, i, o.mem, Convert(ops, t, o.value.value), c, n, fuel);
    }
  }

  /** An instruction that defines a register ends a simulation with its result. */
  lemma SimReg(ops: FloatOps, g: Code, s1: Builder, y: Emission, i: Instr, m: Mem, v: Option<Value>, c: Config, n: nat, fuel: nat)
      returns (n2: nat)
    requires Ready(y.st) && s1.nextReg <= y.st.nextReg && Within(Append(y.st, i), g)
    requires var r := Steps(ops, g, c, n);
             r.At? && AtPoint(y.st, r.c) && r.c.mem == m && Agree(c.regs, r.c.regs, s1.nextReg)
             && StepInstr(ops, i, r.c) == SetReg(r.c, y.st.nextReg, v)
    ensures Simulates(Steps(ops, g, c, n2), c, n2, fuel, s1, Emission(AppendReg(y.st, i), Some(Fresh(y.st))), Yield(m, v))
  {
    hide Within, AtPoint, Append, Ready, Steps, StepInstr, AppendReg;
    n2 := n + 1;
    var c1 := Steps(ops, g, c, n).c;
    if v.Some? {
      OneMore(ops, g, c, n, y.st, i, c1.(pc := c1.pc + 1, regs := c1.regs[y.st.nextReg := v.value]));
    } else {
      StepAppend(ops, g, y.st, i, c1);
      StepsCompose(ops, g, c, n, 1, c1);
    }
  }

  lemma AgreeValue(a: map<RegId, Value>, b: map<RegId, Value>, n: nat, o: Option<Operand>, v: Option<Value>)
    requires Agree(a, b, n) && Settled(o, n) && SameValue(a, o, v)
    ensures SameValue(b, o, v)
  {
  }

  lemma ValueKinds(regs: map<RegId, Value>, o: Option<Operand>, v: Option<Value>)
    requires SameValue(regs, o, v)
    ensures o.Some? == v.Some?
  {
  }

  lemma NoSteps(ops: FloatOps, g: Code, c: Config)
    ensures Steps(ops, g, c, 0) == At(c)
  {
  }

  /** Creating blocks does not move the insertion point. */
  lemma CreatePoint(s: Builder, n: nat, c: Config)
    requires Ready(s) && AtPoint(s, c)
    ensures AtPoint(Create(s, n), c)
  {
  }

  lemma SimNow(ops: FloatOps, g: Code, c: Config, s: Builder, x: Emission)
    ensures Simulates(Steps(ops, g, c, 0), c, 0, 0, s, x, Timeout)
  {
  }

  lemma AgreeLess(a: map<RegId, Value>, b: map<RegId, Value>, n: nat, k: nat)
    requires Agree(a, b, n) && k <= n
    ensures Agree(a, b, k)
  {
  }
}
