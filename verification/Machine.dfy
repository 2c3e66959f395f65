/** The target: basic blocks of LLVM instructions, and a small-step machine that runs them. */
module Machine {
  import opened Common
  import opened Types
  import opened Tree
  import opened Values

  type BlockId = nat
  type RegId = nat

  datatype Opcode =
    | ICmpEQ | ICmpNE | ICmpSGT | ICmpSGE | ICmpSLT | ICmpSLE
    | AddI | SubI | MulI | SDiv
    | FCmpOEQ | FCmpONE | FCmpOGT | FCmpOGE | FCmpOLT | FCmpOLE
    | FAdd | FSub | FMul | FDiv

  /** Conversion instructions; the comparisons with zero are those a cast to bool emits. */
  datatype ConvCode = ICmpNEZero | SIToFP | FCmpUNEZero | FPToSI

  /** `Addr` is the address of a variable, `Reg` the result of an instruction. */
  datatype Operand = Const(v: Value) | Reg(id: RegId) | Addr(sym: Sym)

  datatype Instr =
    | Load(dst: RegId, ptr: Operand)
    | Store(val: Operand, ptr: Operand)
    | Op2(dst: RegId, opcode: Opcode, a: Operand, b: Operand)
    | Conv(dst: RegId, conv: ConvCode, a: Operand)
    | Phi(dst: RegId, incoming: seq<(Operand, BlockId)>)
    | CallAssertPass
    | CallAssertFail(line: nat)

  datatype Term =
    | Open
    | Br(to: BlockId)
    | CondBr(c: Operand, yes: BlockId, no: BlockId)
    | Ret(val: Option<Operand>)

  datatype Block = Block(instrs: seq<Instr>, term: Term)

  type Code = seq<Block>

  function Targets(t: Term): set<BlockId> {
    match t
    case Br(b) => {b}
    case CondBr(_, y, n) => {y, n}
    case _ => {}
  }

  // ----- meaning of single instructions -----

  function OperandValue(regs: map<RegId, Value>, o: Operand): Option<Value> {
    match o
    case Const(v) => Some(v)
    case Reg(id) => if id in regs then Some(regs[id]) else None
    case Addr(_) => None
  }

  function RunOpcode(ops: FloatOps, c: Opcode, a: Value, b: Value): Option<Value> {
    match (a, b)
    case (IntV(x), IntV(y)) =>
      (match c
       case ICmpEQ => Some(BoolV(x == y))
       case ICmpNE => Some(BoolV(x != y))
       case ICmpSGT => Some(BoolV(x > y))
       case ICmpSGE => Some(BoolV(x >= y))
       case ICmpSLT => Some(BoolV(x < y))
       case ICmpSLE => Some(BoolV(x <= y))
       case AddI => Some(IntV(Wrap(x + y)))
       case SubI => Some(IntV(Wrap(x - y)))
       case MulI => Some(IntV(Wrap(x * y)))
       case SDiv => if y == 0 || (x == -0x8000_0000 && y == -1) then None else Some(IntV(Wrap(TruncDiv(x, y))))
       case _ => None)
    case (BoolV(x), BoolV(y)) =>
      (match c
       case ICmpEQ => Some(BoolV(x == y))
       case ICmpNE => Some(BoolV(x != y))
       case _ => None)
    case (FloatV(x), FloatV(y)) =>
      (match c
       case FCmpOEQ => Some(BoolV(ops.eq(x, y)))
       case FCmpONE => Some(BoolV(ops.ne(x, y)))
       case FCmpOGT => Some(BoolV(ops.gt(x, y)))
       case FCmpOGE => Some(BoolV(ops.ge(x, y)))
       case FCmpOLT => Some(BoolV(ops.lt(x, y)))
       case FCmpOLE => Some(BoolV(ops.le(x, y)))
       case FAdd => Some(FloatV(ops.add(x, y)))
       case FSub => Some(FloatV(ops.sub(x, y)))
       case FMul => Some(FloatV(ops.mul(x, y)))
       case FDiv => Some(FloatV(ops.div(x, y)))
       case _ => None)
    case _ => None
  }

  function RunConv(ops: FloatOps, c: ConvCode, a: Value): Option<Value> {
    match (c, a)
    case (ICmpNEZero, IntV(x)) => Some(BoolV(x != 0))
    case (SIToFP, IntV(x)) => Some(FloatV(ops.ofInt(x)))
    case (FCmpUNEZero, FloatV(x)) => Some(BoolV(ops.nonZero(x)))
    case (FPToSI, FloatV(x)) => (match ops.toInt(x) case Some(n) => Some(IntV(n)) case None => None)
    case _ => None
  }

  /** The operand a phi selects: the first entry for the block control came from. */
  function PhiOperand(incoming: seq<(Operand, BlockId)>, from: BlockId): Option<Operand> {
    if incoming == [] then None
    else if incoming[0].1 == from then Some(incoming[0].0)
    else PhiOperand(incoming[1..], from)
  }

  // ----- the machine -----

  /** Control is before instruction `pc` of block `blk`, which was entered from `prev`. */
  datatype Config = Config(blk: BlockId, pc: nat, prev: BlockId, regs: map<RegId, Value>, mem: Mem)

  datatype Run =
    | At(c: Config)
    | Halted(mem: Mem, value: Option<Value>)
    | Failed(line: nat, mem: Mem)
    | Undefined

  function SetReg(c: Config, dst: RegId, v: Option<Value>): Run {
    if v.Some? then At(c.(pc := c.pc + 1, regs := c.regs[dst := v.value])) else Undefined
  }

  function Jump(c: Config, to: BlockId): Run {
    At(c.(blk := to, pc := 0, prev := c.blk))
  }

  function StepInstr(ops: FloatOps, i: Instr, c: Config): Run {
    match i
    case Load(dst, p) =>
      if p.Addr? && p.sym in c.mem.vars then SetReg(c, dst, Some(c.mem.vars[p.sym])) else Undefined
    case Store(val, p) =>
      var v := OperandValue(c.regs, val);
      if p.Addr? && v.Some? then At(c.(pc := c.pc + 1, mem := c.mem.(vars := c.mem.vars[p.sym := v.value])))
      else Undefined
    case Op2(dst, opc, a, b) =>
      var x, y := OperandValue(c.regs, a), OperandValue(c.regs, b);
      if x.Some? && y.Some? then SetReg(c, dst, RunOpcode(ops, opc, x.value, y.value)) else Undefined
    case Conv(dst, cv, a) =>
      var x := OperandValue(c.regs, a);
      if x.Some? then SetReg(c, dst, RunConv(ops, cv, x.value)) else Undefined
    case Phi(dst, incoming) =>
      var o := PhiOperand(incoming, c.prev);
      if o.Some? then SetReg(c, dst, OperandValue(c.regs, o.value)) else Undefined
    case CallAssertPass => At(c.(pc := c.pc + 1, mem := c.mem.(passes := c.mem.passes + 1)))
    case CallAssertFail(line) => Failed(line, c.mem)
  }

  function StepTerm(t: Term, c: Config): Run {
    match t
    case Open => Undefined
    case Br(to) => Jump(c, to)
    case CondBr(o, y, n) =>
      var v := OperandValue(c.regs, o);
      if v.Some? && v.value.BoolV? then Jump(c, if v.value.b then y else n) else Undefined
    case Ret(None) => Halted(c.mem, None)
    case Ret(Some(o)) =>
      var v := OperandValue(c.regs, o);
      if v.Some? then Halted(c.mem, v) else Undefined
  }

  function Step(ops: FloatOps, g: Code, c: Config): Run {
    if c.blk >= |g| then Undefined
    else if c.pc < |g[c.blk].instrs| then StepInstr(ops, g[c.blk].instrs[c.pc], c)
    else if c.pc == |g[c.blk].instrs| then StepTerm(g[c.blk].term, c)
    else Undefined
  }

  /** `n` steps, or fewer when the run ends before. */
  function Steps(ops: FloatOps, g: Code, c: Config, n: nat): Run
    decreases n
  {
    if n == 0 then At(c)
    else
      match Step(ops, g, c)
      case At(c1) => Steps(ops, g, c1, n - 1)
      case r => r
  }

  lemma {:induction false} StepsCompose(ops: FloatOps, g: Code, c: Config, m: nat, n: nat, c1: Config)
    requires Steps(ops, g, c, m) == At(c1)
    ensures Steps(ops, g, c, m + n) == Steps(ops, g, c1, n)
    decreases m
  {
    if m > 0 {
      StepsCompose(ops, g, Step(ops, g, c).c, m - 1, n, c1);
    }
  }

  /** A run that is still going after `m` steps was still going after fewer. */
  lemma {:induction false} StepsPrefix(ops: FloatOps, g: Code, c: Config, m: nat, n: nat)
    requires m <= n && Steps(ops, g, c, n).At?
    ensures Steps(ops, g, c, m).At?
    decreases m
  {
    if m > 0 {
      StepsPrefix(ops, g, Step(ops, g, c).c, m - 1, n - 1);
    }
  }

  /** A run that has ended gives the same result however many more steps are allowed. */
  lemma {:induction false} StepsFinal(ops: FloatOps, g: Code, c: Config, m: nat, n: nat)
    requires m <= n && !Steps(ops, g, c, m).At?
    ensures Steps(ops, g, c, n) == Steps(ops, g, c, m)
    decreases m
  {
    if m > 0 && Step(ops, g, c).At? {
      StepsFinal(ops, g, Step(ops, g, c).c, m - 1, n - 1);
    }
  }
}
