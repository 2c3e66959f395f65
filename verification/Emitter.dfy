/** What the expression emitter appends to a function under construction, as a function of
    the builder's state.  The imperative emitter in EmitterBuilder.dfy is proved equal to it. */
module Emitter {
  import opened Common
  import opened Types
  import opened Tree
  import opened Values
  import opened Eval
  import opened Machine

  /** The builder's state.  A block is created detached (an entry of `blocks`), later appended
      to the function (its id is added to `order`) and made the insertion point `cur`. */
  datatype Builder = Builder(blocks: Code, order: seq<BlockId>, cur: BlockId, nextReg: RegId)

  /** The insertion block exists and has no terminator yet. */
  predicate Ready(s: Builder) {
    s.cur < |s.blocks| && s.blocks[s.cur].term.Open?
  }

  // ----- builder primitives -----

  const EMPTY_BLOCK := Block([], Open)

  function Create(s: Builder, n: nat): Builder {
    s.(blocks := s.blocks + seq(n, _ => EMPTY_BLOCK))
  }

  function SetCur(s: Builder, b: Block): Builder {
    if s.cur < |s.blocks| then s.(blocks := s.blocks[s.cur := b]) else s
  }

  function Cur(s: Builder): Block {
    if s.cur < |s.blocks| then s.blocks[s.cur] else EMPTY_BLOCK
  }

  function Append(s: Builder, i: Instr): Builder {
    SetCur(s, Cur(s).(instrs := Cur(s).instrs + [i]))
  }

  function AppendReg(s: Builder, i: Instr): Builder {
    Append(s, i).(nextReg := s.nextReg + 1)
  }

  function Terminate(s: Builder, t: Term): Builder {
    SetCur(s, Cur(s).(term := t))
  }

  /** Append block `b` to the function and move the insertion point to it. */
  function Enter(s: Builder, b: BlockId): Builder {
    s.(order := s.order + [b], cur := b)
  }

  /** End the insertion block with `t` and go on in block `b`. */
  function Branch(s: Builder, t: Term, b: BlockId): Builder {
    Enter(Terminate(s, t), b)
  }

  // ----- what the emitter asserts of its input -----

  predicate Supported(t: Prim) {
    t in {Bool, Int32, Float}
  }

  /** The types variables can have. */
  predicate Storable(t: Prim) {
    t != Void
  }

  /** The instruction for an operator on operands of type `t`, if there is one. */
  function OpcodeFor(t: Prim, op: BinOp): Option<Opcode> {
    match t
    case Bool =>
      (match op
       case Eq => Some(ICmpEQ)
       case NotEq => Some(ICmpNE)
       case _ => None)
    case Int32 =>
      (match op
       case Eq => Some(ICmpEQ)
       case NotEq => Some(ICmpNE)
       case Add => Some(AddI)
       case Sub => Some(SubI)
       case Mul => Some(MulI)
       case Div => Some(SDiv)
       case Gt => Some(ICmpSGT)
       case Gte => Some(ICmpSGE)
       case Lt => Some(ICmpSLT)
       case Lte => Some(ICmpSLE)
       case _ => None)
    case Float =>
      (match op
       case Eq => Some(FCmpOEQ)
       case NotEq => Some(FCmpONE)
       case Add => Some(FAdd)
       case Sub => Some(FSub)
       case Mul => Some(FMul)
       case Div => Some(FDiv)
       case Gt => Some(FCmpOGT)
       case Gte => Some(FCmpOGE)
       case Lt => Some(FCmpOLT)
       case Lte => Some(FCmpOLE)
       case _ => None)
    case _ => None
  }

  function ConvFor(from: Prim, to: Prim): ConvCode {
    if from == Int32 then (if to == Bool then ICmpNEZero else SIToFP)
    else (if to == Bool then FCmpUNEZero else FPToSI)
  }

  /** Is there an emission for a cast between these types? */
  predicate CastSupported(from: Prim, to: Prim) {
    from in {Int32, Float} && Supported(to)
  }

  /** No assertion of the emitter (nor of the builder calls it makes) fails on `e`: operand
      types agree, every switch has a case for them, conditions are bools, and a variable is
      marked for writing exactly when it is the target of an assignment. */
  predicate Emittable(e: Expr) {
    match e
    case LitInt(_) => true
    case LitFloat(_) => true
    case LitBool(_) => true
    case Var(sym, access) => access == Read && Storable(sym.ty)
    case Binary(op, l, r) =>
      && Emittable(r)
      && TypeOf(r).Some? && TypeOf(l) == TypeOf(r)
      && (if op == Assign then l.Var? && l.access == Write && Storable(l.sym.ty)
          else
            && Emittable(l)
            && (if IsLogical(op) then TypeOf(r) == Some(Bool)
                else OpcodeFor(TypeOf(r).value, op).Some?))
    case Cast(_, t, v) => Emittable(v) && TypeOf(v).Some? && CastSupported(TypeOf(v).value, t)
    case If(cond, thn, els) =>
      && Emittable(cond) && TypeOf(cond) == Some(Bool)
      && Emittable(thn)
      && (els.Some? ==> Emittable(els.value) && TypeOf(e).Some?)
    case While(cond, body) => Emittable(cond) && TypeOf(cond) == Some(Bool) && Emittable(body)
    case Assert(_, cond) => Emittable(cond) && TypeOf(cond) == Some(Bool)
    case Compound(es) => forall i | 0 <= i < |es| :: Emittable(es[i])
  }

  /** A variable is marked for writing exactly when it is the target of an assignment. */
  predicate Marked(e: Expr) {
    match e
    case Var(_, access) => access == Read
    case Binary(op, l, r) => Marked(r) && if op == Assign && l.Var? then l.access == Write else Marked(l)
    case Cast(_, _, v) => Marked(v)
    case If(cond, thn, els) => Marked(cond) && Marked(thn) && (els.Some? ==> Marked(els.value))
    case While(cond, body) => Marked(cond) && Marked(body)
    case Assert(_, cond) => Marked(cond)
    case Compound(es) => forall i | 0 <= i < |es| :: Marked(es[i])
    case _ => true
  }

  // ----- emission -----

  /** The state after emission and the value of the expression; `None` is a null value.
      The functions below are total: on trees that are not `Emittable`, where the emitter
      would fail an assertion, what they return has no meaning. */
  datatype Emission = Emission(st: Builder, val: Option<Operand>)

  function Get(o: Option<Operand>): Operand {
    if o.Some? then o.value else Const(BoolV(false))
  }

  /** The register the next instruction will define. */
  function Fresh(s: Builder): Operand {
    Reg(s.nextReg)
  }

  function Emit(s: Builder, e: Expr): Emission
    decreases e, 2
  {
    match e
    case LitInt(n) => Emission(s, Some(Const(IntV(n))))
    case LitFloat(f) => Emission(s, Some(Const(FloatV(f))))
    case LitBool(b) => Emission(s, Some(Const(BoolV(b))))
    case Var(sym, _) => Emission(AppendReg(s, Load(s.nextReg, Addr(sym))), Some(Fresh(s)))
    case Binary(op, l, r) =>
      if IsLogical(op) then EmitLogical(s, op, l, r)
      else if op == Assign then EmitAssign(s, l, r)
      else EmitArithmetic(s, op, l, r)
    case Cast(_, t, v) => EmitCast(Emit(s, v), TypeOf(v), t)
    case If(cond, thn, els) => EmitIf(s, cond, thn, els)
    case While(cond, body) => EmitWhile(s, cond, body)
    case Assert(line, cond) => EmitAssert(Emit(s, cond), line)
    case Compound(es) => EmitSeq(s, es, None)
  }

  /** The target of an assignment is an address and emits nothing. */
  function EmitAssign(s: Builder, l: Expr, r: Expr): Emission
    decreases Binary(Assign, l, r), 1
  {
    var x := Emit(s, r);
    Emission(Append(x.st, Store(Get(x.val), if l.Var? then Addr(l.sym) else Get(None))), x.val)
  }

  /** The right operand is emitted first. */
  function EmitArithmetic(s: Builder, op: BinOp, l: Expr, r: Expr): Emission
    decreases Binary(op, l, r), 1
  {
    var x := Emit(s, r);
    EmitOperator(Emit(x.st, l), TypeOf(r), op, Get(x.val))
  }

  function EmitOperator(x: Emission, t: Option<Prim>, op: BinOp, vr: Operand): Emission {
    var code := if t.Some? && OpcodeFor(t.value, op).Some? then OpcodeFor(t.value, op).value else AddI;
    Emission(AppendReg(x.st, Op2(x.st.nextReg, code, Get(x.val), vr)), Some(Fresh(x.st)))
  }

  function EmitCast(x: Emission, from: Option<Prim>, to: Prim): Emission {
    if from == Some(to) || from.None? then x
    else Emission(AppendReg(x.st, Conv(x.st.nextReg, ConvFor(from.value, to), Get(x.val))), Some(Fresh(x.st)))
  }

  /** The incoming blocks of the phi are fixed before either operand is emitted. */
  function EmitLogical(s: Builder, op: BinOp, l: Expr, r: Expr): Emission
    decreases Binary(op, l, r), 1
  {
    var rBlock, endBlock := |s.blocks|, |s.blocks| + 1;
    var x := Emit(Create(s, 2), l);
    var y := Emit(Branch(x.st, LogicalBranch(op, Get(x.val), rBlock, endBlock), rBlock), r);
    var s4 := Branch(y.st, Br(endBlock), endBlock);
    Emission(AppendReg(s4, LogicalPhi(op, s4.nextReg, s.cur, Get(y.val), rBlock)), Some(Fresh(s4)))
  }

  function LogicalBranch(op: BinOp, v: Operand, rBlock: BlockId, endBlock: BlockId): Term {
    if op == LAnd then CondBr(v, rBlock, endBlock) else CondBr(v, endBlock, rBlock)
  }

  function LogicalPhi(op: BinOp, dst: RegId, lBlock: BlockId, vr: Operand, rBlock: BlockId): Instr {
    Phi(dst, [(Const(BoolV(op == LOr)), lBlock), (vr, rBlock)])
  }

  /** The incoming blocks of the phi are read back after each branch has been emitted. */
  function EmitIf(s: Builder, cond: Expr, thn: Expr, els: Option<Expr>): Emission
    decreases If(cond, thn, els), 1
  {
    var c := Emit(s, cond);
    var thenBlock, elseBlock, endBlock := |c.st.blocks|, |c.st.blocks| + 1, |c.st.blocks| + 2;
    var x := Emit(Branch(Create(c.st, 3), CondBr(Get(c.val), thenBlock, elseBlock), thenBlock), thn);
    var s3 := Branch(x.st, Br(endBlock), elseBlock);
    var y := if els.Some? then Emit(s3, els.value) else Emission(s3, None);
    var s5 := Branch(y.st, Br(endBlock), endBlock);
    if Valued(If(cond, thn, els)) then
      Emission(AppendReg(s5, Phi(s5.nextReg, [(Get(x.val), x.st.cur), (Get(y.val), y.st.cur)])), Some(Fresh(s5)))
    else Emission(s5, None)
  }

  function EmitWhile(s: Builder, cond: Expr, body: Expr): Emission
    decreases While(cond, body), 1
  {
    var condBlock, bodyBlock, endBlock := |s.blocks|, |s.blocks| + 1, |s.blocks| + 2;
    var c := Emit(Branch(Create(s, 3), Br(condBlock), condBlock), cond);
    var x := Emit(Branch(c.st, CondBr(Get(c.val), bodyBlock, endBlock), bodyBlock), body);
    Emission(Branch(x.st, Br(condBlock), endBlock), None)
  }

  function EmitAssert(c: Emission, line: nat): Emission {
    var passBlock, failBlock, endBlock := |c.st.blocks|, |c.st.blocks| + 1, |c.st.blocks| + 2;
    var s1 := Branch(Create(c.st, 3), CondBr(Get(c.val), passBlock, failBlock), passBlock);
    var s2 := Branch(Append(s1, CallAssertPass), Br(endBlock), failBlock);
    Emission(Branch(Append(s2, CallAssertFail(line)), Br(endBlock), endBlock), None)
  }

  /** The value of a sequence is its last non-null value. */
  function EmitSeq(s: Builder, es: seq<Expr>, last: Option<Operand>): Emission
    decreases es, 0
  {
    if es == [] then Emission(s, last)
    else
      var x := Emit(s, es[0]);
      EmitSeq(x.st, es[1..], if x.val.Some? then x.val else last)
  }
}
