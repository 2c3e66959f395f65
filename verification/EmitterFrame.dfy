/** What every emission keeps: the code already there, and a usable insertion point. */
module EmitterFrame {
  import opened Common
  import opened Types
  import opened Tree
  import opened Values
  import opened Eval
  import opened Machine
  import opened Emitter

  /** Everything but the insertion block is untouched, which itself only grows; new blocks
      are only ever added at the end. */
  predicate Keeps(s: Builder, t: Builder) {
    && |s.blocks| <= |t.blocks|
    && s.nextReg <= t.nextReg
    && (forall b | 0 <= b < |s.blocks| && b != s.cur :: t.blocks[b] == s.blocks[b])
    && Cur(s).instrs <= (if s.cur < |t.blocks| then t.blocks[s.cur].instrs else [])
    && (t.cur == s.cur || |s.blocks| <= t.cur)
  }

  /** An operand that no later instruction can change. */
  predicate Settled(o: Option<Operand>, n: nat) {
    o.Some? && o.value.Reg? ==> o.value.id < n
  }

  /** Created, but neither appended to the function nor filled. */
  predicate Detached(s: Builder, b: BlockId) {
    b < |s.blocks| && b != s.cur && s.blocks[b] == EMPTY_BLOCK
  }

  lemma KeepsSelf(s: Builder)
    ensures Keeps(s, s)
  {
  }

  lemma KeepsTrans(s: Builder, t: Builder, u: Builder)
    requires Ready(s) && Keeps(s, t) && Keeps(t, u)
    ensures Keeps(s, u)
  {
  }

  lemma KeepsDetached(s: Builder, t: Builder, b: BlockId)
    requires Keeps(s, t) && Detached(s, b)
    ensures Detached(t, b)
  {
  }

  lemma CreateKeeps(s: Builder, n: nat)
    requires Ready(s)
    ensures Ready(Create(s, n)) && Keeps(s, Create(s, n)) && |Create(s, n).blocks| == |s.blocks| + n
        && Create(s, n).nextReg == s.nextReg
    ensures forall b | |s.blocks| <= b < |s.blocks| + n :: Detached(Create(s, n), b)
  {
  }

  /** Going on in a block that did not exist when `s` was current. */
  lemma KeepsBranch(s: Builder, t: Builder, tm: Term, b: BlockId)
    requires Ready(s) && Ready(t) && Keeps(s, t) && |s.blocks| <= b && Detached(t, b)
    ensures Ready(Branch(t, tm, b)) && Keeps(s, Branch(t, tm, b)) && Branch(t, tm, b).nextReg == t.nextReg
  {
  }

  lemma BranchReady(t: Builder, tm: Term, b: BlockId)
    requires Ready(t) && Detached(t, b)
    ensures Ready(Branch(t, tm, b)) && Branch(t, tm, b).nextReg == t.nextReg && Branch(t, tm, b).cur == b
  {
  }

  lemma BranchDetached(t: Builder, tm: Term, b: BlockId, b2: BlockId)
    requires Ready(t) && Detached(t, b) && Detached(t, b2) && b != b2
    ensures Detached(Branch(t, tm, b), b2)
  {
  }

  lemma AppendKeeps(s: Builder, t: Builder, i: Instr)
    requires Ready(s) && Ready(t) && Keeps(s, t)
    ensures Ready(Append(t, i)) && Keeps(s, Append(t, i)) && Append(t, i).nextReg == t.nextReg
    ensures Ready(AppendReg(t, i)) && Keeps(s, AppendReg(t, i)) && AppendReg(t, i).nextReg == t.nextReg + 1
  {
  }

  lemma KeepsSize(s: Builder, t: Builder)
    requires Keeps(s, t)
    ensures |s.blocks| <= |t.blocks| && s.nextReg <= t.nextReg
  {
  }

  predicate Emitted(s: Builder, e: Expr, x: Emission) {
    Ready(x.st) && Keeps(s, x.st) && Settled(x.val, x.st.nextReg) && (Valued(e) ==> x.val.Some?)
  }

  lemma {:induction false} EmitKeeps(s: Builder, e: Expr)
    requires Ready(s) && Emittable(e)
    ensures Emitted(s, e, Emit(s, e))
    decreases e, 3
  {
    hide Keeps, AppendReg;
    KeepsSelf(s);
    match e
    case Var(sym, _) => AppendKeeps(s, s, Load(s.nextReg, Addr(sym)));
    case Binary(op, l, r) =>
      if IsLogical(op) { EmitLogicalKeeps(s, op, l, r); }
      else { EmitArithmeticKeeps(s, op, l, r); }
    case Cast(_, t, v) =>
      EmitKeeps(s, v);
      var x := Emit(s, v);
      AppendKeeps(s, x.st, Conv(x.st.nextReg, ConvFor(TypeOf(v).value, t), Get(x.val)));
    case If(cond, thn, els) => EmitIfKeeps(s, cond, thn, els);
    case While(cond, body) => EmitWhileKeeps(s, cond, body);
    case Assert(line, cond) => EmitKeeps(s, cond); EmitAssertKeeps(s, Emit(s, cond), line);
    case Compound(es) => EmitSeqKeeps(s, es, None);
    case _ =>
  }

  lemma {:induction false} EmitStates(s: Builder, e: Expr)
    requires Ready(s) && Emittable(e)
    ensures Ready(Emit(s, e).st) && Keeps(s, Emit(s, e).st)
    decreases e, 4
  {
    EmitKeeps(s, e);
  }

  lemma {:induction false} EmitArithmeticKeeps(s: Builder, op: BinOp, l: Expr, r: Expr)
    requires Ready(s) && Emittable(Binary(op, l, r)) && !IsLogical(op)
    ensures Emitted(s, Binary(op, l, r), Emit(s, Binary(op, l, r)))
    decreases Binary(op, l, r), 2
  {
    hide Keeps, AppendReg;
    EmitKeeps(s, r);
    var x := Emit(s, r);
    if op == Assign {
      AppendKeeps(s, x.st, Store(Get(x.val), Addr(l.sym)));
    } else {
      EmitKeeps(x.st, l);
      var y := Emit(x.st, l);
      KeepsTrans(s, x.st, y.st);
      AppendKeeps(s, y.st, Op2(y.st.nextReg, OpcodeFor(TypeOf(r).value, op).value, Get(y.val), Get(x.val)));
    }
  }

  // ----- the states a construct with blocks of its own passes through -----

  datatype LogicalParts = LogicalParts(op: BinOp, lBlock: BlockId, rBlock: BlockId, endBlock: BlockId,
                                       s0: Builder, x: Emission, t: Term, s2: Builder, y: Emission, s4: Builder, phi: Instr)

  function LogicalPartsOf(s: Builder, op: BinOp, l: Expr, r: Expr): LogicalParts {
    var rBlock, endBlock := |s.blocks|, |s.blocks| + 1;
    var s0 := Create(s, 2);
    var x := Emit(s0, l);
    var t := LogicalBranch(op, Get(x.val), rBlock, endBlock);
    var s2 := Branch(x.st, t, rBlock);
    var y := Emit(s2, r);
    var s4 := Branch(y.st, Br(endBlock), endBlock);
    LogicalParts(op, s.cur, rBlock, endBlock, s0, x, t, s2, y, s4, LogicalPhi(op, s4.nextReg, s.cur, Get(y.val), rBlock))
  }

  function LogicalWhole(p: LogicalParts): Emission {
    Emission(AppendReg(p.s4, p.phi), Some(Fresh(p.s4)))
  }

  predicate LogicalLaid(p: LogicalParts, s: Builder) {
    && p.rBlock == |s.blocks| && p.endBlock == |s.blocks| + 1
    && Ready(p.s0) && Keeps(s, p.s0) && p.s0.nextReg == s.nextReg
    && Ready(p.x.st) && Keeps(p.s0, p.x.st) && Detached(p.x.st, p.rBlock) && Detached(p.x.st, p.endBlock)
    && p.s2 == Branch(p.x.st, p.t, p.rBlock) && Ready(p.s2) && p.s2.nextReg == p.x.st.nextReg
    && Ready(p.y.st) && Keeps(p.s2, p.y.st) && Detached(p.y.st, p.endBlock)
    && p.s4 == Branch(p.y.st, Br(p.endBlock), p.endBlock) && Ready(p.s4) && p.s4.nextReg == p.y.st.nextReg
    && Keeps(s, p.s4)
  }

  lemma {:induction false} LogicalLays(p: LogicalParts, s: Builder, l: Expr, r: Expr)
    requires Ready(s) && Emittable(l) && Emittable(r)
    requires p.rBlock == |s.blocks| && p.endBlock == |s.blocks| + 1
    requires p.s0 == Create(s, 2) && p.x == Emit(p.s0, l) && p.s2 == Branch(p.x.st, p.t, p.rBlock)
    requires p.y == Emit(p.s2, r) && p.s4 == Branch(p.y.st, Br(p.endBlock), p.endBlock)
    ensures LogicalLaid(p, s)
    decreases Binary(p.op, l, r), 1
  {
    hide Keeps, Branch, Create, Detached, Ready, Emit, Emittable;
    CreateKeeps(s, 2);
    EmitStates(p.s0, l);
    KeepsTrans(s, p.s0, p.x.st);
    KeepsDetached(p.s0, p.x.st, p.rBlock);
    KeepsDetached(p.s0, p.x.st, p.endBlock);
    KeepsBranch(s, p.x.st, p.t, p.rBlock);
    BranchDetached(p.x.st, p.t, p.rBlock, p.endBlock);
    EmitStates(p.s2, r);
    KeepsTrans(s, p.s2, p.y.st);
    KeepsDetached(p.s2, p.y.st, p.endBlock);
    KeepsBranch(s, p.y.st, Br(p.endBlock), p.endBlock);
  }

  lemma {:induction false} EmitLogicalKeeps(s: Builder, op: BinOp, l: Expr, r: Expr)
    requires Ready(s) && Emittable(Binary(op, l, r)) && IsLogical(op)
    ensures Emitted(s, Binary(op, l, r), EmitLogical(s, op, l, r))
    decreases Binary(op, l, r), 2
  {
    var p := LogicalPartsOf(s, op, l, r);
    assert EmitLogical(s, op, l, r) == LogicalWhole(p);
    hide Keeps, Branch, Create, Detached, AppendReg, Ready, Emit, EmitLogical;
    LogicalLays(p, s, l, r);
    AppendKeeps(s, p.s4, p.phi);
  }

  datatype IfParts = IfParts(thenBlock: BlockId, elseBlock: BlockId, endBlock: BlockId, valued: bool,
                             c: Emission, s0: Builder, t: Term, s1: Builder, x: Emission, s3: Builder, y: Emission, s5: Builder, phi: Instr)

  function IfPartsOf(s: Builder, cond: Expr, thn: Expr, els: Option<Expr>): IfParts {
    var c := Emit(s, cond);
    var n := |c.st.blocks|;
    var s0 := Create(c.st, 3);
    var t := CondBr(Get(c.val), n, n + 1);
    var s1 := Branch(s0, t, n);
    var x := Emit(s1, thn);
    var s3 := Branch(x.st, Br(n + 2), n + 1);
    var y := if els.Some? then Emit(s3, els.value) else Emission(s3, None);
    var s5 := Branch(y.st, Br(n + 2), n + 2);
    IfParts(n, n + 1, n + 2, Valued(If(cond, thn, els)), c, s0, t, s1, x, s3, y, s5,
            Phi(s5.nextReg, [(Get(x.val), x.st.cur), (Get(y.val), y.st.cur)]))
  }

  function IfWhole(p: IfParts): Emission {
    if p.valued then Emission(AppendReg(p.s5, p.phi), Some(Fresh(p.s5))) else Emission(p.s5, None)
  }

  predicate IfLaid(p: IfParts, s: Builder) {
    && p.thenBlock == |p.c.st.blocks| && p.elseBlock == p.thenBlock + 1 && p.endBlock == p.thenBlock + 2
    && |s.blocks| <= p.thenBlock
    && Ready(p.c.st) && Keeps(s, p.c.st)
    && Ready(p.s0) && Keeps(p.c.st, p.s0) && p.s0.nextReg == p.c.st.nextReg
    && Detached(p.s0, p.thenBlock) && Detached(p.s0, p.elseBlock) && Detached(p.s0, p.endBlock)
    && p.s1 == Branch(p.s0, p.t, p.thenBlock) && Ready(p.s1) && p.s1.nextReg == p.s0.nextReg
    && Ready(p.x.st) && Keeps(p.s1, p.x.st) && Detached(p.x.st, p.elseBlock) && Detached(p.x.st, p.endBlock)
    && p.s3 == Branch(p.x.st, Br(p.endBlock), p.elseBlock) && Ready(p.s3) && p.s3.nextReg == p.x.st.nextReg
    && Ready(p.y.st) && Keeps(p.s3, p.y.st) && Detached(p.y.st, p.endBlock)
    && p.s5 == Branch(p.y.st, Br(p.endBlock), p.endBlock) && Ready(p.s5) && p.s5.nextReg == p.y.st.nextReg
    && Keeps(s, p.s5)
  }

  lemma {:induction false} IfLays(p: IfParts, s: Builder, cond: Expr, thn: Expr, els: Option<Expr>)
    requires Ready(s) && Emittable(cond) && Emittable(thn) && (els.Some? ==> Emittable(els.value))
    requires p.c == Emit(s, cond) && p.thenBlock == |p.c.st.blocks| && p.elseBlock == p.thenBlock + 1
        && p.endBlock == p.thenBlock + 2
    requires p.s0 == Create(p.c.st, 3) && p.s1 == Branch(p.s0, p.t, p.thenBlock) && p.x == Emit(p.s1, thn)
    requires p.s3 == Branch(p.x.st, Br(p.endBlock), p.elseBlock)
    requires p.y == (if els.Some? then Emit(p.s3, els.value) else Emission(p.s3, None))
    requires p.s5 == Branch(p.y.st, Br(p.endBlock), p.endBlock)
    ensures IfLaid(p, s)
    decreases If(cond, thn, els), 1
  {
    hide Keeps, Branch, Create, Detached, Ready, Emit, Emittable;
    EmitStates(s, cond);
    CreateKeeps(p.c.st, 3);
    KeepsTrans(s, p.c.st, p.s0);
    KeepsSize(s, p.c.st);
    KeepsBranch(s, p.s0, p.t, p.thenBlock);
    BranchDetached(p.s0, p.t, p.thenBlock, p.elseBlock);
    BranchDetached(p.s0, p.t, p.thenBlock, p.endBlock);
    EmitStates(p.s1, thn);
    KeepsTrans(s, p.s1, p.x.st);
    KeepsDetached(p.s1, p.x.st, p.elseBlock);
    KeepsDetached(p.s1, p.x.st, p.endBlock);
    KeepsBranch(s, p.x.st, Br(p.endBlock), p.elseBlock);
    BranchDetached(p.x.st, Br(p.endBlock), p.elseBlock, p.endBlock);
    if els.Some? { EmitStates(p.s3, els.value); } else { KeepsSelf(p.s3); }
    KeepsTrans(s, p.s3, p.y.st);
    KeepsDetached(p.s3, p.y.st, p.endBlock);
    KeepsBranch(s, p.y.st, Br(p.endBlock), p.endBlock);
  }

  lemma {:induction false} EmitIfKeeps(s: Builder, cond: Expr, thn: Expr, els: Option<Expr>)
    requires Ready(s) && Emittable(If(cond, thn, els))
    ensures Emitted(s, If(cond, thn, els), EmitIf(s, cond, thn, els))
    decreases If(cond, thn, els), 2
  {
    var p := IfPartsOf(s, cond, thn, els);
    assert EmitIf(s, cond, thn, els) == IfWhole(p);
    hide Keeps, Branch, Create, Detached, AppendReg, Ready, Emit, EmitIf;
    IfLays(p, s, cond, thn, els);
    AppendKeeps(s, p.s5, p.phi);
  }

  datatype WhileParts = WhileParts(condBlock: BlockId, bodyBlock: BlockId, endBlock: BlockId,
                                   s0: Builder, s1: Builder, c: Emission, t: Term, s3: Builder, x: Emission, s5: Builder)

  function WhilePartsOf(s: Builder, cond: Expr, body: Expr): WhileParts {
    var n := |s.blocks|;
    var s0 := Create(s, 3);
    var s1 := Branch(s0, Br(n), n);
    var c := Emit(s1, cond);
    var t := CondBr(Get(c.val), n + 1, n + 2);
    var s3 := Branch(c.st, t, n + 1);
    var x := Emit(s3, body);
    WhileParts(n, n + 1, n + 2, s0, s1, c, t, s3, x, Branch(x.st, Br(n), n + 2))
  }

  predicate WhileLaid(p: WhileParts, s: Builder) {
    && p.condBlock == |s.blocks| && p.bodyBlock == |s.blocks| + 1 && p.endBlock == |s.blocks| + 2
    && Ready(p.s0) && Keeps(s, p.s0) && p.s0.nextReg == s.nextReg && Detached(p.s0, p.condBlock)
    && p.s1 == Branch(p.s0, Br(p.condBlock), p.condBlock) && Ready(p.s1) && p.s1.nextReg == s.nextReg
    && Ready(p.c.st) && Keeps(p.s1, p.c.st) && Detached(p.c.st, p.bodyBlock) && Detached(p.c.st, p.endBlock)
    && p.s3 == Branch(p.c.st, p.t, p.bodyBlock) && Ready(p.s3) && p.s3.nextReg == p.c.st.nextReg
    && Ready(p.x.st) && Keeps(p.s3, p.x.st) && Detached(p.x.st, p.endBlock)
    && p.s5 == Branch(p.x.st, Br(p.condBlock), p.endBlock) && Ready(p.s5) && p.s5.nextReg == p.x.st.nextReg
    && Keeps(s, p.s5)
  }

  lemma {:induction false} WhileLays(p: WhileParts, s: Builder, cond: Expr, body: Expr)
    requires Ready(s) && Emittable(cond) && Emittable(body)
    requires p.condBlock == |s.blocks| && p.bodyBlock == |s.blocks| + 1 && p.endBlock == |s.blocks| + 2
    requires p.s0 == Create(s, 3) && p.s1 == Branch(p.s0, Br(p.condBlock), p.condBlock) && p.c == Emit(p.s1, cond)
    requires p.s3 == Branch(p.c.st, p.t, p.bodyBlock) && p.x == Emit(p.s3, body)
    requires p.s5 == Branch(p.x.st, Br(p.condBlock), p.endBlock)
    ensures WhileLaid(p, s)
    decreases While(cond, body), 1
  {
    hide Keeps, Branch, Create, Detached, Ready, Emit, Emittable;
    CreateKeeps(s, 3);
    KeepsBranch(s, p.s0, Br(p.condBlock), p.condBlock);
    BranchDetached(p.s0, Br(p.condBlock), p.condBlock, p.bodyBlock);
    BranchDetached(p.s0, Br(p.condBlock), p.condBlock, p.endBlock);
    EmitStates(p.s1, cond);
    KeepsTrans(s, p.s1, p.c.st);
    KeepsDetached(p.s1, p.c.st, p.bodyBlock);
    KeepsDetached(p.s1, p.c.st, p.endBlock);
    KeepsBranch(s, p.c.st, p.t, p.bodyBlock);
    BranchDetached(p.c.st, p.t, p.bodyBlock, p.endBlock);
    EmitStates(p.s3, body);
    KeepsTrans(s, p.s3, p.x.st);
    KeepsDetached(p.s3, p.x.st, p.endBlock);
    KeepsBranch(s, p.x.st, Br(p.condBlock), p.endBlock);
  }

  lemma WhilePartsAre(s: Builder, cond: Expr, body: Expr)
    ensures EmitWhile(s, cond, body) == Emission(WhilePartsOf(s, cond, body).s5, None)
  {
    hide Emit, Branch, Create;
  }

  lemma {:induction false} EmitWhileKeeps(s: Builder, cond: Expr, body: Expr)
    requires Ready(s) && Emittable(While(cond, body))
    ensures Emitted(s, While(cond, body), EmitWhile(s, cond, body))
    decreases While(cond, body), 2
  {
    hide Keeps, Branch, Create, Detached, Ready, Emit, EmitWhile;
    WhilePartsAre(s, cond, body);
    WhileLays(WhilePartsOf(s, cond, body), s, cond, body);
  }

  lemma EmitAssertKeeps(s: Builder, c: Emission, line: nat)
    requires Ready(s) && Ready(c.st) && Keeps(s, c.st)
    ensures Ready(EmitAssert(c, line).st) && Keeps(s, EmitAssert(c, line).st)
  {
    hide Keeps;
    var passBlock, failBlock, endBlock := |c.st.blocks|, |c.st.blocks| + 1, |c.st.blocks| + 2;
    var s0 := Create(c.st, 3);
    CreateKeeps(c.st, 3);
    KeepsSize(s, c.st);
    KeepsTrans(s, c.st, s0);
    var t := CondBr(Get(c.val), passBlock, failBlock);
    KeepsBranch(s, s0, t, passBlock);
    AppendKeeps(s, Branch(s0, t, passBlock), CallAssertPass);
    var s1 := Append(Branch(s0, t, passBlock), CallAssertPass);
    KeepsBranch(s, s1, Br(endBlock), failBlock);
    AppendKeeps(s, Branch(s1, Br(endBlock), failBlock), CallAssertFail(line));
    KeepsBranch(s, Append(Branch(s1, Br(endBlock), failBlock), CallAssertFail(line)), Br(endBlock), endBlock);
  }

  lemma {:induction false} EmitSeqKeeps(s: Builder, es: seq<Expr>, last: Option<Operand>)
    requires Ready(s) && (forall i | 0 <= i < |es| :: Emittable(es[i])) && Settled(last, s.nextReg)
    ensures var x := EmitSeq(s, es, last);
            Ready(x.st) && Keeps(s, x.st) && Settled(x.val, x.st.nextReg) && (last.Some? ==> x.val.Some?)
            && (es != [] && Valued(es[|es| - 1]) ==> x.val.Some?)
    decreases es, 0
  {
    if es != [] {
      EmitKeeps(s, es[0]);
      var x := Emit(s, es[0]);
      var last1 := if x.val.Some? then x.val else last;
      EmitSeqKeeps(x.st, es[1..], last1);
      KeepsTrans(s, x.st, EmitSeq(x.st, es[1..], last1).st);
    }
  }
}
