/** Emission against the module verifier: everything but the phis is always in order, and the
    phis are exactly when no operand of a logical operator opens a block. */
module ModuleCheck {
  import opened Common
  import opened Types
  import opened Tree
  import opened Values
  import opened Eval
  import opened Machine
  import opened Emitter
  import opened EmitterFrame
  import opened Runs
  import opened Simulation
  import opened Functions
  import opened WellFormed
  import opened Dominance

  ghost predicate Grows(s: Builder, h: set<BlockId>, t: Builder, ok: bool) {
    Building(t, h) && Keeps(s, t) && Grown(s, t, ok)
  }

  lemma BuildingReady(s: Builder, h: set<BlockId>)
    requires Building(s, h)
    ensures Ready(s) && TargetsExist(s.blocks)
  {
  }

  lemma GrowsTrans(s: Builder, h: set<BlockId>, t: Builder, u: Builder, h2: set<BlockId>, ok1: bool, ok2: bool)
    requires Ready(s) && Keeps(s, t) && Grown(s, t, ok1) && Grows(t, h2, u, ok2)
    ensures Grows(s, h2, u, ok1 && ok2)
  {
    hide Grown, Building;
    KeepsTrans(s, t, u);
    GrownTrans(s, t, u, ok1, ok2);
  }

  lemma GrowsAppend(s: Builder, h: set<BlockId>, t: Builder, i: Instr, ok: bool)
    requires Ready(s) && Grows(s, h, t, ok) && !i.Phi?
    ensures DefOf(i).None? ==> Grows(s, h, Append(t, i), ok)
    ensures DefOf(i) == Some(t.nextReg) ==> Grows(s, h, AppendReg(t, i), ok)
  {
    hide Grown, Building, Keeps, Append, AppendReg;
    BuildingReady(t, h);
    AppendKeeps(s, t, i);
    AppendGrown(t, i);
    GrownTrans(s, t, Append(t, i), ok, true);
    GrownTrans(s, t, AppendReg(t, i), ok, true);
    if DefOf(i).None? { AppendBuilding(t, h, i); }
    if DefOf(i) == Some(t.nextReg) { AppendRegBuilding(t, h, i); }
  }

  lemma GrowsCreate(s: Builder, h: set<BlockId>, n: nat, more: set<BlockId>)
    requires Building(s, h) && forall b: BlockId :: b in more <==> |s.blocks| <= b < |s.blocks| + n
    ensures Grows(s, h + more, Create(s, n), true) && |Create(s, n).blocks| == |s.blocks| + n && Create(s, n).cur == s.cur
    ensures forall b | b in more :: Preds(Create(s, n).blocks, b) == {}
  {
    hide Grown, Building, Keeps, Create;
    BuildingReady(s, h);
    CreateBuilding(s, h, n, more);
    CreateKeeps(s, n);
    CreateGrown(s, n);
  }

  lemma PendingBlock(s: Builder, h: set<BlockId>, b: BlockId)
    requires Building(s, h) && b in h
    ensures Ready(s) && Detached(s, b) && PhiFree(s, b)
  {
  }

  /** A branch into a pending block, all of whose targets are new since `s`. */
  lemma GrowsBranch(s: Builder, h: set<BlockId>, u: Builder, t: Term, b: BlockId, ok: bool)
    requires Ready(s) && Grows(s, h, u, ok) && b in h && !t.Open? && |s.blocks| <= b
    requires forall x | x in Targets(t) :: |s.blocks| <= x < |u.blocks| && PhiFree(u, x)
    ensures Grows(s, h - {b}, Branch(u, t, b), ok) && Ready(Branch(u, t, b))
    ensures |Branch(u, t, b).blocks| == |u.blocks| && Branch(u, t, b).cur == b && Cur(Branch(u, t, b)).instrs == []
    ensures forall x: BlockId :: Preds(Branch(u, t, b).blocks, x) == if x in Targets(t) then Preds(u.blocks, x) + {u.cur} else Preds(u.blocks, x)
    ensures forall x: BlockId :: PhiFree(Branch(u, t, b), x) == PhiFree(u, x)
  {
    hide Grown, Building, Keeps, Preds, PhiFree;
    PendingBlock(u, h, b);
    BranchBuilding(u, h, t, b);
    BranchGrown(s, u, t, b, ok);
    KeepsBranch(s, u, t, b);
    BranchPreds(u, t, b);
  }

  lemma GrowsPreds(s: Builder, h: set<BlockId>, t: Builder, ok: bool, b: BlockId)
    requires Grows(s, h, t, ok) && b < |s.blocks|
    ensures Preds(t.blocks, b) == Preds(s.blocks, b) && (PhiFree(s, b) ==> PhiFree(t, b)) && b < |t.blocks|
    ensures t.cur == s.cur || |s.blocks| <= t.cur
  {
    hide PhisOk, Preds, PhiFree;
    GrownPreds(s, t, ok, b);
  }

  lemma GrowsPhi(s: Builder, h: set<BlockId>, u: Builder, phi: Instr, ok: bool)
    requires Ready(s) && Grows(s, h, u, ok) && |s.blocks| <= u.cur && Cur(u).instrs == [] && DefOf(phi) == Some(u.nextReg)
    ensures Grows(s, h, AppendReg(u, phi), ok && PhiMatches(phi, Preds(u.blocks, u.cur)))
  {
    hide Grown, Building, Keeps, Preds, PhiMatches;
    BuildingReady(u, h);
    AppendKeeps(s, u, phi);
    PhiGrown(s, u, phi, ok);
    AppendRegBuilding(u, h, phi);
  }

  // ----- emission -----

  lemma {:induction false} EmitGrows(s: Builder, h: set<BlockId>, e: Expr)
    requires Building(s, h) && Emittable(e)
    ensures Grows(s, h, Emit(s, e).st, LogicalOk(e))
    decreases e, 4
  {
    hide Building, Grown, Keeps, Append, AppendReg;
    BuildingReady(s, h);
    KeepsSelf(s);
    GrownSelf(s);
    match e
    case Var(sym, _) => GrowsAppend(s, h, s, Load(s.nextReg, Addr(sym)), true);
    case Binary(op, l, r) =>
      if IsLogical(op) { LogicalGrows(s, h, op, l, r); }
      else { ArithmeticGrows(s, h, op, l, r); }
    case Cast(_, t, v) =>
      EmitGrows(s, h, v);
      var x := Emit(s, v);
      GrowsAppend(s, h, x.st, Conv(x.st.nextReg, ConvFor(TypeOf(v).value, t), Get(x.val)), LogicalOk(v));
    case If(cond, thn, els) => IfGrows(s, h, cond, thn, els);
    case While(cond, body) => WhileGrows(s, h, cond, body);
    case Assert(line, cond) => EmitGrows(s, h, cond); AssertGrows(s, h, Emit(s, cond), line, LogicalOk(cond));
    case Compound(es) => SeqGrows(s, h, es, None);
    case _ =>
  }

  lemma {:induction false} ArithmeticGrows(s: Builder, h: set<BlockId>, op: BinOp, l: Expr, r: Expr)
    requires Building(s, h) && Emittable(Binary(op, l, r)) && !IsLogical(op)
    ensures Grows(s, h, Emit(s, Binary(op, l, r)).st, LogicalOk(Binary(op, l, r)))
    decreases Binary(op, l, r), 2
  {
    hide Building, Grown, Keeps, Append, AppendReg;
    BuildingReady(s, h);
    EmitGrows(s, h, r);
    var x := Emit(s, r);
    if op == Assign {
      GrowsAppend(s, h, x.st, Store(Get(x.val), Addr(l.sym)), LogicalOk(r));
    } else {
      EmitGrows(x.st, h, l);
      var y := Emit(x.st, l);
      GrowsTrans(s, h, x.st, y.st, h, LogicalOk(r), LogicalOk(l));
      GrowsAppend(s, h, y.st, Op2(y.st.nextReg, OpcodeFor(TypeOf(r).value, op).value, Get(y.val), Get(x.val)), LogicalOk(r) && LogicalOk(l));
    }
  }

  lemma {:induction false} SeqGrows(s: Builder, h: set<BlockId>, es: seq<Expr>, last: Option<Operand>)
    requires Building(s, h) && forall i | 0 <= i < |es| :: Emittable(es[i])
    ensures Grows(s, h, EmitSeq(s, es, last).st, forall i | 0 <= i < |es| :: LogicalOk(es[i]))
    decreases es, 0
  {
    hide Building, Grown, Keeps, Emittable, LogicalOk, Emit;
    BuildingReady(s, h);
    KeepsSelf(s);
    GrownSelf(s);
    if es != [] {
      EmitGrows(s, h, es[0]);
      var x := Emit(s, es[0]);
      var last1 := if x.val.Some? then x.val else last;
      SeqGrows(x.st, h, es[1..], last1);
      GrowsTrans(s, h, x.st, EmitSeq(x.st, es[1..], last1).st, h, LogicalOk(es[0]), forall i | 0 <= i < |es[1..]| :: LogicalOk(es[1..][i]));
      assert forall i | 1 <= i < |es| :: es[i] == es[1..][i - 1];
    }
  }

  // ----- logical operators -----

  /** The end block's predecessors are the blocks where the operands ended. */
  lemma {:induction false} LogicalLayout(s: Builder, h: set<BlockId>, p: LogicalParts, l: Expr, r: Expr)
    requires Building(s, h) && Emittable(Binary(p.op, l, r)) && IsLogical(p.op) && p == LogicalPartsOf(s, p.op, l, r)
    ensures Grows(s, h, p.s4, LogicalOk(l) && LogicalOk(r)) && Cur(p.s4).instrs == [] && p.s4.cur == p.endBlock
    ensures Preds(p.s4.blocks, p.endBlock) == {p.x.st.cur, p.y.st.cur}
    decreases Binary(p.op, l, r), 1
  {
    hide Building, Grown, Keeps, Preds, PhiFree, Create, Branch, Emit, LogicalOk, Emittable, LogicalPartsOf,
         LogicalBranch, EmitLogical;
    var both := {p.rBlock, p.endBlock};
    BuildingReady(s, h);
    LogicalPartFacts(s, p.op, l, r, p);
    GrowsCreate(s, h, 2, both);
    BuildingFresh(s, h, both);
    EmitGrows(p.s0, h + both, l);
    GrowsPreds(p.s0, h + both, p.x.st, LogicalOk(l), p.endBlock);
    GrowsTrans(s, h + both, p.s0, p.x.st, h + both, true, LogicalOk(l));
    PendingBlock(p.x.st, h + both, p.rBlock);
    PendingBlock(p.x.st, h + both, p.endBlock);
    GrowsBranch(s, h + both, p.x.st, p.t, p.rBlock, LogicalOk(l));
    var h1 := h + both - {p.rBlock};
    EmitGrows(p.s2, h1, r);
    GrowsPreds(p.s2, h1, p.y.st, LogicalOk(r), p.endBlock);
    GrowsTrans(s, h1, p.s2, p.y.st, h1, LogicalOk(l), LogicalOk(r));
    PendingBlock(p.y.st, h1, p.endBlock);
    GrowsBranch(s, h1, p.y.st, Br(p.endBlock), p.endBlock, LogicalOk(l) && LogicalOk(r));
    assert h1 - {p.endBlock} == h;
  }

  lemma BuildingFresh(s: Builder, h: set<BlockId>, more: set<BlockId>)
    requires Building(s, h) && forall b | b in more :: |s.blocks| <= b
    ensures h !! more
  {
  }

  /** The phi names the block before the left operand and the right operand's first block:
      it is right exactly when both operands stay in those. */
  lemma TwoSources(a: BlockId, b: BlockId, u: Operand, v: Operand, dst: RegId, preds: set<BlockId>)
    requires a != b
    ensures PhiMatches(Phi(dst, [(u, a), (v, b)]), preds) <==> preds == {a, b}
  {
    var i := Phi(dst, [(u, a), (v, b)]);
    assert Sources(i.incoming) == [a, b];
  }

  lemma LogicalPartFacts(s: Builder, op: BinOp, l: Expr, r: Expr, p: LogicalParts)
    requires Ready(s) && Emittable(Binary(op, l, r)) && IsLogical(op) && p == LogicalPartsOf(s, op, l, r)
    ensures Emittable(l) && Emittable(r) && p.op == op && p.rBlock == |s.blocks|
        && p.endBlock == |s.blocks| + 1 && s.cur < |s.blocks|
    ensures p.x == Emit(p.s0, l) && p.y == Emit(p.s2, r) && p.s0.cur == s.cur && p.s2.cur == p.rBlock
    ensures p.s0 == Create(s, 2) && p.s2 == Branch(p.x.st, p.t, p.rBlock)
        && p.s4 == Branch(p.y.st, Br(p.endBlock), p.endBlock)
    ensures !p.t.Open? && Targets(p.t) == {p.rBlock, p.endBlock}
    ensures p.phi == Phi(p.s4.nextReg, [(Const(BoolV(op == LOr)), s.cur), (Get(p.y.val), p.rBlock)])
    ensures EmitLogical(s, op, l, r).st == AppendReg(p.s4, p.phi)
    ensures LogicalOk(Binary(op, l, r)) <==> LogicalOk(l) && LogicalOk(r) && Straight(l) && Straight(r)
  {
  }

  lemma {:induction false} LogicalGrows(s: Builder, h: set<BlockId>, op: BinOp, l: Expr, r: Expr)
    requires Building(s, h) && Emittable(Binary(op, l, r)) && IsLogical(op)
    ensures Grows(s, h, EmitLogical(s, op, l, r).st, LogicalOk(Binary(op, l, r)))
    decreases Binary(op, l, r), 2
  {
    hide Building, Grown, Keeps, Preds, PhiFree, Create, Branch, Emit, LogicalOk, Straight, Emittable, Ready,
         Detached, EmitLogical, LogicalPartsOf, PhiMatches, Append, AppendReg;
    var p := LogicalPartsOf(s, op, l, r);
    BuildingReady(s, h);
    LogicalPartFacts(s, op, l, r, p);
    LogicalLayout(s, h, p, l, r);
    LogicalLays(p, s, l, r);
    LeavesBlock(p.s0, l);
    LeavesBlock(p.s2, r);
    LogicalCurs(p, s);
    GrowsPhi(s, h, p.s4, p.phi, LogicalOk(l) && LogicalOk(r));
    TwoSources(s.cur, p.rBlock, Const(BoolV(op == LOr)), Get(p.y.val), p.s4.nextReg, {p.x.st.cur, p.y.st.cur});
  }

  lemma LogicalCurs(p: LogicalParts, s: Builder)
    requires Ready(s) && LogicalLaid(p, s) && p.s0.cur == s.cur && p.s2.cur == p.rBlock
    ensures s.cur < p.rBlock && {p.x.st.cur, p.y.st.cur} == {s.cur, p.rBlock} <==> p.x.st.cur == s.cur && p.y.st.cur == p.rBlock
  {
  }

  // ----- if -----

  predicate ElseOk(els: Option<Expr>) {
    els.Some? ==> LogicalOk(els.value)
  }

  lemma IfPartFacts(s: Builder, cond: Expr, thn: Expr, els: Option<Expr>, p: IfParts)
    requires Emittable(If(cond, thn, els)) && p == IfPartsOf(s, cond, thn, els)
    ensures Emittable(cond) && Emittable(thn) && (els.Some? ==> Emittable(els.value))
    ensures p.thenBlock == |p.c.st.blocks| && p.elseBlock == p.thenBlock + 1 && p.endBlock == p.thenBlock + 2
    ensures p.c == Emit(s, cond) && p.x == Emit(p.s1, thn) && p.y == if els.Some? then Emit(p.s3, els.value) else Emission(p.s3, None)
    ensures p.s0 == Create(p.c.st, 3) && p.t == CondBr(Get(p.c.val), p.thenBlock, p.elseBlock)
        && p.s1 == Branch(p.s0, p.t, p.thenBlock)
    ensures p.s3 == Branch(p.x.st, Br(p.endBlock), p.elseBlock) && p.s5 == Branch(p.y.st, Br(p.endBlock), p.endBlock)
    ensures p.phi == Phi(p.s5.nextReg, [(Get(p.x.val), p.x.st.cur), (Get(p.y.val), p.y.st.cur)])
    ensures EmitIf(s, cond, thn, els).st == if p.valued then AppendReg(p.s5, p.phi) else p.s5
    ensures LogicalOk(If(cond, thn, els)) <==> LogicalOk(cond) && LogicalOk(thn) && ElseOk(els)
  {
  }

  /** Up to the `then` block. */
  lemma {:induction false} CondLayout(s: Builder, h: set<BlockId>, h1: set<BlockId>, p: IfParts, cond: Expr,
      thn: Expr, els: Option<Expr>)
    requires Building(s, h) && Emittable(cond)
    requires p.thenBlock == |p.c.st.blocks| && p.elseBlock == p.thenBlock + 1 && p.endBlock == p.thenBlock + 2
    requires p.c == Emit(s, cond) && p.s0 == Create(p.c.st, 3) && p.t == CondBr(Get(p.c.val), p.thenBlock, p.elseBlock)
    requires p.s1 == Branch(p.s0, p.t, p.thenBlock) && h1 == h + {p.elseBlock, p.endBlock}
    ensures Grows(s, h1, p.s1, LogicalOk(cond)) && p.elseBlock !in h && p.endBlock !in h && p.endBlock < |p.s1.blocks|
    ensures Preds(p.s1.blocks, p.endBlock) == {} && |s.blocks| <= p.thenBlock
    decreases If(cond, thn, els), 0
  {
    hide Building, Grown, Keeps, Preds, PhiFree, Create, Branch, Emit, LogicalOk, Emittable;
    var all := {p.thenBlock, p.elseBlock, p.endBlock};
    BuildingReady(s, h);
    EmitGrows(s, h, cond);
    KeepsSize(s, p.c.st);
    BuildingReady(p.c.st, h);
    GrowsCreate(p.c.st, h, 3, all);
    BuildingFresh(p.c.st, h, all);
    GrowsTrans(s, h, p.c.st, p.s0, h + all, LogicalOk(cond), true);
    PendingBlock(p.s0, h + all, p.thenBlock);
    PendingBlock(p.s0, h + all, p.elseBlock);
    GrowsBranch(s, h + all, p.s0, p.t, p.thenBlock, LogicalOk(cond));
    assert h + all - {p.thenBlock} == h1;
  }

  /** Up to the `else` block. */
  lemma {:induction false} ThenLayout(s: Builder, h: set<BlockId>, h3: set<BlockId>, p: IfParts, cond: Expr,
      thn: Expr, els: Option<Expr>)
    requires Building(s, h) && Emittable(cond) && Emittable(thn)
    requires p.thenBlock == |p.c.st.blocks| && p.elseBlock == p.thenBlock + 1 && p.endBlock == p.thenBlock + 2
    requires p.c == Emit(s, cond) && p.s0 == Create(p.c.st, 3) && p.t == CondBr(Get(p.c.val), p.thenBlock, p.elseBlock)
    requires p.s1 == Branch(p.s0, p.t, p.thenBlock) && p.x == Emit(p.s1, thn)
        && p.s3 == Branch(p.x.st, Br(p.endBlock), p.elseBlock)
    requires h3 == h + {p.endBlock}
    ensures Grows(s, h3, p.s3, LogicalOk(cond) && LogicalOk(thn)) && p.endBlock !in h && p.endBlock < |p.s3.blocks|
    ensures Preds(p.s3.blocks, p.endBlock) == {p.x.st.cur} && p.s3.cur == p.elseBlock
    ensures p.x.st.cur != p.elseBlock && p.x.st.cur < |p.x.st.blocks| == |p.s3.blocks| && |s.blocks| <= p.thenBlock
    decreases If(cond, thn, els), 1
  {
    hide Building, Grown, Keeps, Preds, PhiFree, Create, Branch, Emit, LogicalOk, Emittable;
    var h1 := h + {p.elseBlock, p.endBlock};
    BuildingReady(s, h);
    CondLayout(s, h, h1, p, cond, thn, els);
    EmitGrows(p.s1, h1, thn);
    GrowsPreds(p.s1, h1, p.x.st, LogicalOk(thn), p.endBlock);
    GrowsTrans(s, h1, p.s1, p.x.st, h1, LogicalOk(cond), LogicalOk(thn));
    PendingBlock(p.x.st, h1, p.elseBlock);
    PendingBlock(p.x.st, h1, p.endBlock);
    GrowsBranch(s, h1, p.x.st, Br(p.endBlock), p.elseBlock, LogicalOk(cond) && LogicalOk(thn));
    assert h1 - {p.elseBlock} == h3;
  }

  /** The end block's predecessors are the blocks where the branches ended. */
  lemma {:induction false} IfLayout(s: Builder, h: set<BlockId>, p: IfParts, cond: Expr, thn: Expr, els: Option<Expr>)
    requires Building(s, h) && Emittable(If(cond, thn, els)) && p == IfPartsOf(s, cond, thn, els)
    ensures Grows(s, h, p.s5, LogicalOk(If(cond, thn, els))) && Cur(p.s5).instrs == []
        && |s.blocks| <= p.s5.cur == p.endBlock
    ensures Preds(p.s5.blocks, p.endBlock) == {p.x.st.cur, p.y.st.cur} && p.x.st.cur != p.y.st.cur
    decreases If(cond, thn, els), 2
  {
    hide Building, Grown, Keeps, Preds, PhiFree, Create, Branch, Emit, LogicalOk, Emittable, EmitIf, IfPartsOf;
    BuildingReady(s, h);
    IfPartFacts(s, cond, thn, els, p);
    var h3 := h + {p.endBlock};
    var ok := LogicalOk(cond) && LogicalOk(thn);
    ThenLayout(s, h, h3, p, cond, thn, els);
    if els.Some? {
      EmitGrows(p.s3, h3, els.value);
    } else {
      BuildingReady(p.s3, h3);
      KeepsSelf(p.s3);
      GrownSelf(p.s3);
    }
    GrowsPreds(p.s3, h3, p.y.st, ElseOk(els), p.endBlock);
    GrowsTrans(s, h3, p.s3, p.y.st, h3, ok, ElseOk(els));
    PendingBlock(p.y.st, h3, p.endBlock);
    GrowsBranch(s, h3, p.y.st, Br(p.endBlock), p.endBlock, ok && ElseOk(els));
    assert h3 - {p.endBlock} == h;
  }

  lemma {:induction false} IfGrows(s: Builder, h: set<BlockId>, cond: Expr, thn: Expr, els: Option<Expr>)
    requires Building(s, h) && Emittable(If(cond, thn, els))
    ensures Grows(s, h, EmitIf(s, cond, thn, els).st, LogicalOk(If(cond, thn, els)))
    decreases If(cond, thn, els), 3
  {
    hide Building, Grown, Keeps, Preds, PhiFree, Create, Branch, Emit, LogicalOk, Emittable, EmitIf, IfPartsOf,
         PhiMatches, Append, AppendReg;
    var p := IfPartsOf(s, cond, thn, els);
    BuildingReady(s, h);
    IfPartFacts(s, cond, thn, els, p);
    IfLayout(s, h, p, cond, thn, els);
    if p.valued {
      GrowsPhi(s, h, p.s5, p.phi, LogicalOk(If(cond, thn, els)));
      TwoSources(p.x.st.cur, p.y.st.cur, Get(p.x.val), Get(p.y.val), p.s5.nextReg, {p.x.st.cur, p.y.st.cur});
    }
  }

  // ----- while and assert -----

  lemma WhilePartFacts(s: Builder, cond: Expr, body: Expr, p: WhileParts)
    requires Emittable(While(cond, body)) && p == WhilePartsOf(s, cond, body)
    ensures Emittable(cond) && Emittable(body) && p.condBlock == |s.blocks| && p.bodyBlock == |s.blocks| + 1
        && p.endBlock == |s.blocks| + 2
    ensures p.s0 == Create(s, 3) && p.s1 == Branch(p.s0, Br(p.condBlock), p.condBlock) && p.c == Emit(p.s1, cond)
    ensures p.t == CondBr(Get(p.c.val), p.bodyBlock, p.endBlock) && p.s3 == Branch(p.c.st, p.t, p.bodyBlock)
        && p.x == Emit(p.s3, body)
    ensures p.s5 == Branch(p.x.st, Br(p.condBlock), p.endBlock) && EmitWhile(s, cond, body).st == p.s5
    ensures LogicalOk(While(cond, body)) <==> LogicalOk(cond) && LogicalOk(body)
  {
  }

  lemma {:induction false} WhileGrows(s: Builder, h: set<BlockId>, cond: Expr, body: Expr)
    requires Building(s, h) && Emittable(While(cond, body))
    ensures Grows(s, h, EmitWhile(s, cond, body).st, LogicalOk(While(cond, body)))
    decreases While(cond, body), 2
  {
    hide Building, Grown, Keeps, Preds, PhiFree, Create, Branch, Emit, LogicalOk, Emittable, EmitWhile, WhilePartsOf;
    var p := WhilePartsOf(s, cond, body);
    WhilePartFacts(s, cond, body, p);
    var all := {p.condBlock, p.bodyBlock, p.endBlock};
    BuildingReady(s, h);
    GrowsCreate(s, h, 3, all);
    BuildingFresh(s, h, all);
    PendingBlock(p.s0, h + all, p.condBlock);
    GrowsBranch(s, h + all, p.s0, Br(p.condBlock), p.condBlock, true);
    var h1 := h + all - {p.condBlock};
    EmitGrows(p.s1, h1, cond);
    GrowsPreds(p.s1, h1, p.c.st, LogicalOk(cond), p.condBlock);
    GrowsTrans(s, h1, p.s1, p.c.st, h1, true, LogicalOk(cond));
    PendingBlock(p.c.st, h1, p.bodyBlock);
    PendingBlock(p.c.st, h1, p.endBlock);
    GrowsBranch(s, h1, p.c.st, p.t, p.bodyBlock, LogicalOk(cond));
    var h3 := h1 - {p.bodyBlock};
    EmitGrows(p.s3, h3, body);
    GrowsPreds(p.s3, h3, p.x.st, LogicalOk(body), p.condBlock);
    GrowsTrans(s, h3, p.s3, p.x.st, h3, LogicalOk(cond), LogicalOk(body));
    PendingBlock(p.x.st, h3, p.endBlock);
    GrowsBranch(s, h3, p.x.st, Br(p.condBlock), p.endBlock, LogicalOk(cond) && LogicalOk(body));
    assert h3 - {p.endBlock} == h;
  }

  lemma AssertGrows(s: Builder, h: set<BlockId>, c: Emission, line: nat, ok: bool)
    requires Ready(s) && Grows(s, h, c.st, ok)
    ensures Grows(s, h, EmitAssert(c, line).st, ok)
  {
    hide Building, Grown, Keeps, Preds, PhiFree, Create, Branch, Append;
    var n := |c.st.blocks|;
    var s0, t := Create(c.st, 3), CondBr(Get(c.val), n, n + 1);
    var s1 := Branch(s0, t, n);
    var s2 := Append(s1, CallAssertPass);
    var s3 := Branch(s2, Br(n + 2), n + 1);
    var s4 := Append(s3, CallAssertFail(line));
    var all := {n, n + 1, n + 2};
    BuildingReady(c.st, h);
    KeepsSize(s, c.st);
    GrowsCreate(c.st, h, 3, all);
    BuildingFresh(c.st, h, all);
    GrowsTrans(s, h, c.st, s0, h + all, ok, true);
    PendingBlock(s0, h + all, n);
    PendingBlock(s0, h + all, n + 1);
    GrowsBranch(s, h + all, s0, t, n, ok);
    var h1 := h + all - {n};
    GrowsAppend(s, h1, s1, CallAssertPass, ok);
    AppendSize(s1, CallAssertPass);
    PendingBlock(s2, h1, n + 1);
    PendingBlock(s2, h1, n + 2);
    GrowsBranch(s, h1, s2, Br(n + 2), n + 1, ok);
    var h2 := h1 - {n + 1};
    GrowsAppend(s, h2, s3, CallAssertFail(line), ok);
    AppendSize(s3, CallAssertFail(line));
    PendingBlock(s4, h2, n + 2);
    GrowsBranch(s, h2, s4, Br(n + 2), n + 2, ok);
    assert h2 - {n + 2} == h;
  }

  lemma AppendSize(s: Builder, i: Instr)
    ensures |Append(s, i).blocks| == |s.blocks|
  {
  }

  // ----- the whole function -----

  lemma BeginBuilding()
    ensures Building(BEGIN, {}) && PhisOk(BEGIN.blocks) && Preds(BEGIN.blocks, 0) == {}
  {
    assert BEGIN.order[0] == 0;
    forall b: BlockId ensures b in BEGIN.order <==> b < 1 {
    }
  }

  lemma CloseStructured(s: Builder, t: Term)
    requires Building(s, {}) && t.Ret? && Preds(s.blocks, 0) == {}
    ensures Structured(Terminate(s, t)) <==> PhisOk(s.blocks)
  {
    hide PhiMatches;
    var f := Terminate(s, t);
    assert forall b | 0 <= b < |s.blocks| :: f.blocks[b].instrs == s.blocks[b].instrs;
    forall b: BlockId ensures Preds(f.blocks, b) == Preds(s.blocks, b) {
    }
    assert forall b, k | 0 <= b < |s.blocks| && 0 <= k < |s.blocks[b].instrs| ::
      PhiMatches(f.blocks[b].instrs[k], Preds(f.blocks, b)) <==> PhiMatches(s.blocks[b].instrs[k], Preds(s.blocks, b));
  }

  /** A function passes the module verifier exactly when no operand of a logical operator in
      its body opens a block. */
  lemma VerifiedExactlyWhenLogicalOk(body: Expr, ret: Prim)
    requires BodyFits(body, ret)
    ensures Verified(EmitFunction(body, ret)) <==> LogicalOk(body)
  {
    hide Building, Grown, Keeps, Preds, PhisOk, Structured, UsesDominated, LogicalOk, Emittable, TypeOf, Terminate;
    BeginBuilding();
    EmitGrows(BEGIN, {}, body);
    var x := Emit(BEGIN, body);
    GrowsPreds(BEGIN, {}, x.st, LogicalOk(body), 0);
    CloseStructured(x.st, Return(x, ret));
    GrownPhis(BEGIN, x.st, LogicalOk(body));
    if LogicalOk(body) { FunctionDominated(body, ret); }
  }

  lemma GrownPhis(s: Builder, t: Builder, ok: bool)
    requires Grown(s, t, ok)
    ensures PhisOk(t.blocks) <==> PhisOk(s.blocks) && ok
  {
  }

  /** The code emitted for `a && b && c` is refused, although its meaning is plain. */
  lemma ChainedAndIsRefused(a: Sym, b: Sym, c: Sym)
    requires a.ty == b.ty == c.ty == Bool
    ensures var e := Binary(LAnd, Binary(LAnd, Var(a, Read), Var(b, Read)), Var(c, Read));
            BodyFits(e, Bool) && !Verified(EmitFunction(e, Bool))
  {
    hide Verified, EmitFunction;
    var e := Binary(LAnd, Binary(LAnd, Var(a, Read), Var(b, Read)), Var(c, Read));
    AndOfBools(e.l.l, e.l.r);
    AndOfBools(e.l, e.r);
    VerifiedExactlyWhenLogicalOk(e, Bool);
  }

  lemma AndOfBools(l: Expr, r: Expr)
    requires Emittable(l) && Emittable(r) && TypeOf(l) == Some(Bool) && TypeOf(r) == Some(Bool)
    ensures var e := Binary(LAnd, l, r);
            Emittable(e) && TypeOf(e) == Some(Bool) && !Straight(e) && (!Straight(l) ==> !LogicalOk(e))
  {
  }
}
