/** The emitter as the source writes it: a visitor that drives a builder whose insertion point
    moves, and fails an assertion on trees it has no code for.  On the trees an error-free cast pass
    leaves it fails exactly on those that are not `Emittable`; on the others every method is proved
    equal to its function in Emitter.dfy. */
module EmitterBuilder {
  import opened Common
  import opened Types
  import opened Tree
  import opened Values
  import opened Eval
  import opened Machine
  import opened Emitter
  import opened EmitterFrame
  import opened Functions
  import opened ModuleCheck
  import opened Runs
  import opened Simulation
  import opened CastTypes

  class ExprEmitter {
    var blocks: seq<Block>
    var order: seq<BlockId>
    var cur: BlockId
    var nextReg: RegId

    /** A function with an empty "begin" block, where emission starts. */
    constructor ()
      ensures State() == BEGIN
    {
      blocks, order, cur, nextReg := [EMPTY_BLOCK], [0], 0, 0;
    }

    function State(): Builder
      reads this
    {
      Builder(blocks, order, cur, nextReg)
    }

    // ----- the builder's own operations -----

    method GetInsertBlock() returns (b: BlockId)
      ensures b == cur
    {
      b := cur;
    }

    method CreateBlock() returns (b: BlockId)
      modifies this`blocks
      ensures b == old(|blocks|) && State() == Create(old(State()), 1)
    {
      b := |blocks|;
      blocks := blocks + [EMPTY_BLOCK];
    }

    method AppendBlock(b: BlockId)
      modifies this`order
      ensures State() == old(State()).(order := old(order) + [b])
    {
      order := order + [b];
    }

    method SetInsertPoint(b: BlockId)
      modifies this`cur
      ensures State() == old(State()).(cur := b)
    {
      cur := b;
    }

    method Insert(i: Instr)
      requires Ready(State())
      modifies this`blocks
      ensures State() == Append(old(State()), i)
    {
      blocks := blocks[cur := blocks[cur].(instrs := blocks[cur].instrs + [i])];
    }

    method InsertReg(i: Instr) returns (v: Operand)
      requires Ready(State())
      modifies this`blocks, this`nextReg
      ensures State() == AppendReg(old(State()), i) && v == Fresh(old(State()))
    {
      Insert(i);
      v := Reg(nextReg);
      nextReg := nextReg + 1;
    }

    method End(t: Term)
      requires Ready(State())
      modifies this`blocks
      ensures State() == Terminate(old(State()), t)
    {
      blocks := blocks[cur := blocks[cur].(term := t)];
    }

    /** End the insertion block, append `b` to the function and go on there. */
    method EndAndEnter(t: Term, b: BlockId)
      requires Ready(State())
      modifies this
      ensures State() == Branch(old(State()), t, b)
    {
      End(t);
      AppendBlock(b);
      SetInsertPoint(b);
    }

    // ----- the visitor -----

    /** `ok` says that no assertion has failed and that LLVM was handed nothing that it refuses. */
    method EmitExpr(e: Expr) returns (ok: bool, v: Option<Operand>)
      requires Ready(State()) && Agrees(e) && Marked(e)
      modifies this
      ensures ok <==> Emittable(e)
      ensures ok ==> Emission(State(), v) == Emit(old(State()), e)
      decreases e, 3
    {
      match e
      case LitInt(n) => ok, v := true, Some(Const(IntV(n)));
      case LitFloat(f) => ok, v := true, Some(Const(FloatV(f)));
      case LitBool(b) => ok, v := true, Some(Const(BoolV(b)));
      case Var(sym, _) =>
        if !Storable(sym.ty) {
          return false, None;
        }
        var r := InsertReg(Load(nextReg, Addr(sym)));
        ok, v := true, Some(r);
      case Binary(op, l, r) =>
        if IsLogical(op) {
          ok, v := EmitBinaryLogical(op, l, r);
        } else {
          ok, v := EmitBinaryArithmetic(op, l, r);
        }
      case Cast(_, t, x) => ok, v := VisitCast(t, x);
      case If(cond, thn, els) => ok, v := VisitIf(cond, thn, els);
      case While(cond, body) => ok := VisitWhile(cond, body); v := None;
      case Assert(line, cond) => ok := VisitAssert(line, cond); v := None;
      case Compound(es) => ok, v := VisitExpressions(es);
    }

    method VisitCast(t: Prim, x: Expr) returns (ok: bool, v: Option<Operand>)
      requires Ready(State()) && Agrees(x) && Marked(x)
      modifies this
      ensures ok <==> Emittable(Cast(Explicit, t, x))
      ensures ok ==> Emission(State(), v) == EmitCast(Emit(old(State()), x), TypeOf(x), t)
      decreases x, 4
    {
      hide Emit, Emittable, Agrees, Marked, Append;
      CastNeeds(t, x);
      ok, v := EmitExpr(x);
      if !ok || TypeOf(x).None? || !CastSupported(TypeOf(x).value, t) {
        return false, None;
      }
      EmitKeeps(old(State()), x);
      if TypeOf(x) != Some(t) {
        var r := InsertReg(Conv(nextReg, ConvFor(TypeOf(x).value, t), v.value));
        v := Some(r);
      }
    }

    /** Only a variable is something to store to; a variable without a value type cannot be. */
    method EmitBinaryArithmetic(op: BinOp, l: Expr, r: Expr) returns (ok: bool, v: Option<Operand>)
      requires Ready(State()) && Agrees(Binary(op, l, r)) && Marked(Binary(op, l, r)) && !IsLogical(op)
      modifies this
      ensures ok <==> Emittable(Binary(op, l, r))
      ensures ok ==> Emission(State(), v) == if op == Assign then EmitAssign(old(State()), l, r) else EmitArithmetic(old(State()), op, l, r)
      decreases Binary(op, l, r), 2
    {
      var rValue, lValue: Option<Operand>;
      ok, rValue := EmitExpr(r);
      if !ok {
        return false, None;
      }
      EmitKeeps(old(State()), r);
      if op == Assign {
        if !l.Var? || !Storable(l.sym.ty) {
          return false, None;
        }
        Insert(Store(rValue.value, Addr(l.sym)));
        return true, rValue;
      }
      label afterRight:
      ok, lValue := EmitExpr(l);
      if !ok || OpcodeFor(TypeOf(r).value, op).None? {
        return false, None;
      }
      EmitKeeps(old@afterRight(State()), l);
      var result := InsertReg(Op2(nextReg, OpcodeFor(TypeOf(r).value, op).value, lValue.value, rValue.value));
      ok, v := true, Some(result);
    }

    method EmitBinaryLogical(op: BinOp, l: Expr, r: Expr) returns (ok: bool, v: Option<Operand>)
      requires Ready(State()) && Agrees(Binary(op, l, r)) && Marked(Binary(op, l, r)) && IsLogical(op)
      modifies this
      ensures ok <==> Emittable(Binary(op, l, r))
      ensures ok ==> Emission(State(), v) == EmitLogical(old(State()), op, l, r)
      decreases Binary(op, l, r), 2
    {
      hide Emit, EmitLogical, LogicalPartsOf, Emittable, TypeOf, Ready, Branch, LogicalBranch, Agrees, Marked;
      LogicalNeeds(op, l, r);
      ghost var p := LogicalPartsOf(State(), op, l, r);
      LogicalStarts(State(), op, l, r, p);
      var lBlock := GetInsertBlock();
      var rBlock := CreateBlock();
      var endBlock := CreateBlock();
      CreateTwice(old(State()), 1, 1);
      var lValue, rValue: Option<Operand>;
      ok, lValue := EmitExpr(l);
      if !ok {
        return false, None;
      }
      LogicalGoesOn(old(State()), op, l, r, p);
      EndAndEnter(LogicalBranch(op, lValue.value, rBlock, endBlock), rBlock);
      ok, rValue := EmitExpr(r);
      if !ok {
        return false, None;
      }
      LogicalMeets(old(State()), op, l, r, p);
      EndAndEnter(Br(endBlock), endBlock);
      var phi := InsertReg(LogicalPhi(op, nextReg, lBlock, rValue.value, rBlock));
      ok, v := true, Some(phi);
    }

    method VisitIf(cond: Expr, thn: Expr, els: Option<Expr>) returns (ok: bool, v: Option<Operand>)
      requires Ready(State()) && Agrees(If(cond, thn, els)) && Marked(If(cond, thn, els))
      modifies this
      ensures ok <==> Emittable(If(cond, thn, els))
      ensures ok ==> Emission(State(), v) == EmitIf(old(State()), cond, thn, els)
      decreases If(cond, thn, els), 2
    {
      hide Emit, EmitIf, IfPartsOf, Emittable, TypeOf, Valued, Ready, Branch, Append, AppendReg, Terminate, Agrees, Marked;
      IfNeeds(cond, thn, els);
      ghost var p := IfPartsOf(State(), cond, thn, els);
      var condValue, thenValue: Option<Operand>;
      IfStarts(State(), cond, thn, els, p);
      ok, condValue := EmitExpr(cond);
      if !ok {
        return false, None;
      }
      IfGoesOn(old(State()), cond, thn, els, p);
      ghost var s := State();
      var thenBlock := CreateBlock();
      var elseBlock := CreateBlock();
      var endBlock := CreateBlock();
      CreateTwice(s, 1, 1);
      CreateTwice(s, 2, 1);
      EndAndEnter(CondBr(condValue.value, thenBlock, elseBlock), thenBlock);
      ok, thenValue := EmitExpr(thn);
      if !ok {
        return false, None;
      }
      thenBlock := GetInsertBlock();
      IfGoesOnAgain(old(State()), cond, thn, els, p);
      EndAndEnter(Br(endBlock), elseBlock);
      var elseValue: Option<Operand> := None;
      if els.Some? {
        ok, elseValue := EmitExpr(els.value);
        if !ok {
          return false, None;
        }
      }
      IfMeets(old(State()), cond, thn, els, p);
      End(Br(endBlock));
      elseBlock := GetInsertBlock();
      AppendBlock(endBlock);
      SetInsertPoint(endBlock);
      BranchMeans(p.y.st, Br(endBlock), endBlock);
      v := None;
      if Valued(If(cond, thn, els)) {
        var phi := InsertReg(Phi(nextReg, [(Get(thenValue), thenBlock), (Get(elseValue), elseBlock)]));
        v := Some(phi);
      }
    }

    method VisitWhile(cond: Expr, body: Expr) returns (ok: bool)
      requires Ready(State()) && Agrees(While(cond, body)) && Marked(While(cond, body))
      modifies this
      ensures ok <==> Emittable(While(cond, body))
      ensures ok ==> Emission(State(), None) == EmitWhile(old(State()), cond, body)
      decreases While(cond, body), 2
    {
      hide Emit, EmitWhile, WhilePartsOf, Emittable, TypeOf, Ready, Branch, Agrees, Marked;
      WhileNeeds(cond, body);
      ghost var p := WhilePartsOf(State(), cond, body);
      WhileStarts(State(), cond, body, p);
      var condBlock := CreateBlock();
      var bodyBlock := CreateBlock();
      var endBlock := CreateBlock();
      CreateTwice(old(State()), 1, 1);
      CreateTwice(old(State()), 2, 1);
      EndAndEnter(Br(condBlock), condBlock);
      var condValue, bodyValue: Option<Operand>;
      ok, condValue := EmitExpr(cond);
      if !ok {
        return false;
      }
      WhileGoesOn(old(State()), cond, body, p);
      EndAndEnter(CondBr(condValue.value, bodyBlock, endBlock), bodyBlock);
      ok, bodyValue := EmitExpr(body);
      if !ok {
        return false;
      }
      WhileMeets(old(State()), cond, body, p);
      EndAndEnter(Br(condBlock), endBlock);
    }

    method VisitAssert(line: nat, cond: Expr) returns (ok: bool)
      requires Ready(State()) && Agrees(Assert(line, cond)) && Marked(Assert(line, cond))
      modifies this
      ensures ok <==> Emittable(Assert(line, cond))
      ensures ok ==> Emission(State(), None) == EmitAssert(Emit(old(State()), cond), line)
      decreases Assert(line, cond), 2
    {
      hide Emit, EmitAssert, AssertPartsOf, Emittable, TypeOf, Ready, Branch, Append, Agrees, Marked;
      AssertNeeds(line, cond);
      ghost var p := AssertPartsOf(Emit(State(), cond), line);
      var condValue: Option<Operand>;
      ok, condValue := EmitExpr(cond);
      if !ok {
        return false;
      }
      AssertMeets(old(State()), line, cond, p);
      var passBlock := CreateBlock();
      var failBlock := CreateBlock();
      var endBlock := CreateBlock();
      CreateTwice(p.c.st, 1, 1);
      CreateTwice(p.c.st, 2, 1);
      EndAndEnter(CondBr(condValue.value, passBlock, failBlock), passBlock);
      Insert(CallAssertPass);
      EndAndEnter(Br(endBlock), failBlock);
      Insert(CallAssertFail(line));
      EndAndEnter(Br(endBlock), endBlock);
    }

    /** The last value that is not null, of the expressions in order. */
    method VisitExpressions(es: seq<Expr>) returns (ok: bool, lastValue: Option<Operand>)
      requires Ready(State()) && forall i | 0 <= i < |es| :: Agrees(es[i]) && Marked(es[i])
      modifies this
      ensures ok <==> forall i | 0 <= i < |es| :: Emittable(es[i])
      ensures ok ==> Emission(State(), lastValue) == EmitSeq(old(State()), es, None)
      decreases es, 0
    {
      lastValue := None;
      for k := 0 to |es|
        invariant Ready(State()) && forall i | 0 <= i < k :: Emittable(es[i])
        invariant EmitSeq(old(State()), es, None) == EmitSeq(State(), es[k..], lastValue)
      {
        assert es[k..][1..] == es[k + 1..];
        ghost var s := State();
        var temp: Option<Operand>;
        ok, temp := EmitExpr(es[k]);
        if !ok {
          return false, None;
        }
        EmitKeeps(s, es[k]);
        if temp.Some? {
          lastValue := temp;
        }
      }
      ok := true;
    }

    /** The body of a function, of the type it returns, and its return. */
    method DefineFunction(body: Expr, ret: Prim) returns (ok: bool)
      requires State() == BEGIN && Agrees(body) && Marked(body) && (ret != Void ==> TypeOf(body) == Some(ret))
      modifies this
      ensures ok <==> BodyFits(body, ret)
      ensures ok ==> State() == EmitFunction(body, ret)
    {
      var returnValue: Option<Operand>;
      ok, returnValue := EmitExpr(body);
      if !ok {
        return false;
      }
      EmitKeeps(BEGIN, body);
      End(Ret(if ret == Void then None else returnValue));
    }
  }

  // ----- what the methods above need of their parts -----

  lemma CastNeeds(t: Prim, x: Expr)
    ensures Emittable(Cast(Explicit, t, x)) <==> Emittable(x) && TypeOf(x).Some? && CastSupported(TypeOf(x).value, t)
    ensures TypeOf(x).Some? && CastSupported(TypeOf(x).value, t) ==> Valued(x)
  {
  }

  lemma LogicalNeeds(op: BinOp, l: Expr, r: Expr)
    requires IsLogical(op) && Agrees(Binary(op, l, r)) && Marked(Binary(op, l, r))
    ensures Agrees(l) && Agrees(r) && Marked(l) && Marked(r)
    ensures Emittable(Binary(op, l, r)) <==> Emittable(l) && Emittable(r)
    ensures Valued(l)
  {
  }

  lemma IfNeeds(cond: Expr, thn: Expr, els: Option<Expr>)
    requires Agrees(If(cond, thn, els)) && Marked(If(cond, thn, els))
    ensures Agrees(cond) && Marked(cond) && Agrees(thn) && Marked(thn) && (els.Some? ==> Agrees(els.value) && Marked(els.value))
    ensures Emittable(If(cond, thn, els)) <==> Emittable(cond) && Emittable(thn) && (els.Some? ==> Emittable(els.value))
    ensures Valued(cond)
  {
  }

  lemma WhileNeeds(cond: Expr, body: Expr)
    requires Agrees(While(cond, body)) && Marked(While(cond, body))
    ensures Agrees(cond) && Marked(cond) && Agrees(body) && Marked(body) && Valued(cond)
    ensures Emittable(While(cond, body)) <==> Emittable(cond) && Emittable(body)
  {
  }

  lemma AssertNeeds(line: nat, cond: Expr)
    requires Agrees(Assert(line, cond)) && Marked(Assert(line, cond))
    ensures Agrees(cond) && Marked(cond)
    ensures Emittable(Assert(line, cond)) <==> Emittable(cond)
  {
  }

  // ----- what they need to know of the states they pass through -----

  lemma LogicalStarts(s: Builder, op: BinOp, l: Expr, r: Expr, p: LogicalParts)
    requires Ready(s) && p == LogicalPartsOf(s, op, l, r)
    ensures Ready(p.s0) && p.s0 == Create(s, 2) && p.x == Emit(p.s0, l) && p.rBlock == |s.blocks| && p.endBlock == |s.blocks| + 1
  {
    CreateKeeps(s, 2);
  }

  /** Up to the right operand, which need not be one that can be emitted. */
  lemma LogicalGoesOn(s: Builder, op: BinOp, l: Expr, r: Expr, p: LogicalParts)
    requires Ready(s) && Emittable(l) && Valued(l) && p == LogicalPartsOf(s, op, l, r)
    ensures Ready(p.x.st) && Ready(p.s2) && p.x.val.Some? && p.y == Emit(p.s2, r)
    ensures p.s2 == Branch(p.x.st, LogicalBranch(op, p.x.val.value, p.rBlock, p.endBlock), p.rBlock)
  {
    hide Keeps, Branch, Create, Detached, Ready, Emit;
    LogicalLays(LogicalPartsOf(s, op, l, LitBool(true)), s, l, LitBool(true));
    EmitKeeps(p.s0, l);
  }

  lemma IfStarts(s: Builder, cond: Expr, thn: Expr, els: Option<Expr>, p: IfParts)
    requires p == IfPartsOf(s, cond, thn, els)
    ensures p.c == Emit(s, cond)
  {
  }

  /** Up to the `then` branch. */
  lemma IfGoesOn(s: Builder, cond: Expr, thn: Expr, els: Option<Expr>, p: IfParts)
    requires Ready(s) && Emittable(cond) && Valued(cond) && p == IfPartsOf(s, cond, thn, els)
    ensures Ready(p.c.st) && Ready(p.s0) && Ready(p.s1) && p.c.val.Some? && p.x == Emit(p.s1, thn)
    ensures p.thenBlock == |p.c.st.blocks| && p.elseBlock == p.thenBlock + 1 && p.endBlock == p.thenBlock + 2
    ensures p.s0 == Create(p.c.st, 3) && p.s1 == Branch(p.s0, CondBr(p.c.val.value, p.thenBlock, p.elseBlock), p.thenBlock)
  {
    hide Keeps, Branch, Create, Detached, Ready, Emit;
    IfLays(IfPartsOf(s, cond, LitBool(true), None), s, cond, LitBool(true), None);
    EmitKeeps(s, cond);
  }

  /** Up to the `else` branch. */
  lemma IfGoesOnAgain(s: Builder, cond: Expr, thn: Expr, els: Option<Expr>, p: IfParts)
    requires Ready(s) && Emittable(cond) && Emittable(thn) && p == IfPartsOf(s, cond, thn, els)
    ensures Ready(p.x.st) && Ready(p.s3) && p.s3 == Branch(p.x.st, Br(p.endBlock), p.elseBlock)
    ensures p.y == if els.Some? then Emit(p.s3, els.value) else Emission(p.s3, None)
  {
    hide Keeps, Branch, Create, Detached, Ready, Emit, Emittable;
    IfLays(IfPartsOf(s, cond, thn, None), s, cond, thn, None);
  }

  lemma WhileStarts(s: Builder, cond: Expr, body: Expr, p: WhileParts)
    requires Ready(s) && p == WhilePartsOf(s, cond, body)
    ensures Ready(p.s0) && Ready(p.s1) && p.condBlock == |s.blocks| && p.bodyBlock == |s.blocks| + 1 && p.endBlock == |s.blocks| + 2
    ensures p.s0 == Create(s, 3) && p.s1 == Branch(p.s0, Br(p.condBlock), p.condBlock) && p.c == Emit(p.s1, cond)
  {
    hide Keeps, Branch, Create, Detached, Ready, Emit;
    WhileLays(WhilePartsOf(s, LitBool(true), LitBool(true)), s, LitBool(true), LitBool(true));
  }

  /** Up to the body. */
  lemma WhileGoesOn(s: Builder, cond: Expr, body: Expr, p: WhileParts)
    requires Ready(s) && Emittable(cond) && Valued(cond) && p == WhilePartsOf(s, cond, body)
    ensures Ready(p.c.st) && Ready(p.s3) && p.c.val.Some? && p.x == Emit(p.s3, body)
    ensures p.s3 == Branch(p.c.st, CondBr(p.c.val.value, p.bodyBlock, p.endBlock), p.bodyBlock)
  {
    hide Keeps, Branch, Create, Detached, Ready, Emit;
    WhileStarts(s, cond, body, p);
    WhileLays(WhilePartsOf(s, cond, LitBool(true)), s, cond, LitBool(true));
    EmitKeeps(p.s1, cond);
  }

  lemma CreateTwice(s: Builder, m: nat, n: nat)
    ensures Create(Create(s, m), n) == Create(s, m + n)
  {
  }

  lemma BranchMeans(s: Builder, t: Term, b: BlockId)
    ensures Branch(s, t, b) == Terminate(s, t).(order := s.order + [b], cur := b)
  {
  }

  lemma LogicalMeets(s: Builder, op: BinOp, l: Expr, r: Expr, p: LogicalParts)
    requires Ready(s) && Emittable(Binary(op, l, r)) && IsLogical(op) && p == LogicalPartsOf(s, op, l, r)
    ensures Emittable(l) && Emittable(r) && Ready(p.s0) && Ready(p.x.st) && Ready(p.s2) && Ready(p.y.st) && Ready(p.s4)
    ensures p.rBlock == |s.blocks| && p.endBlock == |s.blocks| + 1
    ensures p.s2 == Branch(p.x.st, p.t, p.rBlock) && p.s4 == Branch(p.y.st, Br(p.endBlock), p.endBlock)
    ensures p.x == Emit(p.s0, l) && p.y == Emit(p.s2, r) && p.s0 == Create(s, 2) && p.x.val.Some? && p.y.val.Some?
    ensures p.t == LogicalBranch(op, p.x.val.value, p.rBlock, p.endBlock)
    ensures EmitLogical(s, op, l, r) == Emission(AppendReg(p.s4, LogicalPhi(op, p.s4.nextReg, s.cur, p.y.val.value, p.rBlock)), Some(Fresh(p.s4)))
  {
    LogicalLays(p, s, l, r);
    EmitKeeps(p.s0, l);
    EmitKeeps(p.s2, r);
  }

  lemma IfMeets(s: Builder, cond: Expr, thn: Expr, els: Option<Expr>, p: IfParts)
    requires Ready(s) && Emittable(If(cond, thn, els)) && p == IfPartsOf(s, cond, thn, els)
    ensures Emittable(cond) && Emittable(thn) && (els.Some? ==> Emittable(els.value))
    ensures Ready(p.c.st) && Ready(p.s0) && Ready(p.s1) && Ready(p.x.st) && Ready(p.s3) && Ready(p.y.st) && Ready(p.s5)
    ensures p.thenBlock == |p.c.st.blocks| && p.elseBlock == p.thenBlock + 1 && p.endBlock == p.thenBlock + 2
        && p.c.val.Some?
    ensures p.c == Emit(s, cond) && p.x == Emit(p.s1, thn) && p.y == if els.Some? then Emit(p.s3, els.value) else Emission(p.s3, None)
    ensures p.s0 == Create(p.c.st, 3) && p.s1 == Branch(p.s0, CondBr(p.c.val.value, p.thenBlock, p.elseBlock), p.thenBlock)
    ensures p.s3 == Branch(p.x.st, Br(p.endBlock), p.elseBlock) && p.s5 == Branch(p.y.st, Br(p.endBlock), p.endBlock)
    ensures EmitIf(s, cond, thn, els)
         == if Valued(If(cond, thn, els)) then
              Emission(AppendReg(p.s5, Phi(p.s5.nextReg, [(Get(p.x.val), p.x.st.cur), (Get(p.y.val), p.y.st.cur)])), Some(Fresh(p.s5)))
            else Emission(p.s5, None)
  {
    hide Keeps, Branch, Create, Detached, Ready, Emit, EmitIf, Emittable, LogicalOk, IfPartsOf, AppendReg;
    IfPartFacts(s, cond, thn, els, p);
    IfMeaning(s, cond, thn, els, p);
    IfLays(p, s, cond, thn, els);
    EmitKeeps(s, cond);
  }

  lemma IfMeaning(s: Builder, cond: Expr, thn: Expr, els: Option<Expr>, p: IfParts)
    requires p == IfPartsOf(s, cond, thn, els) && Emittable(If(cond, thn, els))
    ensures EmitIf(s, cond, thn, els).val == (if p.valued then Some(Fresh(p.s5)) else None) && p.valued == Valued(If(cond, thn, els))
    ensures Valued(cond)
  {
  }

  lemma WhileMeets(s: Builder, cond: Expr, body: Expr, p: WhileParts)
    requires Ready(s) && Emittable(While(cond, body)) && p == WhilePartsOf(s, cond, body)
    ensures Emittable(cond) && Emittable(body)
    ensures Ready(p.s0) && Ready(p.s1) && Ready(p.c.st) && Ready(p.s3) && Ready(p.x.st) && Ready(p.s5)
    ensures p.condBlock == |s.blocks| && p.bodyBlock == |s.blocks| + 1 && p.endBlock == |s.blocks| + 2 && p.c.val.Some?
    ensures p.s0 == Create(s, 3) && p.s1 == Branch(p.s0, Br(p.condBlock), p.condBlock) && p.c == Emit(p.s1, cond)
    ensures p.s3 == Branch(p.c.st, CondBr(p.c.val.value, p.bodyBlock, p.endBlock), p.bodyBlock) && p.x == Emit(p.s3, body)
    ensures p.s5 == Branch(p.x.st, Br(p.condBlock), p.endBlock) && EmitWhile(s, cond, body) == Emission(p.s5, None)
  {
    hide Keeps, Branch, Create, Detached, Ready, Emit, EmitWhile, Emittable, WhilePartsOf, WhileLaid;
    WhileDefs(s, cond, body, p);
    WhileLays(p, s, cond, body);
    WhileReady(p, s);
    EmitKeeps(p.s1, cond);
  }

  lemma WhileDefs(s: Builder, cond: Expr, body: Expr, p: WhileParts)
    requires Emittable(While(cond, body)) && p == WhilePartsOf(s, cond, body)
    ensures Emittable(cond) && Emittable(body) && Valued(cond)
    ensures p.condBlock == |s.blocks| && p.bodyBlock == |s.blocks| + 1 && p.endBlock == |s.blocks| + 2
    ensures p.s0 == Create(s, 3) && p.s1 == Branch(p.s0, Br(p.condBlock), p.condBlock) && p.c == Emit(p.s1, cond)
    ensures p.t == CondBr(Get(p.c.val), p.bodyBlock, p.endBlock) && p.s3 == Branch(p.c.st, p.t, p.bodyBlock) && p.x == Emit(p.s3, body)
    ensures p.s5 == Branch(p.x.st, Br(p.condBlock), p.endBlock) && EmitWhile(s, cond, body) == Emission(p.s5, None)
  {
    hide Branch, Create, Emit;
  }

  lemma WhileReady(p: WhileParts, s: Builder)
    requires WhileLaid(p, s)
    ensures Ready(p.s0) && Ready(p.s1) && Ready(p.c.st) && Ready(p.s3) && Ready(p.x.st) && Ready(p.s5)
  {
    hide Keeps, Branch, Create, Detached;
  }

  lemma AssertMeets(s: Builder, line: nat, cond: Expr, p: AssertParts)
    requires Ready(s) && Emittable(Assert(line, cond)) && p == AssertPartsOf(Emit(s, cond), line)
    ensures Emittable(cond) && p.c == Emit(s, cond) && p.c.val.Some?
    ensures Ready(p.c.st) && Ready(p.s0) && Ready(p.s1) && Ready(p.s2) && Ready(p.s3) && Ready(p.s4)
    ensures p.passBlock == |p.c.st.blocks| && p.failBlock == p.passBlock + 1 && p.endBlock == p.passBlock + 2
    ensures p.s0 == Create(p.c.st, 3) && p.s1 == Branch(p.s0, CondBr(p.c.val.value, p.passBlock, p.failBlock), p.passBlock)
    ensures p.s2 == Append(p.s1, CallAssertPass) && p.s3 == Branch(p.s2, Br(p.endBlock), p.failBlock)
    ensures p.s4 == Append(p.s3, CallAssertFail(line))
        && EmitAssert(p.c, line) == Emission(Branch(p.s4, Br(p.endBlock), p.endBlock), None)
  {
    hide Keeps, Branch, Create, Detached, Ready, Append, Emit, Emittable, TypeOf;
    AssertDefs(s, line, cond, p);
    EmitKeeps(s, cond);
    AssertLays(p, p.c, line);
  }

  lemma AssertDefs(s: Builder, line: nat, cond: Expr, p: AssertParts)
    requires Emittable(Assert(line, cond)) && p == AssertPartsOf(Emit(s, cond), line)
    ensures Emittable(cond) && p.c == Emit(s, cond) && Valued(cond)
  {
  }
}
