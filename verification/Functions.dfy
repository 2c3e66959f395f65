/** A whole function: its body is emitted into a fresh "begin" block and a return closes the
    block where emission ended.  Running it is evaluating the body. */
module Functions {
  import opened Common
  import opened Types
  import opened Tree
  import opened Values
  import opened Eval
  import opened Machine
  import opened Emitter
  import opened EmitterFrame
  import opened Typing
  import opened Runs
  import opened Simulation

  const BEGIN := Builder([EMPTY_BLOCK], [0], 0, 0)

  /** The body may be used as the body of a function with result type `ret`. */
  predicate BodyFits(body: Expr, ret: Prim) {
    Emittable(body) && (ret != Void ==> TypeOf(body) == Some(ret))
  }

  function Return(x: Emission, ret: Prim): Term {
    Ret(if ret == Void then None else x.val)
  }

  function EmitFunction(body: Expr, ret: Prim): Builder {
    var x := Emit(BEGIN, body);
    Terminate(x.st, Return(x, ret))
  }

  /** Where a call starts, with the arguments already stored in their variables. */
  function Entry(m: Mem): Config {
    Config(0, 0, 0, map[], m)
  }

  function Call(ops: FloatOps, body: Expr, ret: Prim, m: Mem, n: nat): Run {
    Steps(ops, EmitFunction(body, ret).blocks, Entry(m), n)
  }

  /** How a call ends when the evaluation of its body ends with `o`. */
  function Ending(o: Outcome, ret: Prim): Run
    requires !o.Timeout?
  {
    match o
    case Done(m, v) => Halted(m, if ret == Void then None else v)
    case AssertFailed(line, m) => Failed(line, m)
    case Stuck => Undefined
  }

  predicate EvalEnds(ops: FloatOps, body: Expr, ret: Prim, m: Mem, fuel: nat, r: Run) {
    var o := EvalExpr(ops, body, m, fuel);
    !o.Timeout? && Ending(o, ret) == r
  }

  lemma ClosedWithin(s: Builder, t: Term)
    requires Ready(s)
    ensures Within(Terminate(s, t), Terminate(s, t).blocks) && Within(s, Terminate(s, t).blocks)
  {
  }

  lemma BeginReady(m: Mem)
    ensures Ready(BEGIN) && AtPoint(BEGIN, Entry(m))
  {
  }

  lemma ReturnStep(ops: FloatOps, x: Emission, ret: Prim, c: Config, v: Option<Value>)
    requires SameValue(c.regs, x.val, v) && (ret != Void ==> v.Some?)
    ensures StepTerm(Return(x, ret), c) == Halted(c.mem, if ret == Void then None else v)
  {
  }

  /** One evaluation determines the call: it ends the same way, or it is still running after
      as many steps as there was fuel. */
  lemma {:induction false} CallFollows(ops: FloatOps, body: Expr, ret: Prim, m: Mem, fuel: nat) returns (n: nat)
    requires BodyFits(body, ret) && LogicalOk(body) && TypedMem(m)
    ensures var o := EvalExpr(ops, body, m, fuel);
            if o.Timeout? then n >= fuel && Call(ops, body, ret, m, n).At?
            else Call(ops, body, ret, m, n) == Ending(o, ret)
  {
    hide Within, Ready, Keeps, Emit, EvalExpr, Emittable, LogicalOk, TypeOf, TypedMem, AtPoint, Terminate,
         SameValue, Steps, StepTerm, Agree;
    var x, o, g := Emit(BEGIN, body), EvalExpr(ops, body, m, fuel), EmitFunction(body, ret).blocks;
    BeginReady(m);
    EmitKeeps(BEGIN, body);
    ClosedWithin(x.st, Return(x, ret));
    n := Sim(ops, g, BEGIN, body, Entry(m), fuel);
    if o.Done? {
      var c := Steps(ops, g, Entry(m), n).c;
      EvalTyped(ops, body, m, fuel);
      assert ret != Void ==> Valued(body);
      ReturnStep(ops, x, ret, c, o.value);
      StepTerminate(ops, g, x.st, Return(x, ret), c);
      StepsCompose(ops, g, Entry(m), n, 1, c);
      n := n + 1;
    }
  }

  /** A call ends in one way only, and once it has ended it stays so. */
  lemma CallEndsOnce(ops: FloatOps, body: Expr, ret: Prim, m: Mem, n: nat, n2: nat)
    requires !Call(ops, body, ret, m, n).At?
    ensures Call(ops, body, ret, m, n2) == Call(ops, body, ret, m, n) || (n2 < n && Call(ops, body, ret, m, n2).At?)
  {
    hide Steps, EmitFunction;
    var g := EmitFunction(body, ret).blocks;
    if n <= n2 {
      StepsFinal(ops, g, Entry(m), n, n2);
    } else if !Call(ops, body, ret, m, n2).At? {
      StepsFinal(ops, g, Entry(m), n2, n);
    }
  }

  /** Emission preserves meaning, in both directions: a call ends in a way exactly when the
      evaluation of its body does. */
  lemma {:induction false} EmissionPreservesMeaning(ops: FloatOps, body: Expr, ret: Prim, m: Mem, r: Run)
    requires BodyFits(body, ret) && LogicalOk(body) && TypedMem(m) && !r.At?
    ensures (exists n: nat :: Call(ops, body, ret, m, n) == r) <==> (exists fuel: nat :: EvalEnds(ops, body, ret, m, fuel, r))
  {
    hide BodyFits, LogicalOk, EvalExpr, TypedMem, Call;
    if fuel: nat :| EvalEnds(ops, body, ret, m, fuel, r) {
      var n := CallFollows(ops, body, ret, m, fuel);
    }
    if n: nat :| Call(ops, body, ret, m, n) == r {
      var n2 := CallFollows(ops, body, ret, m, n + 1);
      CallEndsOnce(ops, body, ret, m, n, n2);
      assert EvalEnds(ops, body, ret, m, n + 1, r);
    }
  }

  /** A call runs for ever exactly when the evaluation of its body does. */
  lemma {:induction false} EmissionPreservesDivergence(ops: FloatOps, body: Expr, ret: Prim, m: Mem)
    requires BodyFits(body, ret) && LogicalOk(body) && TypedMem(m)
    ensures (forall n: nat :: Call(ops, body, ret, m, n).At?) <==> (forall fuel: nat :: EvalExpr(ops, body, m, fuel).Timeout?)
  {
    hide BodyFits, LogicalOk, EvalExpr, TypedMem, Call;
    if fuel: nat :| !EvalExpr(ops, body, m, fuel).Timeout? {
      var n := CallFollows(ops, body, ret, m, fuel);
      assert !Call(ops, body, ret, m, n).At?;
    }
    if n: nat :| !Call(ops, body, ret, m, n).At? {
      EmissionPreservesMeaning(ops, body, ret, m, Call(ops, body, ret, m, n));
    }
  }
}
