/** The meaning of a tree whose operand types already agree: a fuel-indexed evaluator.
    Only `while` consumes fuel; an evaluation ends if it ends for some fuel. */
module Eval {
  import opened Common
  import opened Types
  import opened Tree
  import opened Values

  function EvalExpr(ops: FloatOps, e: Expr, m: Mem, fuel: nat): Outcome
    decreases fuel, e, 2
  {
    match e
    case LitInt(n) => Done(m, Some(IntV(n)))
    case LitFloat(f) => Done(m, Some(FloatV(f)))
    case LitBool(b) => Done(m, Some(BoolV(b)))
    case Var(sym, _) => if sym in m.vars then Done(m, Some(m.vars[sym])) else Stuck
    case Binary(op, _, _) =>
      if IsLogical(op) then EvalLogical(ops, e, m, fuel)
      else if op == Assign then EvalAssign(ops, e, m, fuel)
      else EvalArithmetic(ops, e, m, fuel)
    case Cast(_, t, v) => EvalCast(ops, t, EvalExpr(ops, v, m, fuel))
    case If(_, _, _) => EvalIf(ops, e, m, fuel)
    case While(cond, body) => EvalWhile(ops, cond, body, m, fuel)
    case Assert(line, cond) => EvalAssert(line, EvalExpr(ops, cond, m, fuel))
    case Compound(es) => EvalSeq(ops, es, m, None, fuel)
  }

  /** The outcome of a part that must yield a value before the whole can go on. */
  predicate HasValue(o: Outcome) {
    o.Done? && o.value.Some?
  }

  predicate HasBool(o: Outcome) {
    o.Done? && o.value.Some? && o.value.value.BoolV?
  }

  /** What the whole does when a part did not yield what is needed: it ends as the part did. */
  function Propagate(o: Outcome): Outcome {
    if o.Done? then Stuck else o
  }

  /** A logical operator evaluates its left operand first, and the right one only when the
      left has not decided. */
  function EvalLogical(ops: FloatOps, e: Expr, m: Mem, fuel: nat): Outcome
    requires e.Binary?
    decreases fuel, e, 1
  {
    var o := EvalExpr(ops, e.l, m, fuel);
    if !HasBool(o) then Propagate(o)
    else if o.value.value.b == (e.op == LOr) then o
    else
      var o2 := EvalExpr(ops, e.r, o.mem, fuel);
      if HasBool(o2) then o2 else Propagate(o2)
  }

  function EvalAssign(ops: FloatOps, e: Expr, m: Mem, fuel: nat): Outcome
    requires e.Binary?
    decreases fuel, e, 1
  {
    var o := EvalExpr(ops, e.r, m, fuel);
    if !HasValue(o) then Propagate(o)
    else if e.l.Var? then Done(o.mem.(vars := o.mem.vars[e.l.sym := o.value.value]), o.value)
    else Stuck
  }

  /** An arithmetic or comparison operator evaluates its right operand first. */
  function EvalArithmetic(ops: FloatOps, e: Expr, m: Mem, fuel: nat): Outcome
    requires e.Binary?
    decreases fuel, e, 1
  {
    var o := EvalExpr(ops, e.r, m, fuel);
    if HasValue(o) then EvalOperator(ops, e, o.mem, o.value.value, fuel) else Propagate(o)
  }

  function EvalOperator(ops: FloatOps, e: Expr, m: Mem, vr: Value, fuel: nat): Outcome
    requires e.Binary?
    decreases fuel, e, 0
  {
    var o := EvalExpr(ops, e.l, m, fuel);
    if HasValue(o) then Yield(o.mem, Apply(ops, e.op, o.value.value, vr)) else Propagate(o)
  }

  function Yield(m: Mem, v: Option<Value>): Outcome {
    if v.Some? then Done(m, v) else Stuck
  }

  function EvalCast(ops: FloatOps, t: Prim, o: Outcome): Outcome {
    if HasValue(o) then Yield(o.mem, Convert(ops, t, o.value.value)) else Propagate(o)
  }

  function EvalIf(ops: FloatOps, e: Expr, m: Mem, fuel: nat): Outcome
    requires e.If?
    decreases fuel, e, 1
  {
    var o := EvalExpr(ops, e.cond, m, fuel);
    if !HasBool(o) then Propagate(o)
    else if o.value.value.b then IfValue(e, EvalExpr(ops, e.thn, o.mem, fuel))
    else if e.els.Some? then IfValue(e, EvalExpr(ops, e.els.value, o.mem, fuel))
    else Done(o.mem, None)
  }

  function EvalAssert(line: nat, o: Outcome): Outcome {
    if !HasBool(o) then Propagate(o)
    else if o.value.value.b then Done(o.mem.(passes := o.mem.passes + 1), None)
    else AssertFailed(line, o.mem)
  }

  /** An `if` has a value only when its type is not Void. */
  function IfValue(e: Expr, o: Outcome): Outcome {
    if o.Done? && !Valued(e) then Done(o.mem, None) else o
  }

  /** A sequence yields the value of its last valued member. */
  function EvalSeq(ops: FloatOps, es: seq<Expr>, m: Mem, last: Option<Value>, fuel: nat): Outcome
    decreases fuel, es, 0
  {
    if es == [] then Done(m, last)
    else
      var o := EvalExpr(ops, es[0], m, fuel);
      if o.Done? then EvalSeq(ops, es[1..], o.mem, if o.value.Some? then o.value else last, fuel)
      else o
  }

  function EvalWhile(ops: FloatOps, cond: Expr, body: Expr, m: Mem, fuel: nat): Outcome
    decreases fuel, While(cond, body), 1
  {
    if fuel == 0 then Timeout
    else
      var o := EvalExpr(ops, cond, m, fuel);
      if !HasBool(o) then Propagate(o)
      else if !o.value.value.b then Done(o.mem, None)
      else
        var o2 := EvalExpr(ops, body, o.mem, fuel - 1);
        if o2.Done? then EvalWhile(ops, cond, body, o2.mem, fuel - 1) else o2
  }

  // ----- typing of values -----

  predicate Valued(e: Expr) {
    TypeOf(e).Some? && TypeOf(e) != Some(Void)
  }

  /** Every variable holds a value of its type. */
  predicate TypedMem(m: Mem) {
    forall s | s in m.vars :: TagOf(m.vars[s]) == s.ty
  }
}
