/** Values have the types of the trees that yield them. */
module Typing {
  import opened Common
  import opened Types
  import opened Tree
  import opened Values
  import opened Eval
  import opened Machine
  import opened Emitter

  predicate TypedOutcome(e: Expr, o: Outcome) {
    o.Done? ==> TypedMem(o.mem) && (Valued(e) ==> o.value.Some? && TagOf(o.value.value) == TypeOf(e).value)
  }

  lemma ApplyTyped(ops: FloatOps, t: Prim, op: BinOp, a: Outcome, b: Value)
    requires OpcodeFor(t, op).Some? && TagOf(b) == t
    ensures HasValue(a) && TagOf(a.value.value) == t && Apply(ops, op, a.value.value, b).Some? ==>
              TagOf(Apply(ops, op, a.value.value, b).value) == (if IsComparison(op) then Bool else t)
  {
  }

  lemma OpcodeMeaning(ops: FloatOps, t: Prim, op: BinOp, a: Value, b: Value)
    requires OpcodeFor(t, op).Some? && TagOf(a) == t && TagOf(b) == t
    ensures RunOpcode(ops, OpcodeFor(t, op).value, a, b) == Apply(ops, op, a, b)
  {
  }

  lemma ConvMeaning(ops: FloatOps, from: Prim, to: Prim, a: Value)
    requires CastSupported(from, to) && TagOf(a) == from && from != to
    ensures RunConv(ops, ConvFor(from, to), a) == Convert(ops, to, a)
  {
  }

  /** Evaluation keeps variables at their types, and a valued tree yields a value of its type. */
  lemma {:induction false} EvalTyped(ops: FloatOps, e: Expr, m: Mem, fuel: nat)
    requires Emittable(e) && TypedMem(m)
    ensures TypedOutcome(e, EvalExpr(ops, e, m, fuel))
    decreases fuel, e, 1
  {
    match e
    case Binary(op, l, r) => EvalBinaryTyped(ops, op, l, r, m, fuel);
    case Cast(_, _, v) => EvalTyped(ops, v, m, fuel);
    case If(cond, thn, els) =>
      EvalTyped(ops, cond, m, fuel);
      var o := EvalExpr(ops, cond, m, fuel);
      if o.Done? {
        EvalTyped(ops, thn, o.mem, fuel);
        if els.Some? { EvalTyped(ops, els.value, o.mem, fuel); }
      }
    case While(cond, body) => EvalWhileTyped(ops, cond, body, m, fuel);
    case Assert(_, cond) => EvalTyped(ops, cond, m, fuel);
    case Compound(es) => EvalSeqTyped(ops, es, m, None, fuel);
    case _ =>
  }

  lemma {:induction false} EvalBinaryTyped(ops: FloatOps, op: BinOp, l: Expr, r: Expr, m: Mem, fuel: nat)
    requires Emittable(Binary(op, l, r)) && TypedMem(m)
    ensures TypedOutcome(Binary(op, l, r), EvalExpr(ops, Binary(op, l, r), m, fuel))
    decreases fuel, Binary(op, l, r), 0
  {
    if IsLogical(op) {
      EvalTyped(ops, l, m, fuel);
      var o := EvalExpr(ops, l, m, fuel);
      if o.Done? { EvalTyped(ops, r, o.mem, fuel); }
    } else {
      EvalTyped(ops, r, m, fuel);
      var o := EvalExpr(ops, r, m, fuel);
      if op != Assign && o.Done? {
        EvalTyped(ops, l, o.mem, fuel);
        ApplyTyped(ops, TypeOf(r).value, op, EvalExpr(ops, l, o.mem, fuel), o.value.value);
        assert EvalExpr(ops, Binary(op, l, r), m, fuel) == EvalOperator(ops, Binary(op, l, r), o.mem, o.value.value, fuel);
      }
    }
  }

  lemma {:induction false} EvalSeqTyped(ops: FloatOps, es: seq<Expr>, m: Mem, last: Option<Value>, fuel: nat)
    requires (forall i | 0 <= i < |es| :: Emittable(es[i])) && TypedMem(m)
    ensures var o := EvalSeq(ops, es, m, last, fuel);
            o.Done? ==> TypedMem(o.mem) && (es != [] ==> TypedOutcome(es[|es| - 1], o))
    decreases fuel, es, 0
  {
    if es != [] {
      EvalTyped(ops, es[0], m, fuel);
      var o := EvalExpr(ops, es[0], m, fuel);
      if o.Done? {
        EvalSeqTyped(ops, es[1..], o.mem, if o.value.Some? then o.value else last, fuel);
      }
    }
  }

  lemma {:induction false} EvalWhileTyped(ops: FloatOps, cond: Expr, body: Expr, m: Mem, fuel: nat)
    requires Emittable(While(cond, body)) && TypedMem(m)
    ensures var o := EvalWhile(ops, cond, body, m, fuel); o.Done? ==> TypedMem(o.mem)
    decreases fuel, While(cond, body), 0
  {
    if fuel > 0 {
      EvalTyped(ops, cond, m, fuel);
      var o := EvalExpr(ops, cond, m, fuel);
      if o.Done? {
        EvalTyped(ops, body, o.mem, fuel - 1);
        var o2 := EvalExpr(ops, body, o.mem, fuel - 1);
        if o2.Done? { EvalWhileTyped(ops, cond, body, o2.mem, fuel - 1); }
      }
    }
  }
}
