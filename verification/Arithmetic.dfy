/** What operators and conversions compute, said without the functions that the evaluator and the machine
    share: remainders, signs, and which operators there are. */
module Arithmetic {
  import opened Common
  import opened Types
  import opened Tree
  import opened Values
  import opened Eval
  import opened Machine
  import opened Emitter
  import opened Typing

  const TWO_TO_32 := 0x1_0000_0000

  /** The sum, difference or product over all integers. */
  function Exact(op: BinOp, x: int, y: int): int
    requires op in {Add, Sub, Mul}
  {
    if op == Add then x + y else if op == Sub then x - y else x * y
  }

  /** `z` and `n` differ by a multiple of 2^32. */
  predicate Congruent(z: int, n: int) {
    (z - n) % TWO_TO_32 == 0
  }

  lemma WrapCongruent(x: int)
    ensures Congruent(Wrap(x), x)
  {
    var k := (x + 0x8000_0000) / TWO_TO_32;
    assert Wrap(x) - x == -k * TWO_TO_32;
  }

  /** There is one 32-bit integer congruent to a number. */
  lemma CongruentOnce(a: Int, b: Int, n: int)
    requires Congruent(a, n) && Congruent(b, n)
    ensures a == b
  {
    var i, j := (a - n) / TWO_TO_32, (b - n) / TWO_TO_32;
    assert a - b == (i - j) * TWO_TO_32;
  }

  /** Sums, differences and products of ints, in the evaluation as in the emitted code, are the integer that
      fits 32 bits and differs from the exact result by a multiple of 2^32. */
  lemma IntegersWrap(ops: FloatOps, op: BinOp, x: Int, y: Int, z: Int)
    requires op in {Add, Sub, Mul}
    ensures Apply(ops, op, IntV(x), IntV(y)) == Some(IntV(z)) <==> Congruent(z, Exact(op, x, y))
    ensures RunOpcode(ops, OpcodeFor(Int32, op).value, IntV(x), IntV(y)) == Some(IntV(z)) <==> Congruent(z, Exact(op, x, y))
  {
    var n := Exact(op, x, y);
    OpcodeMeaning(ops, Int32, op, IntV(x), IntV(y));
    WrapCongruent(n);
    if Congruent(z, n) { CongruentOnce(z, Wrap(n), n); }
  }

  /** What truncation leaves over: less than the divisor in size, and of the sign of the dividend. */
  predicate LeftOver(a: int, b: int, rest: int) {
    Abs(rest) < Abs(b) && (rest != 0 ==> (rest > 0 <==> a > 0))
  }

  lemma Times(d: nat, q: nat, n: nat)
    requires d != 0 && n >= d * q
    ensures q <= n && (d > 1 && q > 0 ==> 2 * q <= n)
  {
    assert d * q == q + (d - 1) * q;
    Product(d - 1, q);
    if d > 1 {
      assert d * q == 2 * q + (d - 2) * q;
      Product(d - 2, q);
    }
  }

  lemma TimesExact(n: nat, d: nat, q: nat, r: nat)
    requires d != 0 && q == n / d && r == n % d
    ensures n == d * q + r && r < d
  {
  }

  lemma Quotient(n: nat, d: nat) returns (q: nat, r: nat)
    requires d != 0
    ensures q == n / d && r < d && n == d * q + r && q <= n && (d > 1 && q > 0 ==> 2 * q <= n)
  {
    q, r := n / d, n % d;
    TimesExact(n, d, q, r);
    Times(d, q, n);
  }

  lemma TruncLeftOver(a: int, b: int)
    requires b != 0
    ensures LeftOver(a, b, a - b * TruncDiv(a, b)) && Abs(TruncDiv(a, b)) <= Abs(a)
  {
    var n, d := Abs(a), Abs(b);
    var q, r := Quotient(n, d);
    Signs(b, d, q);
    if a >= 0 {
      assert a - b * TruncDiv(a, b) == r;
    } else {
      assert b * TruncDiv(a, b) - a == r;
    }
  }

  lemma Signs(b: int, d: int, q: int)
    requires d == Abs(b)
    ensures b * q == (if b > 0 then d * q else -(d * q)) && b * -q == -(b * q)
  {
  }

  /** There is one such quotient. */
  lemma QuotientOnce(a: int, b: int, p: int, q: int)
    requires b != 0 && LeftOver(a, b, a - b * p) && LeftOver(a, b, a - b * q)
    ensures p == q
  {
    var u, v := a - b * p, a - b * q;
    assert Abs(u - v) < Abs(b);
    assert u - v == b * (q - p);
    if p != q {
      assert Abs(b * (q - p)) >= Abs(b) by { Bigger(b, q - p); }
    }
  }

  lemma Bigger(b: int, k: int)
    requires k != 0
    ensures Abs(b * k) >= Abs(b)
  {
    Signs(b, Abs(b), k);
    Signs(k, Abs(k), Abs(b));
    assert Abs(b) * Abs(k) == Abs(b) + Abs(b) * (Abs(k) - 1);
    assert Abs(b) * (Abs(k) - 1) >= 0 by { Product(Abs(b), Abs(k) - 1); }
    assert Abs(b) * k == (if k > 0 then Abs(b) * Abs(k) else -(Abs(b) * Abs(k)));
  }

  lemma Product(m: nat, n: nat)
    ensures m * n >= 0
  {
  }

  /** Division of ints truncates, in the evaluation as in the emitted code, and is undefined exactly when the
      divisor is zero or the quotient does not fit 32 bits. */
  lemma DivisionTruncates(ops: FloatOps, x: Int, y: Int, q: Int)
    ensures Apply(ops, Div, IntV(x), IntV(y)) == Some(IntV(q)) <==> y != 0 && LeftOver(x, y, x - y * q)
    ensures RunOpcode(ops, OpcodeFor(Int32, Div).value, IntV(x), IntV(y)) == Apply(ops, Div, IntV(x), IntV(y))
    ensures Apply(ops, Div, IntV(x), IntV(y)).None? <==> y == 0 || (x == -0x8000_0000 && y == -1)
  {
    OpcodeMeaning(ops, Int32, Div, IntV(x), IntV(y));
    if y != 0 {
      var t := TruncDiv(x, y);
      TruncLeftOver(x, y);
      if y != 0 && LeftOver(x, y, x - y * q) { QuotientOnce(x, y, t, q); }
      if x == -0x8000_0000 && y == -1 {
        assert t == 0x8000_0000;
      } else {
        QuotientFits(x, y);
        assert Wrap(t) == t;
      }
    }
  }

  lemma QuotientFits(x: Int, y: Int)
    requires y != 0 && !(x == -0x8000_0000 && y == -1)
    ensures -0x8000_0000 <= TruncDiv(x, y) < 0x8000_0000
  {
    var q, r := Quotient(Abs(x), Abs(y));
    assert TruncDiv(x, y) == q || TruncDiv(x, y) + q == 0;
  }

  /** Less is less; greater is less the other way round, and the other comparisons are what is left. */
  lemma ComparisonsOfInts(ops: FloatOps, x: Int, y: Int)
    ensures Apply(ops, Lt, IntV(x), IntV(y)) == Some(BoolV(y - x > 0))
    ensures Apply(ops, Gt, IntV(x), IntV(y)) == Apply(ops, Lt, IntV(y), IntV(x))
    ensures Apply(ops, Lte, IntV(x), IntV(y)) == Negated(Apply(ops, Lt, IntV(y), IntV(x)))
    ensures Apply(ops, Gte, IntV(x), IntV(y)) == Negated(Apply(ops, Lt, IntV(x), IntV(y)))
    ensures Apply(ops, NotEq, IntV(x), IntV(y)) == Negated(Apply(ops, Eq, IntV(x), IntV(y)))
    ensures Apply(ops, Eq, IntV(x), IntV(y)) == Some(BoolV(true)) <==> x == y
  {
  }

  function Negated(v: Option<Value>): Option<Value> {
    if v.Some? && v.value.BoolV? then Some(BoolV(!v.value.b)) else None
  }

  /** An int becomes true exactly when it is not zero. */
  lemma IntsAsBools(ops: FloatOps, x: Int)
    ensures Convert(ops, Bool, IntV(x)) == Apply(ops, NotEq, IntV(x), IntV(0))
    ensures RunConv(ops, ConvFor(Int32, Bool), IntV(x)) == Apply(ops, NotEq, IntV(x), IntV(0))
  {
  }

  /** `&&` and `||` are conjunction and disjunction, and the right operand runs only when the left one has not
      decided. */
  lemma LogicalTable(ops: FloatOps, op: BinOp, l: Expr, r: Expr, m: Mem, m1: Mem, m2: Mem, a: bool, b: bool, fuel: nat)
    requires IsLogical(op) && EvalExpr(ops, l, m, fuel) == Done(m1, Some(BoolV(a)))
    requires EvalExpr(ops, r, m1, fuel) == Done(m2, Some(BoolV(b)))
    ensures var both := if op == LAnd then a && b else a || b;
            EvalExpr(ops, Binary(op, l, r), m, fuel) == Done(if a == (op == LAnd) then m2 else m1, Some(BoolV(both)))
  {
  }

  // ----- which operators and conversions there are -----

  ghost predicate HasMeaning(t: Prim, op: BinOp) {
    exists ops: FloatOps, a: Value, b: Value :: TagOf(a) == t && TagOf(b) == t && Apply(ops, op, a, b).Some?
  }

  ghost predicate HasConversion(from: Prim, to: Prim) {
    exists ops: FloatOps, v: Value :: TagOf(v) == from && Convert(ops, to, v).Some?
  }

  ghost predicate HasValues(t: Prim) {
    exists v: Value :: TagOf(v) == t
  }

  /** Float operations that always have a result. */
  const SOME_OPS := FloatOps((a, b) => a, (a, b) => a, (a, b) => a, (a, b) => a,
                             (a, b) => true, (a, b) => true, (a, b) => true, (a, b) => true, (a, b) => true, (a, b) => true,
                             n => 0, f => Some(0), f => true)

  function SomeValue(t: Prim): Value
    requires t != Void
  {
    match t
    case Int32 => IntV(1)
    case Float => FloatV(0)
    case Double => DoubleV(0)
    case Bool => BoolV(true)
  }

  /** There is an instruction for an operator on a type exactly when the operator means something there, and
      only for bools, ints and floats. */
  lemma OpcodesExactly(t: Prim, op: BinOp)
    ensures OpcodeFor(t, op).Some? <==> HasMeaning(t, op)
    ensures OpcodeFor(t, op).Some? <==> if t == Bool then op in {Eq, NotEq} else t in {Int32, Float} && op !in {Assign, LAnd, LOr}
  {
    if OpcodeFor(t, op).Some? {
      var v := SomeValue(t);
      assert Apply(SOME_OPS, op, v, v).Some?;
    }
  }

  /** There is a conversion between two types exactly when values of one have a meaning in the other. */
  lemma ConversionsExactly(from: Prim, to: Prim)
    ensures CastSupported(from, to) <==> HasConversion(from, to)
    ensures CastSupported(from, to) <==> from in {Int32, Float} && to in {Bool, Int32, Float}
  {
    if CastSupported(from, to) {
      assert Convert(SOME_OPS, to, SomeValue(from)).Some?;
    }
  }

  /** Variables can be of every type that has values. */
  lemma VariablesExactly(t: Prim)
    ensures Storable(t) <==> HasValues(t)
  {
    if t != Void { assert TagOf(SomeValue(t)) == t; }
  }

  // ----- casts -----

  /** Types from the lowest to the highest, for implicit casts and for written ones. */
  const IMPLICIT_ORDER: seq<Prim> := [Void, Int32, Float, Double, Bool]
  const WRITTEN_ORDER: seq<Prim> := [Void, Bool, Int32, Float, Double]

  /** An implicit cast goes up its order; a written one goes down the other, but never from bool. */
  lemma CastsGoUpAndDown(i: nat, j: nat)
    requires i < 5 && j < 5
    ensures CanImplicitCast(IMPLICIT_ORDER[i], IMPLICIT_ORDER[j]) <==> i < j
    ensures CanExplicitCast(WRITTEN_ORDER[i], WRITTEN_ORDER[j]) <==> j < i && WRITTEN_ORDER[i] != Bool
    ensures Join(IMPLICIT_ORDER[i], IMPLICIT_ORDER[j]) == IMPLICIT_ORDER[if i < j then j else i]
  {
  }

  /** Every type is in both orders. */
  lemma AllInOrder(t: Prim)
    ensures t in IMPLICIT_ORDER && t in WRITTEN_ORDER
  {
    var up, down := IMPLICIT_ORDER, WRITTEN_ORDER;
    assert up[0] == Void && up[1] == Int32 && up[2] == Float && up[3] == Double && up[4] == Bool;
    assert down[0] == Void && down[1] == Bool && down[2] == Int32 && down[3] == Float && down[4] == Double;
  }
}
