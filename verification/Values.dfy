/** Run-time values, 32-bit arithmetic and the meaning of the source operators. */
module Values {
  import opened Common
  import opened Types
  import opened Tree

  datatype Value = IntV(i: Int) | BoolV(b: bool) | FloatV(f: F32) | DoubleV(d: F64)

  /** Float arithmetic is left open: every theorem holds for every record of operations.
      `ofInt`/`toInt` are the conversions (`toInt` is undefined out of range) and `nonZero`
      is the test used when a float becomes a bool. */
  datatype FloatOps = FloatOps(
    add: (F32, F32) -> F32, sub: (F32, F32) -> F32, mul: (F32, F32) -> F32, div: (F32, F32) -> F32,
    eq: (F32, F32) -> bool, ne: (F32, F32) -> bool,
    gt: (F32, F32) -> bool, ge: (F32, F32) -> bool, lt: (F32, F32) -> bool, le: (F32, F32) -> bool,
    ofInt: Int -> F32, toInt: F32 -> Option<Int>, nonZero: F32 -> bool)

  /** Two's complement wrap-around of a mathematical integer. */
  function Wrap(x: int): Int {
    (x + 0x8000_0000) % 0x1_0000_0000 - 0x8000_0000
  }

  /** Division that truncates toward zero. */
  function TruncDiv(a: int, b: int): int
    requires b != 0
  {
    if (a >= 0) == (b > 0) then Abs(a) / Abs(b) else -(Abs(a) / Abs(b))
  }

  function Abs(x: int): nat {
    if x < 0 then -x else x
  }

  function TagOf(v: Value): Prim {
    match v
    case IntV(_) => Int32
    case BoolV(_) => Bool
    case FloatV(_) => Float
    case DoubleV(_) => Double
  }

  /** The meaning of a binary operator on two operands of one type; `None` is undefined
      behaviour: a zero divisor, a quotient out of range, or operands the operator is not
      defined for. */
  function Apply(ops: FloatOps, op: BinOp, a: Value, b: Value): Option<Value> {
    match (a, b)
    case (BoolV(x), BoolV(y)) =>
      (match op
       case Eq => Some(BoolV(x == y))
       case NotEq => Some(BoolV(x != y))
       case _ => None)
    case (IntV(x), IntV(y)) =>
      (match op
       case Eq => Some(BoolV(x == y))
       case NotEq => Some(BoolV(x != y))
       case Gt => Some(BoolV(x > y))
       case Gte => Some(BoolV(x >= y))
       case Lt => Some(BoolV(x < y))
       case Lte => Some(BoolV(x <= y))
       case Add => Some(IntV(Wrap(x + y)))
       case Sub => Some(IntV(Wrap(x - y)))
       case Mul => Some(IntV(Wrap(x * y)))
       case Div =>
         if y == 0 || (x == -0x8000_0000 && y == -1) then None
         else Some(IntV(Wrap(TruncDiv(x, y))))
       case _ => None)
    case (FloatV(x), FloatV(y)) =>
      (match op
       case Eq => Some(BoolV(ops.eq(x, y)))
       case NotEq => Some(BoolV(ops.ne(x, y)))
       case Gt => Some(BoolV(ops.gt(x, y)))
       case Gte => Some(BoolV(ops.ge(x, y)))
       case Lt => Some(BoolV(ops.lt(x, y)))
       case Lte => Some(BoolV(ops.le(x, y)))
       case Add => Some(FloatV(ops.add(x, y)))
       case Sub => Some(FloatV(ops.sub(x, y)))
       case Mul => Some(FloatV(ops.mul(x, y)))
       case Div => Some(FloatV(ops.div(x, y)))
       case _ => None)
    case _ => None
  }

  /** The meaning of a conversion; `None` is undefined behaviour. */
  function Convert(ops: FloatOps, to: Prim, v: Value): Option<Value> {
    match v
    case IntV(x) =>
      (match to
       case Bool => Some(BoolV(x != 0))
       case Int32 => Some(v)
       case Float => Some(FloatV(ops.ofInt(x)))
       case _ => None)
    case FloatV(x) =>
      (match to
       case Bool => Some(BoolV(ops.nonZero(x)))
       case Int32 => (match ops.toInt(x) case Some(n) => Some(IntV(n)) case None => None)
       case Float => Some(v)
       case _ => None)
    case _ => None
  }

  /** Variables by symbol, and the number of assertions that have passed. */
  datatype Mem = Mem(vars: map<Sym, Value>, passes: nat)

  /** How an evaluation or a run ends. */
  datatype Outcome =
    | Done(mem: Mem, value: Option<Value>)
    | AssertFailed(line: nat, mem: Mem)
    | Stuck
    | Timeout
}
