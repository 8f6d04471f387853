/** The value domain of the compiler: 64-bit two's-complement integers, with the
    arithmetic that the constant folder and the generated code share. */
module Word64 {
  import opened Wrappers

  const TWO_TO_THE_64: int := 0x1_0000_0000_0000_0000
  const MIN_INT64: int := -0x8000_0000_0000_0000
  const MAX_INT64: int := 0x7FFF_FFFF_FFFF_FFFF

  type Int64 = x: int | MIN_INT64 <= x <= MAX_INT64

  datatype BinOpKind = Add | Sub | Mul | Div | Mod | And | Or | Xor | LShift | RShift
  datatype UnOpKind = Neg | Not | BNot
  datatype CmpKind = Eq | Neq | Lt | Gt | Leq | Geq

  /** The unsigned reading of a word. */
  function Unsigned(x: Int64): nat {
    if x < 0 then x + TWO_TO_THE_64 else x
  }

  /** Reduction modulo 2^64 into the signed range. */
  function Wrap(x: int): (r: Int64)
    ensures (r - x) % TWO_TO_THE_64 == 0
    ensures MIN_INT64 <= x <= MAX_INT64 ==> r == x
  {
    var u := x % TWO_TO_THE_64;
    if u > MAX_INT64 then u - TWO_TO_THE_64 else u
  }

  /** C's division, truncating toward zero. */
  function TruncDiv(a: int, b: int): int
    requires b != 0
  {
    if a >= 0 then a / b else -((-a) / b)
  }

  /** One bit of a bitwise operation, folded over the binary digits. */
  function Bitwise(op: (bool, bool) -> bool, a: nat, b: nat, bits: nat): nat {
    if bits == 0 then 0
    else (if op(a % 2 == 1, b % 2 == 1) then 1 else 0) + 2 * Bitwise(op, a / 2, b / 2, bits - 1)
  }

  function BitwiseWord(op: (bool, bool) -> bool, a: Int64, b: Int64): Int64 {
    Wrap(Bitwise(op, Unsigned(a), Unsigned(b), 64))
  }

  function Pow2(n: nat): (p: nat)
    ensures p >= 1
  {
    if n == 0 then 1 else 2 * Pow2(n - 1)
  }

  /** The value of `a op b`; None is a fault (division by zero, or the overflow of MIN / -1).
      Shift counts are taken modulo 64, as the processor does. */
  function EvalBinop(kind: BinOpKind, a: Int64, b: Int64): Option<Int64> {
    match kind
    case Add => Some(Wrap(a + b))
    case Sub => Some(Wrap(a - b))
    case Mul => Some(Wrap(a * b))
    case Div => if Divides(a, b) then Some(Wrap(TruncDiv(a, b))) else None
    case Mod => if Divides(a, b) then Some(Wrap(a - b * TruncDiv(a, b))) else None
    case And => Some(BitwiseWord((x, y) => x && y, a, b))
    case Or => Some(BitwiseWord((x, y) => x || y, a, b))
    case Xor => Some(BitwiseWord((x, y) => x != y, a, b))
    case LShift => Some(Wrap(a * Pow2(b % 64)))
    case RShift => Some(Wrap(a / Pow2(b % 64)))
  }

  /** When the hardware's signed division does not fault. */
  predicate Divides(a: Int64, b: Int64) {
    b != 0 && !(a == MIN_INT64 && b == -1)
  }

  function EvalUnop(kind: UnOpKind, a: Int64): Int64 {
    match kind
    case Neg => Wrap(0 - a as int)
    case Not => if a != 0 then 0 else 1
    case BNot => Wrap(-1 - a as int)
  }

  predicate Compare(kind: CmpKind, a: Int64, b: Int64) {
    match kind
    case Eq => a == b
    case Neq => a != b
    case Lt => a < b
    case Gt => a > b
    case Leq => a <= b
    case Geq => a >= b
  }

  function EvalCmp(kind: CmpKind, a: Int64, b: Int64): Int64 {
    if Compare(kind, a, b) then 1 else 0
  }
}
