/** What the word operations mean, without the functions that compute them: congruence modulo 2^64,
    quotient and remainder, bits, shifts and comparisons (src/opt_constfold.c:30-75). */
module WordLaws {
  import opened Wrappers
  import opened Word64
  import opened Folding
  import ConstFold
  import IselCorrect

  /** Equal as 64-bit patterns. */
  predicate SameWord(x: int, y: int) {
    (x - y) % TWO_TO_THE_64 == 0
  }

  /** Sum, difference and product are the integer ones modulo 2^64; negation and complement are
      the inverses of 0 and -1; logical negation tells zero from the rest. */
  lemma ArithmeticLaw(a: Int64, b: Int64)
    ensures EvalBinop(Add, a, b).Some? && SameWord(EvalBinop(Add, a, b).value, a + b)
    ensures EvalBinop(Sub, a, b).Some? && SameWord(EvalBinop(Sub, a, b).value, a - b)
    ensures EvalBinop(Mul, a, b).Some? && SameWord(EvalBinop(Mul, a, b).value, a * b)
    ensures SameWord(a + EvalUnop(Neg, a), 0) && a + EvalUnop(BNot, a) == -1
    ensures EvalUnop(Not, a) == 1 <==> a == 0
    ensures EvalUnop(Not, a) == 0 <==> a != 0
  {
  }

  lemma ComparisonLaw(a: Int64, b: Int64)
    ensures EvalCmp(Eq, a, b) == (if a == b then 1 else 0) && EvalCmp(Neq, a, b) == (if a == b then 0 else 1)
    ensures EvalCmp(Lt, a, b) == (if a < b then 1 else 0) && EvalCmp(Geq, a, b) == (if a < b then 0 else 1)
    ensures EvalCmp(Gt, a, b) == (if b < a then 1 else 0) && EvalCmp(Leq, a, b) == (if b < a then 0 else 1)
  {
  }

  // ---- Division ----

  /** `q` and `r` are the quotient rounded to zero and the remainder with the sign of `a`. */
  predicate Divided(a: int, b: int, q: int, r: int) {
    && a == b * q + r && (0 < b ==> -b < r < b) && (b < 0 ==> b < r < -b)
    && (a >= 0 ==> r >= 0) && (a <= 0 ==> r <= 0)
  }

  lemma DivMod(a: int, b: int)
    requires b != 0
    ensures a == b * (a / b) + a % b && 0 <= a % b && (0 < b ==> a % b < b) && (b < 0 ==> a % b < -b)
  {
  }

  lemma NegTimes(b: int, x: int)
    ensures b * (-x) == -(b * x)
  {
  }

  lemma TruncDivides(a: int, b: int)
    requires b != 0
    ensures Divided(a, b, TruncDiv(a, b), a - b * TruncDiv(a, b))
  {
    hide *;
    TruncIs(a, b);
    if a >= 0 {
      DivMod(a, b);
      DividedBy(a, b, TruncDiv(a, b), a / b, a % b);
    } else {
      NegatedBy(a, b, TruncDiv(a, b));
    }
  }

  lemma NegatedBy(a: int, b: int, t: int)
    requires b != 0 && a < 0 && t == -((-a) / b)
    ensures Divided(a, b, t, a - b * t)
  {
    hide *;
    var c := -a;
    DivMod(c, b);
    NegTimes(b, c / b);
    DividedBy(a, b, t, -(c / b), -(c % b));
  }

  lemma TruncIs(a: int, b: int)
    requires b != 0
    ensures TruncDiv(a, b) == if a >= 0 then a / b else -((-a) / b)
  {
  }

  lemma DividedBy(a: int, b: int, t: int, q: int, m: int)
    requires t == q && a == b * q + m && (0 < b ==> -b < m < b) && (b < 0 ==> b < m < -b) && (a >= 0 ==> m >= 0) && (a <= 0 ==> m <= 0)
    ensures Divided(a, b, t, a - b * t)
  {
  }

  /** The quotient of two words fits, but for the one overflow. */
  lemma QuotientFits(a: Int64, b: Int64)
    requires Divides(a, b)
    ensures MIN_INT64 <= TruncDiv(a, b) <= MAX_INT64 && MIN_INT64 <= a - b * TruncDiv(a, b) <= MAX_INT64
  {
    TruncDivides(a, b);
  }

  /** Division and remainder go together: they fault on the same operands and otherwise are the
      quotient rounded to zero and the remainder that goes with it. */
  lemma DivisionLaw(a: Int64, b: Int64)
    ensures EvalBinop(Div, a, b).Some? <==> b != 0 && !(a == MIN_INT64 && b == -1)
    ensures EvalBinop(Mod, a, b).Some? <==> EvalBinop(Div, a, b).Some?
    ensures EvalBinop(Div, a, b).Some? ==> Divided(a, b, EvalBinop(Div, a, b).value, EvalBinop(Mod, a, b).value)
  {
    if Divides(a, b) {
      TruncDivides(a, b);
      QuotientFits(a, b);
      hide TruncDiv;
    }
  }

  /** Where execution faults, folding gives 0 for a remainder by zero, and the wrapped values for
      the one overflow; a quotient by zero is 0 in the folder and not folded by SCCP. */
  lemma FoldingLaw(a: Int64)
    ensures FoldBinop(Mod, a, 0) == Some(0) && FoldBinop(Div, a, 0) == None
    ensures ConstFold.FoldedBinop(Div, a, 0) == 0 && ConstFold.FoldedBinop(Mod, a, 0) == 0
    ensures FoldBinop(Div, MIN_INT64, -1) == Some(MIN_INT64) && FoldBinop(Mod, MIN_INT64, -1) == Some(0)
  {
    assert TruncDiv(MIN_INT64, -1) == TWO_TO_THE_64 / 2;
  }

  // ---- Bits ----

  /** Bit `k` of a word. */
  predicate BitAt(x: nat, k: nat) {
    (x / Pow2(k)) % 2 == 1
  }

  lemma {:induction false} HalfBit(x: nat, k: nat)
    requires k > 0
    ensures BitAt(x, k) == BitAt(x / 2, k - 1)
  {
    DivTwice(x, Pow2(k - 1));
  }

  lemma DivTwice(x: nat, p: nat)
    requires p > 0
    ensures x / (2 * p) == x / 2 / p
  {
    var h := x / 2;
    var q := h / p;
    var r := h - p * q;
    assert 0 <= r < p;
    var s := x - 2 * h;
    assert x == 2 * p * q + (2 * r + s) && 0 <= 2 * r + s < 2 * p;
    Quotient(x, 2 * p, q, 2 * r + s);
  }

  lemma Quotient(x: nat, d: nat, q: int, r: int)
    requires 0 <= r < d && x == d * q + r
    ensures x / d == q
  {
    DivMod(x, d);
    Minus(d, x / d, q);
    Least(d, x / d - q);
  }

  lemma Minus(d: int, x: int, y: int)
    ensures d * (x - y) == d * x - d * y
  {
  }

  /** A multiple of `d` that is not zero is not smaller than `d`. */
  lemma {:induction false} Least(d: int, e: int)
    requires d > 0
    ensures e >= 1 ==> d * e >= d
    ensures e <= -1 ==> d * e <= -d
    decreases if e < 0 then -e else e
  {
    if e >= 2 {
      Least(d, e - 1);
      Minus(d, e, 1);
    } else if e <= -2 {
      Least(d, e + 1);
      Minus(d, e, -1);
    }
  }

  lemma {:induction false} BitwiseAt(op: (bool, bool) -> bool, a: nat, b: nat, n: nat, k: nat)
    requires k < n
    ensures BitAt(Bitwise(op, a, b, n), k) == op(BitAt(a, k), BitAt(b, k))
  {
    var rest := Bitwise(op, a / 2, b / 2, n - 1);
    var low := if op(a % 2 == 1, b % 2 == 1) then 1 else 0;
    assert Bitwise(op, a, b, n) == low + 2 * rest;
    if k == 0 {
      assert Pow2(0) == 1;
    } else {
      HalfBit(a, k);
      HalfBit(b, k);
      HalfBit(low + 2 * rest, k);
      assert (low + 2 * rest) / 2 == rest;
      BitwiseAt(op, a / 2, b / 2, n - 1, k - 1);
    }
  }

  lemma {:induction false} BitwiseBound(op: (bool, bool) -> bool, a: nat, b: nat, n: nat)
    ensures Bitwise(op, a, b, n) < Pow2(n)
  {
    if n > 0 {
      BitwiseBound(op, a / 2, b / 2, n - 1);
    }
  }

  /** Reading a wrapped pattern without sign gives the pattern back. */
  lemma WrapPattern(x: nat)
    requires x < TWO_TO_THE_64
    ensures Unsigned(Wrap(x)) == x
  {
    assert x % TWO_TO_THE_64 == x;
  }

  lemma WordBit(op: (bool, bool) -> bool, a: Int64, b: Int64, k: nat)
    requires k < 64
    ensures BitAt(Unsigned(BitwiseWord(op, a, b)), k) == op(BitAt(Unsigned(a), k), BitAt(Unsigned(b), k))
  {
    BitwiseBound(op, Unsigned(a), Unsigned(b), 64);
    IselCorrect.Pow2Word();
    WrapPattern(Bitwise(op, Unsigned(a), Unsigned(b), 64));
    BitwiseAt(op, Unsigned(a), Unsigned(b), 64, k);
    hide Bitwise, BitAt, Pow2, Unsigned, Wrap;
  }

  /** Bit by bit. */
  lemma BitsLaw(a: Int64, b: Int64, k: nat)
    requires k < 64
    ensures EvalBinop(And, a, b).Some? && EvalBinop(Or, a, b).Some? && EvalBinop(Xor, a, b).Some?
    ensures var x, y := BitAt(Unsigned(a), k), BitAt(Unsigned(b), k);
            && BitAt(Unsigned(EvalBinop(And, a, b).value), k) == (x && y)
            && BitAt(Unsigned(EvalBinop(Or, a, b).value), k) == (x || y)
            && BitAt(Unsigned(EvalBinop(Xor, a, b).value), k) == (x != y)
  {
    WordBit((x, y) => x && y, a, b, k);
    WordBit((x, y) => x || y, a, b, k);
    WordBit((x, y) => x != y, a, b, k);
    hide BitAt, BitwiseWord, Unsigned;
  }

  /** A left shift multiplies by a power of two modulo 2^64, a right shift divides by it rounding
      down; counts are taken modulo 64. */
  lemma ShiftLaw(a: Int64, b: Int64)
    ensures EvalBinop(LShift, a, b).Some? && SameWord(EvalBinop(LShift, a, b).value, a * Pow2(b % 64))
    ensures EvalBinop(RShift, a, b).Some?
    ensures var r, p := EvalBinop(RShift, a, b).value, Pow2(b % 64); p * r <= a < p * r + p
  {
    var p := Pow2(b % 64);
    hide Pow2;
    FloorFits(a, p);
  }

  lemma FloorFits(a: Int64, p: int)
    requires p >= 1
    ensures p * (a / p) <= a < p * (a / p) + p && MIN_INT64 <= a / p <= MAX_INT64
  {
    var q := a / p;
    assert a == p * q + a % p;
  }
}
