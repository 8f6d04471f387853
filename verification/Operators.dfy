/** How tightly operators bind, level by level, and what prefixes mean: stated on the tokens the
    parser reads (src/parser.c:190-269). */
module Operators {
  import opened Expressions

  /** The binary operators from the loosest to the tightest level. */
  const LEVELS: seq<set<BinKind>> := [
    {OrOr}, {AndAnd}, {Pipe}, {Caret}, {Ampersand}, {EqEq, NotEq}, {Less, Greater, LessEq, GreaterEq},
    {ShiftLeft, ShiftRight}, {PlusSign, MinusSign}, {StarSign, SlashSign, PercentSign}
  ]

  predicate OnLevel(k: BinKind, n: nat) {
    n < |LEVELS| && k in LEVELS[n]
  }

  /** Every operator stands on one level, the one the parser's number says. */
  lemma LevelIs(k: BinKind, n: nat)
    ensures OnLevel(k, n) <==> n == Precedence(k) - 1
  {
    assert LEVELS[0] == {OrOr} && LEVELS[1] == {AndAnd} && LEVELS[2] == {Pipe} && LEVELS[3] == {Caret} && LEVELS[4] == {Ampersand};
    assert LEVELS[5] == {EqEq, NotEq} && LEVELS[6] == {Less, Greater, LessEq, GreaterEq} && LEVELS[7] == {ShiftLeft, ShiftRight};
    assert LEVELS[8] == {PlusSign, MinusSign} && LEVELS[9] == {StarSign, SlashSign, PercentSign};
  }

  /** An operand as the parser of primaries reads it: a literal, a name, a call, a prefix with its
      operand, or anything in parentheses. */
  function Operand(e: Expr): (ts: seq<Token>)
    ensures |ts| > 0
  {
    Show(e, 11)
  }

  /** Three operands with two operators between them. */
  function Chain(a: Expr, j: BinKind, b: Expr, k: BinKind, c: Expr): seq<Token> {
    Operand(a) + ([BinOp(j)] + (Operand(b) + ([BinOp(k)] + Operand(c))))
  }

  /** The pieces of a chain that stands at `pos`. */
  lemma ChainParts(ts: seq<Token>, pos: nat, a: Expr, j: BinKind, b: Expr, k: BinKind, c: Expr)
    requires StandsAt(ts, pos, Chain(a, j, b, k, c))
    ensures var p := pos + |Operand(a)|; var q := p + 1 + |Operand(b)|;
            && StandsAt(ts, pos, Operand(a)) && p < |ts| && ts[p] == BinOp(j)
            && StandsAt(ts, p + 1, Operand(b)) && q < |ts| && ts[q] == BinOp(k)
            && StandsAt(ts, q + 1, Operand(c)) && q + 1 + |Operand(c)| == pos + |Chain(a, j, b, k, c)|
  {
    hide Operand, StandsAt;
    var third := [BinOp(k)] + Operand(c);
    var second := [BinOp(j)] + (Operand(b) + third);
    StandsParts(ts, pos, Operand(a), second);
    StandsParts(ts, pos + |Operand(a)|, [BinOp(j)], Operand(b) + third);
    StandsOne(ts, pos + |Operand(a)|, BinOp(j));
    StandsParts(ts, pos + |Operand(a)| + 1, Operand(b), third);
    StandsParts(ts, pos + |Operand(a)| + 1 + |Operand(b)|, [BinOp(k)], Operand(c));
    StandsOne(ts, pos + |Operand(a)| + 1 + |Operand(b)|, BinOp(k));
  }

  /** An operand is read and the loop goes on behind it. */
  lemma OperandReads(ts: seq<Token>, pos: nat, e: Expr, minPrec: nat)
    requires StandsAt(ts, pos, Operand(e)) && !OpensAt(ts, pos + |Operand(e)|) && minPrec > 0
    ensures ParsePrec(ts, pos, minPrec) == Climb(ts, Parsed(e, pos + |Operand(e)|, true), minPrec)
  {
    PrimaryReads(ts, pos, e);
    hide ParsePrimary, Climb, Show;
  }

  lemma OperatorAt(ts: seq<Token>, pos: nat, k: BinKind)
    requires pos < |ts| && ts[pos] == BinOp(k)
    ensures PrecAt(ts, pos) == Precedence(k) && !OpensAt(ts, pos)
  {
  }

  /** The chain, read on the whole: to the left if the first operator binds at least as tightly. */
  lemma ChainReads(ts: seq<Token>, pos: nat, a: Expr, j: BinKind, b: Expr, k: BinKind, c: Expr)
    requires StandsAt(ts, pos, Chain(a, j, b, k, c))
    requires var end := pos + |Chain(a, j, b, k, c)|; PrecAt(ts, end) == 0 && !OpensAt(ts, end)
    ensures ParsePrec(ts, pos, 1) ==
              Parsed(if Precedence(j) >= Precedence(k) then Binary(k, Binary(j, a, b), c) else Binary(j, a, Binary(k, b, c)),
                     pos + |Chain(a, j, b, k, c)|, true)
  {
    hide *;
    var p := pos + |Operand(a)|;
    var q := p + 1 + |Operand(b)|;
    var end := pos + |Chain(a, j, b, k, c)|;
    ChainParts(ts, pos, a, j, b, k, c);
    OperatorAt(ts, p, j);
    OperatorAt(ts, q, k);
    OperandReads(ts, pos, a, 1);
    ClimbStep(ts, Parsed(a, p, true), 1);
    var next := Precedence(j) + 1;
    OperandReads(ts, p + 1, b, next);
    OperandReads(ts, q + 1, c, Precedence(k) + 1);
    ClimbDone(ts, Parsed(c, end, true), Precedence(k) + 1);
    if Precedence(j) >= Precedence(k) {
      ClimbDone(ts, Parsed(b, q, true), next);
      ClimbStep(ts, Parsed(Binary(j, a, b), q, true), 1);
      ClimbDone(ts, Parsed(Binary(k, Binary(j, a, b), c), end, true), 1);
    } else {
      ClimbStep(ts, Parsed(b, q, true), next);
      ClimbDone(ts, Parsed(Binary(k, b, c), end, true), next);
      ClimbDone(ts, Parsed(Binary(j, a, Binary(k, b, c)), end, true), 1);
    }
  }

  /** For all operators and operands: `a j b k c` is `(a j b) k c` if the level of `j` is the
      tighter one or the same, and `a j (b k c)` otherwise. */
  lemma OperatorsGroup(before: seq<Token>, a: Expr, j: BinKind, b: Expr, k: BinKind, c: Expr, after: seq<Token>, x: nat, y: nat)
    requires OnLevel(j, x) && OnLevel(k, y)
    requires after != [] ==> !after[0].BinOp? && !after[0].LParen?
    ensures ParsePrec(before + Chain(a, j, b, k, c) + after, |before|, 1) ==
              Parsed(if x >= y then Binary(k, Binary(j, a, b), c) else Binary(j, a, Binary(k, b, c)), |before| + |Chain(a, j, b, k, c)|, true)
  {
    hide *;
    LevelIs(j, x);
    LevelIs(k, y);
    Between(before, Chain(a, j, b, k, c), after);
    NothingFollows(after);
    ChainReads(before + Chain(a, j, b, k, c) + after, |before|, a, j, b, k, c);
  }

  /** Which prefix a sign is. */
  predicate Means(sign: Token, prefix: Prefix) {
    || (sign == Bang && prefix == NotSign) || (sign == Tilde && prefix == BitNotSign) || (sign == BinOp(MinusSign) && prefix == NegSign)
    || (sign == BinOp(StarSign) && prefix == Deref) || (sign == BinOp(Ampersand) && prefix == AddrOf)
  }

  /** The prefixes `!`, `~`, `-`, `*` and `&` are read as such, before any operand. */
  lemma PrefixesRead(before: seq<Token>, x: Expr, after: seq<Token>, sign: Token, prefix: Prefix)
    requires Means(sign, prefix) && (after != [] ==> !after[0].BinOp? && !after[0].LParen?)
    ensures ParsePrec(before + ([sign] + Operand(x)) + after, |before|, 1) == Parsed(Unary(prefix, x), |before| + |[sign] + Operand(x)|, true)
  {
    hide *;
    Between(before, [sign] + Operand(x), after);
    NothingFollows(after);
    PrefixAt(before + ([sign] + Operand(x)) + after, |before|, x, sign, prefix);
  }

  lemma PrefixAt(ts: seq<Token>, pos: nat, x: Expr, sign: Token, prefix: Prefix)
    requires Means(sign, prefix) && StandsAt(ts, pos, [sign] + Operand(x))
    requires var end := pos + |[sign] + Operand(x)|; PrecAt(ts, end) == 0 && !OpensAt(ts, end)
    ensures ParsePrec(ts, pos, 1) == Parsed(Unary(prefix, x), pos + |[sign] + Operand(x)|, true)
  {
    hide *;
    StandsParts(ts, pos, [sign], Operand(x));
    StandsOne(ts, pos, sign);
    OperandFirst(ts, pos + 1, x);
    PrefixReads(ts, pos, sign, prefix);
    PrimaryFirst(ts, pos);
    ClimbDone(ts, Parsed(Unary(prefix, x), pos + 1 + |Operand(x)|, true), 1);
  }

  lemma OperandFirst(ts: seq<Token>, pos: nat, e: Expr)
    requires StandsAt(ts, pos, Operand(e)) && !OpensAt(ts, pos + |Operand(e)|)
    ensures ParsePrimary(ts, pos) == Parsed(e, pos + |Operand(e)|, true)
  {
    PrimaryReads(ts, pos, e);
    hide ParsePrimary, Show;
  }

  lemma PrimaryFirst(ts: seq<Token>, pos: nat)
    ensures ParsePrec(ts, pos, 1) == Climb(ts, ParsePrimary(ts, pos), 1)
  {
    hide Climb, ParsePrimary;
  }

  lemma PrefixReads(ts: seq<Token>, pos: nat, sign: Token, prefix: Prefix)
    requires pos < |ts| && ts[pos] == sign && Means(sign, prefix)
    ensures var r := ParsePrimary(ts, pos + 1); ParsePrimary(ts, pos) == r.(e := Unary(prefix, r.e))
  {
    hide ParsePrec, Postfix;
  }
}
