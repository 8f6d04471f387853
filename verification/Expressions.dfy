/** The expression grammar of the parser: precedence climbing (src/parser.c:99-305), with names,
    calls, prefixes and groups.  Indexing and member access are not part of this model. */
module Expressions {

  datatype BinKind =
    | OrOr | AndAnd | Pipe | Caret | Ampersand | EqEq | NotEq | Less | Greater | LessEq | GreaterEq
    | ShiftLeft | ShiftRight | PlusSign | MinusSign | StarSign | SlashSign | PercentSign

  /** Binary operator signs also serve as prefixes where the grammar has them. */
  datatype Token =
    | IntLit(value: int) | BoolLit(on: bool) | Ident(name: string)
    | BinOp(kind: BinKind) | Bang | Tilde | LParen | RParen | Comma | Semi

  datatype Prefix = NotSign | NegSign | BitNotSign | Deref | AddrOf

  datatype Expr =
    | IntExpr(value: int) | BoolExpr(on: bool) | IdentExpr(name: string)
    | Unary(prefix: Prefix, operand: Expr)
    | Binary(op: BinKind, left: Expr, right: Expr)
    | CallExpr(callee: string, args: seq<Expr>)

  // ---- Tables ----

  function Precedence(k: BinKind): (p: nat)
    ensures 1 <= p <= 10
  {
    match k
    case OrOr => 1
    case AndAnd => 2
    case Pipe => 3
    case Caret => 4
    case Ampersand => 5
    case EqEq => 6 case NotEq => 6
    case Less => 7 case Greater => 7 case LessEq => 7 case GreaterEq => 7
    case ShiftLeft => 8 case ShiftRight => 8
    case PlusSign => 9 case MinusSign => 9
    case StarSign => 10 case SlashSign => 10 case PercentSign => 10
  }

  /** 0 for what is no binary operator. */
  function TokenPrecedence(t: Token): nat {
    if t.BinOp? then Precedence(t.kind) else 0
  }

  /** Precedence at a position; the end of input is no operator. */
  function PrecAt(ts: seq<Token>, pos: nat): nat {
    if pos < |ts| then TokenPrecedence(ts[pos]) else 0
  }

  function PrefixOf(t: Token): (p: Prefix)
    requires IsPrefix(t)
  {
    if t.Bang? then NotSign else if t.Tilde? then BitNotSign
    else if t.kind.MinusSign? then NegSign else if t.kind.StarSign? then Deref else AddrOf
  }

  predicate IsPrefix(t: Token) {
    t.Bang? || t.Tilde? || (t.BinOp? && (t.kind.MinusSign? || t.kind.StarSign? || t.kind.Ampersand?))
  }

  function PrefixToken(p: Prefix): (t: Token)
    ensures IsPrefix(t) && PrefixOf(t) == p
  {
    match p
    case NotSign => Bang
    case BitNotSign => Tilde
    case NegSign => BinOp(MinusSign)
    case Deref => BinOp(StarSign)
    case AddrOf => BinOp(Ampersand)
  }

  // ---- What the parser computes ----

  /** A tree, where parsing stopped, and whether no error was reported. */
  datatype Parsed = Parsed(e: Expr, pos: nat, ok: bool)

  datatype ParsedArgs = ParsedArgs(args: seq<Expr>, pos: nat, ok: bool)

  predicate OpensAt(ts: seq<Token>, pos: nat) {
    pos < |ts| && ts[pos].LParen?
  }

  predicate ClosesAt(ts: seq<Token>, pos: nat) {
    pos < |ts| && ts[pos].RParen?
  }

  predicate CommaAt(ts: seq<Token>, pos: nat) {
    pos < |ts| && ts[pos].Comma?
  }

  /** Whatever stands where a token is expected is skipped; nothing is behind the end. */
  function Skip(ts: seq<Token>, pos: nat): nat {
    if pos < |ts| then pos + 1 else pos
  }

  /** What a parenthesis may follow to make a call. */
  predicate Named(e: Expr) {
    e.IdentExpr? || e.CallExpr?
  }

  function NameOf(e: Expr): string
    requires Named(e)
  {
    if e.IdentExpr? then e.name else e.callee
  }

  /** On an error the parser skips a token and goes on with 0. */
  function ParsePrimary(ts: seq<Token>, pos: nat): (r: Parsed)
    ensures pos <= r.pos && (pos < |ts| ==> pos < r.pos <= |ts|) && (pos >= |ts| ==> r.pos == pos && !r.ok)
    decreases if pos < |ts| then |ts| - pos else 0, 0
  {
    if pos >= |ts| then Parsed(IntExpr(0), pos, false)
    else
      var t := ts[pos];
      match t
      case IntLit(v) => Parsed(IntExpr(v), pos + 1, true)
      case BoolLit(b) => Parsed(BoolExpr(b), pos + 1, true)
      case Ident(n) => Postfix(ts, Parsed(IdentExpr(n), pos + 1, true))
      case LParen =>
        var r := ParsePrec(ts, pos + 1, 1);
        Parsed(r.e, Skip(ts, r.pos), r.ok && ClosesAt(ts, r.pos))
      case _ =>
        if IsPrefix(t) then
          var r := ParsePrimary(ts, pos + 1);
          r.(e := Unary(PrefixOf(t), r.e))
        else Parsed(IntExpr(0), pos + 1, false)
  }

  /** Calls behind a name.  A call of a call takes over the name of the first, and the
      arguments of the first are dropped. */
  function Postfix(ts: seq<Token>, left: Parsed): (r: Parsed)
    requires Named(left.e)
    ensures left.pos <= r.pos && (left.pos <= |ts| ==> r.pos <= |ts|)
    decreases if left.pos < |ts| then |ts| - left.pos else 0, 4
  {
    if !OpensAt(ts, left.pos) then left
    else
      var a := ParseArgs(ts, left.pos + 1);
      Postfix(ts, Parsed(CallExpr(NameOf(left.e), a.args), Skip(ts, a.pos), left.ok && a.ok && ClosesAt(ts, a.pos)))
  }

  /** Arguments up to a closing parenthesis, or up to the first not followed by a comma. */
  function ParseArgs(ts: seq<Token>, pos: nat): (r: ParsedArgs)
    ensures pos <= r.pos && (pos <= |ts| ==> r.pos <= |ts|)
    decreases if pos < |ts| then |ts| - pos else 0, 3
  {
    if ClosesAt(ts, pos) then ParsedArgs([], pos, true)
    else
      var r := ParsePrec(ts, pos, 1);
      if CommaAt(ts, r.pos) then
        var more := ParseArgs(ts, r.pos + 1);
        ParsedArgs([r.e] + more.args, more.pos, r.ok && more.ok)
      else ParsedArgs([r.e], r.pos, r.ok)
  }

  function ParsePrec(ts: seq<Token>, pos: nat, minPrec: nat): (r: Parsed)
    requires minPrec > 0
    ensures pos <= r.pos && (pos < |ts| ==> pos < r.pos <= |ts|) && (pos >= |ts| ==> r.pos == pos)
    decreases if pos < |ts| then |ts| - pos else 0, 2
  {
    Climb(ts, ParsePrimary(ts, pos), minPrec)
  }

  /** The loop: operators that bind tightly enough are taken in from left to right. */
  function Climb(ts: seq<Token>, left: Parsed, minPrec: nat): (r: Parsed)
    requires minPrec > 0
    ensures left.pos <= r.pos && (left.pos <= |ts| ==> r.pos <= |ts|) && (left.pos >= |ts| ==> r == left)
    decreases if left.pos < |ts| then |ts| - left.pos else 0, 1
  {
    if PrecAt(ts, left.pos) < minPrec then left
    else
      var k := ts[left.pos].kind;
      var right := ParsePrec(ts, left.pos + 1, Precedence(k) + 1);
      Climb(ts, Parsed(Binary(k, left.e, right.e), right.pos, left.ok && right.ok), minPrec)
  }

  // ---- Printing ----

  /** The tokens of a tree in a place that wants operators of at least `minPrec`: parentheses
      only where they are needed. */
  function Show(e: Expr, minPrec: nat): (ts: seq<Token>)
    ensures |ts| > 0 && !ts[0].RParen?
    decreases e
  {
    match e
    case IntExpr(v) => [IntLit(v)]
    case BoolExpr(b) => [BoolLit(b)]
    case IdentExpr(n) => [Ident(n)]
    case Unary(p, x) => [PrefixToken(p)] + Show(x, 11)
    case Binary(k, l, r) =>
      var body := Show(l, Precedence(k)) + [BinOp(k)] + Show(r, Precedence(k) + 1);
      if Precedence(k) < minPrec then [LParen] + body + [RParen] else body
    case CallExpr(n, args) => [Ident(n), LParen] + (ShowArgs(args) + [RParen])
  }

  function ShowArgs(args: seq<Expr>): (ts: seq<Token>)
    ensures args != [] ==> |ts| > 0 && !ts[0].RParen?
    decreases args
  {
    if args == [] then []
    else Show(args[0], 1) + if |args| == 1 then [] else [Comma] + ShowArgs(args[1..])
  }

  // ---- Parsing inverts printing ----

  /** `part` stands at `pos`. */
  ghost predicate StandsAt(ts: seq<Token>, pos: nat, part: seq<Token>) {
    pos + |part| <= |ts| && ts[pos..pos + |part|] == part
  }

  lemma StandsParts(ts: seq<Token>, pos: nat, a: seq<Token>, b: seq<Token>)
    requires StandsAt(ts, pos, a + b)
    ensures StandsAt(ts, pos, a) && StandsAt(ts, pos + |a|, b)
  {
    var part := ts[pos..pos + |a + b|];
    assert part[..|a|] == a && part[|a|..] == b;
  }

  lemma StandsOne(ts: seq<Token>, pos: nat, t: Token)
    requires StandsAt(ts, pos, [t])
    ensures pos < |ts| && ts[pos] == t
  {
    assert ts[pos] == ts[pos..pos + 1][0];
  }

  lemma ParenIs(e: Expr)
    requires e.Binary?
    ensures Show(e, 11) == [LParen] + (Show(e, 1) + [RParen])
  {
  }

  lemma ParenParts(ts: seq<Token>, pos: nat, e: Expr)
    requires e.Binary? && StandsAt(ts, pos, Show(e, 11))
    ensures var end := pos + 1 + |Show(e, 1)|;
            && pos < |ts| && ts[pos] == LParen && StandsAt(ts, pos + 1, Show(e, 1))
            && ClosesAt(ts, end) && !OpensAt(ts, end) && PrecAt(ts, end) == 0 && pos + |Show(e, 11)| == end + 1
  {
    var body := Show(e, 1);
    ParenIs(e);
    hide Show, StandsAt;
    StandsParts(ts, pos, [LParen], body + [RParen]);
    StandsParts(ts, pos + 1, body, [RParen]);
    StandsOne(ts, pos, LParen);
    StandsOne(ts, pos + 1 + |body|, RParen);
  }

  lemma CallParts(ts: seq<Token>, pos: nat, e: Expr)
    requires e.CallExpr? && StandsAt(ts, pos, Show(e, 11))
    ensures var end := pos + 2 + |ShowArgs(e.args)|;
            && pos + 1 < |ts| && ts[pos] == Ident(e.callee) && OpensAt(ts, pos + 1)
            && StandsAt(ts, pos + 2, ShowArgs(e.args)) && ClosesAt(ts, end) && pos + |Show(e, 11)| == end + 1
  {
    var inner := ShowArgs(e.args);
    assert Show(e, 11) == [Ident(e.callee), LParen] + (inner + [RParen]);
    hide Show, ShowArgs;
    StandsParts(ts, pos, [Ident(e.callee), LParen], inner + [RParen]);
    StandsParts(ts, pos + 2, inner, [RParen]);
    assert ts[pos] == ts[pos..pos + 2][0] && ts[pos + 1] == ts[pos..pos + 2][1];
    StandsOne(ts, pos + 2 + |inner|, RParen);
  }

  lemma ArgsStep(ts: seq<Token>, pos: nat)
    requires !ClosesAt(ts, pos)
    ensures var r := ParsePrec(ts, pos, 1); var more := ParseArgs(ts, r.pos + 1);
            ParseArgs(ts, pos) ==
              if CommaAt(ts, r.pos) then ParsedArgs([r.e] + more.args, more.pos, r.ok && more.ok) else ParsedArgs([r.e], r.pos, r.ok)
  {
    hide ParsePrec;
  }

  lemma ArgsEnd(ts: seq<Token>, pos: nat)
    ensures ClosesAt(ts, pos) ==> ParseArgs(ts, pos) == ParsedArgs([], pos, true)
  {
    hide ParsePrec;
  }

  lemma PostfixDone(ts: seq<Token>, left: Parsed)
    requires Named(left.e) && !OpensAt(ts, left.pos)
    ensures Postfix(ts, left) == left
  {
  }

  lemma PostfixStep(ts: seq<Token>, left: Parsed)
    requires Named(left.e) && OpensAt(ts, left.pos)
    ensures var a := ParseArgs(ts, left.pos + 1);
            Postfix(ts, left) == Postfix(ts, Parsed(CallExpr(NameOf(left.e), a.args), Skip(ts, a.pos), left.ok && a.ok && ClosesAt(ts, a.pos)))
  {
    hide ParseArgs;
  }

  /** Printed where a primary is wanted, a tree is read back by the parser of primaries. */
  lemma {:induction false} PrimaryReads(ts: seq<Token>, pos: nat, e: Expr)
    requires StandsAt(ts, pos, Show(e, 11)) && !OpensAt(ts, pos + |Show(e, 11)|)
    ensures ParsePrimary(ts, pos) == Parsed(e, pos + |Show(e, 11)|, true)
    decreases e, 2
  {
    hide ParsePrimary, StandsAt;
    match e {
      case Unary(p, x) =>
        UnaryReads(ts, pos, e);
      case Binary(k, l, r) =>
        GroupReads(ts, pos, e);
      case CallExpr(n, args) =>
        CallReads(ts, pos, e);
      case _ =>
        LeafReads(ts, pos, e);
    }
  }

  lemma LeafReads(ts: seq<Token>, pos: nat, e: Expr)
    requires (e.IntExpr? || e.BoolExpr? || e.IdentExpr?) && StandsAt(ts, pos, Show(e, 11)) && !OpensAt(ts, pos + |Show(e, 11)|)
    ensures ParsePrimary(ts, pos) == Parsed(e, pos + |Show(e, 11)|, true)
  {
    StandsOne(ts, pos, Show(e, 11)[0]);
    hide StandsAt, ParseArgs, ParsePrec;
  }

  lemma {:induction false} UnaryReads(ts: seq<Token>, pos: nat, e: Expr)
    requires e.Unary? && StandsAt(ts, pos, Show(e, 11)) && !OpensAt(ts, pos + |Show(e, 11)|)
    ensures ParsePrimary(ts, pos) == Parsed(e, pos + |Show(e, 11)|, true)
    decreases e, 1
  {
    assert Show(e, 11) == [PrefixToken(e.prefix)] + Show(e.operand, 11);
    hide Show, StandsAt, Postfix, ParsePrec;
    StandsParts(ts, pos, [PrefixToken(e.prefix)], Show(e.operand, 11));
    StandsOne(ts, pos, PrefixToken(e.prefix));
    PrimaryReads(ts, pos + 1, e.operand);
  }

  lemma {:induction false} GroupReads(ts: seq<Token>, pos: nat, e: Expr)
    requires e.Binary? && StandsAt(ts, pos, Show(e, 11))
    ensures ParsePrimary(ts, pos) == Parsed(e, pos + |Show(e, 11)|, true)
    decreases e, 1
  {
    hide Show, StandsAt, Climb, ParsePrec, Postfix;
    ParenParts(ts, pos, e);
    BinaryReads(ts, pos + 1, e, 1, 1);
    ClimbDone(ts, Parsed(e, pos + 1 + |Show(e, 1)|, true), 1);
  }

  lemma {:induction false} CallReads(ts: seq<Token>, pos: nat, e: Expr)
    requires e.CallExpr? && StandsAt(ts, pos, Show(e, 11)) && !OpensAt(ts, pos + |Show(e, 11)|)
    ensures ParsePrimary(ts, pos) == Parsed(e, pos + |Show(e, 11)|, true)
    decreases e, 1
  {
    hide Show, ShowArgs, StandsAt, ParseArgs, Postfix;
    CallParts(ts, pos, e);
    ArgsRead(ts, pos + 2, e.args);
    PostfixStep(ts, Parsed(IdentExpr(e.callee), pos + 1, true));
    PostfixDone(ts, Parsed(e, pos + |Show(e, 11)|, true));
  }

  /** Printed arguments are read back up to the closing parenthesis. */
  lemma {:induction false} ArgsRead(ts: seq<Token>, pos: nat, args: seq<Expr>)
    requires StandsAt(ts, pos, ShowArgs(args)) && ClosesAt(ts, pos + |ShowArgs(args)|)
    ensures ParseArgs(ts, pos) == ParsedArgs(args, pos + |ShowArgs(args)|, true)
    decreases args, 4
  {
    hide Show, ShowArgs, StandsAt, Climb, ParsePrec, ParseArgs;
    if args == [] {
      NoArgs(args);
      ArgsEnd(ts, pos);
    } else {
      var first := Show(args[0], 1);
      var there := pos + |first|;
      ArgsParts(ts, pos, args);
      ArgsStep(ts, pos);
      TreeReads(ts, pos, args[0], 1, 1);
      ClimbDone(ts, Parsed(args[0], there, true), 1);
      if |args| == 1 {
        assert args == [args[0]];
      } else {
        ArgsRead(ts, there + 1, args[1..]);
        assert args == [args[0]] + args[1..];
      }
    }
  }

  lemma ArgsParts(ts: seq<Token>, pos: nat, args: seq<Expr>)
    requires args != [] && StandsAt(ts, pos, ShowArgs(args)) && ClosesAt(ts, pos + |ShowArgs(args)|)
    ensures var first := Show(args[0], 1); var there := pos + |first|;
            && StandsAt(ts, pos, first) && PrecAt(ts, there) == 0 && !OpensAt(ts, there) && !ClosesAt(ts, pos)
            && if |args| == 1 then ClosesAt(ts, there) && |ShowArgs(args)| == |first|
               else CommaAt(ts, there) && StandsAt(ts, there + 1, ShowArgs(args[1..])) && |ShowArgs(args)| == |first| + 1 + |ShowArgs(args[1..])|
  {
    hide *;
    ArgsAre(args);
    if |args| == 1 {
      LastArg(ts, pos, Show(args[0], 1));
    } else {
      OneArgMore(ts, pos, Show(args[0], 1), ShowArgs(args[1..]));
    }
  }

  lemma NoArgs(args: seq<Expr>)
    requires args == []
    ensures ShowArgs(args) == []
  {
  }

  lemma ArgsAre(args: seq<Expr>)
    requires args != []
    ensures ShowArgs(args) == if |args| == 1 then Show(args[0], 1) else Show(args[0], 1) + ([Comma] + ShowArgs(args[1..]))
  {
    hide Show;
  }

  lemma LastArg(ts: seq<Token>, pos: nat, first: seq<Token>)
    requires first != [] && !first[0].RParen? && StandsAt(ts, pos, first) && ClosesAt(ts, pos + |first|)
    ensures PrecAt(ts, pos + |first|) == 0 && !OpensAt(ts, pos + |first|) && !ClosesAt(ts, pos)
  {
    assert ts[pos] == ts[pos..pos + |first|][0];
  }

  lemma OneArgMore(ts: seq<Token>, pos: nat, first: seq<Token>, rest: seq<Token>)
    requires first != [] && !first[0].RParen? && StandsAt(ts, pos, first + ([Comma] + rest))
    ensures var there := pos + |first|;
            && StandsAt(ts, pos, first) && PrecAt(ts, there) == 0 && !OpensAt(ts, there) && !ClosesAt(ts, pos)
            && CommaAt(ts, there) && StandsAt(ts, there + 1, rest)
  {
    StandsParts(ts, pos, first, [Comma] + rest);
    StandsParts(ts, pos + |first|, [Comma], rest);
    StandsOne(ts, pos + |first|, Comma);
    assert ts[pos] == ts[pos..pos + |first|][0];
  }

  lemma BinaryIs(e: Expr, prec: nat)
    requires e.Binary? && prec <= Precedence(e.op)
    ensures Show(e, prec) == Show(e.left, Precedence(e.op)) + ([BinOp(e.op)] + Show(e.right, Precedence(e.op) + 1))
  {
  }

  lemma BinaryParts(ts: seq<Token>, pos: nat, e: Expr, prec: nat)
    requires e.Binary? && prec <= Precedence(e.op) && StandsAt(ts, pos, Show(e, prec))
    ensures var p := Precedence(e.op); var there := pos + |Show(e.left, p)|;
            && StandsAt(ts, pos, Show(e.left, p)) && StandsAt(ts, there + 1, Show(e.right, p + 1))
            && there < |ts| && ts[there] == BinOp(e.op) && PrecAt(ts, there) == p && !OpensAt(ts, there)
            && pos + |Show(e, prec)| == there + 1 + |Show(e.right, p + 1)|
  {
    var p := Precedence(e.op);
    var left, right := Show(e.left, p), Show(e.right, p + 1);
    BinaryIs(e, prec);
    hide Show, StandsAt;
    StandsParts(ts, pos, left, [BinOp(e.op)] + right);
    StandsParts(ts, pos + |left|, [BinOp(e.op)], right);
    StandsOne(ts, pos + |left|, BinOp(e.op));
  }

  /** A binary tree printed without parentheses: the parser takes it in and goes on behind it. */
  lemma {:induction false} BinaryReads(ts: seq<Token>, pos: nat, e: Expr, prec: nat, minPrec: nat)
    requires e.Binary? && 0 < minPrec <= prec <= Precedence(e.op)
    requires StandsAt(ts, pos, Show(e, prec)) && PrecAt(ts, pos + |Show(e, prec)|) <= prec && !OpensAt(ts, pos + |Show(e, prec)|)
    ensures ParsePrec(ts, pos, minPrec) == Climb(ts, Parsed(e, pos + |Show(e, prec)|, true), minPrec)
    decreases e, 0
  {
    hide *;
    var p := Precedence(e.op);
    var there := pos + |Show(e.left, p)|;
    BinaryParts(ts, pos, e, prec);
    TreeReads(ts, pos, e.left, p, minPrec);
    TreeReads(ts, there + 1, e.right, p + 1, p + 1);
    ClimbDone(ts, Parsed(e.right, there + 1 + |Show(e.right, p + 1)|, true), p + 1);
    ClimbStep(ts, Parsed(e.left, there, true), minPrec);
  }

  lemma ClimbDone(ts: seq<Token>, left: Parsed, minPrec: nat)
    requires minPrec > 0 && PrecAt(ts, left.pos) < minPrec
    ensures Climb(ts, left, minPrec) == left
  {
  }

  lemma ClimbStep(ts: seq<Token>, left: Parsed, minPrec: nat)
    requires 0 < minPrec <= PrecAt(ts, left.pos)
    ensures left.pos < |ts| && ts[left.pos].BinOp?
    ensures var k := ts[left.pos].kind;
            var right := ParsePrec(ts, left.pos + 1, Precedence(k) + 1);
            Climb(ts, left, minPrec) == Climb(ts, Parsed(Binary(k, left.e, right.e), right.pos, left.ok && right.ok), minPrec)
  {
    hide ParsePrec;
  }

  /** Whatever the tree: read where operators of at least `minPrec` are wanted, it is taken in
      and parsing goes on behind it. */
  lemma {:induction false} TreeReads(ts: seq<Token>, pos: nat, e: Expr, prec: nat, minPrec: nat)
    requires 0 < minPrec <= prec <= 11
    requires StandsAt(ts, pos, Show(e, prec)) && PrecAt(ts, pos + |Show(e, prec)|) <= prec && !OpensAt(ts, pos + |Show(e, prec)|)
    ensures ParsePrec(ts, pos, minPrec) == Climb(ts, Parsed(e, pos + |Show(e, prec)|, true), minPrec)
    decreases e, 3
  {
    if e.Binary? && prec <= Precedence(e.op) {
      BinaryReads(ts, pos, e, prec, minPrec);
    } else {
      assert Show(e, prec) == Show(e, 11);
      PrimaryReads(ts, pos, e);
    }
  }

  lemma Between(before: seq<Token>, part: seq<Token>, after: seq<Token>)
    ensures StandsAt(before + part + after, |before|, part)
    ensures PrecAt(before + part + after, |before| + |part|) == PrecAt(after, 0)
    ensures OpensAt(before + part + after, |before| + |part|) == OpensAt(after, 0)
  {
    var ts := before + part + after;
    assert ts[|before|..|before| + |part|] == part;
    assert after != [] ==> ts[|before| + |part|] == after[0];
  }

  /** Parsing the printed form of any tree gives the tree back and consumes exactly its tokens,
      if what follows is neither a binary operator nor an opening parenthesis. */
  lemma ParseShow(before: seq<Token>, e: Expr, after: seq<Token>)
    requires after != [] ==> !after[0].BinOp? && !after[0].LParen?
    ensures ParsePrec(before + Show(e, 1) + after, |before|, 1) == Parsed(e, |before| + |Show(e, 1)|, true)
  {
    hide *;
    var ts := before + Show(e, 1) + after;
    Between(before, Show(e, 1), after);
    NothingFollows(after);
    TreeReads(ts, |before|, e, 1, 1);
    ClimbDone(ts, Parsed(e, |before| + |Show(e, 1)|, true), 1);
  }

  lemma NothingFollows(after: seq<Token>)
    requires after != [] ==> !after[0].BinOp? && !after[0].LParen?
    ensures PrecAt(after, 0) == 0 && !OpensAt(after, 0)
  {
  }

  // ---- Printing inverts parsing ----

  /** How tightly a tree must hold together to stand bare before position `pos`, in a place that
      wants operators of at least `minPrec`. */
  function Want(ts: seq<Token>, pos: nat, minPrec: nat): nat {
    if PrecAt(ts, pos) < minPrec then minPrec else PrecAt(ts, pos)
  }

  /** What is parsed at `pos` holds nothing superfluous: a group holds an operator that binds more
      loosely than its place wants, no argument list ends in a comma, and no call is called. */
  ghost predicate NeatPrimary(ts: seq<Token>, pos: nat, want: nat)
    decreases if pos < |ts| then |ts| - pos else 0, 0
  {
    pos < |ts| ==>
      var t := ts[pos];
      if t.LParen? then
        var e := ParsePrec(ts, pos + 1, 1).e;
        e.Binary? && Precedence(e.op) < want && NeatPrec(ts, pos + 1, 1)
      else if t.Ident? then NeatCalls(ts, Parsed(IdentExpr(t.name), pos + 1, true))
      else IsPrefix(t) ==> NeatPrimary(ts, pos + 1, 11)
  }

  ghost predicate NeatCalls(ts: seq<Token>, left: Parsed)
    requires Named(left.e)
    decreases if left.pos < |ts| then |ts| - left.pos else 0, 4
  {
    OpensAt(ts, left.pos) ==>
      var a := ParseArgs(ts, left.pos + 1);
      && left.e.IdentExpr? && NeatArgs(ts, left.pos + 1)
      && NeatCalls(ts, Parsed(CallExpr(NameOf(left.e), a.args), Skip(ts, a.pos), left.ok && a.ok && ClosesAt(ts, a.pos)))
  }

  ghost predicate NeatArgs(ts: seq<Token>, pos: nat)
    decreases if pos < |ts| then |ts| - pos else 0, 3
  {
    !ClosesAt(ts, pos) ==>
      var r := ParsePrec(ts, pos, 1);
      NeatPrec(ts, pos, 1) && (CommaAt(ts, r.pos) ==> !ClosesAt(ts, r.pos + 1) && NeatArgs(ts, r.pos + 1))
  }

  ghost predicate NeatPrec(ts: seq<Token>, pos: nat, minPrec: nat)
    requires minPrec > 0
    decreases if pos < |ts| then |ts| - pos else 0, 2
  {
    var first := ParsePrimary(ts, pos);
    NeatPrimary(ts, pos, Want(ts, first.pos, minPrec)) && NeatClimb(ts, first, minPrec)
  }

  ghost predicate NeatClimb(ts: seq<Token>, left: Parsed, minPrec: nat)
    requires minPrec > 0
    decreases if left.pos < |ts| then |ts| - left.pos else 0, 1
  {
    PrecAt(ts, left.pos) >= minPrec ==>
      var k := ts[left.pos].kind;
      var right := ParsePrec(ts, left.pos + 1, Precedence(k) + 1);
      && NeatPrec(ts, left.pos + 1, Precedence(k) + 1)
      && NeatClimb(ts, Parsed(Binary(k, left.e, right.e), right.pos, left.ok && right.ok), minPrec)
  }

  /** `part` is what stands between `start` and `end` if that is neat, and shorter if not. */
  ghost predicate Prints(ts: seq<Token>, start: nat, end: nat, part: seq<Token>, neat: bool) {
    start <= end <= |ts| && if neat then part == ts[start..end] else |part| < end - start
  }

  /** The loop stops where the next operator binds too loosely, and forgets no error. */
  lemma {:induction false} ClimbStops(ts: seq<Token>, left: Parsed, minPrec: nat)
    requires minPrec > 0
    ensures PrecAt(ts, Climb(ts, left, minPrec).pos) < minPrec
    ensures Climb(ts, left, minPrec).ok ==> left.ok
    decreases if left.pos < |ts| then |ts| - left.pos else 0
  {
    if PrecAt(ts, left.pos) >= minPrec {
      var k := ts[left.pos].kind;
      var right := ParsePrec(ts, left.pos + 1, Precedence(k) + 1);
      ClimbStops(ts, Parsed(Binary(k, left.e, right.e), right.pos, left.ok && right.ok), minPrec);
    }
  }

  lemma {:induction false} CallsKeepErrors(ts: seq<Token>, left: Parsed)
    requires Named(left.e)
    ensures Postfix(ts, left).ok ==> left.ok
    decreases if left.pos < |ts| then |ts| - left.pos else 0
  {
    if OpensAt(ts, left.pos) {
      var a := ParseArgs(ts, left.pos + 1);
      CallsKeepErrors(ts, Parsed(CallExpr(NameOf(left.e), a.args), Skip(ts, a.pos), left.ok && a.ok && ClosesAt(ts, a.pos)));
    }
  }

  lemma PrefixBack(t: Token)
    requires IsPrefix(t)
    ensures PrefixToken(PrefixOf(t)) == t
  {
  }

  lemma {:induction false} PrimaryShows(ts: seq<Token>, pos: nat, want: nat)
    requires ParsePrimary(ts, pos).ok && want <= 11
    ensures var r := ParsePrimary(ts, pos); Prints(ts, pos, r.pos, Show(r.e, want), NeatPrimary(ts, pos, want))
    decreases if pos < |ts| then |ts| - pos else 0, 0
  {
    var t := ts[pos];
    if t.LParen? {
      PrecShows(ts, pos + 1, 1);
      hide Prints;
      GroupShows(ts, pos, want);
    } else if t.Ident? {
      hide Show, Postfix, NeatCalls, ParsePrec;
      NameShows(t.name, 11);
      assert ts[pos..pos + 1] == [t];
      CallsShow(ts, pos, Parsed(IdentExpr(t.name), pos + 1, true), true);
      NamedShows(ParsePrimary(ts, pos).e, want);
    } else if IsPrefix(t) {
      PrefixOk(ts, pos);
      PrimaryShows(ts, pos + 1, 11);
      hide ParsePrimary, NeatPrimary, Show;
      PrefixShows(ts, pos, want);
    } else {
      LeafShows(ts, pos, want);
    }
  }

  lemma PrefixOk(ts: seq<Token>, pos: nat)
    requires pos < |ts| && IsPrefix(ts[pos])
    ensures ParsePrimary(ts, pos).ok == ParsePrimary(ts, pos + 1).ok
  {
  }

  lemma PrefixShows(ts: seq<Token>, pos: nat, want: nat)
    requires pos < |ts| && IsPrefix(ts[pos])
    requires var r := ParsePrimary(ts, pos + 1); Prints(ts, pos + 1, r.pos, Show(r.e, 11), NeatPrimary(ts, pos + 1, 11))
    ensures var r := ParsePrimary(ts, pos); Prints(ts, pos, r.pos, Show(r.e, want), NeatPrimary(ts, pos, want))
  {
    var t := ts[pos];
    PrefixBack(t);
    var r := ParsePrimary(ts, pos + 1);
    assert ts[pos..r.pos] == [t] + ts[pos + 1..r.pos];
  }

  lemma LeafShows(ts: seq<Token>, pos: nat, want: nat)
    requires ParsePrimary(ts, pos).ok && pos < |ts| && !ts[pos].LParen? && !ts[pos].Ident? && !IsPrefix(ts[pos])
    ensures var r := ParsePrimary(ts, pos); Prints(ts, pos, r.pos, Show(r.e, want), NeatPrimary(ts, pos, want))
  {
  }

  lemma NameShows(n: string, want: nat)
    ensures Show(IdentExpr(n), want) == [Ident(n)]
  {
  }

  lemma NamedShows(e: Expr, want: nat)
    requires Named(e)
    ensures Show(e, want) == Show(e, 11)
  {
  }

  lemma Around(ts: seq<Token>, pos: nat, end: nat)
    requires pos < end < |ts| && ts[pos] == LParen && ts[end] == RParen
    ensures ts[pos..end + 1] == [LParen] + ts[pos + 1..end] + [RParen]
  {
  }

  /** A group, once its inside is known to print. */
  lemma GroupShows(ts: seq<Token>, pos: nat, want: nat)
    requires OpensAt(ts, pos) && ParsePrimary(ts, pos).ok
    requires var r := ParsePrec(ts, pos + 1, 1); Prints(ts, pos + 1, r.pos, Show(r.e, 1), NeatPrec(ts, pos + 1, 1))
    ensures var r := ParsePrimary(ts, pos); Prints(ts, pos, r.pos, Show(r.e, want), NeatPrimary(ts, pos, want))
  {
    var r := ParsePrec(ts, pos + 1, 1);
    var body := Show(r.e, 1);
    hide ParsePrec, NeatPrec, Postfix;
    assert ClosesAt(ts, r.pos);
    Around(ts, pos, r.pos);
    if !(r.e.Binary? && Precedence(r.e.op) < want) {
      assert Show(r.e, want) == body;
    } else {
      assert Show(r.e, want) == [LParen] + body + [RParen];
    }
  }

  lemma {:induction false} CallsShow(ts: seq<Token>, start: nat, left: Parsed, neat: bool)
    requires Named(left.e) && Postfix(ts, left).ok && Prints(ts, start, left.pos, Show(left.e, 11), neat)
    ensures var r := Postfix(ts, left);
            Named(r.e) && Prints(ts, start, r.pos, Show(r.e, 11), neat && NeatCalls(ts, left))
    decreases if left.pos < |ts| then |ts| - left.pos else 0, 4
  {
    if OpensAt(ts, left.pos) {
      var a := ParseArgs(ts, left.pos + 1);
      var next := Parsed(CallExpr(NameOf(left.e), a.args), Skip(ts, a.pos), left.ok && a.ok && ClosesAt(ts, a.pos));
      PostfixStep(ts, left);
      CallsKeepErrors(ts, next);
      ArgsShow(ts, left.pos + 1);
      hide Postfix, ParseArgs, NeatArgs, Show, ShowArgs, Prints;
      CallShows(ts, start, left, a, neat, NeatArgs(ts, left.pos + 1));
      CallsShow(ts, start, next, neat && left.e.IdentExpr? && NeatArgs(ts, left.pos + 1));
    }
  }

  lemma CallShows(ts: seq<Token>, start: nat, left: Parsed, a: ParsedArgs, neat: bool, neatArgs: bool)
    requires Named(left.e) && OpensAt(ts, left.pos) && ClosesAt(ts, a.pos)
    requires Prints(ts, start, left.pos, Show(left.e, 11), neat) && Prints(ts, left.pos + 1, a.pos, ShowArgs(a.args), neatArgs)
    ensures Prints(ts, start, a.pos + 1, Show(CallExpr(NameOf(left.e), a.args), 11), neat && left.e.IdentExpr? && neatArgs)
  {
    var inner := ShowArgs(a.args);
    var n := NameOf(left.e);
    assert Show(CallExpr(n, a.args), 11) == [Ident(n), LParen] + (inner + [RParen]);
    if left.e.IdentExpr? {
      assert Show(left.e, 11) == [Ident(n)];
      assert ts[start..a.pos + 1] == ts[start..left.pos] + [LParen] + (ts[left.pos + 1..a.pos] + [RParen]);
      hide ShowArgs;
      assert [Ident(n)] + [LParen] == [Ident(n), LParen];
    } else {
      assert |Show(left.e, 11)| >= 3;
    }
  }

  lemma {:induction false} ArgsShow(ts: seq<Token>, pos: nat)
    requires ParseArgs(ts, pos).ok && pos <= |ts|
    ensures var r := ParseArgs(ts, pos); Prints(ts, pos, r.pos, ShowArgs(r.args), NeatArgs(ts, pos))
    decreases if pos < |ts| then |ts| - pos else 0, 3
  {
    if !ClosesAt(ts, pos) {
      var r := ParsePrec(ts, pos, 1);
      hide ParsePrec, NeatPrec, Show, ParseArgs, Prints;
      ArgsStep(ts, pos);
      PrecShows(ts, pos, 1);
      if CommaAt(ts, r.pos) {
        ArgsShow(ts, r.pos + 1);
        SomeArgs(ts, r.pos + 1);
        ArgsJoin(ts, pos, r.pos, r.e, NeatPrec(ts, pos, 1), ParseArgs(ts, r.pos + 1), !ClosesAt(ts, r.pos + 1), NeatArgs(ts, r.pos + 1));
      }
    }
  }

  /** An argument and those behind the comma; a comma before the closing parenthesis is lost. */
  lemma ArgsJoin(ts: seq<Token>, pos: nat, mid: nat, e: Expr, neat: bool, more: ParsedArgs, some: bool, neatMore: bool)
    requires CommaAt(ts, mid) && Prints(ts, pos, mid, Show(e, 1), neat) && Prints(ts, mid + 1, more.pos, ShowArgs(more.args), neatMore)
    requires some <==> more.args != []
    ensures Prints(ts, pos, more.pos, ShowArgs([e] + more.args), neat && some && neatMore)
  {
    hide Show, ShowArgs;
    var args := [e] + more.args;
    assert args[1..] == more.args && args[0] == e;
    ArgsAre(args);
    if more.args == [] {
      NoArgs(more.args);
    }
    assert ts[pos..more.pos] == ts[pos..mid] + ([Comma] + ts[mid + 1..more.pos]);
  }

  /** Behind a comma there is another argument unless the list closes. */
  lemma SomeArgs(ts: seq<Token>, pos: nat)
    ensures ParseArgs(ts, pos).args == [] <==> ClosesAt(ts, pos)
    ensures ClosesAt(ts, pos) ==> ParseArgs(ts, pos).pos == pos
  {
  }

  /** What the loop has taken in, printed, is what it consumed. */
  lemma {:induction false} ClimbShows(ts: seq<Token>, start: nat, left: Parsed, minPrec: nat, neat: bool)
    requires 0 < minPrec <= 11 && Climb(ts, left, minPrec).ok
    requires Prints(ts, start, left.pos, Show(left.e, Want(ts, left.pos, minPrec)), neat)
    ensures var r := Climb(ts, left, minPrec); Prints(ts, start, r.pos, Show(r.e, minPrec), neat && NeatClimb(ts, left, minPrec))
    decreases if left.pos < |ts| then |ts| - left.pos else 0, 0
  {
    hide Climb, ParsePrec, Show, Prints, NeatPrec, NeatClimb;
    NeatNext(ts, left, minPrec);
    if PrecAt(ts, left.pos) < minPrec {
      ClimbDone(ts, left, minPrec);
    } else {
      var k := ts[left.pos].kind;
      var p := Precedence(k);
      var right := ParsePrec(ts, left.pos + 1, p + 1);
      var next := Parsed(Binary(k, left.e, right.e), right.pos, left.ok && right.ok);
      ClimbNext(ts, left, minPrec);
      PrecShows(ts, left.pos + 1, p + 1);
      JoinShows(ts, start, left.pos, right.pos, left.e, right.e, neat, NeatPrec(ts, left.pos + 1, p + 1));
      BareShows(next.e, Want(ts, right.pos, minPrec));
      ClimbShows(ts, start, next, minPrec, neat && NeatPrec(ts, left.pos + 1, p + 1));
    }
  }

  lemma NeatNext(ts: seq<Token>, left: Parsed, minPrec: nat)
    requires minPrec > 0
    ensures PrecAt(ts, left.pos) < minPrec ==> NeatClimb(ts, left, minPrec)
    ensures PrecAt(ts, left.pos) >= minPrec ==>
              var k := ts[left.pos].kind;
              var right := ParsePrec(ts, left.pos + 1, Precedence(k) + 1);
              NeatClimb(ts, left, minPrec) ==
                (NeatPrec(ts, left.pos + 1, Precedence(k) + 1)
                 && NeatClimb(ts, Parsed(Binary(k, left.e, right.e), right.pos, left.ok && right.ok), minPrec))
  {
    hide ParsePrec, NeatPrec;
  }

  /** One round of the loop that ends without an error had none in its operand, behind which no
      operator binds tighter. */
  lemma ClimbNext(ts: seq<Token>, left: Parsed, minPrec: nat)
    requires 0 < minPrec <= PrecAt(ts, left.pos) && Climb(ts, left, minPrec).ok
    ensures var k := ts[left.pos].kind;
            var right := ParsePrec(ts, left.pos + 1, Precedence(k) + 1);
            && right.ok && PrecAt(ts, right.pos) <= Precedence(k)
            && Climb(ts, left, minPrec) == Climb(ts, Parsed(Binary(k, left.e, right.e), right.pos, left.ok && right.ok), minPrec)
  {
    var k := ts[left.pos].kind;
    var right := ParsePrec(ts, left.pos + 1, Precedence(k) + 1);
    ClimbStep(ts, left, minPrec);
    ClimbStops(ts, ParsePrimary(ts, left.pos + 1), Precedence(k) + 1);
    ClimbStops(ts, Parsed(Binary(k, left.e, right.e), right.pos, left.ok && right.ok), minPrec);
    hide Climb;
  }

  /** Two printed operands with their operator between them. */
  lemma JoinShows(ts: seq<Token>, start: nat, mid: nat, end: nat, l: Expr, r: Expr, neat: bool, neatRight: bool)
    requires mid < |ts| && ts[mid].BinOp?
    requires var p := Precedence(ts[mid].kind);
             Prints(ts, start, mid, Show(l, p), neat) && Prints(ts, mid + 1, end, Show(r, p + 1), neatRight)
    ensures Prints(ts, start, end, Show(Binary(ts[mid].kind, l, r), Precedence(ts[mid].kind)), neat && neatRight)
  {
    assert ts[start..end] == ts[start..mid] + [ts[mid]] + ts[mid + 1..end];
  }

  /** In a place that wants no more than its operator a binary tree is printed bare. */
  lemma BareShows(e: Expr, prec: nat)
    requires e.Binary? && prec <= Precedence(e.op)
    ensures Show(e, prec) == Show(e, Precedence(e.op))
  {
  }

  lemma {:induction false} PrecShows(ts: seq<Token>, pos: nat, minPrec: nat)
    requires 0 < minPrec <= 11 && ParsePrec(ts, pos, minPrec).ok
    ensures var r := ParsePrec(ts, pos, minPrec); Prints(ts, pos, r.pos, Show(r.e, minPrec), NeatPrec(ts, pos, minPrec))
    decreases if pos < |ts| then |ts| - pos else 0, 1
  {
    var first := ParsePrimary(ts, pos);
    ClimbStops(ts, first, minPrec);
    PrimaryShows(ts, pos, Want(ts, first.pos, minPrec));
    ClimbShows(ts, pos, first, minPrec, NeatPrimary(ts, pos, Want(ts, first.pos, minPrec)));
  }

  /** Printing what was parsed is never longer than the tokens it was parsed from, and gives them
      back if and only if they hold nothing superfluous. */
  lemma ShowParse(ts: seq<Token>, pos: nat)
    requires ParsePrec(ts, pos, 1).ok
    ensures var r := ParsePrec(ts, pos, 1);
            && r.pos <= |ts| && |Show(r.e, 1)| <= r.pos - pos
            && (Show(r.e, 1) == ts[pos..r.pos] <==> NeatPrec(ts, pos, 1))
  {
    PrecShows(ts, pos, 1);
  }

  /** A call of a call is read as one call of the same name with the later arguments. */
  lemma CallOfCall(n: string, x: int)
    ensures ParsePrec([Ident(n), LParen, IntLit(x), RParen, LParen, RParen], 0, 1) == Parsed(CallExpr(n, []), 6, true)
  {
    var ts := [Ident(n), LParen, IntLit(x), RParen, LParen, RParen];
    var inner := Parsed(IntExpr(x), 3, true);
    assert ParsePrimary(ts, 2) == inner;
    assert ParsePrec(ts, 2, 1) == inner;
    assert ParseArgs(ts, 2) == ParsedArgs([IntExpr(x)], 3, true);
    assert ParseArgs(ts, 5) == ParsedArgs([], 5, true);
    hide ParseArgs;
    PostfixStep(ts, Parsed(IdentExpr(n), 1, true));
    PostfixStep(ts, Parsed(CallExpr(n, [IntExpr(x)]), 4, true));
    PostfixDone(ts, Parsed(CallExpr(n, []), 6, true));
  }

  // ---- The parser ----

  class Parser {
    const tokens: seq<Token>
    var pos: nat
    var ok: bool

    constructor (tokens: seq<Token>)
      ensures this.tokens == tokens && pos == 0 && ok
    {
      this.tokens := tokens;
      pos, ok := 0, true;
    }

    function Left(): nat
      reads this
    {
      if pos < |tokens| then |tokens| - pos else 0
    }

    /** The parser has done what `r` says. */
    twostate predicate Did(e: Expr, new r: Parsed)
      reads this
    {
      e == r.e && pos == r.pos && ok == (old(ok) && r.ok)
    }

    method Primary() returns (e: Expr)
      modifies this
      ensures Did(e, ParsePrimary(tokens, old(pos)))
      decreases Left(), 0
    {
      e := IntExpr(0);
      if pos >= |tokens| {
        ok := false;
        return;
      }
      var t := tokens[pos];
      pos := pos + 1;
      if t.IntLit? {
        e := IntExpr(t.value);
      } else if t.BoolLit? {
        e := BoolExpr(t.on);
      } else if t.Ident? {
        e := Calls(IdentExpr(t.name));
      } else if t.LParen? {
        e := Prec(1);
        ExpectClose();
      } else if IsPrefix(t) {
        var x := Primary();
        e := Unary(PrefixOf(t), x);
      } else {
        ok := false;
      }
    }

    method ExpectClose()
      modifies this
      ensures pos == Skip(tokens, old(pos)) && ok == (old(ok) && ClosesAt(tokens, old(pos)))
    {
      if pos < |tokens| {
        ok := ok && tokens[pos].RParen?;
        pos := pos + 1;
      } else {
        ok := false;
      }
    }

    /** The postfix loop behind a name. */
    method Calls(name: Expr) returns (e: Expr)
      requires name.IdentExpr?
      modifies this
      ensures Did(e, Postfix(tokens, Parsed(name, old(pos), true)))
      decreases Left(), 4
    {
      hide Postfix, ParseArgs;
      e := name;
      ghost var first := Parsed(name, pos, true);
      ghost var now := first;
      while OpensAt(tokens, pos)
        invariant old(pos) <= pos && Named(e) && NameOf(e) == name.name
        invariant e == now.e && pos == now.pos && ok == (old(ok) && now.ok)
        invariant Postfix(tokens, now) == Postfix(tokens, first)
        decreases Left()
      {
        PostfixStep(tokens, now);
        pos := pos + 1;
        ghost var a := ParseArgs(tokens, pos);
        var args := Args();
        ExpectClose();
        e := CallExpr(NameOf(e), args);
        now := Parsed(e, pos, now.ok && a.ok && ClosesAt(tokens, a.pos));
      }
      PostfixDone(tokens, now);
    }

    /** The argument loop. */
    method Args() returns (args: seq<Expr>)
      modifies this
      ensures var r := ParseArgs(tokens, old(pos)); args == r.args && pos == r.pos && ok == (old(ok) && r.ok)
      decreases Left(), 3
    {
      hide ParsePrec, ParseArgs;
      args := [];
      var more := true;
      ghost var good := true;
      ghost var all := ParseArgs(tokens, pos);
      while more && !ClosesAt(tokens, pos)
        invariant old(pos) <= pos && ok == (old(ok) && good)
        invariant if !more then all == ParsedArgs(args, pos, good)
                  else var rest := ParseArgs(tokens, pos); all == ParsedArgs(args + rest.args, rest.pos, good && rest.ok)
        decreases Left(), if more then 1 else 0
      {
        ghost var r := ParsePrec(tokens, pos, 1);
        ghost var rest := ParseArgs(tokens, pos);
        ArgsStep(tokens, pos);
        var a := Prec(1);
        args := args + [a];
        good := good && r.ok;
        more := CommaAt(tokens, pos);
        if more {
          pos := pos + 1;
          ghost var later := ParseArgs(tokens, pos).args;
          assert args[..|args| - 1] + ([a] + later) == args + later;
        }
      }
      ArgsEnd(tokens, pos);
    }

    method Prec(minPrec: nat) returns (left: Expr)
      requires minPrec > 0
      modifies this
      ensures Did(left, ParsePrec(tokens, old(pos), minPrec))
      decreases Left(), 1
    {
      hide Climb, ParsePrimary;
      left := Primary();
      ghost var first := ParsePrimary(tokens, old(pos));
      ghost var now := first;
      while PrecAt(tokens, pos) >= minPrec
        invariant old(pos) <= pos && (old(pos) < |tokens| ==> old(pos) < pos)
        invariant left == now.e && pos == now.pos && ok == (old(ok) && now.ok)
        invariant Climb(tokens, now, minPrec) == Climb(tokens, first, minPrec)
        decreases Left()
      {
        hide ParsePrec;
        ClimbStep(tokens, now, minPrec);
        var k := tokens[pos].kind;
        pos := pos + 1;
        ghost var right := ParsePrec(tokens, pos, Precedence(k) + 1);
        var r := Prec(Precedence(k) + 1);
        left := Binary(k, left, r);
        now := Parsed(left, right.pos, now.ok && right.ok);
      }
      ClimbDone(tokens, now, minPrec);
    }

    method ParseExpr() returns (e: Expr)
      modifies this
      ensures Did(e, ParsePrec(tokens, old(pos), 1))
    {
      e := Prec(1);
    }
  }
}
