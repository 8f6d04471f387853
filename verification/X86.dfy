/** The x86-64 instructions the emitter produces: their bytes (src/emit.c:331-575) and a decoder
    after sections 2.1.3 and 2.2.1 of the Intel Software Developer's Manual, Volume 2A. */
module X86 {
  import opened Wrappers

  type Byte = x: int | 0 <= x < 256

  /** RAX = 1 up to R15 = 16, as numbered by the compiler. */
  type Reg = r: nat | 1 <= r <= 16 witness 1

  type Int32 = x: int | -0x8000_0000 <= x < 0x8000_0000
  type Int8 = x: int | -0x80 <= x < 0x80
  type Imm64 = x: int | -0x8000_0000_0000_0000 <= x < 0x8000_0000_0000_0000

  datatype AluKind = AddRR | OrRR | AndRR | SubRR | XorRR
  datatype ImmKind = AddImm | SubImm
  datatype UnaryKind = NotR | NegR
  datatype Cond = E | NE | L | GE | LE | G

  datatype X86 =
    | MovRR(dst: Reg, src: Reg)
    | MovImm32(dst: Reg, imm: Int32)
    | MovImm64(dst: Reg, wide: Imm64)
    | Alu(kind: AluKind, dst: Reg, src: Reg)
    | Imul(dst: Reg, src: Reg)
    | ImulImm(dst: Reg, src: Reg, imm: Int32)
    | AluImm8(ikind: ImmKind, dst: Reg, small: Int8)
    | AluImm32(ikind: ImmKind, dst: Reg, imm: Int32)
    | Unary(ukind: UnaryKind, dst: Reg)
    | CmpRR(lhs: Reg, rhs: Reg)
    | TestRR(lhs: Reg, rhs: Reg)
    | SetCc(cc: Cond, dst: Reg)
    | Movzx(dst: Reg, src: Reg)
    | JmpRel(rel: Int32)
    | JccRel(cc: Cond, rel: Int32)
    | Push(reg: Reg)
    | Pop(reg: Reg)
    | RetNear
    | NopByte

  // ---- Pieces ----

  function RegEnc(r: Reg): (e: nat)
    ensures e < 8
  {
    (r - 1) % 8
  }

  predicate RegExt(r: Reg) {
    r >= 9
  }

  /** RSP, RBP, RSI and RDI have a byte form only with a REX prefix. */
  predicate NeedsRexForByte(r: Reg) {
    5 <= r <= 8
  }

  function Bit(b: bool, weight: nat): nat {
    if b then weight else 0
  }

  function MakeRex(w: bool, reg: bool, rm: bool): Byte {
    0x40 + Bit(w, 8) + Bit(reg, 4) + Bit(rm, 1)
  }

  function ModRm(reg: nat, rm: nat): Byte
    requires reg < 8 && rm < 8
  {
    0xC0 + 8 * reg + rm
  }

  function Le(v: nat, n: nat): (bs: seq<Byte>)
    ensures |bs| == n
  {
    if n == 0 then [] else [v % 256] + Le(v / 256, n - 1)
  }

  function Pow256(n: nat): (p: nat)
    ensures p >= 1
  {
    if n == 0 then 1 else 256 * Pow256(n - 1)
  }

  predicate Fits(v: int, n: nat) {
    0 <= 2 * v + Pow256(n) && 2 * v < Pow256(n)
  }

  /** Two's complement in `n` bytes. */
  function TwosLe(v: int, n: nat): (bs: seq<Byte>)
    requires Fits(v, n)
    ensures |bs| == n
  {
    Le(if v < 0 then v + Pow256(n) else v, n)
  }

  function FromLe(bs: seq<Byte>): nat {
    if bs == [] then 0 else bs[0] + 256 * FromLe(bs[1..])
  }

  function FromTwosLe(bs: seq<Byte>): int {
    var u := FromLe(bs);
    if 2 * u >= Pow256(|bs|) then u - Pow256(|bs|) else u
  }

  lemma {:induction false} LeRound(v: nat, n: nat)
    requires v < Pow256(n)
    ensures FromLe(Le(v, n)) == v
  {
    if n > 0 {
      LeRound(v / 256, n - 1);
      assert Le(v, n)[1..] == Le(v / 256, n - 1);
    }
  }

  lemma TwosRound(v: int, n: nat)
    requires n > 0 && Fits(v, n)
    ensures FromTwosLe(TwosLe(v, n)) == v
  {
    LeRound(if v < 0 then v + Pow256(n) else v, n);
  }

  // ---- Encoding ----

  function AluOpcode(k: AluKind): Byte {
    match k case AddRR => 0x01 case OrRR => 0x09 case AndRR => 0x21 case SubRR => 0x29 case XorRR => 0x31
  }

  function ImmDigit(k: ImmKind): nat {
    match k case AddImm => 0 case SubImm => 5
  }

  function UnaryDigit(k: UnaryKind): nat {
    match k case NotR => 2 case NegR => 3
  }

  function CondCode(c: Cond): (n: nat)
    ensures n < 16
  {
    match c case E => 4 case NE => 5 case L => 0xC case GE => 0xD case LE => 0xE case G => 0xF
  }

  /** REX.W, an opcode, and two registers. */
  function EncRR(op: seq<Byte>, reg: Reg, rm: Reg): seq<Byte> {
    [MakeRex(true, RegExt(reg), RegExt(rm))] + op + [ModRm(RegEnc(reg), RegEnc(rm))]
  }

  /** REX.W, an opcode with a digit, and one register. */
  function EncExt(op: Byte, digit: nat, rm: Reg): seq<Byte>
    requires digit < 8
  {
    [MakeRex(true, false, RegExt(rm)), op, ModRm(digit, RegEnc(rm))]
  }

  function Encode(x: X86): (bs: seq<Byte>)
    ensures 0 < |bs| <= 10
  {
    match x
    case MovRR(d, s) => EncRR([0x89], s, d)
    case MovImm32(d, v) => EncExt(0xC7, 0, d) + TwosLe(v, 4)
    case MovImm64(d, v) => [MakeRex(true, false, RegExt(d)), 0xB8 + RegEnc(d)] + TwosLe(v, 8)
    case Alu(k, d, s) => EncRR([AluOpcode(k)], s, d)
    case Imul(d, s) => EncRR([0x0F, 0xAF], d, s)
    case ImulImm(d, s, v) => EncRR([0x69], d, s) + TwosLe(v, 4)
    case AluImm8(k, d, v) => EncExt(0x83, ImmDigit(k), d) + TwosLe(v, 1)
    case AluImm32(k, d, v) => EncExt(0x81, ImmDigit(k), d) + TwosLe(v, 4)
    case Unary(k, d) => EncExt(0xF7, UnaryDigit(k), d)
    case CmpRR(l, r) => EncRR([0x39], r, l)
    case TestRR(l, r) => EncRR([0x85], r, l)
    case SetCc(c, d) =>
      (if RegExt(d) || NeedsRexForByte(d) then [MakeRex(false, false, RegExt(d))] else []) +
      [0x0F, 0x90 + CondCode(c), ModRm(0, RegEnc(d))]
    case Movzx(d, s) =>
      (if RegExt(d) || RegExt(s) || NeedsRexForByte(s) then [MakeRex(false, RegExt(d), RegExt(s))] else []) +
      [0x0F, 0xB6, ModRm(RegEnc(d), RegEnc(s))]
    case JmpRel(v) => [0xE9] + TwosLe(v, 4)
    case JccRel(c, v) => [0x0F, 0x80 + CondCode(c)] + TwosLe(v, 4)
    case Push(r) => (if RegExt(r) then [0x41] else []) + [0x50 + RegEnc(r)]
    case Pop(r) => (if RegExt(r) then [0x41] else []) + [0x58 + RegEnc(r)]
    case RetNear => [0xC3]
    case NopByte => [0x90]
  }

  // ---- Decoding ----

  /** A REX prefix, absent or with its bits. */
  datatype Rex = NoRex | Rex(w: bool, r: bool, b: bool)

  function ReadRex(b: Byte): Option<Rex> {
    if b / 16 == 4 && (b / 2) % 2 == 0 then Some(Rex((b / 8) % 2 == 1, (b / 4) % 2 == 1, b % 2 == 1)) else None
  }

  predicate IsWide(rex: Rex) {
    rex.Rex? && rex.w
  }

  function RegOf(ext: bool, bits: nat): Reg
    requires bits < 8
  {
    bits + Bit(ext, 8) + 1
  }

  function RegField(rex: Rex, modrm: Byte): Reg {
    RegOf(rex.Rex? && rex.r, (modrm / 8) % 8)
  }

  function RmField(rex: Rex, modrm: Byte): Reg {
    RegOf(rex.Rex? && rex.b, modrm % 8)
  }

  /** An immediate of `n` bytes at position `i`. */
  function Imm(bs: seq<Byte>, i: nat, n: nat): int
    requires i + n <= |bs|
  {
    FromTwosLe(bs[i..i + n])
  }

  function CondOf(n: nat): Option<Cond> {
    if n == 4 then Some(E) else if n == 5 then Some(NE) else if n == 0xC then Some(L)
    else if n == 0xD then Some(GE) else if n == 0xE then Some(LE) else if n == 0xF then Some(G) else None
  }

  function AluOf(op: Byte): Option<AluKind> {
    if op == 0x01 then Some(AddRR) else if op == 0x09 then Some(OrRR) else if op == 0x21 then Some(AndRR)
    else if op == 0x29 then Some(SubRR) else if op == 0x31 then Some(XorRR) else None
  }

  /** One instruction at the front, and its length. */
  function Decode(bs: seq<Byte>): Option<(X86, nat)> {
    if bs == [] then None
    else
      match ReadRex(bs[0])
      case Some(rex) => if |bs| < 2 then None else DecodeOp(bs, 1, rex)
      case None => DecodeOp(bs, 0, NoRex)
  }

  function DecodeOp(bs: seq<Byte>, i: nat, rex: Rex): Option<(X86, nat)>
    requires i < |bs|
  {
    var op := bs[i];
    if op == 0xC3 then Some((RetNear, i + 1))
    else if op == 0x90 then Some((NopByte, i + 1))
    else if 0x50 <= op < 0x58 then Some((Push(RegOf(rex.Rex? && rex.b, op - 0x50)), i + 1))
    else if 0x58 <= op < 0x60 then Some((Pop(RegOf(rex.Rex? && rex.b, op - 0x58)), i + 1))
    else if op == 0xE9 then
      if i + 5 <= |bs| then Rel(bs, i + 1, None) else None
    else if 0xB8 <= op < 0xC0 then
      if IsWide(rex) && i + 9 <= |bs| then Wide(bs, i + 1, RegOf(rex.b, op - 0xB8)) else None
    else if op == 0x0F then
      if i + 2 <= |bs| then DecodeTwo(bs, i + 1, rex) else None
    else if IsWide(rex) && i + 2 <= |bs| && bs[i + 1] >= 0xC0 then DecodeModRm(bs, i, rex)
    else None
  }

  function InInt32(v: int): bool {
    -0x8000_0000 <= v < 0x8000_0000
  }

  function Rel(bs: seq<Byte>, i: nat, cc: Option<Cond>): Option<(X86, nat)>
    requires i + 4 <= |bs|
  {
    var v := Imm(bs, i, 4);
    if !InInt32(v) then None
    else Some((match cc case None => JmpRel(v) case Some(c) => JccRel(c, v), i + 4))
  }

  function Wide(bs: seq<Byte>, i: nat, d: Reg): Option<(X86, nat)>
    requires i + 8 <= |bs|
  {
    var v := Imm(bs, i, 8);
    if -0x8000_0000_0000_0000 <= v < 0x8000_0000_0000_0000 then Some((MovImm64(d, v), i + 8)) else None
  }

  /** The two-byte opcodes. */
  function DecodeTwo(bs: seq<Byte>, i: nat, rex: Rex): Option<(X86, nat)>
    requires i < |bs|
  {
    var op := bs[i];
    if 0x80 <= op < 0x90 then
      if CondOf(op - 0x80).Some? && i + 5 <= |bs| then Rel(bs, i + 1, CondOf(op - 0x80)) else None
    else if i + 2 > |bs| || bs[i + 1] < 0xC0 then None
    else
      var m := bs[i + 1];
      if op == 0xAF then if IsWide(rex) then Some((Imul(RegField(rex, m), RmField(rex, m)), i + 2)) else None
      else if op == 0xB6 then
        if ByteRegOk(rex, m % 8) then Some((Movzx(RegField(rex, m), RmField(rex, m)), i + 2)) else None
      else if 0x90 <= op < 0xA0 && CondOf(op - 0x90).Some? then
        if ByteRegOk(rex, m % 8) then Some((SetCc(CondOf(op - 0x90).value, RmField(rex, m)), i + 2)) else None
      else None
  }

  /** Without a prefix the byte registers 4 to 7 are not the low bytes of RSP to RDI. */
  predicate ByteRegOk(rex: Rex, rm: nat) {
    rex.Rex? || rm < 4
  }

  /** The one-byte opcodes with two registers, or a digit and one. */
  function DecodeModRm(bs: seq<Byte>, i: nat, rex: Rex): Option<(X86, nat)>
    requires i + 2 <= |bs|
  {
    var op, m := bs[i], bs[i + 1];
    var reg, rm, digit := RegField(rex, m), RmField(rex, m), (m / 8) % 8;
    if op == 0x89 then Some((MovRR(rm, reg), i + 2))
    else if op == 0x39 then Some((CmpRR(rm, reg), i + 2))
    else if op == 0x85 then Some((TestRR(rm, reg), i + 2))
    else if AluOf(op).Some? then Some((Alu(AluOf(op).value, rm, reg), i + 2))
    else if op == 0xF7 then
      if digit == 2 then Some((Unary(NotR, rm), i + 2))
      else if digit == 3 then Some((Unary(NegR, rm), i + 2)) else None
    else if op == 0x83 then
      if i + 3 <= |bs| && -0x80 <= Imm(bs, i + 2, 1) < 0x80 then
        if digit == 0 then Some((AluImm8(AddImm, rm, Imm(bs, i + 2, 1)), i + 3))
        else if digit == 5 then Some((AluImm8(SubImm, rm, Imm(bs, i + 2, 1)), i + 3)) else None
      else None
    else if i + 6 <= |bs| && InInt32(Imm(bs, i + 2, 4)) then
      var v := Imm(bs, i + 2, 4);
      if op == 0xC7 && digit == 0 then Some((MovImm32(rm, v), i + 6))
      else if op == 0x69 then Some((ImulImm(reg, rm, v), i + 6))
      else if op == 0x81 && digit == 0 then Some((AluImm32(AddImm, rm, v), i + 6))
      else if op == 0x81 && digit == 5 then Some((AluImm32(SubImm, rm, v), i + 6))
      else None
    else None
  }

  // ---- Round trip ----

  lemma RexRound(w: bool, r: bool, b: bool)
    ensures ReadRex(MakeRex(w, r, b)) == Some(Rex(w, r, b))
  {
  }

  lemma ModRmRound(rex: Rex, reg: nat, rm: nat)
    requires reg < 8 && rm < 8
    ensures ModRm(reg, rm) >= 0xC0 && (ModRm(reg, rm) / 8) % 8 == reg && ModRm(reg, rm) % 8 == rm
  {
  }

  lemma RegRound(r: Reg)
    ensures RegOf(RegExt(r), RegEnc(r)) == r
  {
  }

  lemma ImmRound(bs: seq<Byte>, i: nat, v: int, n: nat, rest: seq<Byte>)
    requires n > 0 && Fits(v, n) && i <= |bs| && bs[i..] == TwosLe(v, n) + rest
    ensures i + n <= |bs| && Imm(bs, i, n) == v
  {
    assert bs[i..i + n] == bs[i..][..n] == TwosLe(v, n);
    TwosRound(v, n);
  }

  lemma Powers()
    ensures Pow256(1) == 0x100 && Pow256(4) == 0x1_0000_0000 && Pow256(8) == 0x1_0000_0000_0000_0000
  {
    assert Pow256(2) == 0x1_0000;
    assert Pow256(4) == 256 * (256 * Pow256(2));
    assert Pow256(6) == 256 * (256 * Pow256(4));
    assert Pow256(8) == 256 * (256 * Pow256(6));
  }

  /** The one-byte opcodes with two registers. */
  lemma RRRound(op: Byte, reg: Reg, rm: Reg, tail: seq<Byte>)
    requires op != 0xC3 && op != 0x90 && !(0x50 <= op < 0x60) && op != 0xE9 && !(0xB8 <= op < 0xC0) && op != 0x0F
    ensures var bs := EncRR([op], reg, rm) + tail; var rex := Rex(true, RegExt(reg), RegExt(rm));
            && |bs| >= 3 && Decode(bs) == DecodeModRm(bs, 1, rex)
            && bs[1] == op && RegField(rex, bs[2]) == reg && RmField(rex, bs[2]) == rm
            && (bs[2] / 8) % 8 == RegEnc(reg) && bs[3..] == tail
  {
    var bs := EncRR([op], reg, rm) + tail;
    RexRound(true, RegExt(reg), RegExt(rm));
    ModRmRound(NoRex, RegEnc(reg), RegEnc(rm));
    RegRound(reg);
    RegRound(rm);
    assert bs[0] == MakeRex(true, RegExt(reg), RegExt(rm)) && bs[1] == op && bs[2] == ModRm(RegEnc(reg), RegEnc(rm));
    assert bs[3..] == tail;
    hide MakeRex, ModRm, ReadRex, RegEnc, RegOf, DecodeModRm;
  }

  lemma ExtRound(op: Byte, digit: nat, rm: Reg, tail: seq<Byte>)
    requires digit < 8
    requires op != 0xC3 && op != 0x90 && !(0x50 <= op < 0x60) && op != 0xE9 && !(0xB8 <= op < 0xC0) && op != 0x0F
    ensures var bs := EncExt(op, digit, rm) + tail; var rex := Rex(true, false, RegExt(rm));
            && |bs| >= 3 && Decode(bs) == DecodeModRm(bs, 1, rex)
            && bs[1] == op && (bs[2] / 8) % 8 == digit && RmField(rex, bs[2]) == rm && bs[3..] == tail
  {
    var bs := EncExt(op, digit, rm) + tail;
    RexRound(true, false, RegExt(rm));
    ModRmRound(NoRex, digit, RegEnc(rm));
    RegRound(rm);
    assert bs[0] == MakeRex(true, false, RegExt(rm)) && bs[1] == op && bs[2] == ModRm(digit, RegEnc(rm));
    assert bs[3..] == tail;
    hide MakeRex, ModRm, ReadRex, RegEnc, RegOf, DecodeModRm;
  }

  lemma TwoRegRound(x: X86, op: Byte, reg: Reg, rm: Reg, rest: seq<Byte>)
    requires (x == MovRR(rm, reg) && op == 0x89) || (x == CmpRR(rm, reg) && op == 0x39) || (x == TestRR(rm, reg) && op == 0x85)
             || (x.Alu? && x == Alu(x.kind, rm, reg) && op == AluOpcode(x.kind))
    ensures |EncRR([op], reg, rm)| == 3 && Decode(EncRR([op], reg, rm) + rest) == Some((x, 3))
  {
    RRRound(op, reg, rm, rest);
    hide Decode, EncRR, RegField, RmField, Imm, RegEnc;
  }

  lemma UnaryRound(k: UnaryKind, d: Reg, rest: seq<Byte>)
    ensures |EncExt(0xF7, UnaryDigit(k), d)| == 3 && Decode(EncExt(0xF7, UnaryDigit(k), d) + rest) == Some((Unary(k, d), 3))
  {
    ExtRound(0xF7, UnaryDigit(k), d, rest);
    hide Decode, EncExt, RegField, RmField, Imm, RegEnc;
  }

  /** Decoding what was encoded gives the instruction back, whatever follows. */
  lemma EncodeRound(x: X86, rest: seq<Byte>)
    ensures Decode(Encode(x) + rest) == Some((x, |Encode(x)|))
  {
    Powers();
    hide Decode, EncRR, EncExt, TwosLe, Pow256, AluOpcode, InInt32;
    match x {
      case MovRR(d, s) => TwoRegRound(x, 0x89, s, d, rest);
      case Alu(k, d, s) => TwoRegRound(x, AluOpcode(k), s, d, rest);
      case CmpRR(l, r) => TwoRegRound(x, 0x39, r, l, rest);
      case TestRR(l, r) => TwoRegRound(x, 0x85, r, l, rest);
      case Unary(k, d) => UnaryRound(k, d, rest);
      case ImulImm(d, s, v) => ImmRRRound(0x69, d, s, v, 4, rest);
      case MovImm32(d, v) => ImmExtRound(0xC7, 0, d, v, 4, rest);
      case AluImm8(k, d, v) => ImmExtRound(0x83, ImmDigit(k), d, v, 1, rest);
      case AluImm32(k, d, v) => ImmExtRound(0x81, ImmDigit(k), d, v, 4, rest);
      case MovImm64(d, v) => WideRound(d, v, rest);
      case Imul(d, s) => ImulRound(d, s, rest);
      case SetCc(c, d) => SetRound(c, d, rest);
      case Movzx(d, s) => MovzxRound(d, s, rest);
      case JmpRel(v) => JmpRound(v, rest);
      case JccRel(c, v) => JccRound(c, v, rest);
      case Push(r) => PushRound(r, rest);
      case Pop(r) => PopRound(r, rest);
      case RetNear => FixedRound(x, rest);
      case NopByte => FixedRound(x, rest);
    }
  }

  lemma FixedRound(x: X86, rest: seq<Byte>)
    requires x.RetNear? || x.NopByte?
    ensures Decode(Encode(x) + rest) == Some((x, 1))
  {
    assert (Encode(x) + rest)[0] == Encode(x)[0];
  }

  lemma ImmRRRound(op: Byte, reg: Reg, rm: Reg, v: int, n: nat, rest: seq<Byte>)
    requires op == 0x69 && n == 4 && Fits(v, n)
    ensures InInt32(v) && Decode(EncRR([op], reg, rm) + TwosLe(v, n) + rest) == Some((ImulImm(reg, rm, v), 7))
    ensures |EncRR([op], reg, rm)| == 3
  {
    Powers();
    var bs := EncRR([op], reg, rm) + TwosLe(v, n) + rest;
    assert bs == EncRR([op], reg, rm) + (TwosLe(v, n) + rest);
    RRRound(op, reg, rm, TwosLe(v, n) + rest);
    ImmRound(bs, 3, v, n, rest);
    hide Decode, EncRR, TwosLe, RegField, RmField, Imm, Pow256;
  }

  lemma ImmExtRound(op: Byte, digit: nat, rm: Reg, v: int, n: nat, rest: seq<Byte>)
    requires digit < 8 && Fits(v, n)
    requires (op == 0xC7 && digit == 0 && n == 4) || (op == 0x83 && (digit == 0 || digit == 5) && n == 1) || (op == 0x81 && (digit == 0 || digit == 5) && n == 4)
    ensures op == 0x83 ==> -0x80 <= v < 0x80
    ensures op != 0x83 ==> InInt32(v)
    ensures Decode(EncExt(op, digit, rm) + TwosLe(v, n) + rest) ==
              Some((if op == 0xC7 then MovImm32(rm, v)
                    else if op == 0x83 then AluImm8(if digit == 0 then AddImm else SubImm, rm, v)
                    else AluImm32(if digit == 0 then AddImm else SubImm, rm, v), 3 + n))
    ensures |EncExt(op, digit, rm)| == 3
  {
    Powers();
    var bs := EncExt(op, digit, rm) + TwosLe(v, n) + rest;
    assert bs == EncExt(op, digit, rm) + (TwosLe(v, n) + rest);
    ExtRound(op, digit, rm, TwosLe(v, n) + rest);
    ImmRound(bs, 3, v, n, rest);
    hide Decode, EncExt, TwosLe, RegField, RmField, Imm, Pow256;
  }

  lemma WideRound(d: Reg, v: Imm64, rest: seq<Byte>)
    ensures Fits(v, 8) && |Encode(MovImm64(d, v))| == 10 && Decode(Encode(MovImm64(d, v)) + rest) == Some((MovImm64(d, v), 10))
  {
    Powers();
    var bs := Encode(MovImm64(d, v)) + rest;
    RexRound(true, false, RegExt(d));
    RegRound(d);
    assert bs[0] == MakeRex(true, false, RegExt(d)) && bs[1] == 0xB8 + RegEnc(d) && bs[2..] == TwosLe(v, 8) + rest;
    ImmRound(bs, 2, v, 8, rest);
    hide MakeRex, ReadRex, RegEnc, RegOf, TwosLe, Imm, Encode, Pow256;
  }

  lemma ImulRound(d: Reg, s: Reg, rest: seq<Byte>)
    ensures |Encode(Imul(d, s))| == 4 && Decode(Encode(Imul(d, s)) + rest) == Some((Imul(d, s), 4))
  {
    var bs := Encode(Imul(d, s)) + rest;
    RexRound(true, RegExt(d), RegExt(s));
    ModRmRound(NoRex, RegEnc(d), RegEnc(s));
    RegRound(d);
    RegRound(s);
    assert bs[0] == MakeRex(true, RegExt(d), RegExt(s)) && bs[1] == 0x0F && bs[2] == 0xAF && bs[3] == ModRm(RegEnc(d), RegEnc(s));
    hide MakeRex, ReadRex, RegEnc, RegOf, ModRm, Encode;
  }

  lemma SetRound(c: Cond, d: Reg, rest: seq<Byte>)
    ensures Decode(Encode(SetCc(c, d)) + rest) == Some((SetCc(c, d), |Encode(SetCc(c, d))|))
  {
    var bs := Encode(SetCc(c, d)) + rest;
    RexRound(false, false, RegExt(d));
    ModRmRound(NoRex, 0, RegEnc(d));
    RegRound(d);
    var k := if RegExt(d) || NeedsRexForByte(d) then 1 else 0;
    assert k == 1 ==> bs[0] == MakeRex(false, false, RegExt(d));
    assert bs[k] == 0x0F && bs[k + 1] == 0x90 + CondCode(c) && bs[k + 2] == ModRm(0, RegEnc(d));
    assert !RegExt(d) && !NeedsRexForByte(d) ==> RegEnc(d) < 4;
    hide MakeRex, RegOf, ModRm;
  }

  lemma MovzxRound(d: Reg, s: Reg, rest: seq<Byte>)
    ensures Decode(Encode(Movzx(d, s)) + rest) == Some((Movzx(d, s), |Encode(Movzx(d, s))|))
  {
    var bs := Encode(Movzx(d, s)) + rest;
    RexRound(false, RegExt(d), RegExt(s));
    ModRmRound(NoRex, RegEnc(d), RegEnc(s));
    RegRound(d);
    RegRound(s);
    var k := if RegExt(d) || RegExt(s) || NeedsRexForByte(s) then 1 else 0;
    assert k == 1 ==> bs[0] == MakeRex(false, RegExt(d), RegExt(s));
    assert bs[k] == 0x0F && bs[k + 1] == 0xB6 && bs[k + 2] == ModRm(RegEnc(d), RegEnc(s));
    assert !RegExt(s) && !NeedsRexForByte(s) ==> RegEnc(s) < 4;
    hide MakeRex, RegOf, ModRm;
  }

  lemma JmpRound(v: Int32, rest: seq<Byte>)
    ensures Fits(v, 4) && Decode(Encode(JmpRel(v)) + rest) == Some((JmpRel(v), 5))
  {
    Powers();
    var bs := Encode(JmpRel(v)) + rest;
    assert bs[0] == 0xE9 && bs[1..] == TwosLe(v, 4) + rest;
    ImmRound(bs, 1, v, 4, rest);
    hide TwosLe, Imm, Pow256;
  }

  lemma JccRound(c: Cond, v: Int32, rest: seq<Byte>)
    ensures Fits(v, 4) && Decode(Encode(JccRel(c, v)) + rest) == Some((JccRel(c, v), 6))
  {
    Powers();
    var bs := Encode(JccRel(c, v)) + rest;
    assert bs[0] == 0x0F && bs[1] == 0x80 + CondCode(c) && bs[2..] == TwosLe(v, 4) + rest;
    ImmRound(bs, 2, v, 4, rest);
    hide TwosLe, Imm, Pow256;
  }

  lemma PushRound(r: Reg, rest: seq<Byte>)
    ensures Decode(Encode(Push(r)) + rest) == Some((Push(r), |Encode(Push(r))|))
  {
    var bs := Encode(Push(r)) + rest;
    var k := if RegExt(r) then 1 else 0;
    assert k == 1 ==> bs[0] == 0x41;
    assert bs[k] == 0x50 + RegEnc(r);
    RegRound(r);
  }

  lemma PopRound(r: Reg, rest: seq<Byte>)
    ensures Decode(Encode(Pop(r)) + rest) == Some((Pop(r), |Encode(Pop(r))|))
  {
    var bs := Encode(Pop(r)) + rest;
    var k := if RegExt(r) then 1 else 0;
    assert k == 1 ==> bs[0] == 0x41;
    assert bs[k] == 0x58 + RegEnc(r);
    RegRound(r);
  }
}
