/** How one machine instruction becomes x86-64 instructions (src/emit.c:809-1056), and exactly
    when the two-operand forms compute what the three-operand instruction means. */
module Expand {
  import opened Wrappers
  import opened Word64
  import opened Ssa
  import opened Mach
  import opened LinearScan
  import opened Peephole
  import opened X86
  import IselCorrect
  import RegAlloc

  const RAX: Reg := 1
  const RSP: Reg := 5
  const RBP: Reg := 6

  predicate RegValid(r: nat) {
    1 <= r <= 16
  }

  /** Code, or a jump whose distance is not known yet. */
  datatype Item = Code(x: X86) | JumpTo(cc: Option<Cond>, label_: Label)

  /** The opcodes covered; calls, divisions, shifts and address arithmetic are not. */
  predicate Emittable(op: MachOp) {
    !op.DIV? && !op.MOD? && !op.SHL? && !op.SHR? && !op.LEA? && !op.CALL?
  }

  function Truncate32(v: int): Int32 {
    var u := v % 0x1_0000_0000;
    if u >= 0x8000_0000 then u - 0x1_0000_0000 else u
  }

  function CondOfCmp(c: CmpKind): Cond {
    match c case Eq => E case Neq => NE case Lt => L case Gt => G case Leq => LE case Geq => GE
  }

  /** The copy that makes the destination the left operand. */
  function MovFirst(dst: Reg, src: nat): seq<X86> {
    if dst != src && RegValid(src) then [MovRR(dst, src)] else []
  }

  function AluOf(op: MachOp, dst: Reg, src2: Reg): X86
    requires op.IsAlu()
  {
    match op
    case ADD => X86.Alu(AddRR, dst, src2)
    case SUB => X86.Alu(SubRR, dst, src2)
    case AND => X86.Alu(AndRR, dst, src2)
    case OR => X86.Alu(OrRR, dst, src2)
    case XOR => X86.Alu(XorRR, dst, src2)
    case _ => Imul(dst, src2)
  }

  /** The straight-line part of an instruction's expansion, as coded. */
  function ExpandInst(mi: MachInst): seq<X86>
    requires Emittable(mi.op)
  {
    if mi.op.IsAlu() then ExpandAlu(mi) else
    match mi.op
    case NOP => [NopByte]
    case MOV => if !RegValid(mi.dst) || !RegValid(mi.src) || mi.dst == mi.src then [] else [MovRR(mi.dst, mi.src)]
    case MOV_IMM =>
      if !RegValid(mi.dst) then []
      else if -0x8000_0000 <= mi.imm < 0x8000_0000 then [MovImm32(mi.dst, mi.imm)] else [MovImm64(mi.dst, mi.imm)]
    case ADD_IMM => if !RegValid(mi.dst) then [] else [ImmForm(AddImm, mi.dst, mi.imm)]
    case SUB_IMM => if !RegValid(mi.dst) then [] else [ImmForm(SubImm, mi.dst, mi.imm)]
    case MUL_IMM => if !RegValid(mi.dst) then [] else [ImulImm(mi.dst, mi.dst, Truncate32(mi.imm))]
    case NEG => if !RegValid(mi.src) then [] else [Unary(NegR, mi.src)]
    case NOT => if !RegValid(mi.src) then [] else [Unary(NotR, mi.src)]
    case CMP => if !RegValid(mi.src) || !RegValid(mi.src2) then [] else [CmpRR(mi.src, mi.src2)]
    case TEST => if !RegValid(mi.src) || !RegValid(mi.src2) then [] else [TestRR(mi.src, mi.src2)]
    case SET(cc) => if !RegValid(mi.dst) then [] else [SetCc(CondOfCmp(cc), mi.dst), Movzx(mi.dst, mi.dst)]
    case RET => if RegValid(mi.src) && mi.src != RAX then [MovRR(RAX, mi.src)] else []
    case _ => []
  }

  /** Exclusive or leaves the copy out when two of its registers coincide. */
  function ExpandAlu(mi: MachInst): seq<X86>
    requires mi.op.IsAlu()
  {
    if !RegValid(mi.dst) || !RegValid(mi.src2) then []
    else if mi.op.XOR? && (mi.dst == mi.src2 || (RegValid(mi.src) && mi.src == mi.src2)) then [AluOf(XOR, mi.dst, mi.src2)]
    else MovFirst(mi.dst, mi.src) + [AluOf(mi.op, mi.dst, mi.src2)]
  }

  function ImmForm(k: ImmKind, dst: Reg, imm: int): X86 {
    if -128 <= imm <= 127 then AluImm8(k, dst, imm) else AluImm32(k, dst, Truncate32(imm))
  }

  // ---- What x86 instructions do to the registers ----

  datatype Cpu = Cpu(regs: Env, flags: Flags)

  function AluEffect(k: AluKind, a: Int64, b: Int64): Int64 {
    match k
    case AddRR => Wrap(a + b)
    case SubRR => Wrap(a - b)
    case AndRR => BitwiseWord((x, y) => x && y, a, b)
    case OrRR => BitwiseWord((x, y) => x || y, a, b)
    case XorRR => BitwiseWord((x, y) => x != y, a, b)
  }

  function Moved(k: ImmKind, a: int, v: int): int {
    if k.AddImm? then a + v else a - v
  }

  function Times(a: int, b: int): Int64 {
    Wrap(a * b)
  }

  /** `a` with its low byte replaced. */
  function LowByte(a: int, byte: int): int {
    a - a % 256 + byte
  }

  function CmpOf(c: Cond): CmpKind {
    match c case E => Eq case NE => Neq case L => Lt case G => Gt case LE => Leq case GE => Geq
  }

  /** One instruction that is no jump and does not use the stack; arithmetic leaves the flags
      unspecified, SETcc writes the low byte only. */
  function StepX(x: X86, s: Cpu): Cpu
    requires AllRegs(s.regs)
  {
    match x
    case MovRR(d, r) => s.(regs := s.regs[d := s.regs[r]])
    case MovImm32(d, v) => s.(regs := s.regs[d := v])
    case MovImm64(d, v) => s.(regs := s.regs[d := v])
    case Alu(k, d, r) => Cpu(s.regs[d := AluEffect(k, s.regs[d], s.regs[r])], None)
    case Imul(d, r) => Cpu(s.regs[d := Times(s.regs[d], s.regs[r])], None)
    case ImulImm(d, r, v) => Cpu(s.regs[d := Times(s.regs[r], v)], None)
    case AluImm8(k, d, v) => Cpu(s.regs[d := Wrap(Moved(k, s.regs[d], v))], None)
    case AluImm32(k, d, v) => Cpu(s.regs[d := Wrap(Moved(k, s.regs[d], v))], None)
    case Unary(k, d) => if k.NegR? then Cpu(s.regs[d := EvalUnop(Neg, s.regs[d])], None) else s.(regs := s.regs[d := EvalUnop(BNot, s.regs[d])])
    case CmpRR(l, r) => s.(flags := Some((s.regs[l], s.regs[r])))
    case TestRR(l, r) => s.(flags := Some((BitwiseWord((p, q) => p && q, s.regs[l], s.regs[r]), 0)))
    case SetCc(c, d) =>
      if s.flags.None? then s
      else s.(regs := s.regs[d := Wrap(LowByte(s.regs[d], EvalCmp(CmpOf(c), s.flags.value.0, s.flags.value.1)))])
    case Movzx(d, r) => s.(regs := s.regs[d := s.regs[r] % 256])
    case _ => s
  }

  function RunX(xs: seq<X86>, s: Cpu): Cpu
    requires AllRegs(s.regs)
    decreases |xs|
  {
    if xs == [] then s else RunX(xs[1..], StepX(xs[0], s))
  }

  // ---- When the expansion is right ----

  /** Registers in range, as after an allocation without spills. */
  predicate RegsValid(mi: MachInst) {
    && (Writes(mi).Some? ==> RegValid(mi.dst))
    && (ReadsReg(mi, mi.src) ==> RegValid(mi.src))
    && (ReadsReg(mi, mi.src2) ==> RegValid(mi.src2))
  }

  /** The copy does not destroy the right operand; unary instructions work in place; an
      immediate fits. */
  predicate ExpandOk(mi: MachInst) {
    match mi.op
    case XOR => (mi.dst == mi.src == mi.src2) || (mi.dst != mi.src2 && mi.src != mi.src2)
    case NEG => mi.dst == mi.src
    case NOT => mi.dst == mi.src
    case ADD_IMM => Truncate32(mi.imm) == mi.imm
    case SUB_IMM => Truncate32(mi.imm) == mi.imm
    case MUL_IMM => Truncate32(mi.imm) == mi.imm
    case _ => mi.op.IsAlu() ==> mi.dst == mi.src || mi.dst != mi.src2
  }

  predicate Straight(mi: MachInst) {
    Emittable(mi.op) && (mi.op.Computes() || mi.op.CMP? || mi.op.TEST?)
  }

  /** From these registers, the expansion does what the instruction means. */
  ghost predicate ExpandsTo(mi: MachInst, s: Cpu)
    requires Straight(mi) && RegsValid(mi) && AllRegs(s.regs)
  {
    var w: World := (t: Trace) => 0;
    var r := ExecM(w, mi, s.regs, s.flags, []);
    r.MWent? ==> RunX(ExpandInst(mi), s) == Cpu(r.env, r.flags)
  }

  lemma RunOne(x: X86, s: Cpu)
    requires AllRegs(s.regs)
    ensures RunX([x], s) == StepX(x, s)
  {
  }

  lemma RunTwo(x: X86, y: X86, s: Cpu)
    requires AllRegs(s.regs)
    ensures AllRegs(StepX(x, s).regs) && RunX([x, y], s) == StepX(y, StepX(x, s))
  {
    assert [x, y][1..] == [y];
    RunOne(y, StepX(x, s));
  }

  lemma RunMovFirst(dst: Reg, src: Reg, x: X86, s: Cpu)
    requires AllRegs(s.regs)
    ensures AllRegs(s.regs[dst := s.regs[src]])
    ensures RunX(MovFirst(dst, src) + [x], s) == StepX(x, s.(regs := s.regs[dst := s.regs[src]]))
  {
    if dst == src {
      assert MovFirst(dst, src) + [x] == [x];
      RunOne(x, s);
      assert s.regs[dst := s.regs[src]] == s.regs;
    } else {
      assert MovFirst(dst, src) + [x] == [MovRR(dst, src), x];
      RunTwo(MovRR(dst, src), x, s);
    }
  }

  lemma AluMeans(op: MachOp, dst: Reg, src2: Reg, s: Cpu)
    requires AllRegs(s.regs) && op.IsAlu() && Emittable(op)
    ensures StepX(AluOf(op, dst, src2), s) == Cpu(s.regs[dst := AluValue(op, s.regs[dst], s.regs[src2]).value], None)
    ensures AluValue(op, s.regs[dst], s.regs[src2]).Some?
  {
    hide BitwiseWord;
  }

  lemma ExpandAluOk(mi: MachInst, s: Cpu)
    requires Straight(mi) && RegsValid(mi) && AllRegs(s.regs) && mi.op.IsAlu() && ExpandOk(mi)
    ensures ExpandsTo(mi, s)
  {
    var x := AluOf(mi.op, mi.dst, mi.src2);
    var mid := s.(regs := s.regs[mi.dst := s.regs[mi.src]]);
    RunMovFirst(mi.dst, mi.src, x, s);
    if mi.op.XOR? && mi.dst == mi.src {
      assert MovFirst(mi.dst, mi.src) + [x] == [x];
    }
    assert ExpandInst(mi) == MovFirst(mi.dst, mi.src) + [x];
    AluMeans(mi.op, mi.dst, mi.src2, mid);
    assert mid.regs[mi.dst] == s.regs[mi.src] && mid.regs[mi.src2] == s.regs[mi.src2];
    hide AluValue, StepX, AluOf, RunX, ExpandInst;
    var value := AluValue(mi.op, s.regs[mi.src], s.regs[mi.src2]).value;
    assert mid.regs[mi.dst := value] == s.regs[mi.dst := value];
    assert RunX(ExpandInst(mi), s) == Cpu(s.regs[mi.dst := value], None);
  }

  lemma SetBit(a: Int64, bit: Int64)
    requires bit == 0 || bit == 1
    ensures Wrap(LowByte(a, bit)) % 256 == bit
  {
    assert MIN_INT64 <= LowByte(a, bit) <= MAX_INT64;
  }

  lemma CmpBit(c: CmpKind, a: Int64, b: Int64)
    ensures EvalCmp(c, a, b) == 0 || EvalCmp(c, a, b) == 1
    ensures CmpOf(CondOfCmp(c)) == c
  {
  }

  lemma ExpandSet(mi: MachInst, s: Cpu)
    requires Straight(mi) && RegsValid(mi) && AllRegs(s.regs) && mi.op.SET?
    ensures ExpandsTo(mi, s)
  {
    if s.flags.Some? {
      var d: Reg, cc := mi.dst, mi.op.cc;
      var bit := EvalCmp(cc, s.flags.value.0, s.flags.value.1);
      CmpBit(cc, s.flags.value.0, s.flags.value.1);
      SetBit(s.regs[d], bit);
      RunTwo(SetCc(CondOfCmp(cc), d), Movzx(d, d), s);
      hide EvalCmp, LowByte, Wrap, CondOfCmp, CmpOf;
      var mid := s.regs[d := Wrap(LowByte(s.regs[d], bit))];
      assert mid[d := bit] == s.regs[d := bit];
    }
  }

  lemma ExpandOther(mi: MachInst, s: Cpu)
    requires Straight(mi) && RegsValid(mi) && AllRegs(s.regs) && !mi.op.IsAlu() && !mi.op.SET? && ExpandOk(mi)
    ensures ExpandsTo(mi, s)
  {
    var xs := ExpandInst(mi);
    if xs == [] {
      assert s.regs[mi.dst := s.regs[mi.src]] == s.regs;
    } else {
      RunOne(xs[0], s);
    }
    hide BitwiseWord, EvalUnop;
  }

  /** The expansion does what the instruction means, from whatever the registers hold. */
  lemma ExpandRight(mi: MachInst, s: Cpu)
    requires Straight(mi) && RegsValid(mi) && AllRegs(s.regs) && ExpandOk(mi)
    ensures ExpandsTo(mi, s)
  {
    if mi.op.IsAlu() {
      ExpandAluOk(mi, s);
    } else if mi.op.SET? {
      ExpandSet(mi, s);
    } else {
      ExpandOther(mi, s);
    }
  }

  // ---- When it is wrong ----

  function Zero(i: nat): Int64 {
    0
  }

  /** All registers 0, except that `r` holds `x` and `q` holds `y`. */
  function Holding(r: nat, x: Int64, q: nat, y: Int64): (s: Cpu)
    requires r < REG_COUNT && q < REG_COUNT
    ensures AllRegs(s.regs) && s.regs[q] == y && (r != q ==> s.regs[r] == x) && s.flags == None
  {
    Cpu((map i: nat | i < REG_COUNT :: Zero(i))[r := x][q := y], None)
  }

  lemma {:induction false} AndZero(a: nat, n: nat)
    ensures Bitwise((x, y) => x && y, a, 0, n) == 0
  {
    if n > 0 {
      AndZero(a / 2, n - 1);
    }
  }

  lemma {:induction false} ZeroOr(b: nat, n: nat)
    requires b < Pow2(n)
    ensures Bitwise((x, y) => x || y, 0, b, n) == b
  {
    if n > 0 {
      ZeroOr(b / 2, n - 1);
    }
  }

  lemma {:induction false} XorZero(a: nat, n: nat)
    requires a < Pow2(n)
    ensures Bitwise((x, y) => x != y, a, 0, n) == a
  {
    if n > 0 {
      XorZero(a / 2, n - 1);
    }
  }

  lemma SmallAnd()
    ensures AluValue(AND, 1, 0) == Some(0) && AluValue(AND, 1, 1) == Some(1)
  {
    AndZero(1, 64);
    IselCorrect.TestSelf(1);
    hide Bitwise;
  }

  lemma SmallOr()
    ensures AluValue(OR, 0, 1) == Some(1) && AluValue(OR, 0, 0) == Some(0)
  {
    IselCorrect.Pow2Word();
    hide Pow2;
    ZeroOr(1, 64);
    ZeroOr(0, 64);
    hide Bitwise;
  }

  lemma SmallXor()
    ensures AluValue(XOR, 1, 0) == Some(1) && AluValue(XOR, 1, 1) == Some(0) && AluValue(XOR, 0, 0) == Some(0)
  {
    IselCorrect.Pow2Word();
    hide Pow2;
    XorZero(1, 64);
    XorSelf(1);
    XorSelf(0);
    hide Bitwise;
  }

  /** A few products, sums and bit operations on 0 and 1. */
  lemma SmallValues(op: MachOp)
    requires op.IsAlu() && Emittable(op)
    ensures op.ADD? ==> AluValue(op, 1, 0) == Some(1) && AluValue(op, 1, 1) == Some(2)
    ensures op.SUB? ==> AluValue(op, 1, 0) == Some(1) && AluValue(op, 1, 1) == Some(0)
    ensures op.MUL? ==> AluValue(op, 1, 0) == Some(0) && AluValue(op, 1, 1) == Some(1)
    ensures op.AND? ==> AluValue(op, 1, 0) == Some(0) && AluValue(op, 1, 1) == Some(1)
    ensures op.OR? ==> AluValue(op, 0, 1) == Some(1) && AluValue(op, 0, 0) == Some(0)
    ensures op.XOR? ==> AluValue(op, 1, 0) == Some(1) && AluValue(op, 1, 1) == Some(0) && AluValue(op, 0, 0) == Some(0)
  {
    if op.AND? {
      SmallAnd();
    } else if op.OR? {
      SmallOr();
    } else if op.XOR? {
      SmallXor();
    }
    hide BitwiseWord;
  }

  /** The copy has destroyed the right operand. */
  lemma AluClobbered(mi: MachInst) returns (s: Cpu)
    requires Straight(mi) && RegsValid(mi) && mi.op.IsAlu() && !mi.op.XOR? && mi.dst == mi.src2 && mi.dst != mi.src
    ensures AllRegs(s.regs) && !ExpandsTo(mi, s)
  {
    SmallValues(mi.op);
    var a := if mi.op.OR? then 0 else 1;
    s := Holding(mi.src, a, mi.src2, 1 - a);
    RunMovFirst(mi.dst, mi.src, AluOf(mi.op, mi.dst, mi.src2), s);
    var mid := s.(regs := s.regs[mi.dst := s.regs[mi.src]]);
    AluMeans(mi.op, mi.dst, mi.src2, mid);
    hide AluValue, StepX, AluOf, RunX, Holding;
    assert RunX(ExpandInst(mi), s).regs[mi.dst] == AluValue(mi.op, a, a).value;
  }

  lemma XorClobbered(mi: MachInst) returns (s: Cpu)
    requires Straight(mi) && RegsValid(mi) && mi.op.XOR? && !ExpandOk(mi)
    ensures AllRegs(s.regs) && !ExpandsTo(mi, s)
  {
    SmallValues(XOR);
    s := if mi.dst == mi.src2 then Holding(mi.dst, 0, mi.src, 1) else Holding(mi.src, 0, mi.dst, 1);
    RunOne(AluOf(XOR, mi.dst, mi.src2), s);
    AluMeans(XOR, mi.dst, mi.src2, s);
    hide AluValue, StepX, AluOf, RunX, Holding;
    assert RunX(ExpandInst(mi), s).regs[mi.dst] == AluValue(XOR, s.regs[mi.dst], s.regs[mi.src2]).value;
  }

  /** NEG and NOT change their source, wherever the result should go. */
  lemma UnaryWrong(mi: MachInst) returns (s: Cpu)
    requires Straight(mi) && RegsValid(mi) && (mi.op.NEG? || mi.op.NOT?) && mi.dst != mi.src
    ensures AllRegs(s.regs) && !ExpandsTo(mi, s)
  {
    s := Holding(mi.dst, 0, mi.src, 1);
    RunOne(ExpandInst(mi)[0], s);
    hide RunX, Holding;
    assert RunX(ExpandInst(mi), s).regs[mi.dst] == 0;
  }

  /** An immediate is cut to 32 bits. */
  lemma ImmediateWrong(mi: MachInst) returns (s: Cpu)
    requires Straight(mi) && RegsValid(mi) && mi.op.IsAluImm() && Truncate32(mi.imm) != mi.imm
    ensures AllRegs(s.regs) && !ExpandsTo(mi, s)
  {
    var x: Int64 := if mi.op.MUL_IMM? then 1 else if mi.op.SUB_IMM? then -1 else 0;
    s := Holding(mi.dst, x, mi.dst, x);
    var cut := Truncate32(mi.imm);
    assert !(-128 <= mi.imm <= 127);
    RunOne(ExpandInst(mi)[0], s);
    hide RunX, Holding, Truncate32;
    if mi.op.MUL_IMM? {
      assert RunX(ExpandInst(mi), s).regs[mi.dst] == cut;
    } else if mi.op.SUB_IMM? {
      assert RunX(ExpandInst(mi), s).regs[mi.dst] == -1 - cut;
    } else {
      assert RunX(ExpandInst(mi), s).regs[mi.dst] == cut;
    }
  }

  ghost predicate AlwaysExpandsTo(mi: MachInst)
    requires Straight(mi) && RegsValid(mi)
  {
    forall s: Cpu :: AllRegs(s.regs) ==> ExpandsTo(mi, s)
  }

  /** For every instruction with registers in range: its expansion computes it, whatever the
      registers hold, if and only if the copy spares the right operand, unary instructions
      work in place and immediates fit. */
  lemma ExpandExact(mi: MachInst)
    requires Straight(mi) && RegsValid(mi)
    ensures AlwaysExpandsTo(mi) <==> ExpandOk(mi)
  {
    if ExpandOk(mi) {
      forall s: Cpu | AllRegs(s.regs) ensures ExpandsTo(mi, s) {
        ExpandRight(mi, s);
      }
    } else {
      hide ExpandsTo;
      var s;
      if mi.op.XOR? {
        s := XorClobbered(mi);
      } else if mi.op.IsAlu() {
        s := AluClobbered(mi);
      } else if mi.op.IsAluImm() {
        s := ImmediateWrong(mi);
      } else {
        s := UnaryWrong(mi);
      }
    }
  }

  /** Allocated code never destroys a right operand: registers used by one instruction have
      overlapping intervals, so they are different registers unless they are one vreg. */
  lemma AllocatedExpands(m: MFunc, t: RegAlloc.Table, regOf: seq<nat>, b: nat, i: nat)
    requires RegAlloc.PlainCode(m) && RegAlloc.IsTable(m, t) && RegAlloc.Assigns(m, t, regOf)
    requires m.Has(b, i) && Straight(m.At(b, i))
    requires m.At(b, i).op.IsAlu() ==> m.At(b, i).dst == m.At(b, i).src || m.At(b, i).dst != m.At(b, i).src2
    ensures ExpandOk(RegAlloc.RenameInst(m.At(b, i), regOf))
  {
    var mi := m.At(b, i);
    assert RegAlloc.Plain(mi.op);
    if mi.op.IsAlu() {
      assert ReadsReg(mi, mi.src) && ReadsReg(mi, mi.src2) && Writes(mi) == Some(mi.dst);
      assert RegAlloc.OccursAt(m, mi.dst, b, i) && RegAlloc.OccursAt(m, mi.src2, b, i);
    }
  }
}
