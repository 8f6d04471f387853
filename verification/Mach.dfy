/** Machine instructions after instruction selection (src/isel.h) and their meaning.

    Operands are register numbers: virtual before allocation, physical after.  Arithmetic
    leaves the flags undefined, moves leave them alone, CMP and TEST set them, SETcc and
    conditional jumps read them.  Reading undefined flags or a register never written is
    a fault. */
module Mach {
  import opened Wrappers
  import opened Word64
  import opened Ssa

  const INVALID_VREG: nat := 0xFFFF_FFFF

  /** The runtime routine that PRINT is lowered to. */
  const PRINT_ROUTINE := "__vortech_print_i64"

  datatype MachOp =
    | MOV | MOV_IMM
    | ADD | SUB | MUL | DIV | MOD | AND | OR | XOR | SHL | SHR
    | ADD_IMM | SUB_IMM | MUL_IMM
    | NEG | NOT | LEA
    | CMP | TEST | SET(cc: CmpKind)
    | JMP | JE | JNE
    | CALL | RET | LABEL | NOP
  {
    /** The three-operand arithmetic instructions. */
    predicate IsAlu() {
      ADD? || SUB? || MUL? || DIV? || MOD? || AND? || OR? || XOR? || SHL? || SHR?
    }

    /** The two-operand forms with an immediate: the destination is also the left operand. */
    predicate IsAluImm() {
      ADD_IMM? || SUB_IMM? || MUL_IMM?
    }

    /** The instructions that put a value in a register and do nothing else visible. */
    predicate Computes() {
      MOV? || MOV_IMM? || NEG? || NOT? || LEA? || SET? || IsAlu() || IsAluImm()
    }

    predicate IsJump() {
      JMP? || JE? || JNE?
    }
  }

  datatype MachInst = MachInst(op: MachOp, dst: nat, src: nat, src2: nat, imm: Int64,
                               target: Label, func: string, args: seq<nat>)

  /** As in src/isel.c:12-24: everything not given is zero. */
  function Make(op: MachOp, dst: nat, src: nat, src2: nat, imm: Int64): MachInst {
    MachInst(op, dst, src, src2, imm, 0, "", [])
  }

  function Jump(op: MachOp, target: Label): MachInst {
    MachInst(op, 0, 0, 0, 0, target, "", [])
  }

  type MachBlock = seq<MachInst>

  datatype MFunc = MFunc(blocks: seq<MachBlock>, nextVreg: nat, params: seq<nat>)
  {
    predicate Has(b: int, i: int) {
      0 <= b < |blocks| && 0 <= i < |blocks[b]|
    }

    function At(b: int, i: int): MachInst
      requires Has(b, i)
    {
      blocks[b][i]
    }
  }

  // ---- Meaning ----

  type Flags = Option<(Int64, Int64)>

  /** The register an instruction writes. */
  function Writes(inst: MachInst): Option<nat> {
    if inst.op.Computes() || inst.op.CALL? then Some(inst.dst) else None
  }

  /** Whether an instruction reads a register. */
  predicate ReadsReg(inst: MachInst, v: nat) {
    match inst.op
    case MOV => v == inst.src
    case NEG => v == inst.src
    case NOT => v == inst.src
    case LEA => v == inst.src
    case CMP => v == inst.src || v == inst.src2
    case TEST => v == inst.src || v == inst.src2
    case CALL => v in inst.args
    case RET => inst.src != INVALID_VREG && v == inst.src
    case ADD_IMM => v == inst.dst
    case SUB_IMM => v == inst.dst
    case MUL_IMM => v == inst.dst
    case _ => inst.op.IsAlu() && (v == inst.src || v == inst.src2)
  }

  function AluValue(op: MachOp, a: Int64, b: Int64): Option<Int64>
    requires op.IsAlu()
  {
    match op
    case ADD => EvalBinop(Add, a, b)
    case SUB => EvalBinop(Sub, a, b)
    case MUL => EvalBinop(Mul, a, b)
    case DIV => EvalBinop(Div, a, b)
    case MOD => EvalBinop(Mod, a, b)
    case AND => EvalBinop(And, a, b)
    case OR => EvalBinop(Or, a, b)
    case XOR => EvalBinop(Xor, a, b)
    case SHL => EvalBinop(LShift, a, b)
    case SHR => Some(Wrap(Unsigned(a) / Pow2(b % 64)))
  }

  /** Of the value instructions: the value written.  NEG, NOT and LEA in their three-operand
      reading, as the selector uses them. */
  function ValueOf(inst: MachInst, env: Env, flags: Flags): Option<Int64>
    requires inst.op.Computes()
  {
    match inst.op
    case MOV_IMM => Some(inst.imm)
    case MOV => if inst.src in env then Some(env[inst.src]) else None
    case NEG => if inst.src in env then Some(EvalUnop(Neg, env[inst.src])) else None
    case NOT => if inst.src in env then Some(EvalUnop(BNot, env[inst.src])) else None
    case LEA => if inst.src in env then Some(Wrap(env[inst.src] + inst.imm)) else None
    case SET(cc) => if flags.Some? then Some(EvalCmp(cc, flags.value.0, flags.value.1)) else None
    case ADD_IMM => if inst.dst in env then Some(Wrap(env[inst.dst] + inst.imm)) else None
    case SUB_IMM => if inst.dst in env then Some(Wrap(env[inst.dst] - inst.imm)) else None
    case MUL_IMM => if inst.dst in env then Some(Wrap(env[inst.dst] * inst.imm)) else None
    case _ => if inst.src in env && inst.src2 in env then AluValue(inst.op, env[inst.src], env[inst.src2]) else None
  }

  function FlagsAfter(inst: MachInst, env: Env, flags: Flags): Flags {
    match inst.op
    case CMP => if inst.src in env && inst.src2 in env then Some((env[inst.src], env[inst.src2])) else None
    case TEST => if inst.src in env && inst.src2 in env then Some((BitwiseWord((x, y) => x && y, env[inst.src], env[inst.src2]), 0)) else None
    case MOV => flags
    case MOV_IMM => flags
    case NOT => flags
    case LEA => flags
    case SET(_) => flags
    case LABEL => flags
    case NOP => flags
    case _ => None
  }

  datatype MStep = MStuck | MWent(env: Env, flags: Flags, trace: Trace)

  /** One instruction that does not transfer control. */
  function ExecM(w: World, inst: MachInst, env: Env, flags: Flags, trace: Trace): MStep
    requires !inst.op.IsJump() && !inst.op.RET?
  {
    if inst.op.Computes() then
      match ValueOf(inst, env, flags)
      case None => MStuck
      case Some(x) => MWent(env[inst.dst := x], FlagsAfter(inst, env, flags), trace)
    else if inst.op.CMP? || inst.op.TEST? then
      if inst.src in env && inst.src2 in env then MWent(env, FlagsAfter(inst, env, flags), trace) else MStuck
    else if inst.op.CALL? then
      if AllIn(inst.args, env) then
        var event := if inst.func == PRINT_ROUTINE && |inst.args| == 1 then Printed(env[inst.args[0]])
                     else Called(inst.func, Values(inst.args, env));
        MWent(env[inst.dst := w(trace + [event])], None, trace + [event])
      else MStuck
    else MWent(env, flags, trace)
  }

  /** Running a block from its instruction `i` on. */
  function RunM(w: World, b: MachBlock, i: nat, env: Env, flags: Flags, trace: Trace): Exit
    decreases |b| - i
  {
    if i >= |b| then Fault
    else
      var inst := b[i];
      if inst.op.JMP? then Goto(inst.target, env, trace)
      else if inst.op.JE? || inst.op.JNE? then
        if flags.None? then Fault
        else if (flags.value.0 != flags.value.1) == inst.op.JNE? then Goto(inst.target, env, trace)
        else RunM(w, b, i + 1, env, flags, trace)
      else if inst.op.RET? then
        if inst.src == INVALID_VREG then Return(None, trace)
        else if inst.src in env then Return(Some(env[inst.src]), trace)
        else Fault
      else
        match ExecM(w, inst, env, flags, trace)
        case MStuck => Fault
        case MWent(env', flags', trace') => RunM(w, b, i + 1, env', flags', trace')
  }

  datatype MState =
    | MFaulted
    | MRunning(block: Label, env: Env, trace: Trace)
    | MFinished(value: Option<Int64>, trace: Trace)

  function StepM(w: World, m: MFunc, s: MState): MState {
    match s
    case MRunning(b, env, trace) =>
      if b >= |m.blocks| then MFaulted else
      (match RunM(w, m.blocks[b], 0, env, None, trace)
       case Fault => MFaulted
       case Goto(t, env', trace') => MRunning(t, env', trace')
       case Return(x, trace') => MFinished(x, trace'))
    case _ => s
  }

  /** Code starts at its first block with the parameters in their registers. */
  function InitM(m: MFunc, actuals: seq<Int64>): MState {
    MRunning(0, Bind(m.params, actuals), [])
  }

  function RunMFunc(w: World, m: MFunc, actuals: seq<Int64>, n: nat): MState {
    if n == 0 then InitM(m, actuals) else StepM(w, m, RunMFunc(w, m, actuals, n - 1))
  }

  /** What an observer sees of a machine state: control, events and result. */
  datatype MView = MCrash | MAt(block: Label, trace: Trace) | MDone(value: Option<Int64>, trace: Trace)

  function ObserveM(s: MState): MView {
    match s
    case MFaulted => MCrash
    case MRunning(b, _, trace) => MAt(b, trace)
    case MFinished(x, trace) => MDone(x, trace)
  }

  /** `m'` does block for block what `m` does, in every run in which `m` does not fault. */
  ghost predicate MRefines(m: MFunc, m': MFunc) {
    forall w: World, actuals, n: nat ::
      !RunMFunc(w, m, actuals, n).MFaulted? ==> ObserveM(RunMFunc(w, m', actuals, n)) == ObserveM(RunMFunc(w, m, actuals, n))
  }
}
