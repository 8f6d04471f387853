/** Running the bytes of a function's blocks: they do, instruction by instruction and jump by jump,
    what the machine instructions mean (src/emit.c:809-1224). */
module CodeRuns {
  import opened Wrappers
  import opened Word64
  import opened Ssa
  import opened Mach
  import opened LinearScan
  import opened Peephole
  import opened X86
  import opened Expand
  import opened Emit
  import opened Disassembly
  import opened Processor
  import opened LoadedCode

  // ---- Code that can run ----

  /** A covered instruction whose registers are in range, whose expansion is exact, and which
      writes only the registers in `own`. */
  ghost predicate Fine(mi: MachInst, own: set<nat>) {
    && Emittable(mi.op) && RegsValid(mi) && (Straight(mi) ==> ExpandOk(mi))
    && (Writes(mi).Some? ==> mi.dst in own)
  }

  ghost predicate FineBlock(mb: MachBlock, own: set<nat>) {
    forall i :: 0 <= i < |mb| ==> Fine(mb[i], own)
  }

  ghost predicate FineCode(m: MFunc, own: set<nat>) {
    forall b :: 0 <= b < |m.blocks| ==> FineBlock(m.blocks[b], own)
  }

  /** The registers outside `own` hold the same. */
  ghost predicate Agree(env: Env, env': Env, own: set<nat>)
    requires AllRegs(env) && AllRegs(env')
  {
    forall r: nat :: r < REG_COUNT && r !in own ==> env'[r] == env[r]
  }

  lemma FineEmittable(m: MFunc, own: set<nat>)
    requires FineCode(m, own)
    ensures AllEmittable(m)
  {
    forall b | 0 <= b < |m.blocks| ensures BlockEmittable(m.blocks[b]) {
      assert FineBlock(m.blocks[b], own);
      assert forall i :: 0 <= i < |m.blocks[b]| ==> Fine(m.blocks[b][i], own);
    }
  }

  /** The function's bytes stand at `base`. */
  ghost predicate Installed(bs: seq<Byte>, m: MFunc, fr: Frame, base: nat) {
    AllEmittable(m) && Loaded(bs, FuncItems(m, fr), base, LabelsOf(m, fr, base))
  }

  // ---- Where instructions stand ----

  function InstPos(m: MFunc, fr: Frame, b: nat, i: nat): nat
    requires AllEmittable(m) && b < |m.blocks| && i <= |m.blocks[b]|
  {
    |ItemsBefore(m, b, fr)| + |BlockItems(m.blocks[b], i, fr)|
  }

  lemma {:induction false} BlockPrefix(mb: MachBlock, i: nat, n: nat, fr: Frame)
    requires i <= n <= |mb| && BlockEmittable(mb)
    ensures BlockItems(mb, i, fr) <= BlockItems(mb, n, fr)
  {
    hide ItemsOf;
    if i < n {
      BlockPrefix(mb, i, n - 1, fr);
      assert BlockItems(mb, n - 1, fr) <= BlockItems(mb, n, fr);
    }
  }

  /** The items of an instruction follow those before it. */
  lemma InstSits(m: MFunc, fr: Frame, b: nat, i: nat)
    requires AllEmittable(m) && b < |m.blocks| && i < |m.blocks[b]|
    ensures Emittable(m.blocks[b][i].op)
    ensures Sits(FuncItems(m, fr), InstPos(m, fr, b, i), ItemsOf(m.blocks[b][i], fr))
    ensures InstPos(m, fr, b, i + 1) == InstPos(m, fr, b, i) + |ItemsOf(m.blocks[b][i], fr)| <= |FuncItems(m, fr)|
  {
    var mb := m.blocks[b];
    assert BlockEmittable(mb);
    BeforePrefix(m, fr, b + 1, |m.blocks|);
    BlockPrefix(mb, i + 1, |mb|, fr);
    var items, before := FuncItems(m, fr), ItemsBefore(m, b, fr);
    var front, it := BlockItems(mb, i, fr), ItemsOf(mb[i], fr);
    assert BlockItems(mb, i + 1, fr) == front + it;
    assert before + BlockItems(mb, |mb|, fr) <= items;
    hide *;
    Within(items, before, BlockItems(mb, |mb|, fr), front, it);
    PosIs(m, fr, b, i);
    PosIs(m, fr, b, i + 1);
  }

  lemma PosIs(m: MFunc, fr: Frame, b: nat, i: nat)
    requires AllEmittable(m) && b < |m.blocks| && i <= |m.blocks[b]|
    ensures BlockEmittable(m.blocks[b])
    ensures InstPos(m, fr, b, i) == |ItemsBefore(m, b, fr)| + |BlockItems(m.blocks[b], i, fr)|
  {
  }

  lemma Within(items: seq<Item>, before: seq<Item>, block: seq<Item>, front: seq<Item>, it: seq<Item>)
    requires before + block <= items && front + it <= block
    ensures |before| + |front| + |it| <= |items| && Sits(items, |before| + |front|, it)
  {
    var k := |before| + |front|;
    assert block[|front|..|front| + |it|] == it;
    assert items[|before|..|before| + |block|] == block;
    assert items[k..k + |it|] == it;
  }

  lemma BlockStarts(m: MFunc, fr: Frame, base: nat, b: nat)
    requires AllEmittable(m) && b < |m.blocks|
    ensures InstPos(m, fr, b, 0) <= |FuncItems(m, fr)|
    ensures OffsetOf(FuncItems(m, fr), base, InstPos(m, fr, b, 0)) == LabelsOf(m, fr, base)[b]
  {
    BlockStart(m, fr, base, b);
    hide FuncItems, ItemsBefore, LabelsOf, OffsetOf;
  }

  // ---- One instruction ----

  /** A straight instruction does the same in every world. */
  lemma AnyWorld(w: World, w': World, mi: MachInst, env: Env, flags: Flags, trace: Trace, trace': Trace)
    requires Straight(mi) && ExecM(w, mi, env, flags, trace).MWent?
    ensures ExecM(w', mi, env, flags, trace') == ExecM(w, mi, env, flags, trace).(trace := trace')
    ensures ExecM(w, mi, env, flags, trace).trace == trace
  {
    hide ValueOf, FlagsAfter;
  }

  lemma ExpansionSimple(mi: MachInst)
    requires Emittable(mi.op)
    ensures AllSimple(ExpandInst(mi))
  {
  }

  lemma WritesOnly(w: World, mi: MachInst, env: Env, flags: Flags, trace: Trace, own: set<nat>)
    requires !mi.op.IsJump() && !mi.op.RET? && Fine(mi, own) && AllRegs(env) && ExecM(w, mi, env, flags, trace).MWent?
    ensures var r := ExecM(w, mi, env, flags, trace); AllRegs(r.env) && Agree(env, r.env, own) && r.trace == trace
  {
    hide ValueOf, FlagsAfter, RegsValid, ExpandOk;
  }

  /** What stands in the code for an instruction that does not transfer control does what the
      instruction does. */
  lemma InstExpands(w: World, mi: MachInst, fr: Frame, own: set<nat>, env: Env, flags: Flags, trace: Trace)
    requires !mi.op.IsJump() && !mi.op.RET? && Fine(mi, own) && AllRegs(env) && ExecM(w, mi, env, flags, trace).MWent?
    ensures ItemsOf(mi, fr) == Codes(ExpandInst(mi)) && AllSimple(ExpandInst(mi))
    ensures var r := ExecM(w, mi, env, flags, trace); RunX(ExpandInst(mi), Cpu(env, flags)) == Cpu(r.env, r.flags)
  {
    ExpansionSimple(mi);
    if Straight(mi) {
      ExpandRight(mi, Cpu(env, flags));
      var w0: World := (t: Trace) => 0;
      AnyWorld(w, w0, mi, env, flags, trace, []);
      hide ExecM, RunX, ExpandInst, AllSimple;
    } else {
      NothingDone(w, mi, env, flags, trace);
      hide ExecM, RunX, AllSimple;
    }
  }

  lemma NothingDone(w: World, mi: MachInst, env: Env, flags: Flags, trace: Trace)
    requires Emittable(mi.op) && !mi.op.IsJump() && !mi.op.RET? && !Straight(mi) && AllRegs(env)
    ensures ExecM(w, mi, env, flags, trace) == MWent(env, flags, trace)
    ensures RunX(ExpandInst(mi), Cpu(env, flags)) == Cpu(env, flags)
  {
    assert mi.op.LABEL? || mi.op.NOP?;
    if mi.op.NOP? {
      RunOne(NopByte, Cpu(env, flags));
    }
  }

  /** The processor at instruction `i` of block `b`. */
  ghost function AtInst(m: MFunc, fr: Frame, base: nat, b: nat, i: nat, cpu: Cpu, stack: Stack): Status
    requires AllEmittable(m) && b < |m.blocks| && i <= |m.blocks[b]| && InstPos(m, fr, b, i) <= |FuncItems(m, fr)|
  {
    AtItem(FuncItems(m, fr), base, InstPos(m, fr, b, i), cpu, stack)
  }

  lemma InstRuns(w: World, bs: seq<Byte>, m: MFunc, fr: Frame, base: nat, own: set<nat>, b: nat, i: nat, env: Env, flags: Flags, trace: Trace, stack: Stack)
    requires Installed(bs, m, fr, base) && b < |m.blocks| && i < |m.blocks[b]| && Fine(m.blocks[b][i], own) && AllRegs(env)
    requires !m.blocks[b][i].op.IsJump() && !m.blocks[b][i].op.RET? && ExecM(w, m.blocks[b][i], env, flags, trace).MWent?
    ensures InstPos(m, fr, b, i) <= InstPos(m, fr, b, i + 1) <= |FuncItems(m, fr)|
    ensures var r := ExecM(w, m.blocks[b][i], env, flags, trace);
            After(bs, AtInst(m, fr, base, b, i, Cpu(env, flags), stack), 0, AtInst(m, fr, base, b, i + 1, Cpu(r.env, r.flags), stack))
  {
    hide *;
    IsInstalled(bs, m, fr, base);
    InstSits(m, fr, b, i);
    var mi := m.blocks[b][i];
    InstExpands(w, mi, fr, own, env, flags, trace);
    CodesSize(ExpandInst(mi));
    CodesRun(bs, FuncItems(m, fr), base, LabelsOf(m, fr, base), InstPos(m, fr, b, i), ExpandInst(mi), Cpu(env, flags), stack);
    var r := ExecM(w, mi, env, flags, trace);
    InstIs(m, fr, base, b, i, Cpu(env, flags), stack);
    InstIs(m, fr, base, b, i + 1, Cpu(r.env, r.flags), stack);
  }

  lemma InstIs(m: MFunc, fr: Frame, base: nat, b: nat, i: nat, cpu: Cpu, stack: Stack)
    requires AllEmittable(m) && b < |m.blocks| && i <= |m.blocks[b]| && InstPos(m, fr, b, i) <= |FuncItems(m, fr)|
    ensures AtInst(m, fr, base, b, i, cpu, stack) == AtItem(FuncItems(m, fr), base, InstPos(m, fr, b, i), cpu, stack)
  {
  }

  lemma IsInstalled(bs: seq<Byte>, m: MFunc, fr: Frame, base: nat)
    ensures Installed(bs, m, fr, base) <==> AllEmittable(m) && Loaded(bs, FuncItems(m, fr), base, LabelsOf(m, fr, base))
  {
    hide AllEmittable, Loaded;
  }

  lemma CodesSize(xs: seq<X86>)
    ensures |Codes(xs)| == |xs|
  {
  }

  // ---- Leaving a block ----

  /** The processor reaches the epilogue with these registers. */
  ghost predicate ReachesEpilogue(bs: seq<Byte>, m: MFunc, fr: Frame, base: nat, s: Status, n: nat, cpu: Cpu, stack: Stack)
    requires AllEmittable(m)
  {
    exists k: nat :: Sits(FuncItems(m, fr), k, Codes(EpilogueCode(fr))) && After(bs, s, n, AtItem(FuncItems(m, fr), base, k, cpu, stack))
  }

  /** The value is in RAX and only `own` registers have changed. */
  ghost predicate HoldsResult(env: Env, cpu: Cpu, own: set<nat>, x: Option<Int64>) {
    && AllRegs(env) && AllRegs(cpu.regs)
    && Agree(env, cpu.regs, own + {RAX as nat}) && (x.Some? ==> cpu.regs[Hw(0)] == x.value)
  }

  ghost predicate Jumps(bs: seq<Byte>, m: MFunc, fr: Frame, base: nat, s: Status, n: nat, t: Label, env: Env, stack: Stack)
    requires AllEmittable(m) && t < |m.blocks|
  {
    exists flags :: After(bs, s, n, Executing(LabelsOf(m, fr, base)[t], Cpu(env, flags), stack))
  }

  ghost predicate Leaves(bs: seq<Byte>, m: MFunc, fr: Frame, base: nat, own: set<nat>, s: Status, env: Env, x: Option<Int64>, stack: Stack)
    requires AllEmittable(m)
  {
    exists cpu :: HoldsResult(env, cpu, own, x) && ReachesEpilogue(bs, m, fr, base, s, 0, cpu, stack)
  }

  /** From state `s`, where the registers hold `env`, the bytes leave the block as `r` says: to
      the label it goes to, with the registers it leaves, or to the epilogue with its value. */
  ghost predicate Exits(bs: seq<Byte>, m: MFunc, fr: Frame, base: nat, own: set<nat>, s: Status, env: Env, stack: Stack, r: Exit)
    requires AllEmittable(m)
  {
    match r
    case Fault => true
    case Goto(t, env', _) =>
      && AllRegs(env) && AllRegs(env') && Agree(env, env', own)
      && (t < |m.blocks| ==> Jumps(bs, m, fr, base, s, 1, t, env', stack))
    case Return(x, _) => Leaves(bs, m, fr, base, own, s, env, x, stack)
  }

  lemma AgreeOn(env: Env, env': Env, env'': Env, own: set<nat>)
    requires AllRegs(env) && AllRegs(env') && AllRegs(env'') && Agree(env, env', own) && Agree(env', env'', own)
    ensures Agree(env, env'', own)
  {
  }

  lemma AgreeMore(env: Env, env': Env, own: set<nat>, more: set<nat>)
    requires AllRegs(env) && AllRegs(env') && Agree(env, env', own) && own <= more
    ensures Agree(env, env', more)
  {
  }

  lemma EpilogueLater(bs: seq<Byte>, m: MFunc, fr: Frame, base: nat, s: Status, n: nat, s': Status, n': nat, cpu: Cpu, stack: Stack)
    requires AllEmittable(m) && After(bs, s, n, s') && ReachesEpilogue(bs, m, fr, base, s', n', cpu, stack)
    ensures ReachesEpilogue(bs, m, fr, base, s, n + n', cpu, stack)
  {
    hide AllEmittable, After, FuncItems, EpilogueCode, OffsetOf, Codes;
    var k: nat :| Sits(FuncItems(m, fr), k, Codes(EpilogueCode(fr))) && After(bs, s', n', AtItem(FuncItems(m, fr), base, k, cpu, stack));
    Then(bs, s, n, s', n', AtItem(FuncItems(m, fr), base, k, cpu, stack));
  }

  lemma JumpsLater(bs: seq<Byte>, m: MFunc, fr: Frame, base: nat, s: Status, n: nat, s': Status, n': nat, t: Label, env: Env, stack: Stack)
    requires AllEmittable(m) && t < |m.blocks| && After(bs, s, n, s') && Jumps(bs, m, fr, base, s', n', t, env, stack)
    ensures Jumps(bs, m, fr, base, s, n + n', t, env, stack)
  {
    hide AllEmittable, After, LabelsOf;
    var flags :| After(bs, s', n', Executing(LabelsOf(m, fr, base)[t], Cpu(env, flags), stack));
    Then(bs, s, n, s', n', Executing(LabelsOf(m, fr, base)[t], Cpu(env, flags), stack));
  }

  lemma HoldsLater(env: Env, env': Env, cpu: Cpu, own: set<nat>, x: Option<Int64>)
    requires AllRegs(env) && AllRegs(env') && Agree(env, env', own) && HoldsResult(env', cpu, own, x)
    ensures HoldsResult(env, cpu, own, x)
  {
    hide AllRegs, Agree;
    AgreeMore(env, env', own, own + {RAX as nat});
    AgreeOn(env, env', cpu.regs, own + {RAX as nat});
  }

  /** First to another state, then out of the block. */
  lemma ExitsLater(bs: seq<Byte>, m: MFunc, fr: Frame, base: nat, own: set<nat>, s: Status, env: Env, s': Status, env': Env, stack: Stack, r: Exit)
    requires AllEmittable(m) && After(bs, s, 0, s') && Exits(bs, m, fr, base, own, s', env', stack, r)
    requires AllRegs(env) && AllRegs(env') && Agree(env, env', own)
    ensures Exits(bs, m, fr, base, own, s, env, stack, r)
  {
    hide AllEmittable, After, AllRegs, Agree, Jumps, HoldsResult, ReachesEpilogue;
    match r {
      case Fault =>
      case Goto(t, env'', _) =>
        AgreeOn(env, env', env'', own);
        if t < |m.blocks| {
          JumpsLater(bs, m, fr, base, s, 0, s', 1, t, env'', stack);
        }
      case Return(x, _) =>
        var cpu :| HoldsResult(env', cpu, own, x) && ReachesEpilogue(bs, m, fr, base, s', 0, cpu, stack);
        HoldsLater(env, env', cpu, own, x);
        EpilogueLater(bs, m, fr, base, s, 0, s', 0, cpu, stack);
    }
  }

  // ---- Jumps ----

  /** The condition a jump is emitted with; none for JMP. */
  lemma JumpItem(mi: MachInst, fr: Frame)
    requires mi.op.IsJump()
    ensures |ItemsOf(mi, fr)| == 1 && ItemsOf(mi, fr)[0].JumpTo? && ItemsOf(mi, fr)[0].label_ == mi.target
    ensures mi.op.JMP? <==> ItemsOf(mi, fr)[0].cc.None?
  {
  }

  /** Whether RunM takes the jump with these flags. */
  predicate Taken(mi: MachInst, flags: Flags)
    requires mi.op.IsJump() && (mi.op.JMP? || flags.Some?)
  {
    mi.op.JMP? || (flags.value.0 != flags.value.1) == mi.op.JNE?
  }

  /** The emitted jump is taken exactly when the machine instruction is, whatever the flags. */
  lemma SameCondition(mi: MachInst, fr: Frame, cpu: Cpu)
    requires mi.op.IsJump() && (mi.op.JMP? || cpu.flags.Some?)
    ensures ItemsOf(mi, fr) != [] && ItemsOf(mi, fr)[0].JumpTo?
    ensures Taken(mi, cpu.flags) <==> (ItemsOf(mi, fr)[0].cc.Some? ==> Meets(ItemsOf(mi, fr)[0].cc.value, cpu))
  {
  }

  lemma JumpRuns(bs: seq<Byte>, m: MFunc, fr: Frame, base: nat, b: nat, i: nat, env: Env, flags: Flags, stack: Stack)
    requires Installed(bs, m, fr, base) && b < |m.blocks| && i < |m.blocks[b]| && AllRegs(env)
    requires var mi := m.blocks[b][i]; mi.op.IsJump() && (mi.op.JMP? || flags.Some?)
    ensures InstPos(m, fr, b, i) <= InstPos(m, fr, b, i + 1) <= |FuncItems(m, fr)|
    ensures var mi, cpu := m.blocks[b][i], Cpu(env, flags);
            After(bs, AtInst(m, fr, base, b, i, cpu, stack), 1,
                  if Taken(mi, flags) && mi.target < |m.blocks| then Executing(LabelsOf(m, fr, base)[mi.target], cpu, stack) else AtInst(m, fr, base, b, i + 1, cpu, stack))
  {
    hide *;
    var mi, cpu := m.blocks[b][i], Cpu(env, flags);
    IsInstalled(bs, m, fr, base);
    InstSits(m, fr, b, i);
    JumpItem(mi, fr);
    SameCondition(mi, fr, cpu);
    IsJump(mi);
    var items, k := FuncItems(m, fr), InstPos(m, fr, b, i);
    SitsAt(items, k, ItemsOf(mi, fr), 0);
    JumpStep(bs, items, base, LabelsOf(m, fr, base), k, cpu, stack);
    InstIs(m, fr, base, b, i, cpu, stack);
    InstIs(m, fr, base, b, i + 1, cpu, stack);
  }

  lemma IsJump(mi: MachInst)
    ensures mi.op.IsJump() <==> mi.op.JMP? || mi.op.JE? || mi.op.JNE?
  {
  }

  // ---- Results ----

  /** The copy into RAX, then the epilogue. */
  lemma RetItems(mi: MachInst, fr: Frame)
    requires mi.op.RET?
    ensures ItemsOf(mi, fr) == Codes(ExpandInst(mi)) + Codes(EpilogueCode(fr)) + []
    ensures AllSimple(ExpandInst(mi))
  {
    assert Codes(ExpandInst(mi) + EpilogueCode(fr)) == Codes(ExpandInst(mi)) + Codes(EpilogueCode(fr));
  }

  /** What stands before the epilogue leaves the source of the RET in RAX, the other registers
      as they are. */
  lemma ResultInRax(mi: MachInst, own: set<nat>, env: Env, flags: Flags)
    requires mi.op.RET? && Fine(mi, own) && AllRegs(env)
    ensures var cpu := RunX(ExpandInst(mi), Cpu(env, flags));
            HoldsResult(env, cpu, own, if mi.src == INVALID_VREG then None else Some(env[mi.src]))
  {
    HwRange(0);
    if RegValid(mi.src) && mi.src != RAX {
      RunOne(MovRR(RAX, mi.src), Cpu(env, flags));
    }
  }

  lemma RetRuns(bs: seq<Byte>, m: MFunc, fr: Frame, base: nat, own: set<nat>, b: nat, i: nat, env: Env, flags: Flags, stack: Stack)
    requires Installed(bs, m, fr, base) && b < |m.blocks| && i < |m.blocks[b]| && AllRegs(env)
    requires m.blocks[b][i].op.RET? && Fine(m.blocks[b][i], own)
    requires m.blocks[b][i].src != INVALID_VREG ==> m.blocks[b][i].src in env
    ensures InstPos(m, fr, b, i) <= |FuncItems(m, fr)|
    ensures var mi := m.blocks[b][i];
            Leaves(bs, m, fr, base, own, AtInst(m, fr, base, b, i, Cpu(env, flags), stack), env,
                   if mi.src == INVALID_VREG then None else Some(env[mi.src]), stack)
  {
    hide *;
    var mi, cpu := m.blocks[b][i], Cpu(env, flags);
    IsInstalled(bs, m, fr, base);
    InstSits(m, fr, b, i);
    RetItems(mi, fr);
    ResultInRax(mi, own, env, flags);
    var items, k, code, tail := FuncItems(m, fr), InstPos(m, fr, b, i), ExpandInst(mi), EpilogueCode(fr);
    SitsInside(items, k, Codes(code), Codes(tail), []);
    CodesSize(code);
    CodesRun(bs, items, base, LabelsOf(m, fr, base), k, code, cpu, stack);
    InstIs(m, fr, base, b, i, cpu, stack);
    SitsFits(items, k + |code|, tail);
    AtEpilogue(bs, m, fr, base, AtInst(m, fr, base, b, i, cpu, stack), k + |code|, RunX(code, cpu), stack);
    LeavesAs(bs, m, fr, base, own, AtInst(m, fr, base, b, i, cpu, stack), env, if mi.src == INVALID_VREG then None else Some(env[mi.src]), RunX(code, cpu), stack);
  }

  lemma AtEpilogue(bs: seq<Byte>, m: MFunc, fr: Frame, base: nat, s: Status, k: nat, cpu: Cpu, stack: Stack)
    requires AllEmittable(m) && Sits(FuncItems(m, fr), k, Codes(EpilogueCode(fr))) && k <= |FuncItems(m, fr)|
    requires After(bs, s, 0, AtItem(FuncItems(m, fr), base, k, cpu, stack))
    ensures ReachesEpilogue(bs, m, fr, base, s, 0, cpu, stack)
  {
    hide After, AllEmittable, FuncItems, EpilogueCode, Codes, OffsetOf;
  }

  lemma LeavesAs(bs: seq<Byte>, m: MFunc, fr: Frame, base: nat, own: set<nat>, s: Status, env: Env, x: Option<Int64>, cpu: Cpu, stack: Stack)
    requires AllEmittable(m) && HoldsResult(env, cpu, own, x) && ReachesEpilogue(bs, m, fr, base, s, 0, cpu, stack)
    ensures Leaves(bs, m, fr, base, own, s, env, x, stack)
  {
    hide AllEmittable, HoldsResult, ReachesEpilogue;
  }

  // ---- Blocks ----

  /** From any instruction of a block, with the registers and flags of the machine, the bytes
      leave the block where and as the machine does. */
  lemma {:induction false} BlockRuns(w: World, bs: seq<Byte>, m: MFunc, fr: Frame, base: nat, own: set<nat>, b: nat, i: nat, env: Env, flags: Flags,
                                     trace: Trace, stack: Stack)
    requires Installed(bs, m, fr, base) && FineCode(m, own) && AllRegs(env)
    requires b < |m.blocks| && i <= |m.blocks[b]| && InstPos(m, fr, b, i) <= |FuncItems(m, fr)|
    ensures Exits(bs, m, fr, base, own, AtInst(m, fr, base, b, i, Cpu(env, flags), stack), env, stack, RunM(w, m.blocks[b], i, env, flags, trace))
    decreases |m.blocks[b]| - i
  {
    hide *;
    IsInstalled(bs, m, fr, base);
    var mb, s := m.blocks[b], AtInst(m, fr, base, b, i, Cpu(env, flags), stack);
    if i >= |mb| || RunM(w, mb, i, env, flags, trace).Fault? {
      NoExit(w, bs, m, fr, base, own, s, env, stack, mb, i, flags, trace);
    } else {
      var mi := mb[i];
      FineAt(m, own, b, i);
      IsJump(mi);
      if mi.op.IsJump() {
        RunJump(w, mb, i, env, flags, trace);
        AgreeSelf(env, own);
        if Taken(mi, flags) {
          if mi.target < |m.blocks| {
            JumpRuns(bs, m, fr, base, b, i, env, flags, stack);
          }
          JumpExits(bs, m, fr, base, own, s, env, flags, stack, mi.target, trace);
        } else {
          NotTaken(bs, m, fr, base, b, i, env, flags, stack);
          BlockRuns(w, bs, m, fr, base, own, b, i + 1, env, flags, trace, stack);
          ExitsLater(bs, m, fr, base, own, s, env, AtInst(m, fr, base, b, i + 1, Cpu(env, flags), stack), env, stack, RunM(w, mb, i + 1, env, flags, trace));
        }
      } else if mi.op.RET? {
        RunRet(w, mb, i, env, flags, trace);
        RetRuns(bs, m, fr, base, own, b, i, env, flags, stack);
        RetExits(bs, m, fr, base, own, s, env, stack, if mi.src == INVALID_VREG then None else Some(env[mi.src]), trace);
      } else {
        RunOther(w, mb, i, env, flags, trace);
        var r := ExecM(w, mi, env, flags, trace);
        WritesOnly(w, mi, env, flags, trace, own);
        InstRuns(w, bs, m, fr, base, own, b, i, env, flags, trace, stack);
        BlockRuns(w, bs, m, fr, base, own, b, i + 1, r.env, r.flags, r.trace, stack);
        ExitsLater(bs, m, fr, base, own, s, env, AtInst(m, fr, base, b, i + 1, Cpu(r.env, r.flags), stack), r.env, stack, RunM(w, mb, i + 1, r.env, r.flags, r.trace));
      }
    }
  }

  lemma NoExit(w: World, bs: seq<Byte>, m: MFunc, fr: Frame, base: nat, own: set<nat>, s: Status, env: Env, stack: Stack, mb: MachBlock, i: nat, flags: Flags, trace: Trace)
    requires AllEmittable(m) && (i >= |mb| || RunM(w, mb, i, env, flags, trace).Fault?)
    ensures Exits(bs, m, fr, base, own, s, env, stack, RunM(w, mb, i, env, flags, trace))
  {
    hide AllEmittable;
  }

  lemma FineAt(m: MFunc, own: set<nat>, b: nat, i: nat)
    requires FineCode(m, own) && b < |m.blocks| && i < |m.blocks[b]|
    ensures Fine(m.blocks[b][i], own)
  {
    hide Fine;
    assert FineBlock(m.blocks[b], own);
  }

  lemma AgreeSelf(env: Env, own: set<nat>)
    requires AllRegs(env)
    ensures Agree(env, env, own)
  {
  }

  lemma RunJump(w: World, mb: MachBlock, i: nat, env: Env, flags: Flags, trace: Trace)
    requires i < |mb| && mb[i].op.IsJump() && !RunM(w, mb, i, env, flags, trace).Fault?
    ensures mb[i].op.JMP? || flags.Some?
    ensures RunM(w, mb, i, env, flags, trace) ==
              if Taken(mb[i], flags) then Goto(mb[i].target, env, trace) else RunM(w, mb, i + 1, env, flags, trace)
    ensures mb[i].op.JMP? ==> Taken(mb[i], flags)
  {
    hide ExecM;
  }

  lemma RunRet(w: World, mb: MachBlock, i: nat, env: Env, flags: Flags, trace: Trace)
    requires i < |mb| && mb[i].op.RET? && !RunM(w, mb, i, env, flags, trace).Fault?
    ensures mb[i].src != INVALID_VREG ==> mb[i].src in env
    ensures RunM(w, mb, i, env, flags, trace) == Return(if mb[i].src == INVALID_VREG then None else Some(env[mb[i].src]), trace)
  {
    hide ExecM;
  }

  lemma RunOther(w: World, mb: MachBlock, i: nat, env: Env, flags: Flags, trace: Trace)
    requires i < |mb| && !mb[i].op.IsJump() && !mb[i].op.RET? && !RunM(w, mb, i, env, flags, trace).Fault?
    ensures var r := ExecM(w, mb[i], env, flags, trace);
            r.MWent? && RunM(w, mb, i, env, flags, trace) == RunM(w, mb, i + 1, r.env, r.flags, r.trace)
  {
    hide ExecM;
  }

  /** A conditional jump to anywhere that is not taken goes on behind it. */
  lemma NotTaken(bs: seq<Byte>, m: MFunc, fr: Frame, base: nat, b: nat, i: nat, env: Env, flags: Flags, stack: Stack)
    requires Installed(bs, m, fr, base) && b < |m.blocks| && i < |m.blocks[b]| && AllRegs(env)
    requires var mi := m.blocks[b][i]; mi.op.IsJump() && (mi.op.JMP? || flags.Some?) && !Taken(mi, flags)
    ensures InstPos(m, fr, b, i) <= InstPos(m, fr, b, i + 1) <= |FuncItems(m, fr)|
    ensures After(bs, AtInst(m, fr, base, b, i, Cpu(env, flags), stack), 0, AtInst(m, fr, base, b, i + 1, Cpu(env, flags), stack))
  {
    hide *;
    IsInstalled(bs, m, fr, base);
    JumpRuns(bs, m, fr, base, b, i, env, flags, stack);
    Fewer(bs, AtInst(m, fr, base, b, i, Cpu(env, flags), stack), 1, 0, AtInst(m, fr, base, b, i + 1, Cpu(env, flags), stack));
  }

  lemma JumpExits(bs: seq<Byte>, m: MFunc, fr: Frame, base: nat, own: set<nat>, s: Status, env: Env, flags: Flags, stack: Stack, t: Label, trace: Trace)
    requires AllEmittable(m) && AllRegs(env) && Agree(env, env, own)
    requires t < |m.blocks| ==> After(bs, s, 1, Executing(LabelsOf(m, fr, base)[t], Cpu(env, flags), stack))
    ensures Exits(bs, m, fr, base, own, s, env, stack, Goto(t, env, trace))
  {
    hide AllEmittable, AllRegs, Agree, After, LabelsOf;
  }

  lemma RetExits(bs: seq<Byte>, m: MFunc, fr: Frame, base: nat, own: set<nat>, s: Status, env: Env, stack: Stack, x: Option<Int64>, trace: Trace)
    requires AllEmittable(m) && Leaves(bs, m, fr, base, own, s, env, x, stack)
    ensures Exits(bs, m, fr, base, own, s, env, stack, Return(x, trace))
  {
    hide AllEmittable, Leaves;
  }

  // ---- Runs ----

  /** A run that starts with undefined flags and does not fault never looks at them. */
  lemma {:induction false} AnyFlags(w: World, mb: MachBlock, i: nat, env: Env, f: Flags, g: Flags, trace: Trace)
    requires !RunM(w, mb, i, env, f, trace).Fault? && (f == None || f == g)
    ensures RunM(w, mb, i, env, g, trace) == RunM(w, mb, i, env, f, trace)
    decreases |mb| - i
  {
    if i < |mb| && !mb[i].op.RET? && !mb[i].op.JMP? {
      if mb[i].op.IsJump() {
        if !Taken(mb[i], f) {
          AnyFlags(w, mb, i + 1, env, f, g, trace);
        }
      } else {
        StepFlags(w, mb[i], env, f, g, trace);
        var r, r' := ExecM(w, mb[i], env, f, trace), ExecM(w, mb[i], env, g, trace);
        hide ExecM;
        AnyFlags(w, mb, i + 1, r.env, r.flags, r'.flags, r.trace);
      }
    }
  }

  lemma StepFlags(w: World, mi: MachInst, env: Env, f: Flags, g: Flags, trace: Trace)
    requires !mi.op.IsJump() && !mi.op.RET? && (f == None || f == g) && ExecM(w, mi, env, f, trace).MWent?
    ensures var r, r' := ExecM(w, mi, env, f, trace), ExecM(w, mi, env, g, trace);
            r'.MWent? && r'.env == r.env && r'.trace == r.trace && (r.flags == None || r.flags == r'.flags)
  {
    hide AluValue, EvalUnop, EvalCmp, BitwiseWord;
  }

  /** What the bytes do from `s` on, where the registers hold `env`, when the machine has come to
      `r`: they get to its block with its registers, in at least `n` steps, or to the epilogue
      with its result. */
  ghost predicate Follows(bs: seq<Byte>, m: MFunc, fr: Frame, base: nat, own: set<nat>, s: Status, env: Env, stack: Stack, n: nat, r: MState)
    requires AllEmittable(m)
  {
    match r
    case MFaulted => true
    case MRunning(b, env', _) =>
      && AllRegs(env) && AllRegs(env') && Agree(env, env', own)
      && (b < |m.blocks| ==> Jumps(bs, m, fr, base, s, n, b, env', stack))
    case MFinished(x, _) => Leaves(bs, m, fr, base, own, s, env, x, stack)
  }

  lemma FollowsStart(bs: seq<Byte>, m: MFunc, fr: Frame, base: nat, own: set<nat>, env: Env, flags: Flags, stack: Stack)
    requires AllEmittable(m) && AllRegs(env) && m.blocks != []
    ensures Follows(bs, m, fr, base, own, Executing(LabelsOf(m, fr, base)[0], Cpu(env, flags), stack), env, stack, 0, MRunning(0, env, []))
  {
    Stays(bs, Executing(LabelsOf(m, fr, base)[0], Cpu(env, flags), stack));
    hide AllEmittable, LabelsOf, After;
  }

  /** One more block. */
  lemma FollowsBlock(w: World, bs: seq<Byte>, m: MFunc, fr: Frame, base: nat, own: set<nat>, s: Status, env: Env, stack: Stack, n: nat, b: Label, env': Env, trace: Trace)
    requires Installed(bs, m, fr, base) && FineCode(m, own) && b < |m.blocks| && AllRegs(env)
    requires Follows(bs, m, fr, base, own, s, env, stack, n, MRunning(b, env', trace))
    requires !RunM(w, m.blocks[b], 0, env', None, trace).Fault?
    ensures Follows(bs, m, fr, base, own, s, env, stack, n + 1, StepM(w, m, MRunning(b, env', trace)))
  {
    hide Installed, AllEmittable, FineCode, AllRegs, Agree, After, LabelsOf, InstPos, FuncItems, RunM, AtInst, Leaves, Exits, OffsetOf;
    IsInstalled(bs, m, fr, base);
    var flags :| After(bs, s, n, Executing(LabelsOf(m, fr, base)[b], Cpu(env', flags), stack));
    var s' := Executing(LabelsOf(m, fr, base)[b], Cpu(env', flags), stack);
    AnyFlags(w, m.blocks[b], 0, env', None, flags, trace);
    BlockStarts(m, fr, base, b);
    InstIs(m, fr, base, b, 0, Cpu(env', flags), stack);
    BlockRuns(w, bs, m, fr, base, own, b, 0, env', flags, trace, stack);
    Onward(bs, m, fr, base, own, s, env, stack, n, s', env', RunM(w, m.blocks[b], 0, env', flags, trace), trace);
  }

  ghost function Arrived(r: Exit): MState {
    match r
    case Fault => MFaulted
    case Goto(t, env, trace) => MRunning(t, env, trace)
    case Return(x, trace) => MFinished(x, trace)
  }

  lemma Onward(bs: seq<Byte>, m: MFunc, fr: Frame, base: nat, own: set<nat>, s: Status, env: Env, stack: Stack, n: nat, s': Status, env': Env, r: Exit, trace: Trace)
    requires AllEmittable(m) && After(bs, s, n, s') && Exits(bs, m, fr, base, own, s', env', stack, r)
    requires AllRegs(env) && AllRegs(env') && Agree(env, env', own)
    ensures Follows(bs, m, fr, base, own, s, env, stack, n + 1, Arrived(r))
  {
    hide AllEmittable, After, AllRegs, Agree, Jumps, HoldsResult, ReachesEpilogue;
    match r {
      case Fault =>
      case Goto(t, env'', _) =>
        AgreeOn(env, env', env'', own);
        if t < |m.blocks| {
          JumpsLater(bs, m, fr, base, s, n, s', 1, t, env'', stack);
        }
      case Return(x, _) =>
        var cpu :| HoldsResult(env', cpu, own, x) && ReachesEpilogue(bs, m, fr, base, s', 0, cpu, stack);
        HoldsLater(env, env', cpu, own, x);
        Fewer(bs, s, n, 0, s');
        EpilogueLater(bs, m, fr, base, s, 0, s', 0, cpu, stack);
    }
  }

  /** The bytes of the blocks follow every run of the machine code. */
  lemma {:induction false} BytesFollow(w: World, bs: seq<Byte>, m: MFunc, fr: Frame, base: nat, own: set<nat>, env: Env, flags: Flags, stack: Stack, n: nat)
    requires Installed(bs, m, fr, base) && FineCode(m, own) && m.blocks != [] && AllRegs(env)
    ensures Follows(bs, m, fr, base, own, Executing(LabelsOf(m, fr, base)[0], Cpu(env, flags), stack), env, stack, n, RunFrom(w, m, env, n))
  {
    hide *;
    IsInstalled(bs, m, fr, base);
    RunStart(w, m, env);
    FollowsStart(bs, m, fr, base, own, env, flags, stack);
    if n > 0 {
      BytesFollow(w, bs, m, fr, base, own, env, flags, stack, n - 1);
      RunStep(w, m, env, n);
      var s, before := Executing(LabelsOf(m, fr, base)[0], Cpu(env, flags), stack), RunFrom(w, m, env, n - 1);
      if RunFrom(w, m, env, n).MFaulted? {
        FollowsFault(bs, m, fr, base, own, s, env, stack, n);
      } else if before.MRunning? {
        FollowsBlock(w, bs, m, fr, base, own, s, env, stack, n - 1, before.block, before.env, before.trace);
      } else {
        FollowsEnd(bs, m, fr, base, own, s, env, stack, n - 1, n, before);
      }
    }
  }

  lemma RunStart(w: World, m: MFunc, env: Env)
    ensures RunFrom(w, m, env, 0) == MRunning(0, env, [])
  {
  }

  lemma RunStep(w: World, m: MFunc, env: Env, n: nat)
    requires n > 0
    ensures var before, s := RunFrom(w, m, env, n - 1), RunFrom(w, m, env, n);
            && s == StepM(w, m, before) && (!before.MRunning? ==> s == before)
            && (before.MRunning? && !s.MFaulted? ==>
                  before.block < |m.blocks| && !RunM(w, m.blocks[before.block], 0, before.env, None, before.trace).Fault?)
  {
    hide RunM;
  }

  lemma FollowsFault(bs: seq<Byte>, m: MFunc, fr: Frame, base: nat, own: set<nat>, s: Status, env: Env, stack: Stack, n: nat)
    requires AllEmittable(m)
    ensures Follows(bs, m, fr, base, own, s, env, stack, n, MFaulted)
  {
    hide AllEmittable;
  }

  lemma FollowsEnd(bs: seq<Byte>, m: MFunc, fr: Frame, base: nat, own: set<nat>, s: Status, env: Env, stack: Stack, n: nat, n': nat, r: MState)
    requires AllEmittable(m) && Follows(bs, m, fr, base, own, s, env, stack, n, r) && !r.MRunning?
    ensures Follows(bs, m, fr, base, own, s, env, stack, n', r)
  {
    hide AllEmittable, Leaves;
  }
}
