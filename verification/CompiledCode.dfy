/** From strict SSA to bytes: selection, allocation, peephole, frame and emission together
    (src/main.c:267-312). */
module CompiledCode {
  import opened Wrappers
  import opened Word64
  import opened Ssa
  import opened Mach
  import opened Isel
  import opened IselShape
  import opened IselCorrect
  import opened IselSimulation
  import opened LinearScan
  import opened RegAlloc
  import opened Liveness
  import opened Prologue
  import opened Peephole
  import opened X86
  import opened Expand
  import opened Emit
  import opened Disassembly
  import opened Processor
  import opened LoadedCode
  import opened CodeRuns
  import opened Frames
  import opened CallProtocol
  import opened Allocator
  import BackEnd

  // ---- Allocated and tidied code can run ----

  /** The registers an allocation uses. */
  function Given(regOf: seq<nat>): set<nat> {
    set r | r in regOf
  }

  ghost predicate FineBlocks(bs: seq<MachBlock>, own: set<nat>) {
    forall b :: 0 <= b < |bs| ==> FineBlock(bs[b], own)
  }

  lemma PlainFine(m: MFunc, t: Table, regOf: seq<nat>, b: nat, i: nat)
    requires PlainCode(m) && Assigns(m, t, regOf) && Spared(regOf) && m.Has(b, i)
    ensures var mi := RenameInst(m.At(b, i), regOf);
            && Emittable(mi.op) && RegsValid(mi) && (Writes(mi).Some? ==> mi.dst in Given(regOf))
  {
    var inst := m.At(b, i);
    hide *;
    PlainAt(m, b, i);
    if Writes(inst) == Some(inst.dst) {
      RegisterGiven(m, t, regOf, b, i, inst.dst);
    }
    if ReadsReg(inst, inst.src) {
      RegisterGiven(m, t, regOf, b, i, inst.src);
    }
    if ReadsReg(inst, inst.src2) {
      RegisterGiven(m, t, regOf, b, i, inst.src2);
    }
    RenamedValid(inst, regOf);
  }

  /** Renaming the registers an instruction writes and reads makes them valid. */
  lemma RenamedValid(inst: MachInst, regOf: seq<nat>)
    requires Plain(inst.op)
    requires Writes(inst) == Some(inst.dst) ==> inst.dst < |regOf| <= INVALID_VREG && RegValid(regOf[inst.dst]) && regOf[inst.dst] in Given(regOf)
    requires ReadsReg(inst, inst.src) ==> inst.src < |regOf| <= INVALID_VREG && RegValid(regOf[inst.src])
    requires ReadsReg(inst, inst.src2) ==> inst.src2 < |regOf| <= INVALID_VREG && RegValid(regOf[inst.src2])
    ensures var mi := RenameInst(inst, regOf);
            && Emittable(mi.op) && RegsValid(mi) && (Writes(mi).Some? ==> mi.dst in Given(regOf))
  {
    hide Given;
  }

  lemma RegisterGiven(m: MFunc, t: Table, regOf: seq<nat>, b: nat, i: nat, v: nat)
    requires PlainCode(m) && Assigns(m, t, regOf) && Spared(regOf) && m.Has(b, i)
    requires ReadsReg(m.At(b, i), v) || Writes(m.At(b, i)) == Some(v)
    ensures v < |regOf| <= INVALID_VREG && RegValid(regOf[v]) && regOf[v] in Given(regOf)
  {
    assert Plain(m.At(b, i).op);
    assert Mentions(m.At(b, i), v);
    assert OccursAt(m, v, b, i);
  }

  lemma AllocatedFine(f: Func, m: MFunc, t: Table, regOf: seq<nat>)
    requires Selectable(f) && IsSelection(f, m) && PlainCode(m) && IsTable(m, t) && Assigns(m, t, regOf) && Spared(regOf)
    ensures FineBlocks(RenameFunc(m, regOf).blocks, Given(regOf))
  {
    hide Selectable, IsSelection, PlainCode, IsTable, Assigns, Spared, ExpandOk, RegsValid, Emittable, RenameInst, Given;
    var m' := RenameFunc(m, regOf);
    forall b: nat | b < |m'.blocks| ensures FineBlock(m'.blocks[b], Given(regOf)) {
      forall i: nat | i < |m'.blocks[b]| ensures Fine(m'.blocks[b][i], Given(regOf)) {
        assert m.Has(b, i) && m'.blocks[b][i] == RenameInst(m.At(b, i), regOf);
        PlainFine(m, t, regOf, b, i);
        SameOp(m.At(b, i), regOf);
        if Straight(m'.blocks[b][i]) {
          BackEnd.SelectedExpands(f, m, t, regOf, b, i);
        }
      }
    }
  }

  lemma SameOp(inst: MachInst, regOf: seq<nat>)
    ensures Straight(RenameInst(inst, regOf)) <==> Straight(inst)
  {
  }

  // ---- The peephole pass keeps that ----

  lemma SimplerFine(a: MachInst, own: set<nat>)
    requires Fine(a, own)
    ensures Fine(Simpler(a), own) && Fine(a.(op := NOP), own)
  {
  }

  lemma WindowFine(mb: MachBlock, i: nat, own: set<nat>)
    requires i + 1 < |mb| && FineBlock(mb, own)
    ensures FineBlock(Window(mb, i), own)
  {
    hide Fine, Simpler;
    SimplerFine(mb[i], own);
    SimplerFine(mb[i + 1], own);
  }

  lemma {:induction false} ScanFine(mb: MachBlock, n: nat, own: set<nat>)
    requires (n < |mb| || (n == 0 && mb == [])) && FineBlock(mb, own)
    ensures FineBlock(Scan(mb, n), own)
  {
    hide *;
    ScanIs(mb, n);
    if n > 0 {
      ScanFine(mb, n - 1, own);
      WindowFine(Scan(mb, n - 1), n - 1, own);
    }
  }

  lemma ScanIs(mb: MachBlock, n: nat)
    requires n < |mb| || (n == 0 && mb == [])
    ensures n == 0 ==> Scan(mb, n) == mb
    ensures n > 0 ==> |Scan(mb, n - 1)| == |mb| && Scan(mb, n) == Window(Scan(mb, n - 1), n - 1)
  {
    hide Window;
  }

  lemma SweepFine(mb: MachBlock, own: set<nat>)
    requires FineBlock(mb, own)
    ensures FineBlock(Sweep(mb), own)
  {
    var n := if |mb| == 0 then 0 else |mb| - 1;
    ScanFine(mb, n, own);
    var s := Scan(mb, n);
    hide Fine, Scan, Compact;
    forall k | 0 <= k < |Compact(s)| ensures Fine(Compact(s)[k], own) {
      var i := CompactOrigin(s, k);
    }
  }

  lemma {:induction false} SweepsFine(bs: seq<MachBlock>, n: nat, own: set<nat>)
    requires FineBlocks(bs, own)
    ensures |Sweeps(bs, n)| == |bs| && FineBlocks(Sweeps(bs, n), own)
    decreases n
  {
    if n > 0 {
      hide FineBlock, Sweep;
      forall b | 0 <= b < |bs| ensures FineBlock(SweepAll(bs)[b], own) {
        SweepFine(bs[b], own);
      }
      SweepsFine(SweepAll(bs), n - 1, own);
    }
  }

  lemma FinalFine(f: Func, m: MFunc, t: Table, regOf: seq<nat>)
    requires Selectable(f) && IsSelection(f, m) && PlainCode(m) && IsTable(m, t) && Assigns(m, t, regOf) && Spared(regOf)
    ensures FineCode(BackEnd.Final(m, regOf), Given(regOf)) && |BackEnd.Final(m, regOf).blocks| == |m.blocks|
  {
    AllocatedFine(f, m, t, regOf);
    hide Selectable, IsSelection, PlainCode, IsTable, Assigns, Spared, FineBlock, RenameBlock, Given;
    SweepsFine(RenameFunc(m, regOf).blocks, MAX_ITERATIONS, Given(regOf));
    hide Sweeps;
  }

  // ---- The frame of the allocation ----

  lemma FrameOfFits(params: seq<nat>, regOf: seq<nat>, regUsed: seq<bool>, stackSize: nat)
    requires Spared(regOf) && UsedRight(regOf, regUsed) && stackSize < 0x8000_0000
    requires ParamsApart(params, regOf, First6(params))
    ensures FrameFits(FrameOf(params, regOf, regUsed, stackSize), Given(regOf))
  {
    var fr, own := FrameOf(params, regOf, regUsed, stackSize), Given(regOf);
    SavedAre(regUsed, REG_R15);
    HwNumbers();
    forall r: nat | r in own && Preserved(r) ensures exists i :: 0 <= i < |fr.saved| && fr.saved[i] == r {
      PreservedSaved(regOf, regUsed, r);
      assert r in fr.saved;
    }
    forall i | 0 <= i < |fr.paramMoves| ensures fr.paramMoves[i].0 as nat in own {
      MoveGiven(params, regOf, i);
    }
    hide SavedUpTo, ParamCopies, Preserved;
  }

  lemma PreservedSaved(regOf: seq<nat>, regUsed: seq<bool>, r: nat)
    requires UsedRight(regOf, regUsed) && r in regOf && Preserved(r)
    ensures r <= REG_R15 && regUsed[r]
  {
    HwRange(3);
    HwRange(12);
    HwRange(15);
  }

  lemma MoveGiven(params: seq<nat>, regOf: seq<nat>, i: nat)
    requires ParamsApart(params, regOf, First6(params)) && i < |ParamCopies(params, regOf, First6(params))|
    ensures ParamCopies(params, regOf, First6(params))[i].dst in Given(regOf)
  {
    CopiesAre(params, regOf, First6(params));
    var c := ParamCopies(params, regOf, First6(params))[i];
    assert CopyOf(params, regOf, First6(params), c);
    var p :| 0 <= p < First6(params) && MovesParam(params, regOf, p, c);
  }

  /** The number that stands for no register is out of range everywhere (src/common.h:26). */
  lemma NoRegister()
    ensures INVALID_VREG == UINT32_MAX == 0xFFFF_FFFF && !RegValid(INVALID_VREG) && !RegValid(REG_NONE)
  {
  }

  // ---- Arguments ----

  /** Where the calling convention passes the first arguments: RDI, RSI, RDX, RCX, R8, R9. */
  function ArgReg(p: nat): Reg
    requires p < 6
  {
    if p == 0 then Hw(7) else if p == 1 then Hw(6) else if p == 2 then Hw(2) else if p == 3 then Hw(1) else Hw(p + 4)
  }

  lemma ArgRegs(p: nat)
    requires p < 6
    ensures |PARAM_REGS| == 6 && PARAM_REGS[p] == ArgReg(p) && ArgReg(p) != RSP && ArgReg(p) != RBP
  {
    assert PARAM_REGS == [8, 7, 3, 2, 9, 10];
    HwRange(7);
    HwRange(6);
    HwRange(2);
    HwRange(1);
    HwRange(8);
    HwRange(9);
  }

  /** The caller passes these arguments. */
  ghost predicate Passed(actuals: seq<Int64>, regs: Env)
    requires AllRegs(regs)
  {
    |actuals| <= 6 && forall p: nat :: p < |actuals| ==> regs[ArgReg(p)] == actuals[p]
  }

  lemma {:induction false} BindAt(params: seq<nat>, actuals: seq<Int64>, v: nat)
    requires v in Bind(params, actuals)
    ensures exists p: nat :: p < |params| && p < |actuals| && params[p] == v && Bind(params, actuals)[v] == actuals[p]
  {
    if v != params[0] {
      BindAt(params[1..], actuals[1..], v);
      var p: nat :| p < |params[1..]| && p < |actuals[1..]| && params[1..][p] == v && Bind(params[1..], actuals[1..])[v] == actuals[1..][p];
      assert params[p + 1] == v && actuals[p + 1] == actuals[1..][p];
    }
  }

  /** Behind the prologue every parameter is in its register. */
  lemma ParamsBound(m: MFunc, regOf: seq<nat>, regUsed: seq<bool>, stackSize: nat, call: Env, actuals: seq<Int64>)
    requires |regUsed| == REG_COUNT && ParamsApart(m.params, regOf, First6(m.params)) && |m.params| <= 6 && |regOf| <= INVALID_VREG
    requires var fr := FrameOf(m.params, regOf, regUsed, stackSize); AllRegs(call) && CallRoom(call, fr) && Passed(actuals, call)
    ensures var fr := FrameOf(m.params, regOf, regUsed, stackSize);
            BackEnd.Within(Bind(RenameFunc(m, regOf).params, actuals), Arranged(fr, call))
  {
    var fr, params := FrameOf(m.params, regOf, regUsed, stackSize), RenameFunc(m, regOf).params;
    hide Bind, FrameOf, Arranged, Passed, RenameBlock, ParamsApart, CallRoom, AllRegs, First6;
    forall v | v in Bind(params, actuals) ensures v in Arranged(fr, call) && Arranged(fr, call)[v] == Bind(params, actuals)[v] {
      BindAt(params, actuals, v);
      var p: nat :| p < |params| && p < |actuals| && params[p] == v && Bind(params, actuals)[v] == actuals[p];
      ParamArranged(m, regOf, regUsed, stackSize, call, actuals, p);
    }
  }

  lemma ParamArranged(m: MFunc, regOf: seq<nat>, regUsed: seq<bool>, stackSize: nat, call: Env, actuals: seq<Int64>, p: nat)
    requires |regUsed| == REG_COUNT && ParamsApart(m.params, regOf, First6(m.params)) && |m.params| <= 6 && |regOf| <= INVALID_VREG
    requires var fr := FrameOf(m.params, regOf, regUsed, stackSize); AllRegs(call) && CallRoom(call, fr) && Passed(actuals, call)
    requires p < |m.params| && p < |actuals|
    ensures var fr, v := FrameOf(m.params, regOf, regUsed, stackSize), Rename(m.params[p], regOf);
            v in Arranged(fr, call) && Arranged(fr, call)[v] == actuals[p]
  {
    hide *;
    var fr := FrameOf(m.params, regOf, regUsed, stackSize);
    Sixes(m.params, regOf, p);
    EnteredArgs(fr, call, actuals);
    ArrangedIs(fr, call);
    CopiesInRange(m.params, regOf, First6(m.params));
    FrameMoves(m.params, regOf, regUsed, stackSize);
    MovesInSequence(ParamCopies(m.params, regOf, First6(m.params)), Entered(call, fr));
    ArgRegs(p);
    ParamsArrive(m.params, regOf, First6(m.params), Entered(call, fr), p);
  }

  lemma Sixes(params: seq<nat>, regOf: seq<nat>, p: nat)
    requires ParamsApart(params, regOf, First6(params)) && |params| <= 6 && |regOf| <= INVALID_VREG && p < |params|
    ensures p < First6(params) && params[p] < |regOf| && Rename(params[p], regOf) == regOf[params[p]]
  {
  }

  lemma FrameMoves(params: seq<nat>, regOf: seq<nat>, regUsed: seq<bool>, stackSize: nat)
    requires |regUsed| == REG_COUNT && InRange(ParamCopies(params, regOf, First6(params)))
    ensures FrameOf(params, regOf, regUsed, stackSize).paramMoves == Pairs(ParamCopies(params, regOf, First6(params)))
  {
    hide ParamCopies, SavedUpTo;
  }

  lemma EnteredArgs(fr: Frame, call: Env, actuals: seq<Int64>)
    requires AllRegs(call) && CallRoom(call, fr) && Passed(actuals, call)
    ensures |PARAM_REGS| == 6 && AllRegs(Entered(call, fr))
    ensures forall p: nat :: p < 6 ==> PARAM_REGS[p] in Entered(call, fr)
    ensures |actuals| <= 6 && forall p: nat :: p < |actuals| ==> Entered(call, fr)[PARAM_REGS[p]] == actuals[p]
  {
    BasedIs(fr, call);
    SixRegs();
    forall p: nat | p < 6 ensures PARAM_REGS[p] in Entered(call, fr) && (p < |actuals| ==> Entered(call, fr)[PARAM_REGS[p]] == actuals[p]) {
      ArgRegs(p);
    }
  }

  // ---- The whole back end, down to bytes ----

  /** A call the bytes can be run for: a return address on the stack and room below it. */
  ghost predicate Callable(call: Cpu, callStack: Stack, fr: Frame) {
    AllRegs(call.regs) && CallRoom(call.regs, fr) && call.regs[Hw(4)] in callStack
  }

  /** The bytes, called, show what the run of the SSA function has come to: they get to the code
      of its block, in at least as many steps as it has passed blocks, or come back with its
      result. */
  ghost predicate BytesShow(bs: seq<Byte>, m: MFunc, fr: Frame, base: nat, call: Cpu, callStack: Stack, n: nat, s: State)
    requires AllEmittable(m) && AllRegs(call.regs) && CallRoom(call.regs, fr)
  {
    match s
    case Faulted => false
    case Running(b, _, _, _) => b < |m.blocks| && Arrives(bs, m, fr, base, call, callStack, n, b)
    case Finished(x, _) => ComesBack(bs, base, call, callStack, x)
  }

  ghost predicate Arrives(bs: seq<Byte>, m: MFunc, fr: Frame, base: nat, call: Cpu, callStack: Stack, n: nat, b: Label)
    requires AllEmittable(m) && b < |m.blocks| && AllRegs(call.regs) && CallRoom(call.regs, fr)
  {
    exists env :: Jumps(bs, m, fr, base, Executing(base, call, callStack), n, b, env, FrameStack(fr, call.regs, callStack))
  }

  /** One call: if `f` does not fault with these arguments, the bytes show its run. */
  ghost predicate CallRealizes(w: World, f: Func, bs: seq<Byte>, m: MFunc, fr: Frame, base: nat, actuals: seq<Int64>, call: Cpu, callStack: Stack, n: nat)
    requires AllEmittable(m)
  {
    Callable(call, callStack, fr) && Passed(actuals, call.regs) && !Run(w, f, actuals, n + 1).Faulted? ==>
      BytesShow(bs, m, fr, base, call, callStack, n, Run(w, f, actuals, n))
  }

  /** Called with any arguments in the registers of the calling convention, and anything in the
      others, the bytes at `base` do what `f` does in every run that does not fault. */
  ghost predicate BytesRealize(f: Func, bs: seq<Byte>, m: MFunc, fr: Frame, base: nat)
    requires AllEmittable(m)
  {
    forall w: World, actuals, call: Cpu, callStack, n: nat :: CallRealizes(w, f, bs, m, fr, base, actuals, call, callStack, n)
  }

  lemma LabelsShort(m: MFunc, fr: Frame, base: nat)
    requires AllEmittable(m) && ShortCode(FuncItems(m, fr), base)
    ensures forall b :: 0 <= b < |m.blocks| ==> LabelsOf(m, fr, base)[b] < 0x8000_0000
  {
    hide FuncItems, LabelsOf, Size, AllEmittable;
    forall b: nat | b < |m.blocks| ensures LabelsOf(m, fr, base)[b] < 0x8000_0000 {
      Disassembly.BlockStart(m, fr, base, b);
      OffsetBound(FuncItems(m, fr), base, FirstItem(m, fr, b));
    }
  }

  /** What was emitted is installed. */
  lemma EmittedInstalled(pre: seq<Byte>, m: MFunc, fr: Frame, tail: seq<Byte>)
    requires AllEmittable(m) && ShortCode(FuncItems(m, fr), |pre|)
    ensures Installed(pre + Assemble(FuncItems(m, fr), |pre|, LabelsOf(m, fr, |pre|), true) + tail, m, fr, |pre|)
  {
    hide *;
    LabelsShort(m, fr, |pre|);
    LabelCount(m, fr, |pre|);
    AssembledLoads(pre, FuncItems(m, fr), tail, LabelsOf(m, fr, |pre|));
    IsInstalled(pre + Assemble(FuncItems(m, fr), |pre|, LabelsOf(m, fr, |pre|), true) + tail, m, fr, |pre|);
  }

  lemma LabelCount(m: MFunc, fr: Frame, base: nat)
    requires AllEmittable(m)
    ensures |LabelsOf(m, fr, base)| == |m.blocks|
  {
  }

  lemma BlocksLeft(f: Func, m: MFunc)
    requires IsSelection(f, m)
    ensures |f.blocks| <= |m.blocks| && m.params == f.params
  {
    LowerAllSize(f);
    hide AllCollected, LowerAll, PlaceEdge;
  }

  lemma BlockExists(w: World, f: Func, actuals: seq<Int64>, n: nat)
    requires !Run(w, f, actuals, n + 1).Faulted?
    ensures var s := Run(w, f, actuals, n); !s.Faulted? && (s.Running? ==> s.block < |f.blocks|)
  {
    hide RunBlock;
  }

  lemma EntryExists(w: World, f: Func, actuals: seq<Int64>, n: nat)
    requires f.entry == 0 && !Run(w, f, actuals, n + 1).Faulted?
    ensures f.blocks != []
    decreases n
  {
    BlockExists(w, f, actuals, n);
    if n > 0 {
      EntryExists(w, f, actuals, n - 1);
    } else {
      assert Run(w, f, actuals, 0) == Init(f, actuals);
    }
  }

  /** One run of the SSA function and one call of the bytes. */
  lemma RunShown(w: World, f: Func, bs: seq<Byte>, m: MFunc, fr: Frame, base: nat, own: set<nat>, actuals: seq<Int64>, call: Cpu, callStack: Stack, n: nat)
    requires Installed(bs, m, fr, base) && FineCode(m, own) && FrameFits(fr, own) && BackEnd.Realizes(f, m)
    requires f.entry == 0 && |f.blocks| <= |m.blocks| && !Run(w, f, actuals, n + 1).Faulted?
    requires Callable(call, callStack, fr) && BackEnd.Within(Bind(m.params, actuals), Arranged(fr, call.regs))
    ensures BytesShow(bs, m, fr, base, call, callStack, n, Run(w, f, actuals, n))
  {
    hide *;
    CallableIs(call, callStack, fr);
    BlockExists(w, f, actuals, n);
    EntryExists(w, f, actuals, n);
    IsInstalled(bs, m, fr, base);
    ArrangedAgrees(fr, own, call.regs);
    var s, env := Run(w, f, actuals, n), Arranged(fr, call.regs);
    var k := Shown(w, f, m, actuals, env, n);
    FunctionServes(w, bs, m, fr, base, own, call, callStack, k);
    ServedShows(bs, m, fr, base, call, callStack, n, k, RunFrom(w, m, env, k), s);
  }

  lemma CallableIs(call: Cpu, callStack: Stack, fr: Frame)
    requires Callable(call, callStack, fr)
    ensures AllRegs(call.regs) && CallRoom(call.regs, fr) && RSP in call.regs && call.regs[RSP] in callStack
  {
    HwRange(4);
  }

  lemma Shown(w: World, f: Func, m: MFunc, actuals: seq<Int64>, env: Env, n: nat) returns (k: nat)
    requires BackEnd.Realizes(f, m) && !Run(w, f, actuals, n + 1).Faulted? && AllRegs(env) && BackEnd.Within(Bind(m.params, actuals), env)
    ensures k >= n && ObserveM(RunFrom(w, m, env, k)) == Seen(Run(w, f, actuals, n))
  {
    hide Run, AllRegs, BackEnd.Within, RunFrom, Bind;
    assert BackEnd.Shows(w, m, env, n, Seen(Run(w, f, actuals, n)));
    k :| n <= k <= 2 * n && ObserveM(RunFrom(w, m, env, k)) == Seen(Run(w, f, actuals, n));
  }

  lemma ServedShows(bs: seq<Byte>, m: MFunc, fr: Frame, base: nat, call: Cpu, callStack: Stack, n: nat, k: nat, r: MState, s: State)
    requires AllEmittable(m) && AllRegs(call.regs) && CallRoom(call.regs, fr) && n <= k
    requires Serves(bs, m, fr, base, call, callStack, k, r) && ObserveM(r) == Seen(s) && !s.Faulted? && (s.Running? ==> s.block < |m.blocks|)
    ensures BytesShow(bs, m, fr, base, call, callStack, n, s)
  {
    hide AllEmittable, AllRegs, CallRoom, ComesBack, FrameStack;
    if s.Running? {
      JumpsSooner(bs, m, fr, base, Executing(base, call, callStack), n, k, s.block, r.env, FrameStack(fr, call.regs, callStack));
    }
  }

  lemma JumpsSooner(bs: seq<Byte>, m: MFunc, fr: Frame, base: nat, s: Status, n: nat, k: nat, b: Label, env: Env, stack: Stack)
    requires AllEmittable(m) && b < |m.blocks| && n <= k && Jumps(bs, m, fr, base, s, k, b, env, stack)
    ensures Jumps(bs, m, fr, base, s, n, b, env, stack)
  {
    hide AllEmittable, LabelsOf, After;
    var flags :| After(bs, s, k, Executing(LabelsOf(m, fr, base)[b], Cpu(env, flags), stack));
    Fewer(bs, s, k, n, Executing(LabelsOf(m, fr, base)[b], Cpu(env, flags), stack));
  }

  /** What the selector and the allocator have made of a function. */
  ghost predicate Prepared(f: Func, m: MFunc, t: Table, regOf: seq<nat>, regUsed: seq<bool>, stackSize: nat) {
    && Selectable(f) && IsSelection(f, m) && |f.params| <= 6
    && PlainCode(m) && IsTable(m, t) && Assigns(m, t, regOf) && LoopsCovered(m, t)
    && ParamsApart(m.params, regOf, First6(m.params)) && Spared(regOf) && UsedRight(regOf, regUsed) && stackSize < 0x8000_0000
  }

  lemma PreparedIs(f: Func, m: MFunc, t: Table, regOf: seq<nat>, regUsed: seq<bool>, stackSize: nat)
    requires Prepared(f, m, t, regOf, regUsed, stackSize)
    ensures Selectable(f) && f.entry == 0 && IsSelection(f, m) && |f.params| <= 6
    ensures PlainCode(m) && IsTable(m, t) && Assigns(m, t, regOf) && LoopsCovered(m, t)
    ensures ParamsApart(m.params, regOf, First6(m.params)) && Spared(regOf) && UsedRight(regOf, regUsed) && stackSize < 0x8000_0000
    ensures |regUsed| == REG_COUNT && |regOf| <= INVALID_VREG
  {
    hide IsSelection, IsTable, LoopsCovered, ParamsApart, Spared;
  }

  /** Strict SSA, selected, allocated, tidied and emitted in less than 2 GB: the bytes, wherever they
      stand and whoever calls them, do what the function means. */
  lemma BytesCorrect(f: Func, m: MFunc, t: Table, regOf: seq<nat>, regUsed: seq<bool>, stackSize: nat, pre: seq<Byte>, tail: seq<Byte>)
    requires Prepared(f, m, t, regOf, regUsed, stackSize)
    ensures |regUsed| == REG_COUNT && AllEmittable(BackEnd.Final(m, regOf))
    ensures var m', fr := BackEnd.Final(m, regOf), FrameOf(m.params, regOf, regUsed, stackSize);
            ShortCode(FuncItems(m', fr), |pre|) ==>
              BytesRealize(f, pre + Assemble(FuncItems(m', fr), |pre|, LabelsOf(m', fr, |pre|), true) + tail, m', fr, |pre|)
  {
    hide *;
    PreparedIs(f, m, t, regOf, regUsed, stackSize);
    var m', fr, own := BackEnd.Final(m, regOf), FrameOf(m.params, regOf, regUsed, stackSize), Given(regOf);
    FinalFine(f, m, t, regOf);
    FineEmittable(m', own);
    if ShortCode(FuncItems(m', fr), |pre|) {
      var bs := pre + Assemble(FuncItems(m', fr), |pre|, LabelsOf(m', fr, |pre|), true) + tail;
      BackEnd.BackEndCorrect(f, m, t, regOf);
      BlocksLeft(f, m);
      FrameOfFits(m.params, regOf, regUsed, stackSize);
      EmittedInstalled(pre, m', fr, tail);
      forall w: World, actuals, call: Cpu, callStack, n: nat
        ensures CallRealizes(w, f, bs, m', fr, |pre|, actuals, call, callStack, n)
      {
        OneCall(w, f, bs, m, regOf, regUsed, stackSize, |pre|, actuals, call, callStack, n);
      }
      RealizeIs(f, bs, m', fr, |pre|);
    }
  }

  lemma OneCall(w: World, f: Func, bs: seq<Byte>, m: MFunc, regOf: seq<nat>, regUsed: seq<bool>, stackSize: nat, base: nat,
                actuals: seq<Int64>, call: Cpu, callStack: Stack, n: nat)
    requires |regUsed| == REG_COUNT && ParamsApart(m.params, regOf, First6(m.params)) && |m.params| <= 6 && |regOf| <= INVALID_VREG
    requires f.entry == 0 && |f.blocks| <= |m.blocks| && |BackEnd.Final(m, regOf).blocks| == |m.blocks|
    requires var m', fr := BackEnd.Final(m, regOf), FrameOf(m.params, regOf, regUsed, stackSize);
             Installed(bs, m', fr, base) && FineCode(m', Given(regOf)) && FrameFits(fr, Given(regOf)) && BackEnd.Realizes(f, m')
    ensures AllEmittable(BackEnd.Final(m, regOf))
    ensures CallRealizes(w, f, bs, BackEnd.Final(m, regOf), FrameOf(m.params, regOf, regUsed, stackSize), base, actuals, call, callStack, n)
  {
    hide *;
    var m', fr, own := BackEnd.Final(m, regOf), FrameOf(m.params, regOf, regUsed, stackSize), Given(regOf);
    FineEmittable(m', own);
    if Callable(call, callStack, fr) {
      CallableIs(call, callStack, fr);
      if Passed(actuals, call.regs) && !Run(w, f, actuals, n + 1).Faulted? {
        FinalParams(m, regOf);
        ParamsBound(m, regOf, regUsed, stackSize, call.regs, actuals);
        RunShown(w, f, bs, m', fr, base, own, actuals, call, callStack, n);
      }
    }
    CallIs(w, f, bs, m', fr, base, actuals, call, callStack, n);
  }

  lemma CallIs(w: World, f: Func, bs: seq<Byte>, m: MFunc, fr: Frame, base: nat, actuals: seq<Int64>, call: Cpu, callStack: Stack, n: nat)
    requires AllEmittable(m)
    requires Callable(call, callStack, fr) ==> AllRegs(call.regs) && CallRoom(call.regs, fr)
    requires Callable(call, callStack, fr) && Passed(actuals, call.regs) && !Run(w, f, actuals, n + 1).Faulted? ==>
               BytesShow(bs, m, fr, base, call, callStack, n, Run(w, f, actuals, n))
    ensures CallRealizes(w, f, bs, m, fr, base, actuals, call, callStack, n)
  {
    hide Callable, AllEmittable, Run, BytesShow, AllRegs, CallRoom, Passed;
  }

  lemma FinalParams(m: MFunc, regOf: seq<nat>)
    ensures BackEnd.Final(m, regOf).params == RenameFunc(m, regOf).params
  {
    hide Sweeps, RenameFunc;
  }

  lemma RealizeIs(f: Func, bs: seq<Byte>, m: MFunc, fr: Frame, base: nat)
    requires AllEmittable(m)
    requires forall w: World, actuals, call: Cpu, callStack, n: nat :: CallRealizes(w, f, bs, m, fr, base, actuals, call, callStack, n)
    ensures BytesRealize(f, bs, m, fr, base)
  {
    hide AllEmittable, CallRealizes;
  }

  ghost predicate Faultless(w: World, f: Func, actuals: seq<Int64>) {
    forall n: nat :: !Run(w, f, actuals, n).Faulted?
  }

  ghost predicate Ends(w: World, f: Func, actuals: seq<Int64>) {
    exists n: nat :: Run(w, f, actuals, n).Finished?
  }

  ghost predicate GetsBack(bs: seq<Byte>, s: Status) {
    exists k: nat :: RunBytes(bs, s, k).Left?
  }

  /** Whatever the arguments with which the function does not fault: the bytes return to the caller
      if and only if the function ends. */
  lemma ReturnsExactly(w: World, f: Func, bs: seq<Byte>, m: MFunc, fr: Frame, base: nat, actuals: seq<Int64>, call: Cpu, callStack: Stack)
    requires AllEmittable(m) && BytesRealize(f, bs, m, fr, base)
    requires Callable(call, callStack, fr) && Passed(actuals, call.regs) && Faultless(w, f, actuals)
    ensures Ends(w, f, actuals) <==> GetsBack(bs, Executing(base, call, callStack))
  {
    var s := Executing(base, call, callStack);
    if Ends(w, f, actuals) {
      var n: nat :| Run(w, f, actuals, n).Finished?;
      ShownAt(w, f, bs, m, fr, base, actuals, call, callStack, n);
      BackLeaves(bs, base, call, callStack, Run(w, f, actuals, n).value);
    }
    if GetsBack(bs, s) {
      var k: nat :| RunBytes(bs, s, k).Left?;
      ShownAt(w, f, bs, m, fr, base, actuals, call, callStack, k);
      hide AllEmittable, Run, Passed, AllRegs, CallRoom, RunBytes, After, LabelsOf, ComesBack, BytesRealize, FrameStack;
      if Run(w, f, actuals, k).Running? {
        var env :| Jumps(bs, m, fr, base, s, k, Run(w, f, actuals, k).block, env, FrameStack(fr, call.regs, callStack));
        StillRunning(bs, m, fr, base, s, k, Run(w, f, actuals, k).block, env, FrameStack(fr, call.regs, callStack));
      }
    }
  }

  lemma ShownAt(w: World, f: Func, bs: seq<Byte>, m: MFunc, fr: Frame, base: nat, actuals: seq<Int64>, call: Cpu, callStack: Stack, n: nat)
    requires AllEmittable(m) && BytesRealize(f, bs, m, fr, base)
    requires Callable(call, callStack, fr) && Passed(actuals, call.regs) && Faultless(w, f, actuals)
    ensures BytesShow(bs, m, fr, base, call, callStack, n, Run(w, f, actuals, n))
  {
    hide AllEmittable, Run, Passed, AllRegs, CallRoom, BytesShow, Callable;
    assert CallRealizes(w, f, bs, m, fr, base, actuals, call, callStack, n);
  }

  lemma BackLeaves(bs: seq<Byte>, base: nat, call: Cpu, callStack: Stack, x: Option<Int64>)
    requires AllRegs(call.regs) && ComesBack(bs, base, call, callStack, x)
    ensures GetsBack(bs, Executing(base, call, callStack))
  {
    hide AllRegs, RunBytes;
  }

  lemma StillRunning(bs: seq<Byte>, m: MFunc, fr: Frame, base: nat, s: Status, k: nat, b: Label, env: Env, stack: Stack)
    requires AllEmittable(m) && b < |m.blocks| && Jumps(bs, m, fr, base, s, k, b, env, stack)
    ensures RunBytes(bs, s, k).Executing?
  {
    hide AllEmittable, LabelsOf, After, RunBytes;
    var flags :| After(bs, s, k, Executing(LabelsOf(m, fr, base)[b], Cpu(env, flags), stack));
    NeverLeaves(bs, s, k, LabelsOf(m, fr, base)[b], Cpu(env, flags), stack);
  }

  // ---- The driver ----

  /** src/regalloc.c:267-289. */
  method ApplyAllocation(mf: MachFunc, regOf: seq<nat>)
    modifies mf
    ensures mf.blocks == RenameFunc(old(mf.Value()), regOf).blocks
  {
    hide RenameInst;
    ghost var before := mf.blocks;
    ghost var after := RenameFunc(mf.Value(), regOf).blocks;
    for b := 0 to |mf.blocks|
      invariant |mf.blocks| == |before| && forall c :: 0 <= c < |before| ==> mf.blocks[c] == if c < b then after[c] else before[c]
    {
      var mb := mf.blocks[b];
      for i := 0 to |mb|
        invariant |mb| == |before[b]| && forall j :: 0 <= j < |mb| ==> mb[j] == if j < i then RenameInst(before[b][j], regOf) else before[b][j]
      {
        mb := mb[i := RenameInst(mb[i], regOf)];
      }
      assert mb == after[b];
      mf.blocks := mf.blocks[b := mb];
    }
    assert mf.blocks == after;
  }

  /** The conditions under which a function is compiled right, as far as they are seen on its
      selected code and its allocation. */
  ghost predicate Good(f: Func, m: MFunc, t: Table, regOf: seq<nat>) {
    Selectable(f) && PlainCode(m) && IsTable(m, t) && LoopsCovered(m, t) && Unspilled(m, regOf)
  }

  /** One function through the back end: when nothing was spilled and the intervals span its loops,
      the bytes appended realize it. */
  method CompileFunction(f: Func, em: Emitter) returns (emitted: bool, fr: Frame, ghost m: MFunc, ghost t: Table, ghost regOf: seq<nat>)
    requires (forall p :: p in f.params ==> p < f.nextVreg) && (forall p, q :: 0 <= p < q < |f.params| ==> f.params[p] != f.params[q])
    modifies em
    ensures IsSelection(f, m) && IsTable(m, t) && |regOf| == m.nextVreg && (emitted <==> AllEmittable(BackEnd.Final(m, regOf)))
    ensures !emitted ==> em.code == old(em.code)
    ensures Good(f, m, t, regOf) ==> emitted
    ensures Good(f, m, t, regOf) && |f.params| <= 6 && fr.stackSize < 0x8000_0000 && ShortCode(FuncItems(BackEnd.Final(m, regOf), fr), |old(em.code)|) ==>
              BytesRealize(f, em.code, BackEnd.Final(m, regOf), fr, |old(em.code)|)
  {
    hide *;
    ghost var pre := em.code;
    var mf := IselSelect(f);
    m := mf.Value();
    ValueIs(mf);
    SelectedHeader(f, m);
    var regs, slotOf, slots, stackSize, regUsed;
    regs, slotOf, slots, stackSize, regUsed := LinearScanAllocate(MFunc(mf.blocks, mf.nextVreg, mf.params));
    regOf := regs;
    t :| Allocated(m, t, regOf, slotOf);
    AllocatedIs(m, t, regOf, slotOf);
    ApplyAllocation(mf, regs);
    PeepholeRun(mf);
    var code := MFunc(mf.blocks, mf.nextVreg, RenameAll(mf.params, regs));
    FinalIs(m, regOf);
    UsedSize(regs, regUsed);
    fr := FrameOf(mf.params, regs, regUsed, stackSize);
    FrameSizeIs(mf.params, regs, regUsed, stackSize);
    emitted := AllEmittable(code);
    if emitted {
      em.EmitFunc(code, fr);
      assert em.code == pre + Assemble(FuncItems(code, fr), |pre|, LabelsOf(code, fr, |pre|), true) + [];
    }
    if Good(f, m, t, regOf) {
      GoodFine(f, m, t, regOf);
      if |f.params| <= 6 && stackSize < 0x8000_0000 {
        PreparedAs(f, m, t, regOf, regUsed, stackSize);
        BytesCorrect(f, m, t, regOf, regUsed, stackSize, pre, []);
      }
    }
  }

  lemma ValueIs(mf: MachFunc)
    ensures mf.Value() == MFunc(mf.blocks, mf.nextVreg, mf.params)
  {
  }

  lemma SelectedHeader(f: Func, m: MFunc)
    requires IsSelection(f, m)
    ensures m.nextVreg == f.nextVreg && m.params == f.params
  {
    hide AllCollected, LowerAll, PlaceUpTo;
  }

  lemma AllocatedIs(m: MFunc, t: Table, regOf: seq<nat>, slotOf: seq<int>)
    requires Allocated(m, t, regOf, slotOf)
    ensures IsTable(m, t) && BookedApart(m, t, regOf)
  {
    hide IsTable, BookedApart;
  }

  lemma FinalIs(m: MFunc, regOf: seq<nat>)
    ensures BackEnd.Final(m, regOf) == MFunc(Sweeps(RenameFunc(m, regOf).blocks, 5), m.nextVreg, RenameAll(m.params, regOf))
  {
    hide Sweeps, RenameBlock;
  }

  lemma UsedSize(regOf: seq<nat>, regUsed: seq<bool>)
    requires UsedRight(regOf, regUsed)
    ensures |regUsed| == REG_COUNT
  {
  }

  lemma FrameSizeIs(params: seq<nat>, regOf: seq<nat>, regUsed: seq<bool>, stackSize: nat)
    requires |regUsed| == REG_COUNT
    ensures FrameOf(params, regOf, regUsed, stackSize).stackSize == stackSize
  {
    hide ParamCopies, SavedUpTo;
  }

  lemma GoodFine(f: Func, m: MFunc, t: Table, regOf: seq<nat>)
    requires Good(f, m, t, regOf) && IsSelection(f, m) && BookedApart(m, t, regOf) && Spared(regOf)
    ensures Selectable(f) && PlainCode(m) && IsTable(m, t) && LoopsCovered(m, t) && Assigns(m, t, regOf)
    ensures AllEmittable(BackEnd.Final(m, regOf))
  {
    hide *;
    GoodIs(f, m, t, regOf);
    AssignedFromScan(m, t, regOf);
    FinalFine(f, m, t, regOf);
    FineEmittable(BackEnd.Final(m, regOf), Given(regOf));
  }

  lemma GoodIs(f: Func, m: MFunc, t: Table, regOf: seq<nat>)
    requires Good(f, m, t, regOf)
    ensures Selectable(f) && PlainCode(m) && IsTable(m, t) && LoopsCovered(m, t) && Unspilled(m, regOf)
  {
    hide Selectable, PlainCode, IsTable, LoopsCovered, Unspilled;
  }

  lemma PreparedAs(f: Func, m: MFunc, t: Table, regOf: seq<nat>, regUsed: seq<bool>, stackSize: nat)
    requires Selectable(f) && IsSelection(f, m) && |f.params| <= 6
    requires PlainCode(m) && IsTable(m, t) && Assigns(m, t, regOf) && LoopsCovered(m, t)
    requires ParamsApart(m.params, regOf, First6(m.params)) && Spared(regOf) && UsedRight(regOf, regUsed) && stackSize < 0x8000_0000
    ensures Prepared(f, m, t, regOf, regUsed, stackSize)
  {
    hide Selectable, IsSelection, PlainCode, IsTable, Assigns, LoopsCovered, ParamsApart, Spared, UsedRight;
  }
}
