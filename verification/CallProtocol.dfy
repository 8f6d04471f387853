/** Calling the bytes of a function: the prologue, its blocks, the epilogue, and what the caller
    finds when they return (src/emit.c:736-802, 1290-1345). */
module CallProtocol {
  import opened Wrappers
  import opened Word64
  import opened Ssa
  import opened Mach
  import opened LinearScan
  import opened Isel
  import opened ParallelCopy
  import opened Peephole
  import opened X86
  import opened Expand
  import opened Emit
  import opened Disassembly
  import opened Processor
  import opened LoadedCode
  import opened CodeRuns
  import opened Frames

  // ---- The frame ----

  /** The frame fits code that writes the registers `own`: it saves those of them a caller keeps
      its values in, and the code leaves the stack and base pointer alone. */
  ghost predicate FrameFits(fr: Frame, own: set<nat>) {
    && fr.stackSize < 0x8000_0000
    && (forall i :: 0 <= i < |fr.saved| ==> Preserved(fr.saved[i]))
    && (forall r: nat :: r in own && Preserved(r) ==> exists i :: 0 <= i < |fr.saved| && fr.saved[i] == r)
    && RSP as nat !in own && RBP as nat !in own
    && (forall i :: 0 <= i < |fr.paramMoves| ==> fr.paramMoves[i].0 as nat in own)
  }

  /** Below this the saved registers are pushed. */
  function SaveTop(sp: int, fr: Frame): int {
    sp - 8 - fr.stackSize
  }

  /** The stack pointer has room below it. */
  ghost predicate CallRoom(regs: Env, fr: Frame)
    requires AllRegs(regs)
  {
    MIN_INT64 <= SaveTop(regs[RSP], fr) - 8 * |fr.saved|
  }

  /** The registers behind the pushes. */
  function Entered(regs: Env, fr: Frame): Env
    requires AllRegs(regs) && CallRoom(regs, fr)
  {
    regs[RBP := regs[RSP] - 8][RSP := SaveTop(regs[RSP], fr) - 8 * |fr.saved|]
  }

  /** The frame stands: `call` and `callStack` are what the function was called with. */
  ghost predicate Framed(fr: Frame, call: Env, callStack: Stack, regs: Env, stack: Stack)
    requires AllRegs(call) && AllRegs(regs)
  {
    var sp := call[RSP];
    && regs[RSP] == SaveTop(sp, fr) - 8 * |fr.saved| && regs[RBP] == sp - 8
    && sp - 8 in stack && stack[sp - 8] == call[RBP]
    && OnStack(stack, SaveTop(sp, fr), call, fr.saved, |fr.saved|)
    && SameAbove(callStack, stack, sp)
  }

  // ---- The moves of the parameters ----

  function AfterMoves(ms: seq<(Reg, Reg)>, regs: Env): Env
    requires AllRegs(regs)
  {
    if ms == [] then regs else AfterMoves(ms[1..], regs[ms[0].0 := regs[ms[0].1]])
  }

  lemma {:induction false} MovesRun(ms: seq<(Reg, Reg)>, regs: Env, flags: Flags)
    requires AllRegs(regs)
    ensures RunX(ParamMoves(ms), Cpu(regs, flags)) == Cpu(AfterMoves(ms, regs), flags)
    ensures AllRegs(AfterMoves(ms, regs))
  {
    if ms != [] {
      assert ParamMoves(ms)[1..] == ParamMoves(ms[1..]);
      MovesRun(ms[1..], regs[ms[0].0 := regs[ms[0].1]], flags);
    } else {
      assert ParamMoves(ms) == [];
    }
  }

  lemma {:induction false} MovesAgree(ms: seq<(Reg, Reg)>, regs: Env, own: set<nat>)
    requires AllRegs(regs) && forall i :: 0 <= i < |ms| ==> ms[i].0 as nat in own
    ensures AllRegs(AfterMoves(ms, regs)) && Agree(regs, AfterMoves(ms, regs), own)
  {
    if ms != [] {
      var next := regs[ms[0].0 := regs[ms[0].1]];
      MovesAgree(ms[1..], next, own);
      AgreeOn(regs, next, AfterMoves(ms[1..], next), own);
    }
  }

  lemma {:induction false} MovesAppend(ms: seq<(Reg, Reg)>, last: (Reg, Reg), regs: Env)
    requires AllRegs(regs)
    ensures AllRegs(AfterMoves(ms, regs))
    ensures AfterMoves(ms + [last], regs) == AfterMoves(ms, regs)[last.0 := AfterMoves(ms, regs)[last.1]]
  {
    if ms == [] {
      assert (ms + [last])[1..] == [];
    } else {
      assert (ms + [last])[1..] == ms[1..] + [last];
      MovesAppend(ms[1..], last, regs[ms[0].0 := regs[ms[0].1]]);
    }
  }

  /** One move after the other. */
  lemma {:induction false} MovesInSequence(cs: seq<PhiCopy>, regs: Env)
    requires InRange(cs) && AllRegs(regs)
    ensures AllRegs(AfterMoves(Pairs(cs), regs)) && AfterMoves(Pairs(cs), regs) == InSequence(cs, regs)
  {
    if cs != [] {
      var init, c := cs[..|cs| - 1], cs[|cs| - 1];
      MovesInSequence(init, regs);
      assert Pairs(cs) == Pairs(init) + [(c.dst as Reg, c.src as Reg)];
      MovesAppend(Pairs(init), (c.dst, c.src), regs);
    }
  }

  // ---- The prologue ----

  /** The old base pointer is pushed and the new one set. */
  lemma EnterRuns(bs: seq<Byte>, items: seq<Item>, base: nat, labels: seq<nat>, k: nat, cpu: Cpu, stack: Stack)
    requires Loaded(bs, items, base, labels) && Sits(items, k, Codes([Push(RBP), MovRR(RBP, RSP)])) && AllRegs(cpu.regs)
    requires cpu.regs[RSP] - 8 >= MIN_INT64
    ensures k + 2 <= |items|
    ensures var sp := cpu.regs[RSP] - 8;
            After(bs, AtItem(items, base, k, cpu, stack), 0,
                  AtItem(items, base, k + 2, Cpu(cpu.regs[RSP := sp][RBP := sp], cpu.flags), Store(stack, sp, cpu.regs[RBP])))
  {
    hide *;
    HasSp(cpu.regs);
    EnterItems(items, k);
    var sp := cpu.regs[RSP] - 8;
    HasBp(cpu, sp);
    PushStep(bs, items, base, labels, k, RBP, cpu, stack);
    var mid, mem := cpu.(regs := cpu.regs[RSP := sp]), Store(stack, sp, cpu.regs[RBP]);
    CodeStep(bs, items, base, labels, k + 1, MovRR(RBP, RSP), mid, mem);
    MoveExecutes(items, base, k + 2, mid, mem);
    var s' := AtItem(items, base, k + 2, Cpu(cpu.regs[RSP := sp][RBP := sp], cpu.flags), mem);
    Then(bs, AtItem(items, base, k, cpu, stack), 1, AtItem(items, base, k + 1, mid, mem), 1, s');
    Fewer(bs, AtItem(items, base, k, cpu, stack), 2, 0, s');
  }

  lemma HasBp(cpu: Cpu, sp: Int64)
    requires AllRegs(cpu.regs)
    ensures RBP in cpu.regs && AllRegs(cpu.regs[RSP := sp]) && cpu.regs[RSP := sp][RSP] == sp
  {
  }

  lemma EnterItems(items: seq<Item>, k: nat)
    requires Sits(items, k, Codes([Push(RBP), MovRR(RBP, RSP)]))
    ensures k + 2 <= |items| && items[k] == Code(Push(RBP)) && items[k + 1] == Code(MovRR(RBP, RSP))
  {
    SitsAt(items, k, Codes([Push(RBP), MovRR(RBP, RSP)]), 0);
    SitsAt(items, k, Codes([Push(RBP), MovRR(RBP, RSP)]), 1);
  }

  lemma MoveExecutes(items: seq<Item>, base: nat, k: nat, cpu: Cpu, stack: Stack)
    requires AllRegs(cpu.regs) && k <= |items|
    ensures Execute(MovRR(RBP, RSP), OffsetOf(items, base, k), cpu, stack)
              == AtItem(items, base, k, Cpu(cpu.regs[RBP := cpu.regs[RSP]], cpu.flags), stack)
  {
    hide OffsetOf;
  }

  /** The stack pointer goes down by the size of the frame. */
  lemma RoomMade(size: nat, regs: Env, flags: Flags)
    requires AllRegs(regs) && size < 0x8000_0000 && regs[RSP] - size >= MIN_INT64
    ensures AllSimple(MakeRoom(size)) && AllRegs(RunX(MakeRoom(size), Cpu(regs, flags)).regs)
    ensures RunX(MakeRoom(size), Cpu(regs, flags)).regs == regs[RSP := regs[RSP] - size]
  {
    if size == 0 {
      assert regs[RSP := regs[RSP] - size] == regs;
    } else {
      assert Truncate32(size) == size;
      RunOne(MakeRoom(size)[0], Cpu(regs, flags));
    }
  }

  /** The registers before the pushes. */
  function Based(regs: Env, fr: Frame): Env
    requires AllRegs(regs) && CallRoom(regs, fr)
  {
    regs[RSP := regs[RSP] - 8][RBP := regs[RSP] - 8][RSP := SaveTop(regs[RSP], fr)]
  }

  lemma BasedIs(fr: Frame, regs: Env)
    requires AllRegs(regs) && CallRoom(regs, fr)
    ensures AllRegs(Based(regs, fr)) && AllRegs(Entered(regs, fr)) && Based(regs, fr)[RSP] == SaveTop(regs[RSP], fr)
    ensures Based(regs, fr)[RSP := SaveTop(regs[RSP], fr) - 8 * |fr.saved|] == Entered(regs, fr)
    ensures MIN_INT64 <= SaveTop(regs[RSP], fr) - 8 * |fr.saved| <= SaveTop(regs[RSP], fr) <= regs[RSP] - 8
  {
  }

  ghost predicate SavedOthers(fr: Frame) {
    forall i :: 0 <= i < |fr.saved| ==> fr.saved[i] != RSP && fr.saved[i] != RBP && fr.saved[i] != RAX
  }

  lemma FitsSaved(fr: Frame, own: set<nat>)
    requires FrameFits(fr, own)
    ensures SavedOthers(fr) && fr.stackSize < 0x8000_0000
  {
    HwRange(3);
    HwRange(12);
    HwRange(15);
  }

  /** The stack behind the prologue. */
  function FrameStack(fr: Frame, regs: Env, stack: Stack): Stack
    requires AllRegs(regs) && CallRoom(regs, fr)
  {
    BasedIs(fr, regs);
    Pushed(Store(stack, regs[RSP] - 8, regs[RBP]), SaveTop(regs[RSP], fr), Based(regs, fr), fr.saved, |fr.saved|)
  }

  lemma FrameBuilt(fr: Frame, regs: Env, stack: Stack)
    requires AllRegs(regs) && CallRoom(regs, fr) && SavedOthers(fr)
    ensures AllRegs(Entered(regs, fr)) && Framed(fr, regs, stack, Entered(regs, fr), FrameStack(fr, regs, stack))
  {
    hide *;
    BasedIs(fr, regs);
    StackBuilt(fr, regs, stack);
    EnteredFrame(fr, regs, stack);
  }

  lemma EnteredFrame(fr: Frame, regs: Env, stack: Stack)
    requires AllRegs(regs) && CallRoom(regs, fr) && AllRegs(Entered(regs, fr))
    requires var stack' := FrameStack(fr, regs, stack);
             && regs[RSP] - 8 in stack' && stack'[regs[RSP] - 8] == regs[RBP]
             && OnStack(stack', SaveTop(regs[RSP], fr), regs, fr.saved, |fr.saved|) && SameAbove(stack, stack', regs[RSP])
    ensures Framed(fr, regs, stack, Entered(regs, fr), FrameStack(fr, regs, stack))
  {
    hide FrameStack, OnStack, SameAbove;
  }

  lemma StackBuilt(fr: Frame, regs: Env, stack: Stack)
    requires AllRegs(regs) && CallRoom(regs, fr) && SavedOthers(fr)
    ensures var stack' := FrameStack(fr, regs, stack);
            && regs[RSP] - 8 in stack' && stack'[regs[RSP] - 8] == regs[RBP]
            && OnStack(stack', SaveTop(regs[RSP], fr), regs, fr.saved, |fr.saved|) && SameAbove(stack, stack', regs[RSP])
  {
    var sp := regs[RSP];
    var first := Store(stack, sp - 8, regs[RBP]);
    BasedIs(fr, regs);
    PushedHolds(first, SaveTop(sp, fr), Based(regs, fr), fr.saved, |fr.saved|);
    assert SameAbove(stack, first, sp);
    hide AllRegs, Pushed;
  }

  lemma PrologueSits(items: seq<Item>, k: nat, fr: Frame)
    requires Sits(items, k, Codes(PrologueCode(fr)))
    ensures var a, b := [Push(RBP), MovRR(RBP, RSP)], MakeRoom(fr.stackSize);
            var c, d := Pushes(fr.saved), ParamMoves(fr.paramMoves);
            && Sits(items, k, Codes(a)) && Sits(items, k + 2, Codes(b)) && Sits(items, k + 2 + |b|, Codes(c))
            && Sits(items, k + 2 + |b| + |c|, Codes(d))
            && k + 2 + |b| + |c| + |d| == k + |PrologueCode(fr)| <= |items|
  {
    var a, b := [Push(RBP), MovRR(RBP, RSP)], MakeRoom(fr.stackSize);
    var c, d := Pushes(fr.saved), ParamMoves(fr.paramMoves);
    hide MakeRoom, Pushes, ParamMoves;
    assert Codes(a + b + c + d) == (Codes(a) + Codes(b) + Codes(c)) + Codes(d);
    hide *;
    CodesSize(a);
    CodesSize(b);
    CodesSize(c);
    CodesSize(d);
    PrologueIs(fr);
    SitsTwo(items, k, Codes(a) + Codes(b) + Codes(c), Codes(d));
    SitsInside(items, k, Codes(a), Codes(b), Codes(c));
    SitsFits(items, k + 2 + |b| + |c|, d);
  }

  lemma PrologueIs(fr: Frame)
    ensures PrologueCode(fr) == [Push(RBP), MovRR(RBP, RSP)] + MakeRoom(fr.stackSize) + Pushes(fr.saved) + ParamMoves(fr.paramMoves)
  {
  }

  /** The prologue sets up the frame and brings the parameters to their registers. */
  lemma PrologueRuns(bs: seq<Byte>, items: seq<Item>, base: nat, labels: seq<nat>, k: nat, fr: Frame, cpu: Cpu, stack: Stack) returns (flags: Flags)
    requires Loaded(bs, items, base, labels) && Sits(items, k, Codes(PrologueCode(fr))) && AllRegs(cpu.regs)
    requires CallRoom(cpu.regs, fr) && SavedOthers(fr) && fr.stackSize < 0x8000_0000
    ensures AllRegs(Entered(cpu.regs, fr)) && k + |PrologueCode(fr)| <= |items|
    ensures After(bs, AtItem(items, base, k, cpu, stack), 0,
                  AtItem(items, base, k + |PrologueCode(fr)|, Cpu(AfterMoves(fr.paramMoves, Entered(cpu.regs, fr)), flags), FrameStack(fr, cpu.regs, stack)))
  {
    hide *;
    var b, c := MakeRoom(fr.stackSize), Pushes(fr.saved);
    var regs := cpu.regs;
    HasSp(regs);
    BasedIs(fr, regs);
    SaveTopIs(fr, regs);
    PrologueSits(items, k, fr);
    var sp := regs[RSP] - 8;
    HasBp(cpu, sp);
    WithBp(regs, sp);
    EnterRuns(bs, items, base, labels, k, cpu, stack);
    var first, low := Store(stack, sp, regs[RBP]), regs[RSP := sp][RBP := sp];
    RoomMade(fr.stackSize, low, cpu.flags);
    CodesRun(bs, items, base, labels, k + 2, b, Cpu(low, cpu.flags), first);
    flags := RunX(b, Cpu(low, cpu.flags)).flags;
    BasedFrom(fr, regs);
    PushesMade(fr, regs, flags, stack);
    PushCount(fr.saved);
    PushesRun(bs, items, base, labels, k + 2 + |b|, fr.saved, |fr.saved|, Cpu(Based(regs, fr), flags), first);
    LoweredIs(Cpu(Based(regs, fr), flags), SaveTop(regs[RSP], fr) - 8 * |fr.saved|);
    MovesRun(fr.paramMoves, Entered(regs, fr), flags);
    MovesSimple(fr.paramMoves);
    CodesRun(bs, items, base, labels, k + 2 + |b| + |c|, ParamMoves(fr.paramMoves), Cpu(Entered(regs, fr), flags), FrameStack(fr, regs, stack));
    var s0, s1 := AtItem(items, base, k, cpu, stack), AtItem(items, base, k + 2, Cpu(low, cpu.flags), first);
    var s2 := AtItem(items, base, k + 2 + |b|, Cpu(Based(regs, fr), flags), first);
    var s3 := AtItem(items, base, k + 2 + |b| + |c|, Cpu(Entered(regs, fr), flags), FrameStack(fr, regs, stack));
    var s4 := AtItem(items, base, k + |PrologueCode(fr)|, Cpu(AfterMoves(fr.paramMoves, Entered(regs, fr)), flags), FrameStack(fr, regs, stack));
    Then(bs, s0, 0, s1, 0, s2);
    Then(bs, s0, 0, s2, 0, s3);
    Then(bs, s0, 0, s3, 0, s4);
  }

  lemma WithBp(regs: Env, sp: Int64)
    requires AllRegs(regs)
    ensures AllRegs(regs[RSP := sp][RBP := sp]) && regs[RSP := sp][RBP := sp][RSP] == sp
  {
  }

  lemma SaveTopIs(fr: Frame, regs: Env)
    requires AllRegs(regs)
    ensures SaveTop(regs[RSP], fr) == regs[RSP] - 8 - fr.stackSize
  {
  }

  lemma BasedFrom(fr: Frame, regs: Env)
    requires AllRegs(regs) && CallRoom(regs, fr)
    ensures Based(regs, fr) == regs[RSP := regs[RSP] - 8][RBP := regs[RSP] - 8][RSP := SaveTop(regs[RSP], fr)]
  {
  }

  lemma PushesMade(fr: Frame, regs: Env, flags: Flags, stack: Stack)
    requires AllRegs(regs) && CallRoom(regs, fr) && SavedOthers(fr)
    ensures AllRegs(Based(regs, fr)) && Room(Based(regs, fr)[RSP], fr.saved)
    ensures FrameStack(fr, regs, stack) == Pushed(Store(stack, regs[RSP] - 8, regs[RBP]), SaveTop(regs[RSP], fr), Based(regs, fr), fr.saved, |fr.saved|)
  {
    BasedIs(fr, regs);
    hide Pushed;
  }

  lemma PushCount(rs: seq<Reg>)
    ensures |Pushes(rs)| == |rs|
  {
  }

  lemma MovesSimple(ms: seq<(Reg, Reg)>)
    ensures AllSimple(ParamMoves(ms))
  {
  }

  // ---- The epilogue ----

  lemma EpilogueSits(items: seq<Item>, k: nat, fr: Frame)
    requires Sits(items, k, Codes(EpilogueCode(fr)))
    ensures var n := |fr.saved|;
            && Sits(items, k, Codes(Pops(fr.saved))) && k + n + 3 <= |items|
            && items[k + n] == Code(MovRR(RSP, RBP)) && items[k + n + 1] == Code(Pop(RBP)) && items[k + n + 2] == Code(RetNear)
  {
    var a, b := Pops(fr.saved), [MovRR(RSP, RBP), Pop(RBP), RetNear];
    hide Pops;
    assert |a| == |fr.saved| by {
      PopCount(fr.saved);
    }
    assert Codes(a + b) == Codes(a) + Codes(b);
    SitsTwo(items, k, Codes(a), Codes(b));
    SitsAt(items, k + |a|, Codes(b), 0);
    SitsAt(items, k + |a|, Codes(b), 1);
    SitsAt(items, k + |a|, Codes(b), 2);
  }

  lemma PopCount(rs: seq<Reg>)
    ensures |Pops(rs)| == |rs|
  {
  }

  /** The registers after the epilogue. */
  function Unwound(fr: Frame, call: Env, regs: Env): Env
    requires AllRegs(call) && AllRegs(regs)
  {
    Restored(regs, call, fr.saved, |fr.saved|)[RBP := call[RBP]][RSP := Above(call[RSP])]
  }

  lemma UnwoundIs(fr: Frame, call: Env, regs: Env)
    requires AllRegs(call) && AllRegs(regs) && SavedOthers(fr)
    ensures var out := Unwound(fr, call, regs);
            && AllRegs(out) && out[RSP] == Above(call[RSP]) && out[RBP] == call[RBP]
            && (forall r: nat :: r < REG_COUNT && r != RSP && r != RBP ==> out[r] == if r in fr.saved then call[r] else regs[r])
  {
    var rs := fr.saved;
    RestoredIs(regs, call, rs, |rs|);
    assert rs[|rs| - |rs|..] == rs;
    hide Above, Restored;
  }

  lemma PopsDone(fr: Frame, call: Env, regs: Env, sp: Int64, top: Int64)
    requires AllRegs(call) && AllRegs(regs) && SavedOthers(fr)
    ensures var popped := Restored(regs, call, fr.saved, |fr.saved|)[RSP := top];
            AllRegs(popped) && popped[RBP] == regs[RBP] && popped[RSP] == top
    ensures Restored(regs, call, fr.saved, |fr.saved|)[RSP := top][RSP := sp][RSP := Above(sp)][RBP := call[RBP]][RSP := Above(call[RSP])] == Unwound(fr, call, regs)
  {
    var rs := fr.saved;
    RestoredIs(regs, call, rs, |rs|);
    assert RBP !in rs[|rs| - |rs|..];
    hide Above, Restored;
  }

  lemma BackExecutes(items: seq<Item>, base: nat, k: nat, cpu: Cpu, stack: Stack)
    requires AllRegs(cpu.regs) && k <= |items|
    ensures Execute(MovRR(RSP, RBP), OffsetOf(items, base, k), cpu, stack)
              == AtItem(items, base, k, Cpu(cpu.regs[RSP := cpu.regs[RBP]], cpu.flags), stack)
  {
    hide OffsetOf;
  }

  lemma FramedIs(fr: Frame, call: Env, callStack: Stack, regs: Env, stack: Stack)
    requires AllRegs(call) && AllRegs(regs) && Framed(fr, call, callStack, regs, stack) && SavedOthers(fr) && CallRoom(call, fr)
    requires call[RSP] in callStack
    ensures var sp, top := call[RSP], SaveTop(call[RSP], fr);
            && RSP in regs && RBP in regs && RBP in call && MIN_INT64 <= top <= MAX_INT64 && MIN_INT64 <= sp - 8
            && Room(top, fr.saved) && regs[RSP] == top - 8 * |fr.saved| && regs[RBP] == sp - 8 && OnStack(stack, top, call, fr.saved, |fr.saved|)
            && sp - 8 in stack && stack[sp - 8] == call[RBP] && Above(sp - 8) == sp && sp in stack && stack[sp] == callStack[sp]
  {
    hide OnStack;
  }

  /** The epilogue restores the saved registers and returns. */
  lemma EpilogueRuns(bs: seq<Byte>, items: seq<Item>, base: nat, labels: seq<nat>, k: nat, fr: Frame, call: Env, callStack: Stack, cpu: Cpu, stack: Stack)
    requires Loaded(bs, items, base, labels) && Sits(items, k, Codes(EpilogueCode(fr))) && k <= |items|
    requires AllRegs(call) && AllRegs(cpu.regs) && SavedOthers(fr) && CallRoom(call, fr) && call[RSP] in callStack
    requires Framed(fr, call, callStack, cpu.regs, stack)
    ensures After(bs, AtItem(items, base, k, cpu, stack), 0, Left(callStack[call[RSP]], Cpu(Unwound(fr, call, cpu.regs), cpu.flags), stack))
  {
    hide *;
    HasSp(call);
    var rs, sp, top := fr.saved, call[RSP], SaveTop(call[RSP], fr);
    EpilogueSits(items, k, fr);
    FramedIs(fr, call, callStack, cpu.regs, stack);
    PopsRun(bs, items, base, labels, k, rs, |rs|, top, call, cpu, stack);
    PopsDone(fr, call, cpu.regs, sp - 8, top);
    var e1: Env := Restored(cpu.regs, call, rs, |rs|)[RSP := top];
    var e2: Env := e1[RSP := sp - 8];
    WithSp(e1, sp - 8);
    CodeStep(bs, items, base, labels, k + |rs|, MovRR(RSP, RBP), Cpu(e1, cpu.flags), stack);
    BackExecutes(items, base, k + |rs| + 1, Cpu(e1, cpu.flags), stack);
    PopStep(bs, items, base, labels, k + |rs| + 1, RBP, Cpu(e2, cpu.flags), stack);
    var e3: Env := e2[RSP := Above(sp - 8)][RBP := call[RBP]];
    PoppedBp(e2, Above(sp - 8), call[RBP]);
    RetStep(bs, items, base, labels, k + |rs| + 2, Cpu(e3, cpu.flags), stack);
    var s0, s1 := AtItem(items, base, k, cpu, stack), AtItem(items, base, k + |rs|, Cpu(e1, cpu.flags), stack);
    var s2, s3 := AtItem(items, base, k + |rs| + 1, Cpu(e2, cpu.flags), stack), AtItem(items, base, k + |rs| + 2, Cpu(e3, cpu.flags), stack);
    var s4 := Left(callStack[sp], Cpu(Unwound(fr, call, cpu.regs), cpu.flags), stack);
    Then(bs, s0, 0, s1, 1, s2);
    Then(bs, s0, 1, s2, 1, s3);
    Then(bs, s0, 2, s3, 1, s4);
    Fewer(bs, s0, 3, 0, s4);
  }

  lemma PoppedBp(regs: Env, sp: Int64, bp: Int64)
    requires AllRegs(regs)
    ensures AllRegs(regs[RSP := sp][RBP := bp]) && regs[RSP := sp][RBP := bp][RSP] == sp
  {
  }

  // ---- A call ----

  /** What the caller finds when the function has returned `x`: the processor at the return
      address, the result in RAX, the stack pointer above the return address, RBX, RBP and R12 to
      R15 as they were, and the stack above unchanged. */
  ghost predicate Returned(call: Env, callStack: Stack, x: Option<Int64>, s: Status)
    requires AllRegs(call)
  {
    var sp := call[Hw(4)];
    && sp in callStack && s.Left? && s.to == callStack[sp] && AllRegs(s.cpu.regs)
    && (x.Some? ==> s.cpu.regs[Hw(0)] == x.value)
    && s.cpu.regs[Hw(4)] == Above(sp)
    && (forall r: nat :: Preserved(r) || r == Hw(5) ==> r in call && r in s.cpu.regs && s.cpu.regs[r] == call[r])
    && SameAbove(callStack, s.stack, sp)
  }

  /** The registers the blocks start with. */
  function Arranged(fr: Frame, call: Env): Env
    requires AllRegs(call) && CallRoom(call, fr)
  {
    BasedIs(fr, call);
    AfterMoves(fr.paramMoves, Entered(call, fr))
  }

  /** A call that came to the epilogue returns properly. */
  lemma UnwoundReturned(fr: Frame, own: set<nat>, call: Env, callStack: Stack, cpu: Cpu, stack: Stack, x: Option<Int64>)
    requires AllRegs(call) && CallRoom(call, fr) && FrameFits(fr, own) && call[RSP] in callStack && AllRegs(cpu.regs)
    requires AllRegs(Arranged(fr, call)) && Agree(Entered(call, fr), Arranged(fr, call), own) && HoldsResult(Arranged(fr, call), cpu, own, x)
    requires SameAbove(callStack, stack, call[RSP])
    ensures Returned(call, callStack, x, Left(callStack[call[RSP]], Cpu(Unwound(fr, call, cpu.regs), cpu.flags), stack))
  {
    FitsSaved(fr, own);
    UnwoundIs(fr, call, cpu.regs);
    HwNumbers();
    var out := Unwound(fr, call, cpu.regs);
    forall r: nat | Preserved(r) || r == Hw(5) ensures r in call && r in out && out[r] == call[r] {
      if r != RBP && r !in fr.saved {
        KeptThrough(fr, own, call, cpu, x, r);
      }
    }
    hide Unwound, Above, SameAbove, AllRegs, Hw, Agree, Arranged, FrameFits;
    assert RAX !in fr.saved;
  }

  lemma HwNumbers()
    ensures Hw(0) == RAX && Hw(4) == RSP && Hw(5) == RBP
    ensures forall r: nat :: Preserved(r) ==> r < REG_COUNT && r != RSP && r != RBP && r != RAX
  {
    HwRange(0);
    HwRange(3);
    HwRange(4);
    HwRange(5);
    HwRange(12);
    HwRange(15);
  }

  /** A register a caller relies on and the code does not write. */
  lemma KeptThrough(fr: Frame, own: set<nat>, call: Env, cpu: Cpu, x: Option<Int64>, r: nat)
    requires AllRegs(call) && CallRoom(call, fr) && FrameFits(fr, own) && AllRegs(cpu.regs)
    requires AllRegs(Arranged(fr, call)) && Agree(Entered(call, fr), Arranged(fr, call), own) && HoldsResult(Arranged(fr, call), cpu, own, x)
    requires Preserved(r) && r !in fr.saved
    ensures r in call && r in cpu.regs && cpu.regs[r] == call[r]
  {
    HwNumbers();
    assert r !in own;
    hide Preserved, FrameFits, Arranged, Hw;
    assert Arranged(fr, call)[r] == Entered(call, fr)[r] == call[r];
  }

  /** What the bytes of the whole function do when called, the machine having come to `r`. */
  ghost predicate Serves(bs: seq<Byte>, m: MFunc, fr: Frame, base: nat, call: Cpu, callStack: Stack, n: nat, r: MState)
    requires AllEmittable(m) && AllRegs(call.regs) && CallRoom(call.regs, fr)
  {
    match r
    case MFaulted => true
    case MRunning(b, env, _) =>
      b < |m.blocks| ==> Jumps(bs, m, fr, base, Executing(base, call, callStack), n, b, env, FrameStack(fr, call.regs, callStack))
    case MFinished(x, _) => ComesBack(bs, base, call, callStack, x)
  }

  ghost predicate ComesBack(bs: seq<Byte>, base: nat, call: Cpu, callStack: Stack, x: Option<Int64>)
    requires AllRegs(call.regs)
  {
    exists s :: After(bs, Executing(base, call, callStack), 0, s) && Returned(call.regs, callStack, x, s)
  }

  lemma StartSits(m: MFunc, fr: Frame, base: nat)
    requires AllEmittable(m) && m.blocks != []
    ensures Sits(FuncItems(m, fr), 0, Codes(PrologueCode(fr))) && |PrologueCode(fr)| <= |FuncItems(m, fr)|
    ensures OffsetOf(FuncItems(m, fr), base, 0) == base
    ensures OffsetOf(FuncItems(m, fr), base, |PrologueCode(fr)|) == LabelsOf(m, fr, base)[0]
  {
    hide PrologueCode, EpilogueCode, BlockItems;
    BeforePrefix(m, fr, 0, |m.blocks|);
    BlockStart(m, fr, base, 0);
    CodesSize(PrologueCode(fr));
    assert ItemsBefore(m, 0, fr) == Codes(PrologueCode(fr));
    assert FuncItems(m, fr)[..0] == [];
    hide LabelsOf, ItemsBefore, Codes;
  }

  /** The prologue leads to the first block. */
  lemma Enters(bs: seq<Byte>, m: MFunc, fr: Frame, base: nat, own: set<nat>, call: Cpu, callStack: Stack) returns (flags: Flags)
    requires Installed(bs, m, fr, base) && m.blocks != [] && FrameFits(fr, own) && AllRegs(call.regs) && CallRoom(call.regs, fr)
    ensures After(bs, Executing(base, call, callStack), 0,
                  Executing(LabelsOf(m, fr, base)[0], Cpu(Arranged(fr, call.regs), flags), FrameStack(fr, call.regs, callStack)))
  {
    hide *;
    IsInstalled(bs, m, fr, base);
    FitsSaved(fr, own);
    StartSits(m, fr, base);
    flags := PrologueRuns(bs, FuncItems(m, fr), base, LabelsOf(m, fr, base), 0, fr, call, callStack);
    ItemState(FuncItems(m, fr), base, 0, call, callStack);
    ItemState(FuncItems(m, fr), base, |PrologueCode(fr)|, Cpu(AfterMoves(fr.paramMoves, Entered(call.regs, fr)), flags), FrameStack(fr, call.regs, callStack));
    ArrangedIs(fr, call.regs);
  }

  lemma ItemState(items: seq<Item>, base: nat, k: nat, cpu: Cpu, stack: Stack)
    requires k <= |items|
    ensures AtItem(items, base, k, cpu, stack) == Executing(OffsetOf(items, base, k), cpu, stack)
  {
    hide OffsetOf;
  }

  lemma ArrangedIs(fr: Frame, call: Env)
    requires AllRegs(call) && CallRoom(call, fr)
    ensures AllRegs(Entered(call, fr)) && Arranged(fr, call) == AfterMoves(fr.paramMoves, Entered(call, fr))
  {
    BasedIs(fr, call);
    hide AfterMoves;
  }

  lemma ArrangedAgrees(fr: Frame, own: set<nat>, call: Env)
    requires AllRegs(call) && CallRoom(call, fr) && FrameFits(fr, own)
    ensures AllRegs(Entered(call, fr)) && AllRegs(Arranged(fr, call)) && Agree(Entered(call, fr), Arranged(fr, call), own)
  {
    BasedIs(fr, call);
    MovesAgree(fr.paramMoves, Entered(call, fr), own);
    hide AfterMoves, AllRegs, Agree, Entered;
  }

  /** The frame still stands at the epilogue. */
  lemma StillFramed(fr: Frame, own: set<nat>, call: Env, callStack: Stack, cpu: Cpu, stack: Stack, x: Option<Int64>)
    requires AllRegs(call) && CallRoom(call, fr) && FrameFits(fr, own) && AllRegs(cpu.regs) && AllRegs(Entered(call, fr)) && AllRegs(Arranged(fr, call))
    requires Agree(Entered(call, fr), Arranged(fr, call), own) && HoldsResult(Arranged(fr, call), cpu, own, x)
    requires Framed(fr, call, callStack, Entered(call, fr), stack)
    ensures Framed(fr, call, callStack, cpu.regs, stack)
  {
    hide Arranged, Preserved, OnStack, SameAbove, Entered;
    assert cpu.regs[RSP] == Arranged(fr, call)[RSP] == Entered(call, fr)[RSP];
    assert cpu.regs[RBP] == Arranged(fr, call)[RBP] == Entered(call, fr)[RBP];
  }

  /** From the epilogue back to the caller. */
  lemma Comes(bs: seq<Byte>, m: MFunc, fr: Frame, base: nat, own: set<nat>, call: Cpu, callStack: Stack, flags: Flags, x: Option<Int64>)
    requires Installed(bs, m, fr, base) && m.blocks != [] && FrameFits(fr, own) && AllRegs(call.regs) && CallRoom(call.regs, fr)
    requires call.regs[RSP] in callStack
    requires var s1 := Executing(LabelsOf(m, fr, base)[0], Cpu(Arranged(fr, call.regs), flags), FrameStack(fr, call.regs, callStack));
             && After(bs, Executing(base, call, callStack), 0, s1)
             && Leaves(bs, m, fr, base, own, s1, Arranged(fr, call.regs), x, FrameStack(fr, call.regs, callStack))
    ensures ComesBack(bs, base, call, callStack, x)
  {
    hide *;
    IsInstalled(bs, m, fr, base);
    FitsSaved(fr, own);
    ArrangedAgrees(fr, own, call.regs);
    HasSp(call.regs);
    FrameBuilt(fr, call.regs, callStack);
    var env, stack := Arranged(fr, call.regs), FrameStack(fr, call.regs, callStack);
    var s0, s1 := Executing(base, call, callStack), Executing(LabelsOf(m, fr, base)[0], Cpu(env, flags), stack);
    var k, cpu := EpilogueOf(bs, m, fr, base, own, s1, env, x, stack);
    StillFramed(fr, own, call.regs, callStack, cpu, stack, x);
    EpilogueRuns(bs, FuncItems(m, fr), base, LabelsOf(m, fr, base), k, fr, call.regs, callStack, cpu, stack);
    FramedAbove(fr, call.regs, callStack, cpu.regs, stack);
    UnwoundReturned(fr, own, call.regs, callStack, cpu, stack, x);
    var s' := Left(callStack[call.regs[RSP]], Cpu(Unwound(fr, call.regs, cpu.regs), cpu.flags), stack);
    Then(bs, s0, 0, s1, 0, AtItem(FuncItems(m, fr), base, k, cpu, stack));
    Then(bs, s0, 0, AtItem(FuncItems(m, fr), base, k, cpu, stack), 0, s');
    BackIs(bs, base, call, callStack, x, s');
  }

  lemma BackIs(bs: seq<Byte>, base: nat, call: Cpu, callStack: Stack, x: Option<Int64>, s: Status)
    requires AllRegs(call.regs) && After(bs, Executing(base, call, callStack), 0, s) && Returned(call.regs, callStack, x, s)
    ensures ComesBack(bs, base, call, callStack, x)
  {
    hide After, Returned, AllRegs;
  }

  lemma FramedAbove(fr: Frame, call: Env, callStack: Stack, regs: Env, stack: Stack)
    requires AllRegs(call) && AllRegs(regs) && Framed(fr, call, callStack, regs, stack)
    ensures SameAbove(callStack, stack, call[RSP])
  {
    hide OnStack, SameAbove;
  }

  lemma EpilogueOf(bs: seq<Byte>, m: MFunc, fr: Frame, base: nat, own: set<nat>, s: Status, env: Env, x: Option<Int64>, stack: Stack) returns (k: nat, cpu: Cpu)
    requires AllEmittable(m) && Leaves(bs, m, fr, base, own, s, env, x, stack)
    ensures AllRegs(env) && AllRegs(cpu.regs) && HoldsResult(env, cpu, own, x)
    ensures Sits(FuncItems(m, fr), k, Codes(EpilogueCode(fr))) && k <= |FuncItems(m, fr)|
    ensures After(bs, s, 0, AtItem(FuncItems(m, fr), base, k, cpu, stack))
  {
    hide AllEmittable, FuncItems, EpilogueCode, After, OffsetOf, AllRegs, Agree;
    cpu :| HoldsResult(env, cpu, own, x) && ReachesEpilogue(bs, m, fr, base, s, 0, cpu, stack);
    k :| Sits(FuncItems(m, fr), k, Codes(EpilogueCode(fr))) && After(bs, s, 0, AtItem(FuncItems(m, fr), base, k, cpu, stack));
  }

  /** The bytes of a function, called with any registers, do what the machine code does from the
      arranged ones: they pass through every block it passes through, with its registers, and when it
      returns they return to the caller. */
  lemma FunctionServes(w: World, bs: seq<Byte>, m: MFunc, fr: Frame, base: nat, own: set<nat>, call: Cpu, callStack: Stack, n: nat)
    requires Installed(bs, m, fr, base) && FineCode(m, own) && m.blocks != [] && FrameFits(fr, own)
    requires AllRegs(call.regs) && CallRoom(call.regs, fr) && call.regs[RSP] in callStack
    ensures Serves(bs, m, fr, base, call, callStack, n, RunFrom(w, m, Arranged(fr, call.regs), n))
  {
    hide *;
    IsInstalled(bs, m, fr, base);
    ArrangedAgrees(fr, own, call.regs);
    var flags := Enters(bs, m, fr, base, own, call, callStack);
    var env, stack := Arranged(fr, call.regs), FrameStack(fr, call.regs, callStack);
    var s0, s1 := Executing(base, call, callStack), Executing(LabelsOf(m, fr, base)[0], Cpu(env, flags), stack);
    BytesFollow(w, bs, m, fr, base, own, env, flags, stack, n);
    var r := RunFrom(w, m, env, n);
    if r.MFinished? {
      FollowsLeaves(bs, m, fr, base, own, s1, env, stack, n, r);
      Comes(bs, m, fr, base, own, call, callStack, flags, r.value);
    } else if r.MRunning? && r.block < |m.blocks| {
      FollowsJumps(bs, m, fr, base, own, s1, env, stack, n, r);
      JumpsLater(bs, m, fr, base, s0, 0, s1, n, r.block, r.env, stack);
    }
    ServesAs(bs, m, fr, base, call, callStack, n, r);
  }

  lemma FollowsLeaves(bs: seq<Byte>, m: MFunc, fr: Frame, base: nat, own: set<nat>, s: Status, env: Env, stack: Stack, n: nat, r: MState)
    requires AllEmittable(m) && Follows(bs, m, fr, base, own, s, env, stack, n, r) && r.MFinished?
    ensures Leaves(bs, m, fr, base, own, s, env, r.value, stack)
  {
    hide AllEmittable, Leaves;
  }

  lemma FollowsJumps(bs: seq<Byte>, m: MFunc, fr: Frame, base: nat, own: set<nat>, s: Status, env: Env, stack: Stack, n: nat, r: MState)
    requires AllEmittable(m) && Follows(bs, m, fr, base, own, s, env, stack, n, r) && r.MRunning? && r.block < |m.blocks|
    ensures Jumps(bs, m, fr, base, s, n, r.block, r.env, stack)
  {
    hide AllEmittable, Jumps, AllRegs, Agree;
  }

  lemma ServesAs(bs: seq<Byte>, m: MFunc, fr: Frame, base: nat, call: Cpu, callStack: Stack, n: nat, r: MState)
    requires AllEmittable(m) && AllRegs(call.regs) && CallRoom(call.regs, fr)
    requires r.MFinished? ==> ComesBack(bs, base, call, callStack, r.value)
    requires r.MRunning? && r.block < |m.blocks| ==>
               Jumps(bs, m, fr, base, Executing(base, call, callStack), n, r.block, r.env, FrameStack(fr, call.regs, callStack))
    ensures Serves(bs, m, fr, base, call, callStack, n, r)
  {
    hide AllEmittable, AllRegs, CallRoom, ComesBack, Jumps, FrameStack;
  }

  // ---- Behind the last block ----

  lemma FallbackSits(m: MFunc, fr: Frame)
    requires AllEmittable(m)
    ensures Sits(FuncItems(m, fr), |ItemsBefore(m, |m.blocks|, fr)|, Codes([MovImm32(RAX, 0)]) + Codes(EpilogueCode(fr)) + [])
  {
    hide ItemsBefore, EpilogueCode;
    var before, tail := ItemsBefore(m, |m.blocks|, fr), Codes([MovImm32(RAX, 0)] + EpilogueCode(fr));
    assert tail == Codes([MovImm32(RAX, 0)]) + Codes(EpilogueCode(fr)) + [];
    assert FuncItems(m, fr)[|before|..|before| + |tail|] == tail;
  }

  function Zeroed(cpu: Cpu): Cpu {
    cpu.(regs := cpu.regs[RAX := 0])
  }

  lemma ZeroInRax(cpu: Cpu)
    requires AllRegs(cpu.regs)
    ensures AllSimple([MovImm32(RAX, 0)]) && RunX([MovImm32(RAX, 0)], cpu) == Zeroed(cpu)
  {
    RunOne(MovImm32(RAX, 0), cpu);
  }

  lemma ZeroHolds(env: Env, cpu: Cpu, own: set<nat>, x: Int64)
    requires HoldsResult(env, cpu, own, None) && x == 0
    ensures HoldsResult(env, Zeroed(cpu), own, Some(x))
  {
    HwRange(0);
  }

  /** Control that runs off the last block returns 0 to the caller (src/emit.c:1328-1330). */
  lemma FallsOff(bs: seq<Byte>, m: MFunc, fr: Frame, base: nat, own: set<nat>, call: Env, callStack: Stack, cpu: Cpu, stack: Stack, x: Int64) returns (s: Status)
    requires Installed(bs, m, fr, base) && FrameFits(fr, own) && AllRegs(call) && CallRoom(call, fr) && call[RSP] in callStack
    requires x == 0 && HoldsResult(Arranged(fr, call), cpu, own, None) && Framed(fr, call, callStack, Entered(call, fr), stack)
    ensures |ItemsBefore(m, |m.blocks|, fr)| <= |FuncItems(m, fr)|
    ensures After(bs, AtItem(FuncItems(m, fr), base, |ItemsBefore(m, |m.blocks|, fr)|, cpu, stack), 0, s) && Returned(call, callStack, Some(x), s)
  {
    hide *;
    IsInstalled(bs, m, fr, base);
    FitsSaved(fr, own);
    HasSp(call);
    ArrangedAgrees(fr, own, call);
    FallbackSits(m, fr);
    ResultRegs(Arranged(fr, call), cpu, own, None);
    ZeroInRax(cpu);
    ZeroHolds(Arranged(fr, call), cpu, own, x);
    var items, k := FuncItems(m, fr), |ItemsBefore(m, |m.blocks|, fr)|;
    var cpu' := Zeroed(cpu);
    ResultRegs(Arranged(fr, call), cpu', own, Some(x));
    SitsInside(items, k, Codes([MovImm32(RAX, 0)]), Codes(EpilogueCode(fr)), []);
    CodesSize([MovImm32(RAX, 0)]);
    CodesRun(bs, items, base, LabelsOf(m, fr, base), k, [MovImm32(RAX, 0)], cpu, stack);
    SitsFits(items, k + 1, EpilogueCode(fr));
    StillFramed(fr, own, call, callStack, cpu', stack, Some(x));
    EpilogueRuns(bs, items, base, LabelsOf(m, fr, base), k + 1, fr, call, callStack, cpu', stack);
    FramedAbove(fr, call, callStack, cpu'.regs, stack);
    UnwoundReturned(fr, own, call, callStack, cpu', stack, Some(x));
    s := Left(callStack[call[RSP]], Cpu(Unwound(fr, call, cpu'.regs), cpu'.flags), stack);
    Then(bs, AtItem(items, base, k, cpu, stack), 0, AtItem(items, base, k + 1, cpu', stack), 0, s);
  }

  lemma ResultRegs(env: Env, cpu: Cpu, own: set<nat>, x: Option<Int64>)
    requires HoldsResult(env, cpu, own, x)
    ensures AllRegs(env) && AllRegs(cpu.regs)
  {
    hide Agree, AllRegs;
  }
}
