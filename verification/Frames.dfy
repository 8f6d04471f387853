/** The frame of a function from its allocation, and the call protocol: what the prologue sets up
    and the epilogue takes down (src/emit.c:736-802). */
module Frames {
  import opened Word64
  import opened Ssa
  import opened LinearScan
  import opened Isel
  import opened Peephole
  import opened Prologue
  import opened X86
  import opened Expand
  import opened Emit
  import opened Disassembly
  import opened Processor
  import opened LoadedCode
  import Allocator

  // ---- The frame of an allocation ----

  /** The callee-saved registers in use from RBX up to `n`, in the order the prologue pushes
      them; RBP has been pushed before. */
  function SavedUpTo(regUsed: seq<bool>, n: nat): seq<Reg>
    requires |regUsed| == REG_COUNT && n <= REG_R15
  {
    if n < REG_RBX then []
    else SavedUpTo(regUsed, n - 1) + if CalleeSaved(n) && n != REG_RBP && regUsed[n] then [n] else []
  }

  predicate InRange(cs: seq<PhiCopy>) {
    forall i :: 0 <= i < |cs| ==> RegValid(cs[i].dst) && RegValid(cs[i].src)
  }

  function Pairs(cs: seq<PhiCopy>): seq<(Reg, Reg)>
    requires InRange(cs)
  {
    seq(|cs|, i requires 0 <= i < |cs| => (cs[i].dst, cs[i].src))
  }

  lemma {:induction false} CopiesInRange(params: seq<nat>, regOf: seq<nat>, n: nat)
    requires n <= |params| && n <= 6
    ensures InRange(ParamCopies(params, regOf, n))
  {
    if n > 0 {
      CopiesInRange(params, regOf, n - 1);
      SixRegs();
      assert PARAM_REGS == [8, 7, 3, 2, 9, 10];
    }
  }

  /** The registers to save and the moves of the parameters, as the prologue works them out. */
  function FrameOf(params: seq<nat>, regOf: seq<nat>, regUsed: seq<bool>, stackSize: nat): Frame
    requires |regUsed| == REG_COUNT
  {
    CopiesInRange(params, regOf, Allocator.First6(params));
    Frame(stackSize, SavedUpTo(regUsed, REG_R15), Pairs(ParamCopies(params, regOf, Allocator.First6(params))))
  }

  // ---- Saving and restoring ----

  /** RBX and R12 to R15. */
  predicate Preserved(r: nat) {
    r == Hw(3) || Hw(12) <= r <= Hw(15)
  }

  /** Every preserved register up to `n` that is used, and no other, each once. */
  ghost predicate SavedRight(regUsed: seq<bool>, n: nat, rs: seq<Reg>)
    requires |regUsed| == REG_COUNT && n <= REG_R15
  {
    && (forall i :: 0 <= i < |rs| ==> Preserved(rs[i]) && rs[i] <= n && regUsed[rs[i]])
    && (forall i, j :: 0 <= i < j < |rs| ==> rs[i] != rs[j])
    && (forall r: nat :: r <= n && Preserved(r) && regUsed[r] ==> r in rs)
  }

  lemma {:induction false} SavedAre(regUsed: seq<bool>, n: nat)
    requires |regUsed| == REG_COUNT && n <= REG_R15
    ensures SavedRight(regUsed, n, SavedUpTo(regUsed, n))
  {
    if n < REG_RBX {
      NoneSaved(regUsed, n);
    } else {
      SavedAre(regUsed, n - 1);
      SavedNext(regUsed, n);
      hide Preserved, SavedUpTo;
    }
  }

  lemma NoneSaved(regUsed: seq<bool>, n: nat)
    requires |regUsed| == REG_COUNT && n < REG_RBX
    ensures SavedRight(regUsed, n, SavedUpTo(regUsed, n))
  {
    HwRange(3);
    HwRange(12);
  }

  lemma SavedNext(regUsed: seq<bool>, n: nat)
    requires |regUsed| == REG_COUNT && REG_RBX <= n <= REG_R15
    ensures Preserved(n) && regUsed[n] ==> SavedUpTo(regUsed, n) == SavedUpTo(regUsed, n - 1) + [n]
    ensures !(Preserved(n) && regUsed[n]) ==> SavedUpTo(regUsed, n) == SavedUpTo(regUsed, n - 1)
  {
    HwRange(3);
    HwRange(12);
    HwRange(15);
    hide Hw;
  }

  // ---- Stack instructions ----

  /** The `j`-th word below `top`. */
  function Cell(top: int, j: int): int {
    top - 8 * (j + 1)
  }

  /** The first `n` of the registers pushed from `top` on. */
  function Pushed(stack: Stack, top: int, regs: Env, rs: seq<Reg>, n: nat): Stack
    requires AllRegs(regs) && n <= |rs|
  {
    if n == 0 then stack else Store(Pushed(stack, top, regs, rs, n - 1), Cell(top, n - 1), regs[rs[n - 1]])
  }

  /** The words of the registers are on the stack. */
  ghost predicate OnStack(stack: Stack, top: int, regs: Env, rs: seq<Reg>, n: nat)
    requires AllRegs(regs) && n <= |rs|
  {
    forall j :: 0 <= j < n ==> Cell(top, j) in stack && stack[Cell(top, j)] == regs[rs[j]]
  }

  /** From `top` upwards nothing has changed. */
  ghost predicate SameAbove(stack: Stack, stack': Stack, top: int) {
    forall a :: a >= top && a in stack ==> a in stack' && stack'[a] == stack[a]
  }

  lemma {:induction false} PushedHolds(stack: Stack, top: int, regs: Env, rs: seq<Reg>, n: nat)
    requires AllRegs(regs) && n <= |rs|
    ensures OnStack(Pushed(stack, top, regs, rs, n), top, regs, rs, n) && SameAbove(stack, Pushed(stack, top, regs, rs, n), top)
  {
    hide AllRegs;
    if n > 0 {
      PushedHolds(stack, top, regs, rs, n - 1);
    }
  }

  lemma PushExecutes(items: seq<Item>, base: nat, k: nat, r: Reg, cpu: Cpu, stack: Stack)
    requires AllRegs(cpu.regs) && k <= |items| && cpu.regs[RSP] - 8 >= MIN_INT64
    ensures var a := cpu.regs[RSP] - 8;
            Execute(Push(r), OffsetOf(items, base, k), cpu, stack) == AtItem(items, base, k, cpu.(regs := cpu.regs[RSP := a]), Store(stack, a, cpu.regs[r]))
  {
    HwRange(4);
    hide OffsetOf, Store, Hw;
  }

  lemma PopExecutes(items: seq<Item>, base: nat, k: nat, r: Reg, cpu: Cpu, stack: Stack)
    requires AllRegs(cpu.regs) && k <= |items| && cpu.regs[RSP] in stack
    ensures var a := cpu.regs[RSP];
            Execute(Pop(r), OffsetOf(items, base, k), cpu, stack) == AtItem(items, base, k, cpu.(regs := cpu.regs[RSP := Above(a)][r := stack[a]]), stack)
  {
    HwRange(4);
    hide OffsetOf, Above, Hw;
  }

  lemma RetExecutes(next: nat, cpu: Cpu, stack: Stack)
    requires AllRegs(cpu.regs) && cpu.regs[RSP] in stack
    ensures var a := cpu.regs[RSP]; Execute(RetNear, next, cpu, stack) == Left(stack[a], cpu.(regs := cpu.regs[RSP := Above(a)]), stack)
  {
    HwRange(4);
    hide Above, Hw;
  }

  lemma PushStep(bs: seq<Byte>, items: seq<Item>, base: nat, labels: seq<nat>, k: nat, r: Reg, cpu: Cpu, stack: Stack)
    requires Loaded(bs, items, base, labels) && k < |items| && items[k] == Code(Push(r)) && AllRegs(cpu.regs)
    requires cpu.regs[RSP] - 8 >= MIN_INT64
    ensures var a := cpu.regs[RSP] - 8;
            After(bs, AtItem(items, base, k, cpu, stack), 1, AtItem(items, base, k + 1, cpu.(regs := cpu.regs[RSP := a]), Store(stack, a, cpu.regs[r])))
  {
    CodeStep(bs, items, base, labels, k, Push(r), cpu, stack);
    PushExecutes(items, base, k + 1, r, cpu, stack);
    hide Loaded, After, OffsetOf, Store, AllRegs, Execute;
  }

  lemma PopStep(bs: seq<Byte>, items: seq<Item>, base: nat, labels: seq<nat>, k: nat, r: Reg, cpu: Cpu, stack: Stack)
    requires Loaded(bs, items, base, labels) && k < |items| && items[k] == Code(Pop(r)) && AllRegs(cpu.regs)
    requires cpu.regs[RSP] in stack
    ensures var a := cpu.regs[RSP];
            After(bs, AtItem(items, base, k, cpu, stack), 1, AtItem(items, base, k + 1, cpu.(regs := cpu.regs[RSP := Above(a)][r := stack[a]]), stack))
  {
    CodeStep(bs, items, base, labels, k, Pop(r), cpu, stack);
    PopExecutes(items, base, k + 1, r, cpu, stack);
    hide Loaded, After, OffsetOf, Store, AllRegs, Execute, Above;
  }

  lemma RetStep(bs: seq<Byte>, items: seq<Item>, base: nat, labels: seq<nat>, k: nat, cpu: Cpu, stack: Stack)
    requires Loaded(bs, items, base, labels) && k < |items| && items[k] == Code(RetNear) && AllRegs(cpu.regs)
    requires cpu.regs[RSP] in stack
    ensures var a := cpu.regs[RSP];
            After(bs, AtItem(items, base, k, cpu, stack), 1, Left(stack[a], cpu.(regs := cpu.regs[RSP := Above(a)]), stack))
  {
    CodeStep(bs, items, base, labels, k, RetNear, cpu, stack);
    RetExecutes(OffsetOf(items, base, k + 1), cpu, stack);
    hide Loaded, After, OffsetOf, Store, AllRegs, Execute, Above;
  }

  // ---- Pushing and popping the saved registers ----

  function Lowered(cpu: Cpu, sp: Int64): Cpu {
    cpu.(regs := cpu.regs[RSP := sp])
  }

  lemma LoweredTwice(cpu: Cpu, sp: Int64, sp': Int64)
    ensures Lowered(Lowered(cpu, sp), sp') == Lowered(cpu, sp')
  {
  }

  ghost predicate Room(top: int, rs: seq<Reg>) {
    MIN_INT64 <= top - 8 * |rs| && top <= MAX_INT64 && forall i :: 0 <= i < |rs| ==> rs[i] != RSP
  }

  lemma {:induction false} PushesRun(bs: seq<Byte>, items: seq<Item>, base: nat, labels: seq<nat>, k: nat, rs: seq<Reg>, n: nat, cpu: Cpu, stack: Stack)
    requires Loaded(bs, items, base, labels) && Sits(items, k, Codes(Pushes(rs))) && AllRegs(cpu.regs) && n <= |rs| && k + n <= |items|
    requires Room(cpu.regs[RSP], rs)
    ensures var top := cpu.regs[RSP];
            && MIN_INT64 <= top - 8 * n
            && After(bs, AtItem(items, base, k, cpu, stack), 0, AtItem(items, base, k + n, Lowered(cpu, top - 8 * n), Pushed(stack, top, cpu.regs, rs, n)))
  {
    hide *;
    HasSp(cpu.regs);
    var top, s := cpu.regs[RSP], AtItem(items, base, k, cpu, stack);
    RoomFor(top, rs, n);
    if n == 0 {
      Stays(bs, s);
      NonePushed(cpu, stack, top, rs);
    } else {
      PushesRun(bs, items, base, labels, k, rs, n - 1, cpu, stack);
      var before, deep := Pushed(stack, top, cpu.regs, rs, n - 1), Lowered(cpu, top - 8 * (n - 1));
      OneLower(cpu, top - 8 * (n - 1), rs[n - 1]);
      PushAt(items, k, rs, n - 1);
      PushStep(bs, items, base, labels, k + (n - 1), rs[n - 1], deep, before);
      OnePushed(stack, top, cpu.regs, rs, n);
      LoweredTwice(cpu, top - 8 * (n - 1), top - 8 * n);
      LoweredIs(deep, top - 8 * n);
      var s' := AtItem(items, base, k + n, Lowered(cpu, top - 8 * n), Pushed(stack, top, cpu.regs, rs, n));
      Then(bs, s, 0, AtItem(items, base, k + (n - 1), deep, before), 1, s');
      Fewer(bs, s, 1, 0, s');
    }
  }

  lemma HasSp(regs: Env)
    requires AllRegs(regs)
    ensures RSP in regs
  {
  }

  lemma LoweredIs(cpu: Cpu, sp: Int64)
    ensures Lowered(cpu, sp) == cpu.(regs := cpu.regs[RSP := sp])
  {
  }

  lemma RoomFor(top: int, rs: seq<Reg>, n: nat)
    requires Room(top, rs) && n <= |rs|
    ensures MIN_INT64 <= top - 8 * n <= top <= MAX_INT64
    ensures forall i :: 0 <= i < |rs| ==> rs[i] != RSP
  {
  }

  lemma NonePushed(cpu: Cpu, stack: Stack, top: int, rs: seq<Reg>)
    requires AllRegs(cpu.regs) && cpu.regs[RSP] == top
    ensures Pushed(stack, top, cpu.regs, rs, 0) == stack && Lowered(cpu, top) == cpu
  {
    assert cpu.regs[RSP := top] == cpu.regs;
  }

  lemma OnePushed(stack: Stack, top: int, regs: Env, rs: seq<Reg>, n: nat)
    requires AllRegs(regs) && 0 < n <= |rs|
    ensures Pushed(stack, top, regs, rs, n) == Store(Pushed(stack, top, regs, rs, n - 1), top - 8 * n, regs[rs[n - 1]])
  {
    hide Store, AllRegs;
  }

  lemma OneLower(cpu: Cpu, sp: Int64, r: Reg)
    requires AllRegs(cpu.regs) && r != RSP
    ensures AllRegs(Lowered(cpu, sp).regs) && Lowered(cpu, sp).regs[RSP] == sp && Lowered(cpu, sp).regs[r] == cpu.regs[r]
  {
  }

  lemma PushAt(items: seq<Item>, k: nat, rs: seq<Reg>, i: nat)
    requires Sits(items, k, Codes(Pushes(rs))) && i < |rs|
    ensures k + i < |items| && items[k + i] == Code(Push(rs[i]))
  {
    SitsAt(items, k, Codes(Pushes(rs)), i);
  }

  /** The registers after the last `i` of the saved ones have been popped. */
  function Restored(regs: Env, from: Env, rs: seq<Reg>, i: nat): Env
    requires AllRegs(from) && i <= |rs|
  {
    if i == 0 then regs else Restored(regs, from, rs, i - 1)[rs[|rs| - i] := from[rs[|rs| - i]]]
  }

  lemma {:induction false} RestoredIs(regs: Env, from: Env, rs: seq<Reg>, i: nat)
    requires AllRegs(from) && AllRegs(regs) && i <= |rs|
    ensures AllRegs(Restored(regs, from, rs, i))
    ensures forall r: nat :: r < REG_COUNT ==> Restored(regs, from, rs, i)[r] == if r in rs[|rs| - i..] then from[r] else regs[r]
  {
    if i > 0 {
      RestoredIs(regs, from, rs, i - 1);
      assert rs[|rs| - i..] == [rs[|rs| - i]] + rs[|rs| - (i - 1)..];
    }
  }

  lemma {:induction false} PopsRun(bs: seq<Byte>, items: seq<Item>, base: nat, labels: seq<nat>, k: nat, rs: seq<Reg>, i: nat, top: int, from: Env, cpu: Cpu, stack: Stack)
    requires Loaded(bs, items, base, labels) && Sits(items, k, Codes(Pops(rs))) && AllRegs(cpu.regs) && AllRegs(from) && i <= |rs| && k + i <= |items|
    requires Room(top, rs) && cpu.regs[RSP] == top - 8 * |rs| && OnStack(stack, top, from, rs, |rs|)
    ensures MIN_INT64 <= top - 8 * (|rs| - i) <= MAX_INT64
    ensures After(bs, AtItem(items, base, k, cpu, stack), 0,
                  AtItem(items, base, k + i, Cpu(Restored(cpu.regs, from, rs, i)[RSP := top - 8 * (|rs| - i)], cpu.flags), stack))
  {
    hide *;
    RoomFor(top, rs, |rs| - i);
    var s := AtItem(items, base, k, cpu, stack);
    if i == 0 {
      Stays(bs, s);
      NonePopped(cpu, from, rs, top - 8 * |rs|);
    } else {
      PopsRun(bs, items, base, labels, k, rs, i - 1, top, from, cpu, stack);
      RoomFor(top, rs, |rs| - (i - 1));
      var r, sp := rs[|rs| - i], top - 8 * (|rs| - (i - 1));
      var mid := Cpu(Restored(cpu.regs, from, rs, i - 1)[RSP := sp], cpu.flags);
      RestoredIs(cpu.regs, from, rs, i - 1);
      WithSp(Restored(cpu.regs, from, rs, i - 1), sp);
      CellAt(stack, top, from, rs, |rs| - i);
      PopAt(items, k, rs, i - 1);
      PopStep(bs, items, base, labels, k + (i - 1), r, mid, stack);
      OnePopped(cpu.regs, from, rs, i, sp);
      var s' := AtItem(items, base, k + i, Cpu(Restored(cpu.regs, from, rs, i)[RSP := top - 8 * (|rs| - i)], cpu.flags), stack);
      Then(bs, s, 0, AtItem(items, base, k + (i - 1), mid, stack), 1, s');
      Fewer(bs, s, 1, 0, s');
    }
  }

  lemma NonePopped(cpu: Cpu, from: Env, rs: seq<Reg>, sp: Int64)
    requires AllRegs(cpu.regs) && AllRegs(from) && cpu.regs[RSP] == sp
    ensures Cpu(Restored(cpu.regs, from, rs, 0)[RSP := sp], cpu.flags) == cpu
  {
    assert cpu.regs[RSP := sp] == cpu.regs;
  }

  lemma WithSp(regs: Env, sp: Int64)
    requires AllRegs(regs)
    ensures AllRegs(regs[RSP := sp])
  {
  }

  lemma CellAt(stack: Stack, top: int, from: Env, rs: seq<Reg>, j: nat)
    requires AllRegs(from) && j < |rs| && OnStack(stack, top, from, rs, |rs|)
    ensures top - 8 * (j + 1) in stack && rs[j] in from && stack[top - 8 * (j + 1)] == from[rs[j]]
  {
    assert Cell(top, j) in stack;
  }

  lemma PopAt(items: seq<Item>, k: nat, rs: seq<Reg>, i: nat)
    requires Sits(items, k, Codes(Pops(rs))) && i < |rs|
    ensures k + i < |items| && items[k + i] == Code(Pop(rs[|rs| - 1 - i]))
  {
    SitsAt(items, k, Codes(Pops(rs)), i);
  }

  lemma OnePopped(regs: Env, from: Env, rs: seq<Reg>, i: nat, sp: Int64)
    requires AllRegs(from) && 0 < i <= |rs| && rs[|rs| - i] != RSP && sp + 8 <= MAX_INT64
    ensures Restored(regs, from, rs, i - 1)[RSP := sp][RSP := Above(sp)][rs[|rs| - i] := from[rs[|rs| - i]]] == Restored(regs, from, rs, i)[RSP := sp + 8]
  {
    hide AllRegs;
  }
}
