/** A processor that runs the emitted bytes: it decodes at its instruction pointer, jumps, and uses
    the stack (PUSH, POP, RET, JMP and Jcc in the Intel Software Developer's Manual, Volume 2). */
module Processor {
  import opened Wrappers
  import opened Word64
  import opened Peephole
  import opened X86
  import opened Expand

  /** The register with this number in the encoding: 0 is RAX, 3 RBX, 4 RSP, 5 RBP, 15 R15. */
  function Hw(n: nat): Reg
    requires n < 16
  {
    RegOf(n >= 8, n % 8)
  }

  // ---- Status ----

  /** Words on the stack by address. */
  type Stack = map<int, Int64>

  datatype Status =
    | Broken
    | Executing(ip: nat, cpu: Cpu, stack: Stack)
    | Left(to: Int64, cpu: Cpu, stack: Stack)

  /** Eight bytes from `a` on; words they overlap are lost. */
  function Store(stack: Stack, a: int, v: Int64): Stack {
    (map k | k in stack && (k + 8 <= a || a + 8 <= k) :: stack[k])[a := v]
  }

  /** The next word up the stack. */
  function Above(a: int): Int64 {
    Wrap(a + 8)
  }

  function Fetch(bs: seq<Byte>, ip: nat): Option<(X86, nat)> {
    if ip > |bs| then None else Decode(bs[ip..])
  }

  function GoTo(ip: int, cpu: Cpu, stack: Stack): Status {
    if ip < 0 then Broken else Executing(ip, cpu, stack)
  }

  /** One instruction, `next` being the address behind it. */
  function Execute(x: X86, next: nat, cpu: Cpu, stack: Stack): Status
    requires AllRegs(cpu.regs)
  {
    var rsp := Hw(4);
    var top: int := cpu.regs[rsp];
    match x
    case Push(r) =>
      var a := Wrap(top - 8);
      Executing(next, cpu.(regs := cpu.regs[rsp := a]), Store(stack, a, cpu.regs[r]))
    case Pop(r) =>
      if top !in stack then Broken
      else Executing(next, cpu.(regs := cpu.regs[rsp := Above(top)][r := stack[top]]), stack)
    case RetNear =>
      if top !in stack then Broken
      else Left(stack[top], cpu.(regs := cpu.regs[rsp := Above(top)]), stack)
    case JmpRel(rel) => GoTo(next + rel, cpu, stack)
    case JccRel(c, rel) =>
      if cpu.flags.None? then Broken
      else if EvalCmp(CmpOf(c), cpu.flags.value.0, cpu.flags.value.1) == 1 then GoTo(next + rel, cpu, stack)
      else Executing(next, cpu, stack)
    case _ => Executing(next, StepX(x, cpu), stack)
  }

  ghost function Advance(bs: seq<Byte>, s: Status): Status {
    match s
    case Executing(ip, cpu, stack) =>
      if !AllRegs(cpu.regs) then Broken
      else
        (match Fetch(bs, ip)
         case None => Broken
         case Some((x, n)) => Execute(x, ip + n, cpu, stack))
    case _ => s
  }

  ghost function RunBytes(bs: seq<Byte>, s: Status, n: nat): Status {
    if n == 0 then s else Advance(bs, RunBytes(bs, s, n - 1))
  }

  /** The processor gets from one state to the other, in at least `n` steps. */
  ghost predicate After(bs: seq<Byte>, s: Status, n: nat, s': Status) {
    exists k: nat :: k >= n && RunBytes(bs, s, k) == s'
  }

  lemma {:induction false} RunsOn(bs: seq<Byte>, s: Status, a: nat, b: nat)
    ensures RunBytes(bs, s, a + b) == RunBytes(bs, RunBytes(bs, s, a), b)
  {
    hide Advance;
    if b > 0 {
      RunsOn(bs, s, a, b - 1);
    }
  }

  lemma Stays(bs: seq<Byte>, s: Status)
    ensures After(bs, s, 0, s)
  {
    assert RunBytes(bs, s, 0) == s;
  }

  lemma Then(bs: seq<Byte>, s: Status, n: nat, s': Status, k: nat, s'': Status)
    requires After(bs, s, n, s') && After(bs, s', k, s'')
    ensures After(bs, s, n + k, s'')
  {
    hide RunBytes;
    var a: nat :| a >= n && RunBytes(bs, s, a) == s';
    var b: nat :| b >= k && RunBytes(bs, s', b) == s'';
    RunsOn(bs, s, a, b);
  }

  lemma Fewer(bs: seq<Byte>, s: Status, n: nat, k: nat, s': Status)
    requires After(bs, s, n, s') && k <= n
    ensures After(bs, s, k, s')
  {
  }

  /** Once out of the code, the processor is not coming back to it. */
  lemma {:induction false} Over(bs: seq<Byte>, s: Status, k: nat, n: nat)
    requires !RunBytes(bs, s, k).Executing? && k <= n
    ensures RunBytes(bs, s, n) == RunBytes(bs, s, k)
    decreases n - k
  {
    if k < n {
      Over(bs, s, k, n - 1);
    }
  }

  /** Code that is still running after any number of steps never returns. */
  lemma NeverLeaves(bs: seq<Byte>, s: Status, k: nat, ip: nat, cpu: Cpu, stack: Stack)
    requires After(bs, s, k, Executing(ip, cpu, stack))
    ensures RunBytes(bs, s, k).Executing?
  {
    var n: nat :| n >= k && RunBytes(bs, s, n) == Executing(ip, cpu, stack);
    if !RunBytes(bs, s, k).Executing? {
      Over(bs, s, k, n);
    }
  }

  // ---- Registers by number ----

  lemma HwRange(n: nat)
    requires n < 16
    ensures Hw(n) == n + 1
  {
  }

  /** The compiler's numbers of the registers it names, as the encoding has them. */
  lemma RegisterNumbers()
    ensures RAX == Hw(0) && RSP == Hw(4) && RBP == Hw(5)
    ensures Encode(Push(RBP)) == [0x55] && Encode(MovRR(RBP, RSP)) == [0x48, 0x89, 0xE5]
    ensures Encode(MovRR(RSP, RBP)) == [0x48, 0x89, 0xEC] && Encode(Pop(RBP)) == [0x5D]
    ensures Encode(Push(RAX)) == [0x50] && Encode(RetNear) == [0xC3]
  {
  }
}
