/** The emitted items in memory: what the processor fetches at the offset of each, and running
    those that do not jump. */
module LoadedCode {
  import opened Wrappers
  import opened Ssa
  import opened Peephole
  import opened X86
  import opened Expand
  import opened Emit
  import opened Disassembly
  import opened Processor

  function JumpInst(cc: Option<Cond>, rel: Int32): X86 {
    match cc case None => JmpRel(rel) case Some(c) => JccRel(c, rel)
  }

  /** How far a jump goes; one to no label was left open and goes on behind itself. */
  function DistanceTo(l: Label, next: nat, labels: seq<nat>): int {
    if l < |labels| then labels[l] - next else 0
  }

  /** At `at` stands the item, up to `next`. */
  ghost predicate Loads(bs: seq<Byte>, at: nat, it: Item, next: nat, labels: seq<nat>) {
    && at < next
    && match it
       case Code(x) => Fetch(bs, at) == Some((x, next - at))
       case JumpTo(cc, l) =>
         InInt32(DistanceTo(l, next, labels)) && Fetch(bs, at) == Some((JumpInst(cc, DistanceTo(l, next, labels)), next - at))
  }

  ghost predicate Loaded(bs: seq<Byte>, items: seq<Item>, base: nat, labels: seq<nat>) {
    forall k: nat :: k < |items| ==> Loads(bs, OffsetOf(items, base, k), items[k], OffsetOf(items, base, k + 1), labels)
  }

  lemma JumpLoads(bs: seq<Byte>, at: nat, it: Item, labels: seq<nat>)
    requires it.JumpTo? && at + ItemSize(it) < 0x8000_0000 && (it.label_ < |labels| ==> labels[it.label_] < 0x8000_0000)
    requires Fetch(bs, at) == Some((Resolved(it, at, labels), ItemSize(it)))
    ensures Loads(bs, at, it, at + ItemSize(it), labels)
  {
    ResolvedSize(it, at, labels);
    if it.label_ < |labels| {
      RelTarget(it, at, labels);
    }
    hide Encode, Fetch, ItemSize, Truncate32;
    var rel := DistanceTo(it.label_, at + ItemSize(it), labels);
    assert Resolved(it, at, labels).rel == rel;
    assert Resolved(it, at, labels) == JumpInst(it.cc, rel);
  }

  lemma ItemLoads(pre: seq<Byte>, items: seq<Item>, tail: seq<Byte>, labels: seq<nat>, k: nat)
    requires ShortCode(items, |pre|) && (forall b :: 0 <= b < |labels| ==> labels[b] < 0x8000_0000)
    requires k < |items|
    ensures Loads(pre + Assemble(items, |pre|, labels, true) + tail, OffsetOf(items, |pre|, k), items[k], OffsetOf(items, |pre|, k + 1), labels)
  {
    hide *;
    var bs, at := pre + Assemble(items, |pre|, labels, true) + tail, OffsetOf(items, |pre|, k);
    DecodesAt(pre, items, tail, labels, k);
    Fetches(bs, at, Resolved(items[k], at, labels), ItemSize(items[k]));
    NextOffset(items, |pre|, k);
    OffsetBound(items, |pre|, k + 1);
    Short(items, |pre|);
    if items[k].JumpTo? {
      JumpLoads(bs, at, items[k], labels);
    } else {
      PlainLoads(bs, at, items[k], labels);
    }
  }

  lemma Fetches(bs: seq<Byte>, at: nat, x: X86, n: nat)
    requires at <= |bs| && Decode(bs[at..]) == Some((x, n))
    ensures Fetch(bs, at) == Some((x, n))
  {
    hide Decode;
  }

  lemma Short(items: seq<Item>, base: nat)
    ensures ShortCode(items, base) <==> base + Size(items) < 0x8000_0000
  {
    hide Size;
  }

  lemma PlainLoads(bs: seq<Byte>, at: nat, it: Item, labels: seq<nat>)
    requires it.Code?
    requires Fetch(bs, at) == Some((Resolved(it, at, labels), ItemSize(it)))
    ensures Loads(bs, at, it, at + ItemSize(it), labels)
  {
    hide Fetch, Encode, ItemSize;
  }

  /** The assembled items, wherever they stand, are loaded. */
  lemma AssembledLoads(pre: seq<Byte>, items: seq<Item>, tail: seq<Byte>, labels: seq<nat>)
    requires ShortCode(items, |pre|) && (forall b :: 0 <= b < |labels| ==> labels[b] < 0x8000_0000)
    ensures Loaded(pre + Assemble(items, |pre|, labels, true) + tail, items, |pre|, labels)
  {
    hide Assemble, OffsetOf, Loads, ShortCode;
    forall k: nat | k < |items|
      ensures Loads(pre + Assemble(items, |pre|, labels, true) + tail, OffsetOf(items, |pre|, k), items[k], OffsetOf(items, |pre|, k + 1), labels)
    {
      ItemLoads(pre, items, tail, labels, k);
    }
  }

  // ---- Running items ----

  /** The processor at item `k`. */
  function AtItem(items: seq<Item>, base: nat, k: nat, cpu: Cpu, stack: Stack): Status
    requires k <= |items|
  {
    Executing(OffsetOf(items, base, k), cpu, stack)
  }

  ghost predicate Sits(items: seq<Item>, k: nat, part: seq<Item>) {
    k + |part| <= |items| && items[k..k + |part|] == part
  }

  lemma SitsInside(items: seq<Item>, k: nat, a: seq<Item>, b: seq<Item>, c: seq<Item>)
    requires Sits(items, k, a + b + c)
    ensures Sits(items, k, a) && Sits(items, k + |a|, b) && Sits(items, k + |a| + |b|, c)
  {
    SitsTwo(items, k, a + b, c);
    SitsTwo(items, k, a, b);
  }

  lemma SitsTwo(items: seq<Item>, k: nat, a: seq<Item>, b: seq<Item>)
    requires Sits(items, k, a + b)
    ensures Sits(items, k, a) && Sits(items, k + |a|, b)
  {
    var all := items[k..k + |a + b|];
    assert items[k..k + |a|] == all[..|a|] == a;
    assert items[k + |a|..k + |a| + |b|] == all[|a|..] == b;
  }

  lemma SitsAt(items: seq<Item>, k: nat, part: seq<Item>, j: nat)
    requires Sits(items, k, part) && j < |part|
    ensures k + j < |items| && items[k + j] == part[j]
  {
    assert items[k..k + |part|][j] == items[k + j];
  }

  lemma Fetched(bs: seq<Byte>, at: nat, x: X86, n: nat, cpu: Cpu, stack: Stack)
    requires Fetch(bs, at) == Some((x, n)) && AllRegs(cpu.regs)
    ensures After(bs, Executing(at, cpu, stack), 1, Execute(x, at + n, cpu, stack))
  {
    hide Fetch, Execute, AllRegs;
    var s := Executing(at, cpu, stack);
    assert RunBytes(bs, s, 0) == s;
    assert RunBytes(bs, s, 1) == Execute(x, at + n, cpu, stack);
  }

  lemma LoadedAt(bs: seq<Byte>, items: seq<Item>, base: nat, labels: seq<nat>, k: nat)
    requires Loaded(bs, items, base, labels) && k < |items|
    ensures Loads(bs, OffsetOf(items, base, k), items[k], OffsetOf(items, base, k + 1), labels)
  {
  }

  /** One instruction that stands in the code is fetched and executed. */
  lemma CodeStep(bs: seq<Byte>, items: seq<Item>, base: nat, labels: seq<nat>, k: nat, x: X86, cpu: Cpu, stack: Stack)
    requires Loaded(bs, items, base, labels) && k < |items| && items[k] == Code(x) && AllRegs(cpu.regs)
    ensures After(bs, AtItem(items, base, k, cpu, stack), 1, Execute(x, OffsetOf(items, base, k + 1), cpu, stack))
  {
    hide Fetch, OffsetOf, Execute, Loaded, AllRegs, After;
    LoadedAt(bs, items, base, labels, k);
    var at, next := OffsetOf(items, base, k), OffsetOf(items, base, k + 1);
    Fetched(bs, at, x, next - at, cpu, stack);
  }

  lemma JumpExecutes(cc: Option<Cond>, rel: Int32, next: nat, cpu: Cpu, stack: Stack)
    requires AllRegs(cpu.regs) && (cc.Some? ==> cpu.flags.Some?) && next + rel >= 0
    ensures Execute(JumpInst(cc, rel), next, cpu, stack) ==
              if cc.Some? ==> Meets(cc.value, cpu) then Executing(next + rel, cpu, stack) else Executing(next, cpu, stack)
  {
    hide AllRegs;
  }

  /** A jump: taken, it leads to its label, otherwise to the next item. */
  lemma JumpStep(bs: seq<Byte>, items: seq<Item>, base: nat, labels: seq<nat>, k: nat, cpu: Cpu, stack: Stack)
    requires Loaded(bs, items, base, labels) && k < |items| && items[k].JumpTo? && AllRegs(cpu.regs)
    requires items[k].cc.Some? ==> cpu.flags.Some?
    ensures var taken := items[k].cc.Some? ==> Meets(items[k].cc.value, cpu);
            After(bs, AtItem(items, base, k, cpu, stack), 1,
                  if taken && items[k].label_ < |labels| then Executing(labels[items[k].label_], cpu, stack)
                  else AtItem(items, base, k + 1, cpu, stack))
  {
    hide Fetch, OffsetOf, Execute, Loaded, AllRegs, After, Meets, JumpInst;
    LoadedAt(bs, items, base, labels, k);
    var at, next := OffsetOf(items, base, k), OffsetOf(items, base, k + 1);
    var rel := DistanceTo(items[k].label_, next, labels);
    JumpExecutes(items[k].cc, rel, next, cpu, stack);
    Fetched(bs, at, JumpInst(items[k].cc, rel), next - at, cpu, stack);
  }

  /** Whether the flags meet a condition. */
  predicate Meets(c: Cond, cpu: Cpu)
    requires cpu.flags.Some?
  {
    var (a, b) := cpu.flags.value;
    match c
    case E => a == b
    case NE => a != b
    case L => a < b
    case G => a > b
    case LE => a <= b
    case GE => a >= b
  }

  /** Neither a jump nor a stack instruction. */
  predicate Simple(x: X86) {
    !x.JmpRel? && !x.JccRel? && !x.RetNear? && !x.Push? && !x.Pop?
  }

  predicate AllSimple(xs: seq<X86>) {
    forall i :: 0 <= i < |xs| ==> Simple(xs[i])
  }

  lemma StepKeepsRegs(x: X86, cpu: Cpu)
    requires AllRegs(cpu.regs)
    ensures AllRegs(StepX(x, cpu).regs)
  {
  }

  lemma RunFirst(xs: seq<X86>, cpu: Cpu)
    requires xs != [] && AllSimple(xs) && AllRegs(cpu.regs)
    ensures Simple(xs[0]) && AllSimple(xs[1..]) && AllRegs(StepX(xs[0], cpu).regs)
    ensures RunX(xs, cpu) == RunX(xs[1..], StepX(xs[0], cpu))
  {
    StepKeepsRegs(xs[0], cpu);
    hide StepX, AllRegs;
  }

  lemma RunNone(bs: seq<Byte>, items: seq<Item>, base: nat, k: nat, xs: seq<X86>, cpu: Cpu, stack: Stack)
    requires xs == [] && k <= |items| && AllRegs(cpu.regs)
    ensures RunX(xs, cpu) == cpu && After(bs, AtItem(items, base, k, cpu, stack), 0, AtItem(items, base, k + |xs|, cpu, stack))
  {
    hide *;
    RunEmpty(xs, cpu);
    Stays(bs, AtItem(items, base, k, cpu, stack));
  }

  lemma RunEmpty(xs: seq<X86>, cpu: Cpu)
    requires xs == [] && AllRegs(cpu.regs)
    ensures RunX(xs, cpu) == cpu
  {
  }

  lemma SitsFits(items: seq<Item>, k: nat, xs: seq<X86>)
    requires Sits(items, k, Codes(xs))
    ensures k + |xs| <= |items|
  {
  }

  /** A stretch of simple instructions. */
  lemma {:induction false} CodesRun(bs: seq<Byte>, items: seq<Item>, base: nat, labels: seq<nat>, k: nat, xs: seq<X86>, cpu: Cpu, stack: Stack)
    requires Loaded(bs, items, base, labels) && Sits(items, k, Codes(xs)) && AllSimple(xs) && AllRegs(cpu.regs)
    ensures k + |xs| <= |items| && AllRegs(RunX(xs, cpu).regs)
    ensures After(bs, AtItem(items, base, k, cpu, stack), 0, AtItem(items, base, k + |xs|, RunX(xs, cpu), stack))
    decreases |xs|
  {
    hide *;
    SitsFits(items, k, xs);
    if xs == [] {
      RunNone(bs, items, base, k, xs, cpu, stack);
    } else {
      RunFirst(xs, cpu);
      var cpu' := StepX(xs[0], cpu);
      SimpleStep(bs, items, base, labels, k, xs, cpu, stack);
      SitsLater(items, k, xs);
      CodesRun(bs, items, base, labels, k + 1, xs[1..], cpu', stack);
      var s, s' := AtItem(items, base, k, cpu, stack), AtItem(items, base, k + |xs|, RunX(xs, cpu), stack);
      Then(bs, s, 1, AtItem(items, base, k + 1, cpu', stack), 0, s');
      Fewer(bs, s, 1, 0, s');
    }
  }

  lemma SimpleStep(bs: seq<Byte>, items: seq<Item>, base: nat, labels: seq<nat>, k: nat, xs: seq<X86>, cpu: Cpu, stack: Stack)
    requires Loaded(bs, items, base, labels) && xs != [] && Sits(items, k, Codes(xs)) && Simple(xs[0]) && AllRegs(cpu.regs)
    ensures k < |items| && After(bs, AtItem(items, base, k, cpu, stack), 1, AtItem(items, base, k + 1, StepX(xs[0], cpu), stack))
  {
    SitsAt(items, k, Codes(xs), 0);
    CodeStep(bs, items, base, labels, k, xs[0], cpu, stack);
    hide Loaded, AllRegs, After, StepX, OffsetOf;
    assert Execute(xs[0], OffsetOf(items, base, k + 1), cpu, stack) == AtItem(items, base, k + 1, StepX(xs[0], cpu), stack);
  }

  lemma SitsLater(items: seq<Item>, k: nat, xs: seq<X86>)
    requires xs != [] && Sits(items, k, Codes(xs))
    ensures Sits(items, k + 1, Codes(xs[1..]))
  {
    assert Codes(xs) == [Code(xs[0])] + Codes(xs[1..]) + [];
    SitsInside(items, k, [Code(xs[0])], Codes(xs[1..]), []);
  }
}
