/** The driver around the linear scan (src/regalloc.c:100-265). */
module Allocator {
  import opened Ssa
  import opened Mach
  import opened LinearScan
  import opened RegAlloc
  import opened Liveness
  import opened ParallelCopy
  import opened Prologue
  import Expand

  /** Every register that occurs, and every parameter, got a physical register. */
  ghost predicate Unspilled(m: MFunc, regOf: seq<nat>) {
    && |regOf| == m.nextVreg
    && (forall v :: v in m.params && v < m.nextVreg ==> regOf[v] != REG_NONE)
    && (forall v, b: nat, i: nat :: 0 <= v < m.nextVreg && OccursAt(m, v, b, i) ==> regOf[v] != REG_NONE)
  }

  /** Every interval has the lowest register that none before it, and still running, has. */
  ghost predicate FirstFit(m: MFunc, t: Table, regOf: seq<nat>) {
    && |t.starts| == |t.ends| == |regOf| == m.nextVreg
    && forall v: nat :: v < m.nextVreg && t.starts[v] <= t.ends[v] ==> FitsAt(m, t, regOf, v)
  }

  ghost predicate FitsAt(m: MFunc, t: Table, regOf: seq<nat>, v: nat)
    requires |t.starts| == |t.ends| == |regOf| == m.nextVreg && v < m.nextVreg
  {
    && regOf[v] != REG_NONE
    && forall r: nat :: r < regOf[v] && Allocatable(r) && !Reserved(m.params, r) ==> HeldBefore(m, t, regOf, v, r)
  }

  ghost predicate HeldBefore(m: MFunc, t: Table, regOf: seq<nat>, v: nat, r: nat)
    requires |t.starts| == |t.ends| == |regOf| == m.nextVreg && v < m.nextVreg
  {
    exists u: nat :: u < m.nextVreg && regOf[u] == r && t.starts[u] <= t.ends[u] && t.ends[u] >= t.starts[v]
      && (if t.starts[u] != t.starts[v] then t.starts[u] < t.starts[v] else u < v)
  }

  function First6(params: seq<nat>): (n: nat)
    ensures n <= |params| && n <= 6
  {
    if |params| < 6 then |params| else 6
  }

  /** What holds of every allocation. */
  ghost predicate Allocated(m: MFunc, t: Table, regOf: seq<nat>, slotOf: seq<int>) {
    && IsTable(m, t) && BookedApart(m, t, regOf) && |slotOf| == m.nextVreg
    && (PlainCode(m) && LoopsCovered(m, t) && Unspilled(m, regOf) ==> MRefines(m, RenameFunc(m, regOf)))
    && ((forall v :: 0 <= v < m.nextVreg ==> slotOf[v] == -1) || m.nextVreg <= NEVER_RESERVED ==> FirstFit(m, t, regOf))
  }

  /** Every register given out is a general-purpose one that is neither the stack nor the base
      pointer. */
  ghost predicate Spared(regOf: seq<nat>) {
    forall v :: 0 <= v < |regOf| && regOf[v] != REG_NONE ==> Expand.RegValid(regOf[v]) && regOf[v] != Expand.RSP && regOf[v] != Expand.RBP
  }

  // ---- What the frame needs (src/regalloc.c:241-258) ----

  /** The callee-saved registers in use. */
  ghost predicate UsedRight(regOf: seq<nat>, regUsed: seq<bool>) {
    |regUsed| == REG_COUNT && forall r: nat :: r < REG_COUNT ==> (regUsed[r] <==> CalleeSaved(r) && r in regOf)
  }

  function Count(bs: seq<bool>): nat {
    if bs == [] then 0 else Count(bs[..|bs| - 1]) + if bs[|bs| - 1] then 1 else 0
  }

  /** Slots and saved registers, each rounded up to whole 16 bytes. */
  function FrameSize(slots: nat, saved: nat): nat {
    16 * ((slots + 1) / 2 + (saved + 1) / 2)
  }

  method Occurs(regOf: seq<nat>, r: nat) returns (found: bool)
    ensures found <==> r in regOf
  {
    for i := 0 to |regOf|
      invariant r !in regOf[..i]
    {
      if regOf[i] == r {
        return true;
      }
    }
    assert regOf[..|regOf|] == regOf;
    found := false;
  }

  method MeasureFrame(regOf: seq<nat>, slots: nat) returns (stackSize: nat, regUsed: seq<bool>)
    ensures UsedRight(regOf, regUsed) && stackSize == FrameSize(slots, Count(regUsed))
  {
    stackSize := (slots * 8 + 15) / 16 * 16;
    regUsed := [];
    var count := 0;
    for r := 0 to REG_COUNT
      invariant |regUsed| == r && count == Count(regUsed)
      invariant forall q: nat :: q < r ==> (regUsed[q] <==> CalleeSaved(q) && q in regOf)
    {
      var found := false;
      if CalleeSaved(r) {
        found := Occurs(regOf, r);
      }
      if found {
        count := count + 1;
      }
      assert (regUsed + [found])[..r] == regUsed;
      regUsed := regUsed + [found];
    }
    stackSize := (stackSize + count * 8 + 15) / 16 * 16;
  }

  /** The allocation never books a register twice at once, keeps the registers of the
      parameters apart, never gives out the stack or the base pointer, gives out the lowest free
      register while there is one, and keeps meaning if nothing is spilled and intervals span the
      loops. */
  method LinearScanAllocate(m: MFunc) returns (regOf: seq<nat>, slotOf: seq<int>, slots: nat, stackSize: nat, regUsed: seq<bool>)
    requires forall p :: p in m.params ==> p < m.nextVreg
    requires forall p, q :: 0 <= p < q < |m.params| ==> m.params[p] != m.params[q]
    ensures |regOf| == |slotOf| == m.nextVreg
    ensures exists t :: Allocated(m, t, regOf, slotOf)
    ensures PlainCode(m) && Forward(m) && Unspilled(m, regOf) ==> MRefines(m, RenameFunc(m, regOf))
    ensures ParamsApart(m.params, regOf, First6(m.params)) && Spared(regOf)
    ensures UsedRight(regOf, regUsed) && stackSize == FrameSize(slots, Count(regUsed))
    ensures forall v :: 0 <= v < |slotOf| ==> -1 <= slotOf[v] < slots
  {
    var t := ComputeLiveIntervals(m);
    var xs := CollectIntervals(m, t);
    var sorted := Sort(xs);
    var pb := Problem(sorted, m.nextVreg, m.params);
    SortedIsWellPosed(m, t, xs, pb);
    var scanner := new Scanner(pb);
    scanner.Run();
    regOf, slotOf, slots := scanner.regOf, scanner.slotOf, scanner.slots;
    SparedFromScan(regOf);
    hide *;
    BookedFromScan(m, t, xs, pb, regOf);
    ParamsFromScan(m, t, regOf);
    if PlainCode(m) && LoopsCovered(m, t) && Unspilled(m, regOf) {
      AssignedFromScan(m, t, regOf);
      LoopsAllocated(m, t, regOf);
    }
    if slots == 0 {
      FitFromScan(m, t, xs, pb, regOf);
    }
    AllocationIs(m, t, regOf, slotOf, slots, pb);
    if PlainCode(m) && Forward(m) && Unspilled(m, regOf) {
      TableSizes(m, t);
      ForwardLoops(m, t);
    }
    stackSize, regUsed := MeasureFrame(regOf, slots);
  }

  lemma SparedFromScan(regOf: seq<nat>)
    requires forall v :: 0 <= v < |regOf| && regOf[v] != REG_NONE ==> Allocatable(regOf[v])
    ensures Spared(regOf)
  {
  }

  lemma TableSizes(m: MFunc, t: Table)
    requires IsTable(m, t)
    ensures |t.starts| == |t.ends| == m.nextVreg
  {
  }

  lemma AllocationIs(m: MFunc, t: Table, regOf: seq<nat>, slotOf: seq<int>, slots: nat, pb: Problem)
    requires IsTable(m, t) && BookedApart(m, t, regOf) && |slotOf| == m.nextVreg && |pb.sorted| <= m.nextVreg
    requires PlainCode(m) && LoopsCovered(m, t) && Unspilled(m, regOf) ==> MRefines(m, RenameFunc(m, regOf))
    requires slots == 0 ==> FirstFit(m, t, regOf)
    requires slots > 0 ==> SomeSlot(slotOf)
    requires |pb.sorted| <= NEVER_RESERVED ==> slots == 0
    ensures Allocated(m, t, regOf, slotOf)
  {
    hide IsTable, BookedApart, PlainCode, LoopsCovered, Unspilled, MRefines, FirstFit;
  }

  lemma AssignedFromScan(m: MFunc, t: Table, regOf: seq<nat>)
    requires BookedApart(m, t, regOf) && Unspilled(m, regOf)
    ensures Assigns(m, t, regOf)
  {
    hide OccursAt;
  }

  lemma FitFromScan(m: MFunc, t: Table, xs: seq<Interval>, pb: Problem, regOf: seq<nat>)
    requires DistinctVregs(xs) && IntervalsOf(m, t, xs) && pb == Problem(Sort(xs), m.nextVreg, m.params) && |regOf| == m.nextVreg
    requires forall j: nat :: j < |pb.sorted| ==> FirstFree(pb, regOf, j)
    ensures FirstFit(m, t, regOf)
  {
    hide DistinctVregs, FirstFree, FitsAt, Sort;
    forall v: nat | v < m.nextVreg && t.starts[v] <= t.ends[v] ensures FitsAt(m, t, regOf, v) {
      var x := Interval(v, t.starts[v], t.ends[v], v in m.params);
      assert x in xs;
      var j :| 0 <= j < |pb.sorted| && pb.sorted[j] == x;
      FitFromFree(m, t, xs, pb, regOf, v, j);
    }
  }

  lemma FitFromFree(m: MFunc, t: Table, xs: seq<Interval>, pb: Problem, regOf: seq<nat>, v: nat, j: nat)
    requires DistinctVregs(xs) && IntervalsOf(m, t, xs) && pb == Problem(Sort(xs), m.nextVreg, m.params) && |regOf| == m.nextVreg
    requires v < m.nextVreg && j < |pb.sorted| && pb.sorted[j].vreg == v && pb.sorted[j].start == t.starts[v] && FirstFree(pb, regOf, j)
    ensures FitsAt(m, t, regOf, v)
  {
    hide Allocatable, Reserved;
    forall r: nat | r < regOf[v] && Allocatable(r) && !Reserved(m.params, r) ensures HeldBefore(m, t, regOf, v, r) {
      assert Taken(pb, regOf, j, r);
      var k :| 0 <= k < j && regOf[pb.sorted[k].vreg] == r && pb.sorted[k].end >= pb.sorted[j].start;
      SortedInOrder(xs, k, j);
      assert pb.sorted[k] in xs;
    }
  }

  lemma SortedInOrder(xs: seq<Interval>, k: nat, j: nat)
    requires DistinctVregs(xs) && k < j < |Sort(xs)|
    ensures Sort(xs)[k] in xs && StartsBefore(Sort(xs)[k], Sort(xs)[j])
  {
    assert Sort(xs)[k] in Sort(xs);
    hide StartsBefore;
  }

  /** The registers the parameters arrive in are safe from everybody else. */
  lemma ParamsFromScan(m: MFunc, t: Table, regOf: seq<nat>)
    requires IsTable(m, t) && BookedApart(m, t, regOf)
    requires forall p, q :: 0 <= p < q < |m.params| ==> m.params[p] != m.params[q]
    requires forall v :: 0 <= v < m.nextVreg && regOf[v] != REG_NONE ==> Allocatable(regOf[v])
    requires forall v, p :: 0 <= v < m.nextVreg && 0 <= p < |m.params| && p < 6 && regOf[v] == PARAM_REGS[p] ==> v == m.params[p]
    requires forall p :: 0 <= p < |m.params| && p < 6 ==> m.params[p] < m.nextVreg && regOf[m.params[p]] != REG_NONE
    ensures ParamsApart(m.params, regOf, First6(m.params))
  {
    SixRegs();
    ScanKeepsParamsApart(m, t, regOf, First6(m.params));
  }

  /** So the moves of the prologue put every parameter where the allocated code expects it. */
  lemma AllocatedParamsArrive(m: MFunc, regOf: seq<nat>, env: Env, p: nat)
    requires ParamsApart(m.params, regOf, First6(m.params)) && p < First6(m.params)
    requires forall q :: 0 <= q < First6(m.params) && q < |PARAM_REGS| ==> PARAM_REGS[q] in env
    ensures |PARAM_REGS| == 6
    ensures var env' := InSequence(ParamCopies(m.params, regOf, First6(m.params)), env);
            regOf[m.params[p]] in env' && env'[regOf[m.params[p]]] == env[PARAM_REGS[p]]
  {
    ParamsArrive(m.params, regOf, First6(m.params), env, p);
  }

  lemma SortedIsWellPosed(m: MFunc, t: Table, xs: seq<Interval>, pb: Problem)
    requires forall p :: p in m.params ==> p < m.nextVreg
    requires forall p, q :: 0 <= p < q < |m.params| ==> m.params[p] != m.params[q]
    requires DistinctVregs(xs) && IntervalsOf(m, t, xs) && pb == Problem(Sort(xs), m.nextVreg, m.params)
    ensures WellPosed(pb)
  {
    forall j | 0 <= j < |pb.sorted|
      ensures pb.sorted[j].vreg < pb.nvregs && pb.sorted[j].start <= pb.sorted[j].end && (pb.sorted[j].isParam <==> pb.sorted[j].vreg in pb.params)
    {
      assert pb.sorted[j] in pb.sorted && pb.sorted[j] in xs;
    }
  }

  lemma BookedFromScan(m: MFunc, t: Table, xs: seq<Interval>, pb: Problem, regOf: seq<nat>)
    requires DistinctVregs(xs) && IntervalsOf(m, t, xs) && pb == Problem(Sort(xs), m.nextVreg, m.params)
    requires WellPosed(pb) && NoDoubleBooking(pb, regOf)
    requires forall v :: 0 <= v < pb.nvregs && regOf[v] != REG_NONE ==> Allocatable(regOf[v])
    ensures BookedApart(m, t, regOf)
  {
    forall u, v | 0 <= u < m.nextVreg && 0 <= v < m.nextVreg && u != v && regOf[u] == regOf[v] != REG_NONE
                  && t.starts[u] <= t.ends[u] && t.starts[v] <= t.ends[v]
      ensures t.ends[u] < t.starts[v] || t.ends[v] < t.starts[u]
    {
      var j := PlaceOf(m, t, xs, pb, u);
      var k := PlaceOf(m, t, xs, pb, v);
      hide DistinctVregs, IntervalsOf, WellPosed, Sort;
      assert Apart(pb.sorted[j], pb.sorted[k]);
    }
  }

  /** Where the interval of a register stands in the sorted list. */
  lemma PlaceOf(m: MFunc, t: Table, xs: seq<Interval>, pb: Problem, v: nat) returns (j: nat)
    requires DistinctVregs(xs) && IntervalsOf(m, t, xs) && pb == Problem(Sort(xs), m.nextVreg, m.params)
    requires |t.starts| == |t.ends| == m.nextVreg && v < m.nextVreg && t.starts[v] <= t.ends[v]
    ensures j < |pb.sorted| && pb.sorted[j] == Interval(v, t.starts[v], t.ends[v], v in m.params)
  {
    var x := Interval(v, t.starts[v], t.ends[v], v in m.params);
    assert x in xs;
    hide DistinctVregs, IntervalsOf;
    assert x in pb.sorted;
    j :| 0 <= j < |pb.sorted| && pb.sorted[j] == x;
  }
}
