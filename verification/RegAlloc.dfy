/** Live intervals, the driver around the linear scan, and the rewriting of virtual into
    physical registers (src/regalloc.c:11-90, 100-136, 267-289). */
module RegAlloc {
  import opened Wrappers
  import opened Word64
  import opened Ssa
  import opened Mach
  import opened LinearScan

  const UINT32_MAX: nat := 0xFFFF_FFFF

  // ---- Instruction numbering ----

  /** The number of instructions in the first `b` blocks. */
  function Offset(m: MFunc, b: nat): nat {
    if b == 0 then 0 else Offset(m, b - 1) + if b <= |m.blocks| then |m.blocks[b - 1]| else 0
  }

  function Index(m: MFunc, b: nat, i: nat): nat {
    Offset(m, b) + i
  }

  lemma {:induction false} OffsetMonotone(m: MFunc, b: nat, c: nat)
    requires b < c && b < |m.blocks|
    ensures Offset(m, b) + |m.blocks[b]| <= Offset(m, c)
  {
    if c > b + 1 {
      OffsetMonotone(m, b, c - 1);
    }
  }

  // ---- Live intervals ----

  /** What counts as an occurrence: any operand field, used by the opcode or not, of any
      instruction that is not a label or a NOP. */
  predicate Mentions(inst: MachInst, v: nat) {
    && !inst.op.LABEL? && !inst.op.NOP?
    && (v == inst.dst || v == inst.src || v == inst.src2 || (inst.op.CALL? && v in inst.args))
  }

  ghost predicate OccursAt(m: MFunc, v: nat, b: nat, i: nat) {
    m.Has(b, i) && Mentions(m.At(b, i), v)
  }

  datatype Table = Table(starts: seq<nat>, ends: seq<nat>)

  /** Intervals run from the first occurrence (or the beginning, for parameters) to the last,
      in the order the blocks are laid out. */
  ghost predicate IsTable(m: MFunc, t: Table) {
    && |t.starts| == |t.ends| == m.nextVreg
    && (forall v, b: nat, i: nat :: 0 <= v < m.nextVreg && OccursAt(m, v, b, i) ==> t.starts[v] <= Index(m, b, i) <= t.ends[v])
    && (forall v :: 0 <= v < m.nextVreg && v in m.params ==> t.starts[v] == 0)
    && (forall v :: 0 <= v < m.nextVreg && v !in m.params ==> FirstOf(m, v, t.starts[v]))
    && (forall v :: 0 <= v < m.nextVreg ==> LastOf(m, v, t.ends[v]))
  }

  ghost predicate FirstOf(m: MFunc, v: nat, n: nat) {
    n == UINT32_MAX || exists b: nat, i: nat :: OccursAt(m, v, b, i) && Index(m, b, i) == n
  }

  ghost predicate LastOf(m: MFunc, v: nat, n: nat) {
    n == 0 || exists b: nat, i: nat :: OccursAt(m, v, b, i) && Index(m, b, i) == n
  }

  predicate Earlier(c: int, j: int, b: int, i: int) {
    c < b || (c == b && j < i)
  }

  /** The table when only the occurrences before (b, i) have been recorded. */
  ghost predicate Recorded(m: MFunc, t: Table, b: nat, i: nat) {
    && |t.starts| == |t.ends| == m.nextVreg
    && (forall v, c: nat, j: nat :: 0 <= v < m.nextVreg && OccursAt(m, v, c, j) && Earlier(c, j, b, i) ==>
          t.starts[v] <= Index(m, c, j) <= t.ends[v])
    && (forall v :: 0 <= v < m.nextVreg && v in m.params ==> t.starts[v] == 0)
    && (forall v :: 0 <= v < m.nextVreg && v !in m.params ==> FirstOf(m, v, t.starts[v]))
    && (forall v :: 0 <= v < m.nextVreg ==> LastOf(m, v, t.ends[v]))
  }

  /** Record one occurrence at `idx`. */
  function Touch(t: Table, v: nat, idx: nat): Table
    requires |t.starts| == |t.ends|
  {
    if v < |t.starts| then
      Table(if idx < t.starts[v] then t.starts[v := idx] else t.starts,
            if idx > t.ends[v] then t.ends[v := idx] else t.ends)
    else t
  }

  ghost predicate Touched(t: Table, t': Table, inst: MachInst, idx: nat) {
    && |t.starts| == |t.ends| == |t'.starts| == |t'.ends|
    && forall v :: 0 <= v < |t.starts| ==>
         && t'.starts[v] == (if Mentions(inst, v) && idx < t.starts[v] then idx else t.starts[v])
         && t'.ends[v] == (if Mentions(inst, v) && idx > t.ends[v] then idx else t.ends[v])
  }

  lemma TouchedRecords(m: MFunc, t: Table, t': Table, b: nat, i: nat)
    requires m.Has(b, i) && Recorded(m, t, b, i) && Touched(t, t', m.At(b, i), Index(m, b, i))
    ensures Recorded(m, t', b, i + 1)
  {
    var idx := Index(m, b, i);
    forall v | 0 <= v < m.nextVreg
      ensures v !in m.params ==> FirstOf(m, v, t'.starts[v])
      ensures LastOf(m, v, t'.ends[v])
    {
      if Mentions(m.At(b, i), v) {
        assert OccursAt(m, v, b, i);
      }
    }
    forall v, c: nat, j: nat | 0 <= v < m.nextVreg && OccursAt(m, v, c, j) && Earlier(c, j, b, i + 1)
      ensures t'.starts[v] <= Index(m, c, j) <= t'.ends[v]
    {
      if c == b && j == i {} else { assert Earlier(c, j, b, i); }
    }
  }

  ghost predicate TouchedAll(t: Table, t': Table, vs: seq<nat>, idx: nat) {
    && |t.starts| == |t.ends| == |t'.starts| == |t'.ends|
    && forall v :: 0 <= v < |t.starts| ==>
         && t'.starts[v] == (if v in vs && idx < t.starts[v] then idx else t.starts[v])
         && t'.ends[v] == (if v in vs && idx > t.ends[v] then idx else t.ends[v])
  }

  method RecordAll(vs: seq<nat>, idx: nat, t: Table) returns (t': Table)
    requires |t.starts| == |t.ends|
    ensures TouchedAll(t, t', vs, idx)
  {
    t' := t;
    for j := 0 to |vs|
      invariant TouchedAll(t, t', vs[..j], idx)
    {
      t' := Touch(t', vs[j], idx);
      assert vs[..j + 1] == vs[..j] + [vs[j]];
    }
    assert vs[..|vs|] == vs;
  }

  method RecordInst(inst: MachInst, idx: nat, t: Table) returns (t': Table)
    requires |t.starts| == |t.ends|
    ensures Touched(t, t', inst, idx)
  {
    t' := t;
    if !inst.op.LABEL? && !inst.op.NOP? {
      t' := RecordAll([inst.dst, inst.src, inst.src2], idx, t');
      if inst.op.CALL? {
        t' := RecordAll(inst.args, idx, t');
      }
    }
  }

  method ComputeLiveIntervals(m: MFunc) returns (t: Table)
    requires forall p :: p in m.params ==> p < m.nextVreg
    ensures IsTable(m, t)
  {
    t := Table(seq(m.nextVreg, _ => UINT32_MAX), seq(m.nextVreg, _ => 0));
    for p := 0 to |m.params|
      invariant |t.starts| == |t.ends| == m.nextVreg
      invariant forall v :: 0 <= v < m.nextVreg ==> t.starts[v] == (if v in m.params[..p] then 0 else UINT32_MAX) && t.ends[v] == 0
    {
      assert m.params[p] in m.params && m.params[..p + 1] == m.params[..p] + [m.params[p]];
      t := t.(starts := t.starts[m.params[p] := 0]);
    }
    assert m.params[..|m.params|] == m.params;
    var idx := 0;
    for b := 0 to |m.blocks|
      invariant Recorded(m, t, b, 0) && idx == Offset(m, b)
    {
      for i := 0 to |m.blocks[b]|
        invariant Recorded(m, t, b, i) && idx == Index(m, b, i)
      {
        ghost var before := t;
        t := RecordInst(m.blocks[b][i], idx, t);
        TouchedRecords(m, before, t, b, i);
        idx := idx + 1;
      }
      assert forall c, j: nat :: m.Has(c, j) && Earlier(c, j, b + 1, 0) ==> Earlier(c, j, b, |m.blocks[b]|);
    }
  }

  // ---- The sorted list ----

  ghost predicate DistinctVregs(xs: seq<Interval>) {
    forall j, k :: 0 <= j < k < |xs| ==> xs[j].vreg != xs[k].vreg
  }

  ghost predicate SortedByStart(xs: seq<Interval>) {
    forall j, k :: 0 <= j < k < |xs| ==> StartsBefore(xs[j], xs[k])
  }

  predicate StartsBefore(x: Interval, y: Interval) {
    if x.start != y.start then x.start < y.start else x.vreg < y.vreg
  }

  /** The library sort with the source's comparison (src/regalloc.c:93-98). */
  function Sort(xs: seq<Interval>): (ys: seq<Interval>)
    requires DistinctVregs(xs)
    ensures SortedByStart(ys) && DistinctVregs(ys) && |ys| == |xs|
    ensures forall x :: x in ys <==> x in xs
  {
    if xs == [] then []
    else
      assert forall x :: x in xs <==> x == xs[0] || x in xs[1..];
      InsertSorted(xs[0], Sort(xs[1..]))
  }

  function InsertSorted(x: Interval, ys: seq<Interval>): (zs: seq<Interval>)
    requires SortedByStart(ys) && DistinctVregs(ys) && forall y :: y in ys ==> y.vreg != x.vreg
    ensures SortedByStart(zs) && DistinctVregs(zs) && |zs| == |ys| + 1
    ensures forall z :: z in zs <==> z == x || z in ys
  {
    if ys == [] then [x]
    else if StartsBefore(x, ys[0]) then [x] + ys
    else
      var rest := InsertSorted(x, ys[1..]);
      assert forall z :: z in rest ==> z == x || z in ys[1..];
      assert forall k :: 0 <= k < |rest| ==> rest[k] in rest;
      assert forall z :: z in ys <==> z == ys[0] || z in ys[1..];
      [ys[0]] + rest
  }

  ghost predicate IntervalsOf(m: MFunc, t: Table, xs: seq<Interval>) {
    && |t.starts| == |t.ends| == m.nextVreg
    && forall x :: x in xs <==> (x.vreg < m.nextVreg && x == Interval(x.vreg, t.starts[x.vreg], t.ends[x.vreg], x.vreg in m.params)
                                 && x.start <= x.end)
  }

  method CollectIntervals(m: MFunc, t: Table) returns (xs: seq<Interval>)
    requires |t.starts| == |t.ends| == m.nextVreg
    ensures DistinctVregs(xs) && IntervalsOf(m, t, xs) && |xs| <= m.nextVreg
  {
    xs := [];
    for v := 0 to m.nextVreg
      invariant |xs| <= v
      invariant DistinctVregs(xs)
      invariant forall x :: x in xs <==> (x.vreg < v && x == Interval(x.vreg, t.starts[x.vreg], t.ends[x.vreg], x.vreg in m.params)
                                          && x.start <= x.end)
    {
      if t.starts[v] <= t.ends[v] {
        xs := xs + [Interval(v, t.starts[v], t.ends[v], v in m.params)];
      }
    }
  }

  // ---- Rewriting ----

  function Rename(v: nat, regOf: seq<nat>): nat {
    if v != INVALID_VREG && v < |regOf| then regOf[v] else v
  }

  /** src/regalloc.c:267-289. */
  function RenameInst(inst: MachInst, regOf: seq<nat>): MachInst {
    var i1 := if inst.op.LABEL? || inst.op.NOP? then inst
              else inst.(dst := Rename(inst.dst, regOf), src := Rename(inst.src, regOf));
    i1.(src2 := Rename(inst.src2, regOf))
  }

  function RenameBlock(b: MachBlock, regOf: seq<nat>): MachBlock {
    seq(|b|, i requires 0 <= i < |b| => RenameInst(b[i], regOf))
  }

  function RenameAll(vs: seq<nat>, regOf: seq<nat>): seq<nat> {
    seq(|vs|, p requires 0 <= p < |vs| => Rename(vs[p], regOf))
  }

  /** The allocated function, its parameters in the registers they were given. */
  function RenameFunc(m: MFunc, regOf: seq<nat>): MFunc {
    MFunc(seq(|m.blocks|, b requires 0 <= b < |m.blocks| => RenameBlock(m.blocks[b], regOf)), m.nextVreg,
          RenameAll(m.params, regOf))
  }

  // ---- When the rewriting keeps meaning ----

  /** The register-only instructions; calls, divisions and shifts involve fixed registers. */
  predicate Plain(op: MachOp) {
    || op.MOV? || op.MOV_IMM? || op.ADD? || op.SUB? || op.MUL? || op.AND? || op.OR? || op.CMP? || op.TEST?
    || op.SET? || op.JMP? || op.JE? || op.JNE? || op.RET? || op.LABEL? || op.NOP?
  }

  ghost predicate PlainCode(m: MFunc) {
    && m.nextVreg <= INVALID_VREG
    && (forall b, i :: m.Has(b, i) ==> Plain(m.At(b, i).op))
    && (forall b, i, v: nat :: m.Has(b, i) && ReadsReg(m.At(b, i), v) ==> v < m.nextVreg)
    && (forall b, i :: m.Has(b, i) && Writes(m.At(b, i)).Some? ==> m.At(b, i).dst < m.nextVreg)
    && (forall p :: p in m.params ==> p < m.nextVreg)
    && (forall p, q :: 0 <= p < q < |m.params| ==> m.params[p] != m.params[q])
  }

  /** What may have been written, and what may still be read, at each instruction. */
  datatype Facts = Facts(written: (nat, nat) -> set<nat>, live: (nat, nat) -> set<nat>)

  ghost predicate Successor(m: MFunc, b: nat, i: nat, c: nat, j: nat)
    requires m.Has(b, i)
  {
    var inst := m.At(b, i);
    || (!inst.op.JMP? && !inst.op.RET? && c == b && j == i + 1)
    || (inst.op.IsJump() && c == inst.target && j == 0)
  }

  /** The two analyses are solved, and wherever an instruction writes one register while
      another holds a value still wanted, the other's interval covers the instruction. */
  ghost predicate Covers(m: MFunc, t: Table, facts: Facts) {
    && |t.starts| == |t.ends| == m.nextVreg
    && (forall v :: v in m.params ==> v in facts.written(0, 0))
    && (forall b: nat, i: nat, v: nat :: m.Has(b, i) && ReadsReg(m.At(b, i), v) && v in facts.written(b, i) ==> v in facts.live(b, i))
    && (forall b: nat, i: nat, c: nat, j: nat :: m.Has(b, i) && Successor(m, b, i, c, j) ==> CoversEdge(m, t, facts, b, i, c, j))
  }

  ghost predicate CoversEdge(m: MFunc, t: Table, facts: Facts, b: nat, i: nat, c: nat, j: nat)
    requires m.Has(b, i) && |t.starts| == |t.ends| == m.nextVreg
  {
    var def := Writes(m.At(b, i));
    && (forall v :: v in facts.written(b, i) ==> v in facts.written(c, j))
    && (def.Some? ==> def.value in facts.written(c, j))
    && (forall v :: v in facts.live(c, j) && def != Some(v) ==>
          && v in facts.live(b, i)
          && (v in facts.written(b, i) && v < m.nextVreg ==> t.starts[v] <= Index(m, b, i) <= t.ends[v]))
  }

  /** Every register that occurs, and every parameter, has been given a physical one, and
      registers with overlapping intervals different ones. */
  ghost predicate Assigns(m: MFunc, t: Table, regOf: seq<nat>) {
    && |t.starts| == |t.ends| == |regOf| == m.nextVreg
    && (forall v :: 0 <= v < m.nextVreg ==> regOf[v] < REG_COUNT)
    && (forall u, v :: 0 <= u < m.nextVreg && 0 <= v < m.nextVreg && u != v && regOf[u] == regOf[v] != REG_NONE
                       && t.starts[u] <= t.ends[u] && t.starts[v] <= t.ends[v] ==>
          t.ends[u] < t.starts[v] || t.ends[v] < t.starts[u])
    && (forall v :: v in m.params && v < m.nextVreg ==> regOf[v] != REG_NONE)
    && (forall v, b: nat, i: nat :: 0 <= v < m.nextVreg && OccursAt(m, v, b, i) ==> regOf[v] != REG_NONE)
  }

  /** Registers with overlapping intervals are different. */
  ghost predicate BookedApart(m: MFunc, t: Table, regOf: seq<nat>) {
    && |t.starts| == |t.ends| == |regOf| == m.nextVreg
    && (forall v :: 0 <= v < m.nextVreg ==> regOf[v] < REG_COUNT)
    && (forall u, v :: 0 <= u < m.nextVreg && 0 <= v < m.nextVreg && u != v && regOf[u] == regOf[v] != REG_NONE
                       && t.starts[u] <= t.ends[u] && t.starts[v] <= t.ends[v] ==>
          t.ends[u] < t.starts[v] || t.ends[v] < t.starts[u])
  }

  /** At an instruction: everything written and still wanted sits in its register. */
  ghost predicate Placed(m: MFunc, regOf: seq<nat>, facts: Facts, b: nat, i: nat, env: Env, regs: Env) {
    && (forall v :: v in env ==> v < |regOf| && v in facts.written(b, i))
    && (forall v :: v in env && v in facts.live(b, i) && v < |regOf| ==> regOf[v] in regs && regs[regOf[v]] == env[v])
  }

  ghost predicate Ready(m: MFunc, t: Table, regOf: seq<nat>, facts: Facts) {
    PlainCode(m) && IsTable(m, t) && Assigns(m, t, regOf) && Covers(m, t, facts)
  }

  /** A value still wanted sits elsewhere than the register written. */
  lemma WrittenApart(m: MFunc, t: Table, regOf: seq<nat>, facts: Facts, b: nat, i: nat, c: nat, j: nat, v: nat)
    requires Ready(m, t, regOf, facts) && m.Has(b, i) && Successor(m, b, i, c, j) && Writes(m.At(b, i)).Some?
    requires v != m.At(b, i).dst && v in facts.live(c, j) && v in facts.written(b, i) && v < |regOf|
    ensures m.At(b, i).dst < |regOf| && regOf[v] != regOf[m.At(b, i).dst]
  {
    hide Ready, Successor, Writes;
    WantedSpans(m, t, regOf, facts, b, i, c, j, v);
    WrittenSpans(m, t, regOf, facts, b, i);
    SpansApart(m, t, regOf, facts, v, m.At(b, i).dst, Index(m, b, i));
  }

  lemma WantedSpans(m: MFunc, t: Table, regOf: seq<nat>, facts: Facts, b: nat, i: nat, c: nat, j: nat, v: nat)
    requires Ready(m, t, regOf, facts) && m.Has(b, i) && Successor(m, b, i, c, j) && Writes(m.At(b, i)).Some?
    requires v != m.At(b, i).dst && v in facts.live(c, j) && v in facts.written(b, i) && v < |regOf|
    ensures |t.starts| == |t.ends| == |regOf| && t.starts[v] <= Index(m, b, i) <= t.ends[v]
  {
    assert CoversEdge(m, t, facts, b, i, c, j) && |regOf| == m.nextVreg;
    hide PlainCode, IsTable, Assigns, Successor;
  }

  lemma WrittenSpans(m: MFunc, t: Table, regOf: seq<nat>, facts: Facts, b: nat, i: nat)
    requires Ready(m, t, regOf, facts) && m.Has(b, i) && Writes(m.At(b, i)).Some?
    ensures |t.starts| == |t.ends| == |regOf| && m.At(b, i).dst < |regOf| && regOf[m.At(b, i).dst] != REG_NONE
    ensures t.starts[m.At(b, i).dst] <= Index(m, b, i) <= t.ends[m.At(b, i).dst]
  {
    hide Covers;
    assert Plain(m.At(b, i).op);
    assert OccursAt(m, m.At(b, i).dst, b, i);
  }

  lemma SpansApart(m: MFunc, t: Table, regOf: seq<nat>, facts: Facts, u: nat, v: nat, k: nat)
    requires Ready(m, t, regOf, facts) && u != v && |t.starts| == |t.ends| == |regOf| && u < |regOf| && v < |regOf| && regOf[v] != REG_NONE
    requires t.starts[u] <= k <= t.ends[u] && t.starts[v] <= k <= t.ends[v]
    ensures regOf[u] != regOf[v]
  {
    hide Covers, PlainCode, IsTable, OccursAt;
  }

  lemma WrittenRegister(m: MFunc, t: Table, regOf: seq<nat>, facts: Facts, b: nat, i: nat)
    requires Ready(m, t, regOf, facts) && m.Has(b, i) && Writes(m.At(b, i)).Some?
    ensures m.At(b, i).dst < |regOf| && RenameInst(m.At(b, i), regOf).dst == regOf[m.At(b, i).dst]
  {
  }

  /** What an instruction adds to the facts. */
  lemma FactsStep(m: MFunc, t: Table, regOf: seq<nat>, facts: Facts, b: nat, i: nat, c: nat, j: nat)
    requires Ready(m, t, regOf, facts) && m.Has(b, i) && Successor(m, b, i, c, j)
    ensures var def := Writes(m.At(b, i));
            && (forall v :: v in facts.written(b, i) ==> v in facts.written(c, j))
            && (def.Some? ==> def.value in facts.written(c, j))
            && (forall v :: v in facts.live(c, j) && def != Some(v) ==> v in facts.live(b, i))
  {
    assert CoversEdge(m, t, facts, b, i, c, j);
  }

  /** A write disturbs no other value still wanted. */
  lemma WriteKeepsPlaced(m: MFunc, t: Table, regOf: seq<nat>, facts: Facts, b: nat, i: nat, c: nat, j: nat, env: Env, regs: Env, x: Int64)
    requires Ready(m, t, regOf, facts) && m.Has(b, i) && Successor(m, b, i, c, j)
    requires Writes(m.At(b, i)).Some?
    requires Placed(m, regOf, facts, b, i, env, regs)
    ensures Placed(m, regOf, facts, c, j, env[m.At(b, i).dst := x], regs[RenameInst(m.At(b, i), regOf).dst := x])
  {
    var d := m.At(b, i).dst;
    WrittenRegister(m, t, regOf, facts, b, i);
    FactsStep(m, t, regOf, facts, b, i, c, j);
    hide Ready, Successor, RenameInst;
    forall v | v in env && v != d && v in facts.live(c, j) && v < |regOf| ensures regOf[v] != regOf[d] {
      WrittenApart(m, t, regOf, facts, b, i, c, j, v);
    }
  }

  lemma NoWriteKeepsPlaced(m: MFunc, t: Table, regOf: seq<nat>, facts: Facts, b: nat, i: nat, c: nat, j: nat, env: Env, regs: Env)
    requires Ready(m, t, regOf, facts) && m.Has(b, i) && Successor(m, b, i, c, j)
    requires Writes(m.At(b, i)).None?
    requires Placed(m, regOf, facts, b, i, env, regs)
    ensures Placed(m, regOf, facts, c, j, env, regs)
  {
    assert CoversEdge(m, t, facts, b, i, c, j);
  }

  lemma ReadPlaced(m: MFunc, t: Table, regOf: seq<nat>, facts: Facts, b: nat, i: nat, env: Env, regs: Env, v: nat)
    requires Ready(m, t, regOf, facts) && m.Has(b, i) && ReadsReg(m.At(b, i), v)
    requires Placed(m, regOf, facts, b, i, env, regs) && v in env
    ensures v != INVALID_VREG && Rename(v, regOf) in regs && regs[Rename(v, regOf)] == env[v]
  {
  }

  lemma RenamedOperands(m: MFunc, t: Table, regOf: seq<nat>, facts: Facts, b: nat, i: nat, env: Env, regs: Env)
    requires Ready(m, t, regOf, facts) && m.Has(b, i) && Placed(m, regOf, facts, b, i, env, regs)
    ensures var inst, inst' := m.At(b, i), RenameInst(m.At(b, i), regOf);
            && (ReadsReg(inst, inst.src) && inst.src in env && !inst.op.LABEL? && !inst.op.NOP? ==>
                  inst'.src in regs && regs[inst'.src] == env[inst.src])
            && (ReadsReg(inst, inst.src2) && inst.src2 in env ==> inst'.src2 in regs && regs[inst'.src2] == env[inst.src2])
  {
    hide Ready, Placed;
    var inst := m.At(b, i);
    if ReadsReg(inst, inst.src) && inst.src in env { ReadPlaced(m, t, regOf, facts, b, i, env, regs, inst.src); }
    if ReadsReg(inst, inst.src2) && inst.src2 in env { ReadPlaced(m, t, regOf, facts, b, i, env, regs, inst.src2); }
  }

  /** With equal operands, equal value and flags. */
  lemma SameOperandsSameValue(inst: MachInst, inst': MachInst, env: Env, regs: Env, flags: Flags)
    requires Plain(inst.op) && inst'.op == inst.op && inst'.imm == inst.imm
    requires ReadsReg(inst, inst.src) && inst.src in env ==> inst'.src in regs && regs[inst'.src] == env[inst.src]
    requires ReadsReg(inst, inst.src2) && inst.src2 in env ==> inst'.src2 in regs && regs[inst'.src2] == env[inst.src2]
    ensures inst.op.Computes() && ValueOf(inst, env, flags).Some? ==>
              inst'.op.Computes() && ValueOf(inst', regs, flags) == ValueOf(inst, env, flags) && FlagsAfter(inst', regs, flags) == FlagsAfter(inst, env, flags)
    ensures (inst.op.CMP? || inst.op.TEST?) && inst.src in env && inst.src2 in env ==>
              inst'.src in regs && inst'.src2 in regs && FlagsAfter(inst', regs, flags) == FlagsAfter(inst, env, flags)
  {
    hide EvalBinop, EvalUnop, EvalCmp;
  }

  /** The same instruction on two register files that agree on its operands. */
  lemma SameOperandsSameStep(w: World, inst: MachInst, inst': MachInst, env: Env, regs: Env, flags: Flags, trace: Trace)
    requires Plain(inst.op) && inst'.op == inst.op && inst'.imm == inst.imm && !inst.op.IsJump() && !inst.op.RET?
    requires ReadsReg(inst, inst.src) && inst.src in env ==> inst'.src in regs && regs[inst'.src] == env[inst.src]
    requires ReadsReg(inst, inst.src2) && inst.src2 in env ==> inst'.src2 in regs && regs[inst'.src2] == env[inst.src2]
    requires ExecM(w, inst, env, flags, trace).MWent?
    ensures var r, r' := ExecM(w, inst, env, flags, trace), ExecM(w, inst', regs, flags, trace);
            && r'.MWent? && r'.flags == r.flags && r'.trace == r.trace
            && (Writes(inst).Some? ==> inst.dst in r.env && r.env == env[inst.dst := r.env[inst.dst]] && r'.env == regs[inst'.dst := r.env[inst.dst]])
            && (Writes(inst).None? ==> r.env == env && r'.env == regs)
  {
    SameOperandsSameValue(inst, inst', env, regs, flags);
    hide ValueOf, FlagsAfter;
  }

  /** One rewritten instruction: same value, same flags. */
  lemma RenamedExec(w: World, m: MFunc, t: Table, regOf: seq<nat>, facts: Facts, b: nat, i: nat,
                    env: Env, regs: Env, flags: Flags, trace: Trace)
    requires Ready(m, t, regOf, facts) && m.Has(b, i)
    requires !m.At(b, i).op.IsJump() && !m.At(b, i).op.RET?
    requires Placed(m, regOf, facts, b, i, env, regs)
    requires ExecM(w, m.At(b, i), env, flags, trace).MWent?
    ensures !RenameInst(m.At(b, i), regOf).op.IsJump() && !RenameInst(m.At(b, i), regOf).op.RET?
    ensures var r, r' := ExecM(w, m.At(b, i), env, flags, trace), ExecM(w, RenameInst(m.At(b, i), regOf), regs, flags, trace);
            r'.MWent? && r'.flags == r.flags && r'.trace == r.trace && Placed(m, regOf, facts, b, i + 1, r.env, r'.env)
  {
    var inst := m.At(b, i);
    assert Plain(inst.op) by { PlainAt(m, b, i); }
    assert Successor(m, b, i, b, i + 1);
    var inst' := RenameInst(inst, regOf);
    assert inst'.op == inst.op && inst'.imm == inst.imm;
    hide Ready, Placed, ExecM, Plain, Successor, RenameInst, ReadsReg;
    RenamedOperands(m, t, regOf, facts, b, i, env, regs);
    SameOperandsSameStep(w, inst, RenameInst(inst, regOf), env, regs, flags, trace);
    if Writes(inst).Some? {
      WriteKeepsPlaced(m, t, regOf, facts, b, i, b, i + 1, env, regs, ExecM(w, inst, env, flags, trace).env[inst.dst]);
    } else {
      NoWriteKeepsPlaced(m, t, regOf, facts, b, i, b, i + 1, env, regs);
    }
  }

  lemma PlainAt(m: MFunc, b: nat, i: nat)
    requires PlainCode(m) && m.Has(b, i)
    ensures Plain(m.At(b, i).op)
  {
  }

  ghost predicate ExitPlaced(m: MFunc, regOf: seq<nat>, facts: Facts, r: Exit, r': Exit) {
    match r
    case Fault => false
    case Return(_, _) => r' == r
    case Goto(c, env, trace) => r'.Goto? && r'.target == c && r'.trace == trace && Placed(m, regOf, facts, c, 0, env, r'.env)
  }

  lemma {:induction false} RenamedBlock(w: World, m: MFunc, t: Table, regOf: seq<nat>, facts: Facts, b: nat, i: nat,
                                        env: Env, regs: Env, flags: Flags, trace: Trace)
    requires Ready(m, t, regOf, facts) && b < |m.blocks| && i <= |m.blocks[b]|
    requires Placed(m, regOf, facts, b, i, env, regs)
    requires !RunM(w, m.blocks[b], i, env, flags, trace).Fault?
    ensures ExitPlaced(m, regOf, facts, RunM(w, m.blocks[b], i, env, flags, trace),
                       RunM(w, RenameBlock(m.blocks[b], regOf), i, regs, flags, trace))
    decreases |m.blocks[b]| - i
  {
    hide Ready, Placed;
    assert m.Has(b, i);
    var inst := m.At(b, i);
    var inst' := RenameBlock(m.blocks[b], regOf)[i];
    assert inst' == RenameInst(inst, regOf);
    if inst.op.IsJump() {
      JumpPlaced(m, t, regOf, facts, b, i, inst.target, 0, env, regs);
      if !inst.op.JMP? {
        JumpPlaced(m, t, regOf, facts, b, i, b, i + 1, env, regs);
        if (flags.value.0 != flags.value.1) != inst.op.JNE? {
          RenamedBlock(w, m, t, regOf, facts, b, i + 1, env, regs, flags, trace);
        }
      }
    } else if inst.op.RET? {
      if inst.src != INVALID_VREG {
        ReadPlaced(m, t, regOf, facts, b, i, env, regs, inst.src);
        RetRegister(m, t, regOf, facts, b, i);
      }
    } else {
      RenamedExec(w, m, t, regOf, facts, b, i, env, regs, flags, trace);
      var r, r' := ExecM(w, inst, env, flags, trace), ExecM(w, inst', regs, flags, trace);
      RenamedBlock(w, m, t, regOf, facts, b, i + 1, r.env, r'.env, r.flags, r.trace);
    }
  }

  lemma JumpPlaced(m: MFunc, t: Table, regOf: seq<nat>, facts: Facts, b: nat, i: nat, c: nat, j: nat, env: Env, regs: Env)
    requires Ready(m, t, regOf, facts) && m.Has(b, i) && m.At(b, i).op.IsJump()
    requires Successor(m, b, i, c, j) && Placed(m, regOf, facts, b, i, env, regs)
    ensures Placed(m, regOf, facts, c, j, env, regs)
  {
    NoWriteKeepsPlaced(m, t, regOf, facts, b, i, c, j, env, regs);
  }

  lemma RetRegister(m: MFunc, t: Table, regOf: seq<nat>, facts: Facts, b: nat, i: nat)
    requires Ready(m, t, regOf, facts) && m.Has(b, i) && m.At(b, i).op.RET? && m.At(b, i).src != INVALID_VREG
    ensures RenameInst(m.At(b, i), regOf).src != INVALID_VREG
  {
    assert ReadsReg(m.At(b, i), m.At(b, i).src);
  }

  // ---- Whole runs ----

  lemma {:induction false} BindRenamed(params: seq<nat>, regOf: seq<nat>, actuals: seq<Int64>)
    requires forall p :: 0 <= p < |params| ==> params[p] < |regOf| && params[p] != INVALID_VREG
    requires forall p, q :: 0 <= p < q < |params| ==> params[p] != params[q] && regOf[params[p]] != regOf[params[q]]
    ensures var renamed := RenameAll(params, regOf);
            forall v :: v in Bind(params, actuals) ==>
              v in params && v < |regOf| && regOf[v] in Bind(renamed, actuals) && Bind(renamed, actuals)[regOf[v]] == Bind(params, actuals)[v]
  {
    if params != [] && actuals != [] {
      BindRenamed(params[1..], regOf, actuals[1..]);
      var renamed := RenameAll(params, regOf);
      assert renamed[1..] == RenameAll(params[1..], regOf);
      forall v | v in Bind(params, actuals)
        ensures v in params && v < |regOf| && regOf[v] in Bind(renamed, actuals) && Bind(renamed, actuals)[regOf[v]] == Bind(params, actuals)[v]
      {
        if v != params[0] {
          var p :| 0 <= p < |params[1..]| && params[1..][p] == v;
          assert params[p + 1] == v;
        }
      }
    }
  }

  lemma ParamsDiffer(m: MFunc, t: Table, regOf: seq<nat>)
    requires PlainCode(m) && IsTable(m, t) && Assigns(m, t, regOf)
    ensures forall p :: 0 <= p < |m.params| ==> m.params[p] < |regOf| && m.params[p] != INVALID_VREG
    ensures forall p, q :: 0 <= p < q < |m.params| ==> m.params[p] != m.params[q] && regOf[m.params[p]] != regOf[m.params[q]]
  {
    forall p | 0 <= p < |m.params|
      ensures m.params[p] < |regOf| && regOf[m.params[p]] != REG_NONE && t.starts[m.params[p]] == 0
    {
      assert m.params[p] in m.params;
    }
  }

  lemma StartPlaced(m: MFunc, t: Table, regOf: seq<nat>, facts: Facts, actuals: seq<Int64>)
    requires Ready(m, t, regOf, facts)
    ensures Placed(m, regOf, facts, 0, 0, Bind(m.params, actuals), Bind(RenameFunc(m, regOf).params, actuals))
  {
    ParamsDiffer(m, t, regOf);
    assert forall v :: v in m.params ==> v in facts.written(0, 0);
    hide Ready, PlainCode, IsTable, Assigns, Covers;
    BindRenamed(m.params, regOf, actuals);
  }

  lemma {:induction false} RenamedRun(w: World, m: MFunc, t: Table, regOf: seq<nat>, facts: Facts, actuals: seq<Int64>, n: nat)
    requires Ready(m, t, regOf, facts) && !RunMFunc(w, m, actuals, n).MFaulted?
    ensures var s, s' := RunMFunc(w, m, actuals, n), RunMFunc(w, RenameFunc(m, regOf), actuals, n);
            ObserveM(s) == ObserveM(s') && (s.MRunning? ==> Placed(m, regOf, facts, s.block, 0, s.env, s'.env))
  {
    hide Ready, Placed;
    if n == 0 {
      StartPlaced(m, t, regOf, facts, actuals);
    } else {
      RenamedRun(w, m, t, regOf, facts, actuals, n - 1);
      var s, s' := RunMFunc(w, m, actuals, n - 1), RunMFunc(w, RenameFunc(m, regOf), actuals, n - 1);
      if s.MRunning? && s.block < |m.blocks| {
        RenamedBlock(w, m, t, regOf, facts, s.block, 0, s.env, s'.env, None, s.trace);
      }
    }
  }

  /** If the intervals cover liveness, the allocation keeps meaning. */
  lemma AllocationPreserves(m: MFunc, t: Table, regOf: seq<nat>, facts: Facts)
    requires Ready(m, t, regOf, facts)
    ensures MRefines(m, RenameFunc(m, regOf))
  {
    forall w: World, actuals, n: nat | !RunMFunc(w, m, actuals, n).MFaulted?
      ensures ObserveM(RunMFunc(w, RenameFunc(m, regOf), actuals, n)) == ObserveM(RunMFunc(w, m, actuals, n))
    {
      RenamedRun(w, m, t, regOf, facts, actuals, n);
    }
  }

  // ---- Forward code ----

  /** Every jump goes to a block laid out later. */
  ghost predicate Forward(m: MFunc) {
    forall b, i :: m.Has(b, i) && m.At(b, i).op.IsJump() ==> m.At(b, i).target > b
  }

  ghost function WrittenBefore(m: MFunc, t: Table, idx: nat): set<nat>
    requires |t.starts| == |t.ends| == m.nextVreg
  {
    set v | 0 <= v < m.nextVreg && (v in m.params || t.starts[v] < idx)
  }

  ghost function WantedAfter(m: MFunc, t: Table, idx: nat): set<nat>
    requires |t.starts| == |t.ends| == m.nextVreg
  {
    set v | 0 <= v < m.nextVreg && t.ends[v] >= idx
  }

  ghost function ForwardFacts(m: MFunc, t: Table): Facts
    requires |t.starts| == |t.ends| == m.nextVreg
  {
    Facts((b, i) => WrittenBefore(m, t, Index(m, b, i)), (b, i) => WantedAfter(m, t, Index(m, b, i)))
  }

  lemma SuccessorLater(m: MFunc, b: nat, i: nat, c: nat, j: nat)
    requires Forward(m) && m.Has(b, i) && Successor(m, b, i, c, j)
    ensures Index(m, b, i) < Index(m, c, j)
  {
    if m.At(b, i).op.IsJump() && c == m.At(b, i).target && j == 0 {
      OffsetMonotone(m, b, c);
    }
  }

  /** Without backward jumps, first-to-last-occurrence intervals cover liveness. */
  lemma ForwardCovers(m: MFunc, t: Table)
    requires PlainCode(m) && IsTable(m, t) && Forward(m)
    ensures Covers(m, t, ForwardFacts(m, t))
  {
    var facts := ForwardFacts(m, t);
    forall b: nat, i: nat, v: nat | m.Has(b, i) && ReadsReg(m.At(b, i), v) ensures v in facts.live(b, i) {
      assert Plain(m.At(b, i).op);
      assert OccursAt(m, v, b, i);
    }
    forall b: nat, i: nat, c: nat, j: nat | m.Has(b, i) && Successor(m, b, i, c, j)
      ensures CoversEdge(m, t, facts, b, i, c, j)
    {
      SuccessorLater(m, b, i, c, j);
      if Writes(m.At(b, i)).Some? {
        assert OccursAt(m, m.At(b, i).dst, b, i);
      }
    }
  }
}
