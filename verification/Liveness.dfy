/** Exactly when first-to-last-occurrence intervals (src/regalloc.c:11-90) cover the liveness
    of code with loops. */
module Liveness {
  import opened Wrappers
  import opened Ssa
  import opened Mach
  import opened RegAlloc

  // ---- Liveness over the paths of the code ----

  /** Within `n` steps from (b, i) register `v` is read, without being written before. */
  ghost predicate LiveIn(m: MFunc, v: nat, b: nat, i: nat, n: nat)
    decreases n
  {
    && m.Has(b, i)
    && (|| ReadsReg(m.At(b, i), v)
        || (n > 0 && Writes(m.At(b, i)) != Some(v)
            && exists c: nat, j: nat :: Successor(m, b, i, c, j) && LiveIn(m, v, c, j, n - 1)))
  }

  ghost predicate Live(m: MFunc, v: nat, b: nat, i: nat) {
    exists n: nat :: LiveIn(m, v, b, i, n)
  }

  /** `v` is a parameter at the start, or is written at most `n` steps before (b, i). */
  ghost predicate WrittenIn(m: MFunc, v: nat, b: nat, i: nat, n: nat)
    decreases n
  {
    || (b == 0 && i == 0 && v in m.params)
    || (n > 0 && exists c: nat, j: nat :: m.Has(c, j) && Successor(m, c, j, b, i)
                   && (Writes(m.At(c, j)) == Some(v) || WrittenIn(m, v, c, j, n - 1)))
  }

  ghost predicate Written(m: MFunc, v: nat, b: nat, i: nat) {
    exists n: nat :: WrittenIn(m, v, b, i, n)
  }

  ghost function TrueFacts(m: MFunc): Facts {
    Facts((b: nat, i: nat) => set v | 0 <= v < m.nextVreg && Written(m, v, b, i),
          (b: nat, i: nat) => set v | 0 <= v < m.nextVreg && Live(m, v, b, i))
  }

  lemma LiveBack(m: MFunc, v: nat, b: nat, i: nat, c: nat, j: nat)
    requires m.Has(b, i) && Successor(m, b, i, c, j) && Live(m, v, c, j) && Writes(m.At(b, i)) != Some(v)
    ensures Live(m, v, b, i)
  {
    var n: nat :| LiveIn(m, v, c, j, n);
    assert LiveIn(m, v, b, i, n + 1);
  }

  lemma WrittenOn(m: MFunc, v: nat, b: nat, i: nat, c: nat, j: nat)
    requires m.Has(b, i) && Successor(m, b, i, c, j) && (Written(m, v, b, i) || Writes(m.At(b, i)) == Some(v))
    ensures Written(m, v, c, j)
  {
    var n: nat := if Written(m, v, b, i) then var k: nat :| WrittenIn(m, v, b, i, k); k else 0;
    assert WrittenIn(m, v, c, j, n + 1);
  }

  // ---- Occurrences ----

  lemma ReadOccurs(m: MFunc, t: Table, v: nat, b: nat, i: nat)
    requires PlainCode(m) && IsTable(m, t) && m.Has(b, i) && v < m.nextVreg
    requires ReadsReg(m.At(b, i), v) || Writes(m.At(b, i)) == Some(v)
    ensures t.starts[v] <= Index(m, b, i) <= t.ends[v]
  {
    assert Plain(m.At(b, i).op);
    assert OccursAt(m, v, b, i);
  }

  /** An edge that does not jump back leads to a later instruction. */
  lemma ForwardEdge(m: MFunc, b: nat, i: nat, c: nat, j: nat)
    requires m.Has(b, i) && Successor(m, b, i, c, j)
    ensures (m.At(b, i).op.IsJump() && c == m.At(b, i).target <= b && j == 0) || Index(m, b, i) < Index(m, c, j)
  {
    if !(c == b && j == i + 1) && c > b {
      OffsetMonotone(m, b, c);
    }
  }

  // ---- The condition ----

  /** At every jump back, what is live into its target, and may have been written by then, has
      an interval that spans the whole loop. */
  ghost predicate LoopsCovered(m: MFunc, t: Table)
    requires |t.starts| == |t.ends| == m.nextVreg
  {
    forall b: nat, i: nat, v: nat :: JumpsBack(m, b, i) && v < m.nextVreg && Written(m, v, b, i) && Live(m, v, m.At(b, i).target, 0) ==>
      t.starts[v] <= Offset(m, m.At(b, i).target) && Index(m, b, i) <= t.ends[v]
  }

  ghost predicate JumpsBack(m: MFunc, b: nat, i: nat) {
    m.Has(b, i) && m.At(b, i).op.IsJump() && m.At(b, i).target <= b
  }

  lemma {:induction false} EndCovers(m: MFunc, t: Table, v: nat, b: nat, i: nat, c: nat, j: nat, n: nat)
    requires PlainCode(m) && IsTable(m, t) && LoopsCovered(m, t) && v < m.nextVreg
    requires m.Has(b, i) && Successor(m, b, i, c, j) && Written(m, v, b, i) && LiveIn(m, v, c, j, n)
    ensures Index(m, b, i) <= t.ends[v]
    decreases n
  {
    hide PlainCode, IsTable, Written;
    ForwardEdge(m, b, i, c, j);
    if Index(m, b, i) >= Index(m, c, j) {
      assert JumpsBack(m, b, i) && Live(m, v, m.At(b, i).target, 0);
    } else if ReadsReg(m.At(c, j), v) {
      ReadOccurs(m, t, v, c, j);
    } else {
      var d: nat, k: nat :| Successor(m, c, j, d, k) && LiveIn(m, v, d, k, n - 1);
      WrittenOn(m, v, b, i, c, j);
      EndCovers(m, t, v, c, j, d, k, n - 1);
    }
  }

  lemma ParamStarts(m: MFunc, t: Table, v: nat)
    requires IsTable(m, t) && v < m.nextVreg && v in m.params
    ensures t.starts[v] == 0
  {
  }

  lemma WriteStarts(m: MFunc, t: Table, v: nat, b: nat, i: nat, c: nat, j: nat)
    requires PlainCode(m) && IsTable(m, t) && v < m.nextVreg && m.Has(c, j) && Successor(m, c, j, b, i) && Writes(m.At(c, j)) == Some(v)
    ensures t.starts[v] <= Index(m, b, i)
  {
    hide PlainCode, IsTable;
    ForwardEdge(m, c, j, b, i);
    ReadOccurs(m, t, v, c, j);
  }

  lemma BackStarts(m: MFunc, t: Table, v: nat, b: nat, i: nat, c: nat, j: nat, n: nat)
    requires IsTable(m, t) && LoopsCovered(m, t) && v < m.nextVreg && m.Has(c, j) && Successor(m, c, j, b, i)
    requires Index(m, c, j) >= Index(m, b, i) && WrittenIn(m, v, c, j, n) && Live(m, v, b, i)
    ensures t.starts[v] <= Index(m, b, i)
  {
    ForwardEdge(m, c, j, b, i);
    hide IsTable, Live, WrittenIn;
    assert JumpsBack(m, c, j) && Written(m, v, c, j);
  }

  lemma {:induction false} StartCovers(m: MFunc, t: Table, v: nat, b: nat, i: nat, n: nat)
    requires PlainCode(m) && IsTable(m, t) && LoopsCovered(m, t) && v < m.nextVreg
    requires WrittenIn(m, v, b, i, n) && Live(m, v, b, i)
    ensures t.starts[v] <= Index(m, b, i)
    decreases n
  {
    if v in m.params && b == 0 && i == 0 {
      ParamStarts(m, t, v);
    } else {
      hide PlainCode, IsTable, Live, LoopsCovered, Successor, Writes, JumpsBack, Written;
      var c: nat, j: nat :| m.Has(c, j) && Successor(m, c, j, b, i) && (Writes(m.At(c, j)) == Some(v) || WrittenIn(m, v, c, j, n - 1));
      ForwardEdge(m, c, j, b, i);
      if Writes(m.At(c, j)) == Some(v) {
        WriteStarts(m, t, v, b, i, c, j);
      } else if Index(m, c, j) >= Index(m, b, i) {
        BackStarts(m, t, v, b, i, c, j, n - 1);
      } else {
        LiveBack(m, v, c, j, b, i);
        StartCovers(m, t, v, c, j, n - 1);
      }
    }
  }

  lemma EdgeCovered(m: MFunc, t: Table, b: nat, i: nat, c: nat, j: nat)
    requires PlainCode(m) && IsTable(m, t) && LoopsCovered(m, t) && m.Has(b, i) && Successor(m, b, i, c, j)
    ensures CoversEdge(m, t, TrueFacts(m), b, i, c, j)
  {
    var def := Writes(m.At(b, i));
    forall v: nat | Written(m, v, b, i) || def == Some(v) ensures Written(m, v, c, j) {
      WrittenOn(m, v, b, i, c, j);
    }
    forall v: nat | v < m.nextVreg && Live(m, v, c, j) && def != Some(v)
      ensures Live(m, v, b, i) && (Written(m, v, b, i) ==> t.starts[v] <= Index(m, b, i) <= t.ends[v])
    {
      LiveBack(m, v, b, i, c, j);
      if Written(m, v, b, i) {
        var k: nat :| WrittenIn(m, v, b, i, k);
        StartCovers(m, t, v, b, i, k);
        var n: nat :| LiveIn(m, v, c, j, n);
        EndCovers(m, t, v, b, i, c, j, n);
      }
    }
    assert def.Some? ==> def.value < m.nextVreg;
    hide Written, Live, PlainCode, IsTable, LoopsCovered, Successor;
  }

  lemma EdgeSpans(m: MFunc, t: Table, b: nat, i: nat, c: nat, j: nat, v: nat)
    requires IsTable(m, t) && Covers(m, t, TrueFacts(m)) && m.Has(b, i) && Successor(m, b, i, c, j)
    requires v < m.nextVreg && Written(m, v, b, i) && Live(m, v, c, j) && Writes(m.At(b, i)) != Some(v)
    ensures t.starts[v] <= Index(m, b, i) <= t.ends[v]
  {
    hide IsTable, Written, Live, Successor;
    assert CoversEdge(m, t, TrueFacts(m), b, i, c, j);
  }

  /** What is live into an instruction, and written by then, has started. */
  lemma LiveStarted(m: MFunc, t: Table, v: nat, c: nat, j: nat, n: nat)
    requires PlainCode(m) && IsTable(m, t) && Covers(m, t, TrueFacts(m))
    requires v < m.nextVreg && LiveIn(m, v, c, j, n) && Written(m, v, c, j)
    ensures t.starts[v] <= Index(m, c, j)
  {
    if ReadsReg(m.At(c, j), v) {
      ReadOccurs(m, t, v, c, j);
    } else {
      var d: nat, k: nat :| Successor(m, c, j, d, k) && LiveIn(m, v, d, k, n - 1);
      hide Covers, PlainCode, IsTable, Written, Successor, ReadsReg;
      assert Live(m, v, d, k);
      EdgeSpans(m, t, c, j, d, k, v);
    }
  }

  lemma LoopSpanned(m: MFunc, t: Table, b: nat, i: nat, v: nat)
    requires PlainCode(m) && IsTable(m, t) && Covers(m, t, TrueFacts(m))
    requires JumpsBack(m, b, i) && v < m.nextVreg && Written(m, v, b, i) && Live(m, v, m.At(b, i).target, 0)
    ensures t.starts[v] <= Offset(m, m.At(b, i).target) && Index(m, b, i) <= t.ends[v]
  {
    hide Covers, PlainCode, IsTable, Written, Live, LiveIn, Successor, Writes, ReadsReg, Offset;
    var c := m.At(b, i).target;
    BackStep(m, b, i);
    EdgeSpans(m, t, b, i, c, 0, v);
    WrittenOn(m, v, b, i, c, 0);
    StartedLive(m, t, v, c, 0);
  }

  lemma StartedLive(m: MFunc, t: Table, v: nat, c: nat, j: nat)
    requires PlainCode(m) && IsTable(m, t) && Covers(m, t, TrueFacts(m))
    requires v < m.nextVreg && Live(m, v, c, j) && Written(m, v, c, j)
    ensures t.starts[v] <= Index(m, c, j)
  {
    hide Covers, PlainCode, IsTable, Written;
    var n: nat :| LiveIn(m, v, c, j, n);
    LiveStarted(m, t, v, c, j, n);
  }

  lemma BackStep(m: MFunc, b: nat, i: nat)
    requires JumpsBack(m, b, i)
    ensures m.Has(b, i) && Successor(m, b, i, m.At(b, i).target, 0) && Writes(m.At(b, i)).None?
    ensures Index(m, m.At(b, i).target, 0) == Offset(m, m.At(b, i).target)
  {
  }

  /** The intervals cover liveness if and only if they span every loop a value stays live
      around. */
  lemma CoversExact(m: MFunc, t: Table)
    requires PlainCode(m) && IsTable(m, t)
    ensures Covers(m, t, TrueFacts(m)) <==> LoopsCovered(m, t)
  {
    if LoopsCovered(m, t) {
      forall b: nat, i: nat, c: nat, j: nat | m.Has(b, i) && Successor(m, b, i, c, j)
        ensures CoversEdge(m, t, TrueFacts(m), b, i, c, j)
      {
        EdgeCovered(m, t, b, i, c, j);
      }
      StartFacts(m);
      hide Successor, CoversEdge, TrueFacts;
    } else {
      var b: nat, i: nat, v: nat :| JumpsBack(m, b, i) && v < m.nextVreg && Written(m, v, b, i) && Live(m, v, m.At(b, i).target, 0)
        && !(t.starts[v] <= Offset(m, m.At(b, i).target) && Index(m, b, i) <= t.ends[v]);
      hide Covers, PlainCode, IsTable, Written, Live;
      if Covers(m, t, TrueFacts(m)) {
        LoopSpanned(m, t, b, i, v);
      }
    }
  }

  lemma StartFacts(m: MFunc)
    requires PlainCode(m)
    ensures forall v :: v in m.params ==> v in TrueFacts(m).written(0, 0)
    ensures forall b: nat, i: nat, v: nat :: m.Has(b, i) && ReadsReg(m.At(b, i), v) && v in TrueFacts(m).written(b, i) ==> v in TrueFacts(m).live(b, i)
  {
    forall v | v in m.params ensures Written(m, v, 0, 0) {
      assert WrittenIn(m, v, 0, 0, 0);
    }
    forall b: nat, i: nat, v: nat | m.Has(b, i) && ReadsReg(m.At(b, i), v) ensures Live(m, v, b, i) {
      assert LiveIn(m, v, b, i, 0);
    }
  }

  /** Registers with disjoint intervals do for code whose intervals span its loops. */
  lemma LoopsAllocated(m: MFunc, t: Table, regOf: seq<nat>)
    requires PlainCode(m) && IsTable(m, t) && Assigns(m, t, regOf) && LoopsCovered(m, t)
    ensures MRefines(m, RenameFunc(m, regOf))
  {
    CoversExact(m, t);
    AllocationPreserves(m, t, regOf, TrueFacts(m));
  }

  /** Code without jumps back has no loops to span. */
  lemma ForwardLoops(m: MFunc, t: Table)
    requires Forward(m) && |t.starts| == |t.ends| == m.nextVreg
    ensures LoopsCovered(m, t)
  {
  }
}
