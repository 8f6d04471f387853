/** A counting loop through instruction selection and register allocation: its interval table
    does not span the loop, and the allocated code returns the wrong count. */
module LoopDepartures {
  import opened Wrappers
  import opened Word64
  import opened Ssa
  import opened Mach
  import opened Isel
  import opened LinearScan
  import opened RegAlloc
  import opened Liveness
  import opened Allocator
  import opened IselCorrect

  /** Counts from 0 up to 2 and returns the count. */
  function LoopSsa(): Func {
    Func([[Inst(Some(1), Const(2)), Inst(Some(2), Const(0)), Inst(None, Op.Jump(1))],
          [Inst(Some(3), Phi([PhiArg(2, 0), PhiArg(5, 2)])), Inst(Some(4), Op.Cmp(Lt, 3, 1)), Inst(None, Branch(4, 2, 3))],
          [Inst(Some(6), Const(1)), Inst(Some(5), Binop(Add, 3, 6)), Inst(None, Op.Jump(1))],
          [Inst(None, Op.Ret(Some(3)))]], 0, 7, [])
  }

  function LoopMachine(): MFunc {
    MFunc([[Make(LABEL, 0, 0, 0, 0), Make(MOV_IMM, 1, 0, 0, 2), Make(MOV_IMM, 2, 0, 0, 0), Make(MOV, 3, 2, 0, 0), Mach.Jump(JMP, 1)],
           [Make(LABEL, 0, 0, 0, 0), Make(CMP, 0, 3, 1, 0), Make(SET(Lt), 4, 0, 0, 0), Make(TEST, 0, 4, 4, 0), Mach.Jump(JNE, 2), Mach.Jump(JMP, 3)],
           [Make(LABEL, 0, 0, 0, 0), Make(MOV_IMM, 6, 0, 0, 1), Make(ADD, 5, 3, 6, 0), Make(MOV, 3, 5, 0, 0), Mach.Jump(JMP, 1)],
           [Make(LABEL, 0, 0, 0, 0), Make(RET, 0, 3, 0, 0)]], 7, [])
  }

  // ---- It is what the selector makes of the program ----

  function LoopEdges(): seq<EdgeCopies> {
    [EdgeCopies(0, 1, [PhiCopy(3, 2)]), EdgeCopies(2, 1, [PhiCopy(3, 5)])]
  }

  lemma PhiCopies(p: Label)
    ensures CopiesOfInst(LoopSsa().blocks[1][0], p) == if p == 0 then [PhiCopy(3, 2)] else if p == 2 then [PhiCopy(3, 5)] else []
  {
    var args := [PhiArg(2, 0), PhiArg(5, 2)];
    assert CopiesOfArgs(3, args, 0, p) == [];
    assert CopiesOfArgs(3, args, 1, p) == if p == 0 then [PhiCopy(3, 2)] else [];
    assert CopiesOfArgs(3, args, 2, p) == if p == 0 then [PhiCopy(3, 2)] else if p == 2 then [PhiCopy(3, 5)] else [];
  }

  lemma {:induction false} NoPhis(b: Block, n: nat, p: Label)
    requires n <= |b| && forall i :: 0 <= i < |b| ==> !b[i].op.Phi?
    ensures CopiesUpTo(b, n, p) == []
  {
    if n > 0 {
      NoPhis(b, n - 1, p);
    }
  }

  lemma LoopCopies(p: Label, t: Label)
    ensures CopiesFor(LoopSsa(), p, t) ==
              if t == 1 && p == 0 then [PhiCopy(3, 2)] else if t == 1 && p == 2 then [PhiCopy(3, 5)] else []
  {
    var f := LoopSsa();
    if t == 1 {
      PhiCopies(p);
      var b := f.blocks[1];
      hide CopiesOfArgs;
      assert CopiesUpTo(b, 0, p) == [];
      assert CopiesUpTo(b, 1, p) == CopiesOfInst(b[0], p);
      assert CopiesUpTo(b, 2, p) == CopiesUpTo(b, 1, p);
      assert CopiesUpTo(b, 3, p) == CopiesUpTo(b, 2, p);
    } else if t < 4 {
      assert forall i :: 0 <= i < |f.blocks[t]| ==> !f.blocks[t][i].op.Phi?;
      NoPhis(f.blocks[t], |f.blocks[t]|, p);
    }
  }

  lemma LoopCollected()
    ensures AllCollected(LoopSsa(), LoopEdges())
  {
    var f, edges := LoopSsa(), LoopEdges();
    assert |f.blocks| == 4 && |edges| == 2 && edges[0] == EdgeCopies(0, 1, [PhiCopy(3, 2)]) && edges[1] == EdgeCopies(2, 1, [PhiCopy(3, 5)]);
    forall p, t | 0 <= p < 4 && 0 <= t < 4 ensures CopiesFor(f, p, t) != [] ==> HasEdge(edges, p, t) {
      LoopCopies(p, t);
      if t == 1 && p == 0 { assert edges[0].pred == p && edges[0].phi == t; }
      if t == 1 && p == 2 { assert edges[1].pred == p && edges[1].phi == t; }
    }
    LoopCopies(0, 1);
    LoopCopies(2, 1);
    hide LoopSsa, LoopEdges, CopiesFor;
  }

  lemma Lowered0()
    ensures LowerUpTo(LoopSsa().blocks[0], 3) == [Make(LABEL, 0, 0, 0, 0), Make(MOV_IMM, 1, 0, 0, 2), Make(MOV_IMM, 2, 0, 0, 0), Mach.Jump(JMP, 1)]
  {
    var b := LoopSsa().blocks[0];
    assert LowerUpTo(b, 0) == [Make(LABEL, 0, 0, 0, 0)];
    assert LowerUpTo(b, 1) == [Make(LABEL, 0, 0, 0, 0), Make(MOV_IMM, 1, 0, 0, 2)];
    assert LowerUpTo(b, 2) == [Make(LABEL, 0, 0, 0, 0), Make(MOV_IMM, 1, 0, 0, 2), Make(MOV_IMM, 2, 0, 0, 0)];
  }

  lemma Lowered1()
    ensures LowerUpTo(LoopSsa().blocks[1], 3) == LoopMachine().blocks[1]
  {
    var b := LoopSsa().blocks[1];
    assert LowerUpTo(b, 0) == [Make(LABEL, 0, 0, 0, 0)];
    assert LowerUpTo(b, 1) == [Make(LABEL, 0, 0, 0, 0)];
    assert LowerUpTo(b, 2) == [Make(LABEL, 0, 0, 0, 0), Make(CMP, 0, 3, 1, 0), Make(SET(Lt), 4, 0, 0, 0)];
  }

  lemma Lowered2()
    ensures LowerUpTo(LoopSsa().blocks[2], 3) == [Make(LABEL, 0, 0, 0, 0), Make(MOV_IMM, 6, 0, 0, 1), Make(ADD, 5, 3, 6, 0), Mach.Jump(JMP, 1)]
  {
    var b := LoopSsa().blocks[2];
    assert LowerUpTo(b, 0) == [Make(LABEL, 0, 0, 0, 0)];
    assert LowerUpTo(b, 1) == [Make(LABEL, 0, 0, 0, 0), Make(MOV_IMM, 6, 0, 0, 1)];
    assert LowerUpTo(b, 2) == [Make(LABEL, 0, 0, 0, 0), Make(MOV_IMM, 6, 0, 0, 1), Make(ADD, 5, 3, 6, 0)];
  }

  lemma Lowered3()
    ensures LowerUpTo(LoopSsa().blocks[3], 1) == LoopMachine().blocks[3]
  {
    assert LowerUpTo(LoopSsa().blocks[3], 0) == [Make(LABEL, 0, 0, 0, 0)];
  }

  /** A copy placed before the final jump of a block. */
  lemma PlaceOne(bs: seq<MachBlock>, p: Label, head: MachBlock, copy: PhiCopy)
    requires p < |bs| && bs[p] == head + [Mach.Jump(JMP, 1)] && (head == [] || !head[|head| - 1].op.IsJump())
    ensures PlaceEdge(bs, EdgeCopies(p, 1, [copy])) == bs[p := head + [Make(MOV, copy.dst, copy.src, 0, 0), Mach.Jump(JMP, 1)]]
  {
    var pb := bs[p];
    assert pb[..|pb| - 1] == head && pb[|pb| - 1] == Mach.Jump(JMP, 1);
    assert head != [] ==> pb[|pb| - 2] == head[|head| - 1];
    assert Moves([copy]) == [Make(MOV, copy.dst, copy.src, 0, 0)];
    assert head + [Make(MOV, copy.dst, copy.src, 0, 0)] + [Mach.Jump(JMP, 1)] == head + [Make(MOV, copy.dst, copy.src, 0, 0), Mach.Jump(JMP, 1)];
  }

  function Head0(): MachBlock {
    [Make(LABEL, 0, 0, 0, 0), Make(MOV_IMM, 1, 0, 0, 2), Make(MOV_IMM, 2, 0, 0, 0)]
  }

  function Head2(): MachBlock {
    [Make(LABEL, 0, 0, 0, 0), Make(MOV_IMM, 6, 0, 0, 1), Make(ADD, 5, 3, 6, 0)]
  }

  lemma LoopLowered()
    ensures var m := LoopMachine();
            LowerAll(LoopSsa()) == [Head0() + [Mach.Jump(JMP, 1)], m.blocks[1], Head2() + [Mach.Jump(JMP, 1)], m.blocks[3]]
  {
    Lowered0();
    Lowered1();
    Lowered2();
    Lowered3();
    var f := LoopSsa();
    assert |f.blocks| == 4 && |f.blocks[0]| == |f.blocks[1]| == |f.blocks[2]| == 3 && |f.blocks[3]| == 1;
    hide LowerUpTo, LoopMachine;
    var bs := LowerAll(f);
    assert bs[0] == Head0() + [Mach.Jump(JMP, 1)];
    assert bs[2] == Head2() + [Mach.Jump(JMP, 1)];
    assert |bs| == 4;
  }

  lemma LoopPlaced(bs: seq<MachBlock>)
    requires |bs| == 4 && bs[0] == Head0() + [Mach.Jump(JMP, 1)] && bs[2] == Head2() + [Mach.Jump(JMP, 1)]
    ensures PlaceUpTo(bs, LoopEdges(), 2) ==
              bs[0 := Head0() + [Make(MOV, 3, 2, 0, 0), Mach.Jump(JMP, 1)]][2 := Head2() + [Make(MOV, 3, 5, 0, 0), Mach.Jump(JMP, 1)]]
  {
    var edges := LoopEdges();
    assert !Head0()[2].op.IsJump() && !Head2()[2].op.IsJump() && |Head0()| == |Head2()| == 3;
    hide PlaceEdge, Head0, Head2;
    PlaceOne(bs, 0, Head0(), PhiCopy(3, 2));
    var bs1 := PlaceEdge(bs, edges[0]);
    assert bs1[2] == bs[2];
    PlaceOne(bs1, 2, Head2(), PhiCopy(3, 5));
    assert PlaceUpTo(bs, edges, 0) == bs;
    assert PlaceUpTo(bs, edges, 1) == bs1;
    assert PlaceUpTo(bs, edges, 2) == PlaceEdge(bs1, edges[1]);
  }

  lemma LoopBlocks()
    ensures LoopMachine().blocks ==
              [Head0() + [Make(MOV, 3, 2, 0, 0), Mach.Jump(JMP, 1)], LoopMachine().blocks[1],
               Head2() + [Make(MOV, 3, 5, 0, 0), Mach.Jump(JMP, 1)], LoopMachine().blocks[3]]
    ensures LoopMachine().nextVreg == LoopSsa().nextVreg && LoopMachine().params == LoopSsa().params
  {
    var bs := LoopMachine().blocks;
    assert bs[0] == Head0() + [Make(MOV, 3, 2, 0, 0), Mach.Jump(JMP, 1)];
    assert bs[2] == Head2() + [Make(MOV, 3, 5, 0, 0), Mach.Jump(JMP, 1)];
  }

  lemma LoopBuilt()
    ensures |LowerAll(LoopSsa())| == 4 && |LoopEdges()| == 2
    ensures LoopEdges()[0].pred < 4 && LoopEdges()[1].pred < 4
    ensures PlaceUpTo(LowerAll(LoopSsa()), LoopEdges(), 2) == LoopMachine().blocks
  {
    hide *;
    LoopLowered();
    LoopEdgesAre();
    LoopPlaced(LowerAll(LoopSsa()));
    LoopBlocks();
  }

  lemma LoopEdgesAre()
    ensures |LoopEdges()| == 2 && LoopEdges()[0].pred < 4 && LoopEdges()[1].pred < 4
  {
  }

  /** The program is selected to this machine code. */
  lemma LoopSelected()
    ensures IsSelection(LoopSsa(), LoopMachine())
  {
    hide *;
    LoopCollected();
    LoopBuilt();
    LoopBlocks();
    SelectionIs(LoopSsa(), LoopEdges(), LoopMachine());
  }

  // ---- Its intervals ----

  /** The registers mentioned at each index. */
  function MentionedAt(k: nat): set<nat> {
    if k == 1 then {0, 1} else if k == 2 then {0, 2} else if k == 3 then {0, 2, 3}
    else if k == 6 then {0, 1, 3} else if k == 7 then {0, 4} else if k == 8 then {0, 4}
    else if k == 12 then {0, 6} else if k == 13 then {3, 5, 6} else if k == 14 then {0, 3, 5} else if k == 17 then {0, 3}
    else if k == 4 || k == 9 || k == 10 || k == 15 then {0} else {}
  }

  lemma LoopMentions(v: nat, b: nat, i: nat)
    requires LoopMachine().Has(b, i)
    ensures Index(LoopMachine(), b, i) == [0, 5, 11, 16][b] + i && b < 4 && i < [5, 6, 5, 2][b]
    ensures OccursAt(LoopMachine(), v, b, i) <==> v in MentionedAt([0, 5, 11, 16][b] + i)
  {
    var m := LoopMachine();
    assert Offset(m, 0) == 0;
    assert Offset(m, 1) == 5;
    assert Offset(m, 2) == 11;
    assert Offset(m, 3) == 16;
    if b == 0 {
      if i == 0 {} else if i == 1 {} else if i == 2 {} else if i == 3 {} else {}
    } else if b == 1 {
      if i == 0 {} else if i == 1 {} else if i == 2 {} else if i == 3 {} else if i == 4 {} else {}
    } else if b == 2 {
      if i == 0 {} else if i == 1 {} else if i == 2 {} else if i == 3 {} else {}
    } else {
      if i == 0 {} else {}
    }
  }

  const LOOP_STARTS: seq<nat> := [1, 1, 2, 3, 7, 13, 12]
  const LOOP_ENDS: seq<nat> := [17, 6, 3, 17, 8, 14, 13]

  lemma MentionedBetween(v: nat, k: nat)
    requires v < 7 && v in MentionedAt(k)
    ensures LOOP_STARTS[v] <= k <= LOOP_ENDS[v]
  {
  }

  /** Where each register is mentioned first and last. */
  lemma Extremes(v: nat)
    requires v < 7
    ensures exists b: nat, i: nat :: OccursAt(LoopMachine(), v, b, i) && Index(LoopMachine(), b, i) == LOOP_STARTS[v]
    ensures exists b: nat, i: nat :: OccursAt(LoopMachine(), v, b, i) && Index(LoopMachine(), b, i) == LOOP_ENDS[v]
  {
    FoundAt(v, [0, 0, 0, 0, 1, 2, 2][v], [1, 1, 2, 3, 2, 2, 1][v], LOOP_STARTS[v]);
    FoundAt(v, [3, 1, 0, 3, 1, 2, 2][v], [1, 1, 3, 1, 3, 3, 2][v], LOOP_ENDS[v]);
    hide LoopMachine, OccursAt, Index;
  }

  lemma FoundAt(v: nat, b: nat, i: nat, k: nat)
    requires b < 4 && i < [5, 6, 5, 2][b] && [0, 5, 11, 16][b] + i == k && v in MentionedAt(k)
    ensures OccursAt(LoopMachine(), v, b, i) && Index(LoopMachine(), b, i) == k
  {
    assert LoopMachine().Has(b, i);
    hide LoopMachine, MentionedAt;
    LoopMentions(v, b, i);
  }

  lemma Within(v: nat, b: nat, i: nat)
    requires v < 7 && OccursAt(LoopMachine(), v, b, i)
    ensures LOOP_STARTS[v] <= Index(LoopMachine(), b, i) <= LOOP_ENDS[v]
  {
    hide LoopMachine;
    LoopMentions(v, b, i);
    hide MentionedAt;
    MentionedBetween(v, [0, 5, 11, 16][b] + i);
  }

  lemma LoopInterval(t: Table, v: nat)
    requires IsTable(LoopMachine(), t) && v < 7
    ensures |t.starts| == |t.ends| == 7 && t.starts[v] == LOOP_STARTS[v] && t.ends[v] == LOOP_ENDS[v]
  {
    var m := LoopMachine();
    assert m.nextVreg == 7 && m.params == [];
    hide LoopMachine, OccursAt, Index;
    Extremes(v);
    forall b: nat, i: nat | OccursAt(m, v, b, i) ensures LOOP_STARTS[v] <= Index(m, b, i) <= LOOP_ENDS[v] {
      Within(v, b, i);
    }
    assert FirstOf(m, v, t.starts[v]) && LastOf(m, v, t.ends[v]);
  }

  // ---- Its registers ----

  const LOOP_REGS: seq<nat> := [1, 2, 3, 4, 2, 3, 2]

  function LoopTable(): Table {
    Table(LOOP_STARTS, LOOP_ENDS)
  }

  lemma LoopTableIs(t: Table)
    requires IsTable(LoopMachine(), t)
    ensures t == LoopTable()
  {
    assert LoopMachine().nextVreg == 7;
    hide LoopMachine;
    assert |t.starts| == |t.ends| == 7;
    forall v: nat | v < 7 ensures t.starts[v] == LOOP_STARTS[v] && t.ends[v] == LOOP_ENDS[v] {
      LoopInterval(t, v);
    }
  }

  /** `u` comes up before `v` in the scan. */
  predicate Sooner(u: nat, v: nat) {
    u < 7 && v < 7 && if LOOP_STARTS[u] != LOOP_STARTS[v] then LOOP_STARTS[u] < LOOP_STARTS[v] else u < v
  }

  /** Unless something before `v` still holds `r`, `v` gets `r` or a lower register. */
  lemma AtMost(regOf: seq<nat>, v: nat, r: nat)
    requires FirstFit(LoopMachine(), LoopTable(), regOf) && v < 7 && 1 <= r <= 4
    requires forall u: nat :: Sooner(u, v) && LOOP_ENDS[u] >= LOOP_STARTS[v] ==> regOf[u] != r
    ensures 1 <= regOf[v] <= r
  {
    var m := LoopMachine();
    assert m.nextVreg == 7 && m.params == [];
    assert LOOP_STARTS[v] <= LOOP_ENDS[v];
    hide LoopMachine;
    assert FitsAt(m, LoopTable(), regOf, v);
    assert Allocatable(r) && !Reserved(m.params, r);
    LowestOrHeld(m, LoopTable(), regOf, v, r);
    NotHeld(regOf, v, r);
  }

  lemma LowestOrHeld(m: MFunc, t: Table, regOf: seq<nat>, v: nat, r: nat)
    requires |t.starts| == |t.ends| == |regOf| == m.nextVreg && v < m.nextVreg && FitsAt(m, t, regOf, v)
    requires Allocatable(r) && !Reserved(m.params, r)
    ensures regOf[v] != REG_NONE && (regOf[v] <= r || HeldBefore(m, t, regOf, v, r))
  {
    hide HeldBefore;
  }

  lemma NotHeld(regOf: seq<nat>, v: nat, r: nat)
    requires |regOf| == LoopMachine().nextVreg == 7 && v < 7
    requires forall u: nat :: Sooner(u, v) && LOOP_ENDS[u] >= LOOP_STARTS[v] ==> regOf[u] != r
    ensures !HeldBefore(LoopMachine(), LoopTable(), regOf, v, r)
  {
    hide LoopMachine;
    forall u: nat | u < 7 && regOf[u] == r && LOOP_ENDS[u] >= LOOP_STARTS[v] ensures !Sooner(u, v) {
    }
  }

  /** Registers that live at the same time differ. */
  lemma Differ(regOf: seq<nat>, u: nat, v: nat)
    requires BookedApart(LoopMachine(), LoopTable(), regOf) && u < v < 7 && LOOP_STARTS[u] <= LOOP_ENDS[v] && LOOP_STARTS[v] <= LOOP_ENDS[u]
    ensures |regOf| == 7 && (regOf[u] == regOf[v] ==> regOf[u] == REG_NONE)
  {
    assert LoopMachine().nextVreg == 7;
    assert LOOP_STARTS[u] <= LOOP_ENDS[u] && LOOP_STARTS[v] <= LOOP_ENDS[v];
    hide LoopMachine;
  }

  lemma FirstFour(regOf: seq<nat>)
    requires BookedApart(LoopMachine(), LoopTable(), regOf) && FirstFit(LoopMachine(), LoopTable(), regOf)
    ensures |regOf| == 7 && regOf[..4] == [1, 2, 3, 4]
  {
    hide BookedApart, FirstFit, LoopMachine;
    Differ(regOf, 0, 1);
    Differ(regOf, 0, 2);
    Differ(regOf, 1, 2);
    Differ(regOf, 0, 3);
    Differ(regOf, 1, 3);
    Differ(regOf, 2, 3);
    AtMost(regOf, 0, 1);
    AtMost(regOf, 1, 2);
    AtMost(regOf, 2, 3);
    AtMost(regOf, 3, 4);
  }

  lemma LastThree(regOf: seq<nat>)
    requires BookedApart(LoopMachine(), LoopTable(), regOf) && FirstFit(LoopMachine(), LoopTable(), regOf)
    requires |regOf| == 7 && regOf[..4] == [1, 2, 3, 4]
    ensures regOf[4..] == [2, 3, 2]
  {
    hide BookedApart, FirstFit, LoopMachine;
    assert regOf[0] == regOf[..4][0] && regOf[1] == regOf[..4][1] && regOf[2] == regOf[..4][2] && regOf[3] == regOf[..4][3];
    Differ(regOf, 0, 4);
    AtMost(regOf, 4, 2);
    Differ(regOf, 0, 6);
    AtMost(regOf, 6, 2);
    Differ(regOf, 0, 5);
    Differ(regOf, 5, 6);
    AtMost(regOf, 5, 3);
  }

  /** The first fit is this assignment. */
  lemma LoopAssignment(regOf: seq<nat>)
    requires BookedApart(LoopMachine(), LoopTable(), regOf) && FirstFit(LoopMachine(), LoopTable(), regOf)
    ensures regOf == LOOP_REGS
  {
    hide BookedApart, FirstFit, LoopMachine;
    FirstFour(regOf);
    LastThree(regOf);
    assert regOf == regOf[..4] + regOf[4..];
  }

  // ---- The loop is not spanned ----

  /** The limit, in `v1`, is read at the top of every round, but its interval ends there. */
  lemma LoopNotSpanned()
    ensures !LoopsCovered(LoopMachine(), LoopTable())
  {
    var m := LoopMachine();
    assert JumpsBack(m, 2, 4) && m.At(2, 4).target == 1;
    assert LiveIn(m, 1, 1, 1, 0);
    assert Successor(m, 1, 0, 1, 1) && LiveIn(m, 1, 1, 0, 1);
    assert Live(m, 1, 1, 0);
    LoopWritten();
    LoopMentions(1, 2, 4);
    assert m.nextVreg == 7;
    hide LoopMachine, Written, Live, Index;
  }

  lemma LoopWritten()
    ensures Written(LoopMachine(), 1, 2, 4)
  {
    var m := LoopMachine();
    assert m.Has(0, 1) && Writes(m.At(0, 1)) == Some(1);
    forall b: nat, i: nat | m.Has(b, i) && !m.At(b, i).op.JMP? && !m.At(b, i).op.RET? ensures Successor(m, b, i, b, i + 1) {}
    assert m.Has(0, 2) && m.Has(0, 3) && m.Has(0, 4) && m.Has(1, 0) && m.Has(1, 1) && m.Has(1, 2) && m.Has(1, 3) && m.Has(1, 4);
    assert m.Has(2, 0) && m.Has(2, 1) && m.Has(2, 2) && m.Has(2, 3);
    assert Successor(m, 0, 4, 1, 0) && Successor(m, 1, 4, 2, 0);
    assert !m.At(0, 1).op.JMP? && !m.At(0, 2).op.JMP? && !m.At(0, 3).op.JMP?;
    hide LoopMachine, Successor, Written;
    WrittenOn(m, 1, 0, 1, 0, 2);
    WrittenOn(m, 1, 0, 2, 0, 3);
    WrittenOn(m, 1, 0, 3, 0, 4);
    WrittenOn(m, 1, 0, 4, 1, 0);
    WrittenOn(m, 1, 1, 0, 1, 1);
    WrittenOn(m, 1, 1, 1, 1, 2);
    WrittenOn(m, 1, 1, 2, 1, 3);
    WrittenOn(m, 1, 1, 3, 1, 4);
    WrittenOn(m, 1, 1, 4, 2, 0);
    WrittenOn(m, 1, 2, 0, 2, 1);
    WrittenOn(m, 1, 2, 1, 2, 2);
    WrittenOn(m, 1, 2, 2, 2, 3);
    WrittenOn(m, 1, 2, 3, 2, 4);
  }

  // ---- Its two runs ----

  /** The first block, with registers `a`, `b` and `c` for `v1`, `v2` and `v3`. */
  lemma RunStart(w: World, mb: MachBlock, a: nat, b: nat, c: nat)
    requires |mb| == 5 && mb[0].op.LABEL? && mb[1].op.MOV_IMM? && mb[1].dst == a && mb[1].imm == 2
    requires mb[2].op.MOV_IMM? && mb[2].dst == b && mb[2].imm == 0 && mb[3].op.MOV? && mb[3].dst == c && mb[3].src == b
    requires mb[4].op.JMP? && mb[4].target == 1
    ensures RunM(w, mb, 0, map[], None, []) == Goto(1, map[a := 2][b := 0][c := 0], [])
  {
    var e0: Env := map[];
    var e1 := e0[a := 2];
    var e2 := e1[b := 0];
    var e3 := e2[c := 0];
    assert RunM(w, mb, 4, e3, None, []) == Goto(1, e3, []);
    assert RunM(w, mb, 3, e2, None, []) == RunM(w, mb, 4, e3, None, []);
    assert RunM(w, mb, 2, e1, None, []) == RunM(w, mb, 3, e2, None, []);
    assert RunM(w, mb, 1, e0, None, []) == RunM(w, mb, 2, e1, None, []);
  }

  lemma TestFlags(inst: MachInst, env: Env, flags: Flags)
    requires inst.op.TEST? && inst.src == inst.src2 && inst.src in env
    ensures FlagsAfter(inst, env, flags) == Some((env[inst.src], 0))
  {
    TestSelf(env[inst.src]);
    hide BitwiseWord;
  }

  lemma CompareFlags(inst: MachInst, env: Env)
    requires inst.op.CMP? && inst.src in env && inst.src2 in env
    ensures FlagsAfter(inst, env, None) == Some((env[inst.src], env[inst.src2]))
  {
  }

  lemma SetFlags(inst: MachInst, env: Env, flags: Flags)
    requires inst.op.SET?
    ensures FlagsAfter(inst, env, flags) == flags
  {
  }

  /** A register is tested and branched on. */
  lemma RunBranch(w: World, mb: MachBlock, d: nat, env: Env, flags: Flags)
    requires |mb| == 6 && d in env && mb[3].op.TEST? && mb[3].src == d && mb[3].src2 == d
    requires mb[4].op.JNE? && mb[4].target == 2 && mb[5].op.JMP? && mb[5].target == 3
    ensures RunM(w, mb, 3, env, flags, []) == Goto(if env[d] != 0 then 2 else 3, env, [])
  {
    TestFlags(mb[3], env, flags);
    hide FlagsAfter, BitwiseWord;
    var now := Some((env[d], 0 as Int64));
    assert RunM(w, mb, 5, env, now, []) == Goto(3, env, []);
    assert RunM(w, mb, 4, env, now, []) == if env[d] != 0 then Goto(2, env, []) else RunM(w, mb, 5, env, now, []);
    assert RunM(w, mb, 3, env, flags, []) == RunM(w, mb, 4, env, now, []);
  }

  /** The test, with registers `a`, `c` and `d` for `v1`, `v3` and `v4`. */
  lemma RunTest(w: World, mb: MachBlock, a: nat, c: nat, d: nat, env: Env)
    requires |mb| == 6 && mb[0].op.LABEL? && mb[1].op.CMP? && mb[1].src == c && mb[1].src2 == a && mb[2].op == SET(Lt) && mb[2].dst == d
    requires mb[3].op.TEST? && mb[3].src == d && mb[3].src2 == d && mb[4].op.JNE? && mb[4].target == 2 && mb[5].op.JMP? && mb[5].target == 3
    requires a in env && c in env
    ensures RunM(w, mb, 0, env, None, []) ==
              if env[c] < env[a] then Goto(2, env[d := 1], []) else Goto(3, env[d := 0], [])
  {
    hide BitwiseWord;
    var x: Int64 := if env[c] < env[a] then 1 else 0;
    var e1 := env[d := x];
    var cmp := Some((env[c], env[a]));
    RunBranch(w, mb, d, e1, cmp);
    hide FlagsAfter;
    assert FlagsAfter(mb[1], env, None) == cmp by { CompareFlags(mb[1], env); }
    assert FlagsAfter(mb[2], env, cmp) == cmp by { SetFlags(mb[2], env, cmp); }
    assert RunM(w, mb, 2, env, cmp, []) == RunM(w, mb, 3, e1, cmp, []);
    assert RunM(w, mb, 1, env, None, []) == RunM(w, mb, 2, env, cmp, []);
  }

  /** The body, with registers `c`, `e` and `h` for `v3`, `v5` and `v6`. */
  lemma RunRound(w: World, mb: MachBlock, c: nat, e: nat, h: nat, env: Env, x: Int64)
    requires |mb| == 5 && mb[0].op.LABEL? && mb[1].op.MOV_IMM? && mb[1].dst == h && mb[1].imm == 1
    requires mb[2].op.ADD? && mb[2].dst == e && mb[2].src == c && mb[2].src2 == h && mb[3].op.MOV? && mb[3].dst == c && mb[3].src == e
    requires mb[4].op.JMP? && mb[4].target == 1 && c != h && c in env && env[c] == x && x < 100
    ensures RunM(w, mb, 0, env, None, []) == Goto(1, env[h := 1][e := x + 1][c := x + 1], [])
  {
    var y: Int64 := x + 1;
    var e1 := env[h := 1];
    var e2 := e1[e := y];
    var e3 := e2[c := y];
    assert EvalBinop(Add, x, 1) == Some(y);
    hide EvalBinop;
    assert RunM(w, mb, 4, e3, None, []) == Goto(1, e3, []);
    hide RunM;
    OneOn(w, mb, 0, env, None, env);
    OneOn(w, mb, 1, env, None, e1);
    OneOn(w, mb, 2, e1, None, e2);
    OneOn(w, mb, 3, e2, None, e3);
  }

  /** An instruction that goes on to the next, leaving the flags undefined. */
  lemma OneOn(w: World, mb: MachBlock, i: nat, env: Env, flags: Flags, env': Env)
    requires i < |mb| && !mb[i].op.IsJump() && !mb[i].op.RET? && ExecM(w, mb[i], env, flags, []) == MWent(env', None, [])
    ensures RunM(w, mb, i, env, flags, []) == RunM(w, mb, i + 1, env', None, [])
  {
    hide ExecM;
  }

  lemma RunExit(w: World, mb: MachBlock, c: nat, env: Env)
    requires |mb| == 2 && mb[0].op.LABEL? && mb[1].op.RET? && mb[1].src == c && c in env && c != INVALID_VREG
    ensures RunM(w, mb, 0, env, None, []) == Return(Some(env[c]), [])
  {
    assert RunM(w, mb, 1, env, None, []) == Return(Some(env[c]), []);
  }

  lemma AtStart(w: World, m: MFunc)
    requires m.params == []
    ensures RunMFunc(w, m, [], 0) == MRunning(0, map[], [])
  {
  }

  lemma NextState(w: World, m: MFunc, n: nat, b: nat, env: Env)
    requires RunMFunc(w, m, [], n) == MRunning(b, env, []) && b < |m.blocks|
    ensures RunMFunc(w, m, [], n + 1) ==
              match RunM(w, m.blocks[b], 0, env, None, [])
              case Fault => MFaulted
              case Goto(t, env', trace') => MRunning(t, env', trace')
              case Return(x, trace') => MFinished(x, trace')
  {
    hide RunM;
  }

  /** The selected code counts to 2. */
  lemma MachineCounts(w: World)
    ensures RunMFunc(w, LoopMachine(), [], 4).MRunning? && RunMFunc(w, LoopMachine(), [], 4).block == 2
    ensures RunMFunc(w, LoopMachine(), [], 7) == MFinished(Some(2), [])
  {
    var m := LoopMachine();
    var bs := m.blocks;
    assert |bs| == 4 && m.params == [];
    hide RunM, RunMFunc;
    AtStart(w, m);
    RunStart(w, bs[0], 1, 2, 3);
    NextState(w, m, 0, 0, map[]);
    hide LoopMachine;
    var e1 := MachineRound(w, 1, map[1 := 2][2 := 0][3 := 0], 0);
    var e2 := MachineRound(w, 3, e1, 1);
    MachineLeaves(w, 5, e2);
  }

  /** One round of the loop, the count being `x`. */
  lemma MachineRound(w: World, n: nat, env: Env, x: Int64) returns (env': Env)
    requires RunMFunc(w, LoopMachine(), [], n) == MRunning(1, env, []) && 1 in env && env[1] == 2 && 3 in env && env[3] == x && 0 <= x < 2
    ensures RunMFunc(w, LoopMachine(), [], n + 1).MRunning? && RunMFunc(w, LoopMachine(), [], n + 1).block == 2
    ensures RunMFunc(w, LoopMachine(), [], n + 2) == MRunning(1, env', []) && 1 in env' && env'[1] == 2 && 3 in env' && env'[3] == x + 1
  {
    var m := LoopMachine();
    var bs := m.blocks;
    hide RunM, RunMFunc;
    assert |bs| == 4;
    RunTest(w, bs[1], 1, 3, 4, env);
    var e1 := env[4 := 1];
    RunRound(w, bs[2], 3, 5, 6, e1, x);
    env' := e1[6 := 1][5 := x + 1][3 := x + 1];
    hide LoopMachine;
    NextState(w, m, n, 1, env);
    NextState(w, m, n + 1, 2, e1);
  }

  lemma MachineLeaves(w: World, n: nat, env: Env)
    requires RunMFunc(w, LoopMachine(), [], n) == MRunning(1, env, []) && 1 in env && env[1] == 2 && 3 in env && env[3] == 2
    ensures RunMFunc(w, LoopMachine(), [], n + 2) == MFinished(Some(2), [])
  {
    var m := LoopMachine();
    var bs := m.blocks;
    hide RunM, RunMFunc;
    assert |bs| == 4;
    RunTest(w, bs[1], 1, 3, 4, env);
    var e1 := env[4 := 0];
    RunExit(w, bs[3], 3, e1);
    hide LoopMachine;
    NextState(w, m, n, 1, env);
    NextState(w, m, n + 1, 3, e1);
  }

  /** The allocated code counts to 1: `v6` has taken the register that holds the limit. */
  lemma AllocatedStops(w: World)
    ensures RunMFunc(w, RenameFunc(LoopMachine(), LOOP_REGS), [], 4).MRunning? && RunMFunc(w, RenameFunc(LoopMachine(), LOOP_REGS), [], 4).block == 3
    ensures RunMFunc(w, RenameFunc(LoopMachine(), LOOP_REGS), [], 5) == MFinished(Some(1), [])
  {
    var m := RenameFunc(LoopMachine(), LOOP_REGS);
    var bs := m.blocks;
    AllocatedCode();
    assert m.params == [];
    hide RenameFunc, LoopMachine, RunM, RunMFunc;
    AtStart(w, m);
    RunStart(w, bs[0], 2, 3, 4);
    NextState(w, m, 0, 0, map[]);
    AllocatedRounds(w, map[2 := 2][3 := 0][4 := 0]);
  }

  lemma AllocatedRounds(w: World, e1: Env)
    requires RunMFunc(w, RenameFunc(LoopMachine(), LOOP_REGS), [], 1) == MRunning(1, e1, [])
    requires 2 in e1 && e1[2] == 2 && 4 in e1 && e1[4] == 0
    ensures RunMFunc(w, RenameFunc(LoopMachine(), LOOP_REGS), [], 4).MRunning? && RunMFunc(w, RenameFunc(LoopMachine(), LOOP_REGS), [], 4).block == 3
    ensures RunMFunc(w, RenameFunc(LoopMachine(), LOOP_REGS), [], 5) == MFinished(Some(1), [])
  {
    var m := RenameFunc(LoopMachine(), LOOP_REGS);
    var bs := m.blocks;
    hide RenameFunc, LoopMachine, RunM, RunMFunc;
    AllocatedCode();
    var e2 := e1[2 := 1];
    var e3 := e2[2 := 1][3 := 1][4 := 1];
    var e4 := e3[2 := 0];
    RunTest(w, bs[1], 2, 4, 2, e1);
    RunRound(w, bs[2], 4, 3, 2, e2, 0);
    RunTest(w, bs[1], 2, 4, 2, e3);
    RunExit(w, bs[3], 4, e4);
    NextState(w, m, 1, 1, e1);
    NextState(w, m, 2, 2, e2);
    NextState(w, m, 3, 1, e3);
    NextState(w, m, 4, 3, e4);
  }

  /** The allocated instructions. */
  lemma AllocatedCode()
    ensures var bs := RenameFunc(LoopMachine(), LOOP_REGS).blocks;
            && |bs| == 4 && |bs[0]| == 5 && |bs[1]| == 6 && |bs[2]| == 5 && |bs[3]| == 2
            && bs[0][0].op.LABEL? && bs[0][1].op.MOV_IMM? && bs[0][1].dst == 2 && bs[0][1].imm == 2
            && bs[0][2].op.MOV_IMM? && bs[0][2].dst == 3 && bs[0][2].imm == 0 && bs[0][3].op.MOV? && bs[0][3].dst == 4 && bs[0][3].src == 3
            && bs[0][4].op.JMP? && bs[0][4].target == 1
            && bs[1][0].op.LABEL? && bs[1][1].op.CMP? && bs[1][1].src == 4 && bs[1][1].src2 == 2 && bs[1][2].op == SET(Lt) && bs[1][2].dst == 2
            && bs[1][3].op.TEST? && bs[1][3].src == 2 && bs[1][3].src2 == 2 && bs[1][4].op.JNE? && bs[1][4].target == 2
            && bs[1][5].op.JMP? && bs[1][5].target == 3
            && bs[2][0].op.LABEL? && bs[2][1].op.MOV_IMM? && bs[2][1].dst == 2 && bs[2][1].imm == 1
            && bs[2][2].op.ADD? && bs[2][2].dst == 3 && bs[2][2].src == 4 && bs[2][2].src2 == 2
            && bs[2][3].op.MOV? && bs[2][3].dst == 4 && bs[2][3].src == 3 && bs[2][4].op.JMP? && bs[2][4].target == 1
            && bs[3][0].op.LABEL? && bs[3][1].op.RET? && bs[3][1].src == 4
  {
  }

  lemma LoopAssigned()
    requires BookedApart(LoopMachine(), LoopTable(), LOOP_REGS)
    ensures PlainCode(LoopMachine()) && Assigns(LoopMachine(), LoopTable(), LOOP_REGS)
  {
    var m := LoopMachine();
    assert m.nextVreg == 7 && m.params == [];
    hide LoopMachine, OccursAt, Plain, ReadsReg, Writes;
    forall b: nat, i: nat | m.Has(b, i)
      ensures Plain(m.At(b, i).op) && (Writes(m.At(b, i)).Some? ==> m.At(b, i).dst < 7)
      ensures forall v: nat :: ReadsReg(m.At(b, i), v) ==> v < 7
    {
      LoopInst(b, i);
    }
  }

  lemma LoopInst(b: nat, i: nat)
    requires LoopMachine().Has(b, i)
    ensures var inst := LoopMachine().At(b, i); Plain(inst.op) && inst.dst < 7 && forall v: nat :: ReadsReg(inst, v) ==> v < 7
  {
    var inst := LoopMachine().At(b, i);
    LoopMentions(0, b, i);
    assert Plain(inst.op) && inst.dst < 7 && (inst.src < 7 && inst.src2 < 7);
    hide LoopMachine;
  }

  /** The interval table does not span the loop, and first fit gives code that returns 1
      where the selected code returns 2. */
  lemma LoopGoesWrong(t: Table, regOf: seq<nat>)
    requires IsTable(LoopMachine(), t) && BookedApart(LoopMachine(), t, regOf) && FirstFit(LoopMachine(), t, regOf)
    ensures regOf == LOOP_REGS && PlainCode(LoopMachine()) && Assigns(LoopMachine(), t, regOf)
    ensures !LoopsCovered(LoopMachine(), t) && !MRefines(LoopMachine(), RenameFunc(LoopMachine(), regOf))
  {
    hide LoopMachine, BookedApart, FirstFit, IsTable, LoopsCovered, PlainCode, Assigns, RenameFunc, RunMFunc;
    LoopTableIs(t);
    LoopAssignment(regOf);
    LoopAssigned();
    LoopNotSpanned();
    var w: World := (t: Trace) => 0;
    MachineCounts(w);
    AllocatedStops(w);
    assert ObserveM(RunMFunc(w, LoopMachine(), [], 4)) != ObserveM(RunMFunc(w, RenameFunc(LoopMachine(), LOOP_REGS), [], 4));
  }

  /** That is what the allocator returns for it. */
  method AllocateLoop() returns (regOf: seq<nat>, slotOf: seq<int>)
    ensures IsSelection(LoopSsa(), LoopMachine())
    ensures regOf == LOOP_REGS && !MRefines(LoopMachine(), RenameFunc(LoopMachine(), regOf))
  {
    LoopSelected();
    assert LoopMachine().params == [] && LoopMachine().nextVreg == 7;
    hide LoopMachine, LoopSsa, IsSelection, MRefines, FirstFit, BookedApart, IsTable, LoopsCovered, PlainCode, Unspilled;
    var slots, stackSize, regUsed;
    regOf, slotOf, slots, stackSize, regUsed := LinearScanAllocate(LoopMachine());
    ghost var t :| Allocated(LoopMachine(), t, regOf, slotOf);
    LoopGoesWrong(t, regOf);
  }
}
