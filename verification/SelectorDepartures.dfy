/** Two programs that instruction selection gets wrong (src/isel.c:389-499): the copies of an
    edge that overwrite each other, and a branch both of whose targets need copies. */
module SelectorDepartures {
  import opened Wrappers
  import opened Word64
  import opened Ssa
  import opened SsaVerify
  import opened Mach
  import opened Isel
  import opened IselShape
  import opened ParallelCopy
  import opened IselCorrect
  import opened IselSimulation
  import opened IselPrints
  import opened LoopDepartures

  // ---- Runs ----

  lemma NextOf(w: World, m: MFunc, actuals: seq<Int64>, n: nat, b: nat, env: Env)
    requires RunMFunc(w, m, actuals, n) == MRunning(b, env, []) && b < |m.blocks|
    ensures RunMFunc(w, m, actuals, n + 1) ==
              match RunM(w, m.blocks[b], 0, env, None, [])
              case Fault => MFaulted
              case Goto(t, env', trace') => MRunning(t, env', trace')
              case Return(x, trace') => MFinished(x, trace')
  {
    hide RunM;
  }

  lemma NextBlockOf(w: World, f: Func, actuals: seq<Int64>, n: nat, b: Label, prev: Option<Label>, env: Env)
    requires Run(w, f, actuals, n) == Running(b, prev, env, []) && b < |f.blocks|
    ensures Run(w, f, actuals, n + 1) ==
              match RunBlock(w, f.blocks[b], 0, env, env, prev, [])
              case Fault => Faulted
              case Goto(t, env', trace') => Running(t, Some(b), env', trace')
              case Return(x, trace') => Finished(x, trace')
  {
    hide RunBlock;
  }

  lemma BindTwo(x: Int64, y: Int64)
    ensures Bind([0, 1], [x, y]) == map[0 := x, 1 := y]
  {
    assert Bind([], []) == map[];
    assert [0, 1][..1] == [0] && [0][..0] == [] && [x, y][..1] == [x] && [x][..0] == [];
    assert [0, 1][1..] == [1] && [1][1..] == [] && [x, y][1..] == [y] && [y][1..] == [];
  }

  // ---- Copies ----

  lemma TwoArgs(d: nat, s: VReg, p: Label, s': VReg, p': Label, q: Label)
    requires s != d && s' != d && p != p'
    ensures CopiesOfInst(Inst(Some(d), Phi([PhiArg(s, p), PhiArg(s', p')])), q) ==
              if q == p then [PhiCopy(d, s)] else if q == p' then [PhiCopy(d, s')] else []
  {
    var args := [PhiArg(s, p), PhiArg(s', p')];
    assert CopiesOfArgs(d, args, 0, q) == [];
    assert CopiesOfArgs(d, args, 1, q) == if q == p then [PhiCopy(d, s)] else [];
    assert CopiesOfArgs(d, args, 2, q) == if q == p then [PhiCopy(d, s)] else if q == p' then [PhiCopy(d, s')] else [];
  }

  lemma OneArg(d: nat, s: VReg, p: Label, q: Label)
    requires s != d
    ensures CopiesOfInst(Inst(Some(d), Phi([PhiArg(s, p)])), q) == if q == p then [PhiCopy(d, s)] else []
  {
    var args := [PhiArg(s, p)];
    assert CopiesOfArgs(d, args, 0, q) == [];
    assert CopiesOfArgs(d, args, 1, q) == if q == p then [PhiCopy(d, s)] else [];
  }

  /** Copies placed before the final jump of a block. */
  lemma PlaceBefore(bs: seq<MachBlock>, p: Label, head: MachBlock, t: Label, copies: seq<PhiCopy>)
    requires p < |bs| && bs[p] == head + [Mach.Jump(JMP, t)]
    requires head == [] || !head[|head| - 1].op.IsJump() || head[|head| - 1].target != t
    ensures PlaceEdge(bs, EdgeCopies(p, t, copies)) == bs[p := head + Moves(copies) + [Mach.Jump(JMP, t)]]
  {
    var pb := bs[p];
    assert pb[..|pb| - 1] == head && pb[|pb| - 1] == Mach.Jump(JMP, t);
    assert head != [] ==> pb[|pb| - 2] == head[|head| - 1];
  }

  // ---- Copies that overwrite each other ----

  /** What  while b { t = a; a = b; b = t }  return a  comes to after copy propagation, `a` and
      `b` being the parameters. */
  function SwapSsa(): Func {
    Func([[Inst(None, Op.Jump(1))],
          [Inst(Some(5), Phi([PhiArg(0, 0), PhiArg(2, 2)])), Inst(Some(2), Phi([PhiArg(1, 0), PhiArg(5, 2)])), Inst(None, Branch(2, 2, 3))],
          [Inst(None, Op.Jump(1))],
          [Inst(None, Op.Ret(Some(5)))]], 0, 6, [0, 1])
  }

  function SwapMachine(): MFunc {
    MFunc([[Make(LABEL, 0, 0, 0, 0), Make(MOV, 5, 0, 0, 0), Make(MOV, 2, 1, 0, 0), Mach.Jump(JMP, 1)],
           [Make(LABEL, 0, 0, 0, 0), Make(TEST, 0, 2, 2, 0), Mach.Jump(JNE, 2), Mach.Jump(JMP, 3)],
           [Make(LABEL, 0, 0, 0, 0), Make(MOV, 5, 2, 0, 0), Make(MOV, 2, 5, 0, 0), Mach.Jump(JMP, 1)],
           [Make(LABEL, 0, 0, 0, 0), Make(RET, 0, 5, 0, 0)]], 6, [0, 1])
  }

  function EnterCopies(): seq<PhiCopy> {
    [PhiCopy(5, 0), PhiCopy(2, 1)]
  }

  function SwapCopies(): seq<PhiCopy> {
    [PhiCopy(5, 2), PhiCopy(2, 5)]
  }

  function SwapEdges(): seq<EdgeCopies> {
    [EdgeCopies(0, 1, EnterCopies()), EdgeCopies(2, 1, SwapCopies())]
  }

  lemma SwapCopiesFor(p: Label, t: Label)
    ensures CopiesFor(SwapSsa(), p, t) == if t != 1 then [] else if p == 0 then EnterCopies() else if p == 2 then SwapCopies() else []
  {
    var f := SwapSsa();
    if t == 1 {
      var b := f.blocks[1];
      TwoArgs(5, 0, 0, 2, 2, p);
      TwoArgs(2, 1, 0, 5, 2, p);
      assert CopiesOfInst(b[2], p) == [];
      hide CopiesOfInst;
      assert CopiesUpTo(b, 0, p) == [];
      assert CopiesUpTo(b, 1, p) == CopiesOfInst(b[0], p);
      assert CopiesUpTo(b, 2, p) == CopiesOfInst(b[0], p) + CopiesOfInst(b[1], p);
      assert CopiesUpTo(b, 3, p) == CopiesUpTo(b, 2, p);
    } else if t < 4 {
      NoPhis(f.blocks[t], |f.blocks[t]|, p);
    }
  }

  lemma SwapCollected()
    ensures AllCollected(SwapSsa(), SwapEdges())
  {
    var f, edges := SwapSsa(), SwapEdges();
    assert |f.blocks| == 4 && |edges| == 2 && edges[0] == EdgeCopies(0, 1, EnterCopies()) && edges[1] == EdgeCopies(2, 1, SwapCopies());
    assert EnterCopies() != [] && SwapCopies() != [] && Ordered(edges);
    assert HasEdge(edges, 0, 1) by { assert edges[0].pred == 0 && edges[0].phi == 1; }
    assert HasEdge(edges, 2, 1) by { assert edges[1].pred == 2 && edges[1].phi == 1; }
    hide SwapSsa, SwapEdges, CopiesFor, EnterCopies, SwapCopies, HasEdge, Ordered;
    forall p, t | 0 <= p < 4 && 0 <= t < 4 && CopiesFor(f, p, t) != [] ensures HasEdge(edges, p, t) {
      SwapCopiesFor(p, t);
    }
    SwapCopiesFor(0, 1);
    SwapCopiesFor(2, 1);
  }

  lemma SwapLowered()
    ensures var m := SwapMachine();
            LowerAll(SwapSsa()) == [[Make(LABEL, 0, 0, 0, 0)] + [Mach.Jump(JMP, 1)], m.blocks[1], [Make(LABEL, 0, 0, 0, 0)] + [Mach.Jump(JMP, 1)], m.blocks[3]]
  {
    var f := SwapSsa();
    var start := [Make(LABEL, 0, 0, 0, 0)];
    assert LowerUpTo(f.blocks[0], 0) == start && LowerUpTo(f.blocks[3], 0) == start;
    assert LowerUpTo(f.blocks[0], 1) == start + [Mach.Jump(JMP, 1)];
    assert LowerUpTo(f.blocks[1], 0) == start;
    assert LowerUpTo(f.blocks[1], 1) == start;
    assert LowerUpTo(f.blocks[1], 2) == start;
    assert LowerUpTo(f.blocks[1], 3) == SwapMachine().blocks[1];
    assert LowerUpTo(f.blocks[2], 1) == start + [Mach.Jump(JMP, 1)];
    assert LowerUpTo(f.blocks[3], 1) == SwapMachine().blocks[3];
    assert |f.blocks| == 4 && |f.blocks[0]| == |f.blocks[2]| == |f.blocks[3]| == 1 && |f.blocks[1]| == 3;
    hide LowerUpTo, SwapMachine;
    assert |LowerAll(f)| == 4;
  }

  lemma SwapPlaced(bs: seq<MachBlock>)
    requires |bs| == 4 && bs[0] == [Make(LABEL, 0, 0, 0, 0)] + [Mach.Jump(JMP, 1)] == bs[2]
    ensures PlaceUpTo(bs, SwapEdges(), 2) ==
              bs[0 := [Make(LABEL, 0, 0, 0, 0)] + Moves(EnterCopies()) + [Mach.Jump(JMP, 1)]]
                [2 := [Make(LABEL, 0, 0, 0, 0)] + Moves(SwapCopies()) + [Mach.Jump(JMP, 1)]]
  {
    var edges := SwapEdges();
    var start := [Make(LABEL, 0, 0, 0, 0)];
    hide PlaceEdge, EnterCopies, SwapCopies, Moves;
    PlaceBefore(bs, 0, start, 1, EnterCopies());
    var bs1 := PlaceEdge(bs, edges[0]);
    assert bs1[2] == bs[2];
    PlaceBefore(bs1, 2, start, 1, SwapCopies());
    assert PlaceUpTo(bs, edges, 0) == bs;
    assert PlaceUpTo(bs, edges, 1) == bs1;
    assert PlaceUpTo(bs, edges, 2) == PlaceEdge(bs1, edges[1]);
  }

  lemma SwapBlocks()
    ensures var m, start := SwapMachine(), [Make(LABEL, 0, 0, 0, 0)];
            && m.nextVreg == SwapSsa().nextVreg && m.params == SwapSsa().params
            && m.blocks == [start + Moves(EnterCopies()) + [Mach.Jump(JMP, 1)], m.blocks[1], start + Moves(SwapCopies()) + [Mach.Jump(JMP, 1)], m.blocks[3]]
  {
    assert Moves(EnterCopies()) == [Make(MOV, 5, 0, 0, 0), Make(MOV, 2, 1, 0, 0)];
    assert Moves(SwapCopies()) == [Make(MOV, 5, 2, 0, 0), Make(MOV, 2, 5, 0, 0)];
    hide Moves, EnterCopies, SwapCopies;
    var bs := SwapMachine().blocks;
    assert bs[0] == [Make(LABEL, 0, 0, 0, 0)] + [Make(MOV, 5, 0, 0, 0), Make(MOV, 2, 1, 0, 0)] + [Mach.Jump(JMP, 1)];
    assert bs[2] == [Make(LABEL, 0, 0, 0, 0)] + [Make(MOV, 5, 2, 0, 0), Make(MOV, 2, 5, 0, 0)] + [Mach.Jump(JMP, 1)];
    assert bs == [bs[0], bs[1], bs[2], bs[3]];
  }

  lemma SwapSelected()
    ensures IsSelection(SwapSsa(), SwapMachine())
  {
    assert |SwapEdges()| == 2 && SwapEdges()[0].pred == 0 && SwapEdges()[1].pred == 2;
    hide SwapEdges, SwapSsa, SwapMachine, LowerAll, PlaceUpTo, IsSelection, AllCollected, Moves;
    SwapCollected();
    SwapLowered();
    SwapPlaced(LowerAll(SwapSsa()));
    SwapBlocks();
    SelectionIs(SwapSsa(), SwapEdges(), SwapMachine());
  }

  lemma SwapAt(b: int, i: int)
    requires SwapSsa().Has(b, i)
    ensures SwapSsa().At(b, i).dst == if b == 1 && i == 0 then Some(5) else if b == 1 && i == 1 then Some(2) else None
    ensures SwapSsa().At(b, i).op.IsTerminator() <==> !(b == 1 && i < 2)
    ensures !SwapSsa().At(b, i).op.Print?
  {
  }

  lemma SwapSingle()
    ensures SingleDef(SwapSsa())
  {
    var f := SwapSsa();
    assert f.params == [0, 1];
    forall b, i | f.Has(b, i)
      ensures f.At(b, i).dst == (if b == 1 && i == 0 then Some(5) else if b == 1 && i == 1 then Some(2) else None)
      ensures f.At(b, i).op.IsTerminator() || f.At(b, i).op.Print? ==> f.At(b, i).dst.None?
    {
      SwapAt(b, i);
    }
    hide SwapSsa;
  }

  lemma SwapAccepted()
    ensures Accepts(SwapSsa()) && SingleDef(SwapSsa()) && !NoConflict(CopiesFor(SwapSsa(), 2, 1))
  {
    var f := SwapSsa();
    hide CopiesFor, SingleDef;
    assert BlockOk(f, f.blocks[0]) && BlockOk(f, f.blocks[1]) && BlockOk(f, f.blocks[2]) && BlockOk(f, f.blocks[3]);
    hide BlockOk;
    SwapSingle();
    SwapCopiesFor(2, 1);
    assert SwapCopies()[0].dst == SwapCopies()[1].src;
  }

  /** Called with 0 and 1 the program swaps once and returns 1. */
  lemma SwapReturns(w: World)
    ensures Run(w, SwapSsa(), [0, 1], 5) == Finished(Some(1), []) && Run(w, SwapSsa(), [0, 1], 6) == Finished(Some(1), [])
  {
    var f := SwapSsa();
    var e0: Env := map[0 := 0, 1 := 1];
    BindTwo(0, 1);
    SwapBlockRuns(w, e0);
    assert |f.blocks| == 4 && f.entry == 0 && f.params == [0, 1];
    hide RunBlock, SwapSsa;
    assert Run(w, f, [0, 1], 0) == Running(0, None, e0, []);
    hide Run;
    var e1 := e0[5 := 0][2 := 1];
    var e2 := e1[5 := 1][2 := 0];
    NextBlockOf(w, f, [0, 1], 0, 0, None, e0);
    NextBlockOf(w, f, [0, 1], 1, 1, Some(0), e0);
    NextBlockOf(w, f, [0, 1], 2, 2, Some(1), e1);
    NextBlockOf(w, f, [0, 1], 3, 1, Some(2), e1);
    NextBlockOf(w, f, [0, 1], 4, 3, Some(1), e2);
    Done(w, f, [0, 1], 5, Some(1));
  }

  lemma Done(w: World, f: Func, actuals: seq<Int64>, n: nat, x: Option<Int64>)
    requires Run(w, f, actuals, n) == Finished(x, [])
    ensures Run(w, f, actuals, n + 1) == Finished(x, [])
  {
  }

  lemma SwapBlockRuns(w: World, e0: Env)
    requires e0 == map[0 := 0, 1 := 1]
    ensures var bs, e1 := SwapSsa().blocks, e0[5 := 0][2 := 1]; var e2 := e1[5 := 1][2 := 0];
            && RunBlock(w, bs[0], 0, e0, e0, None, []) == Goto(1, e0, [])
            && RunBlock(w, bs[1], 0, e0, e0, Some(0), []) == Goto(2, e1, [])
            && RunBlock(w, bs[2], 0, e1, e1, Some(1), []) == Goto(1, e1, [])
            && RunBlock(w, bs[1], 0, e1, e1, Some(2), []) == Goto(3, e2, [])
            && RunBlock(w, bs[3], 0, e2, e2, Some(1), []) == Return(Some(1), [])
  {
    var b, e1 := SwapSsa().blocks[1], e0[5 := 0][2 := 1];
    var e2 := e1[5 := 1][2 := 0];
    TwoPhis(w, b, e0, Some(0), 0, 1);
    TwoPhis(w, b, e1, Some(2), 1, 0);
  }

  lemma TwoPhis(w: World, b: Block, env: Env, prev: Option<Label>, x: Int64, y: Int64)
    requires b == SwapSsa().blocks[1] && (prev == Some(0) || prev == Some(2))
    requires prev == Some(0) ==> 0 in env && env[0] == x && 1 in env && env[1] == y
    requires prev == Some(2) ==> 2 in env && env[2] == x && 5 in env && env[5] == y
    ensures RunBlock(w, b, 0, env, env, prev, []) == Goto(if y != 0 then 2 else 3, env[5 := x][2 := y], [])
  {
    var e1 := env[5 := x];
    var e2 := e1[2 := y];
    assert Eval(b[0].op, env, env, prev) == Some(x);
    assert Eval(b[1].op, e1, env, prev) == Some(y);
    hide Eval;
    assert RunBlock(w, b, 2, e2, env, prev, []) == Goto(if y != 0 then 2 else 3, e2, []);
    assert RunBlock(w, b, 1, e1, env, prev, []) == RunBlock(w, b, 2, e2, env, prev, []);
    assert RunBlock(w, b, 0, env, env, prev, []) == RunBlock(w, b, 1, e1, env, prev, []);
  }

  // The machine.

  lemma RunTwoMoves(w: World, mb: MachBlock, d: nat, s: nat, d': nat, s': nat, t: Label, env: Env)
    requires mb == [Make(LABEL, 0, 0, 0, 0), Make(MOV, d, s, 0, 0), Make(MOV, d', s', 0, 0), Mach.Jump(JMP, t)]
    requires s in env && (s' in env || s' == d)
    ensures var e1 := env[d := env[s]]; RunM(w, mb, 0, env, None, []) == Goto(t, e1[d' := e1[s']], [])
  {
    var e1 := env[d := env[s]];
    var e2 := e1[d' := e1[s']];
    assert RunM(w, mb, 3, e2, None, []) == Goto(t, e2, []);
    assert RunM(w, mb, 2, e1, None, []) == RunM(w, mb, 3, e2, None, []);
    assert RunM(w, mb, 1, env, None, []) == RunM(w, mb, 2, e1, None, []);
  }

  lemma RunTested(w: World, mb: MachBlock, c: nat, t: Label, e: Label, env: Env)
    requires mb == [Make(LABEL, 0, 0, 0, 0), Make(TEST, 0, c, c, 0), Mach.Jump(JNE, t), Mach.Jump(JMP, e)] && c in env && env[c] != 0
    ensures RunM(w, mb, 0, env, None, []) == Goto(t, env, [])
  {
    TestFlags(mb[1], env, None);
    hide FlagsAfter, BitwiseWord;
    var now := Some((env[c], 0 as Int64));
    assert RunM(w, mb, 2, env, now, []) == Goto(t, env, []);
    assert RunM(w, mb, 1, env, None, []) == RunM(w, mb, 2, env, now, []);
  }

  /** The machine copies `b` to `a` and then `a`, which is now `b`, to `b`: it goes round for good. */
  lemma {:induction false} SwapNeverEnds(w: World, n: nat)
    ensures var s := RunMFunc(w, SwapMachine(), [0, 1], n + 1);
            s.MRunning? && (s.block == 1 || s.block == 2) && s.trace == [] && 5 in s.env && 2 in s.env && s.env[2] == 1
  {
    var m := SwapMachine();
    var bs := m.blocks;
    assert |bs| == 4 && m.params == [0, 1];
    assert bs[0] == [Make(LABEL, 0, 0, 0, 0), Make(MOV, 5, 0, 0, 0), Make(MOV, 2, 1, 0, 0), Mach.Jump(JMP, 1)];
    assert bs[1] == [Make(LABEL, 0, 0, 0, 0), Make(TEST, 0, 2, 2, 0), Mach.Jump(JNE, 2), Mach.Jump(JMP, 3)];
    assert bs[2] == [Make(LABEL, 0, 0, 0, 0), Make(MOV, 5, 2, 0, 0), Make(MOV, 2, 5, 0, 0), Mach.Jump(JMP, 1)];
    hide SwapMachine, RunM;
    if n == 0 {
      BindTwo(0, 1);
      var e0: Env := map[0 := 0, 1 := 1];
      assert RunMFunc(w, m, [0, 1], 0) == MRunning(0, e0, []);
      hide RunMFunc;
      RunTwoMoves(w, bs[0], 5, 0, 2, 1, 1, e0);
      NextOf(w, m, [0, 1], 0, 0, e0);
    } else {
      hide RunMFunc;
      SwapNeverEnds(w, n - 1);
      var s := RunMFunc(w, m, [0, 1], n);
      if s.block == 1 {
        RunTested(w, bs[1], 2, 2, 3, s.env);
      } else {
        RunTwoMoves(w, bs[2], 5, 2, 2, 5, 1, s.env);
      }
      NextOf(w, m, [0, 1], n, s.block, s.env);
    }
  }

  /** The program is well formed, its copies conflict, and the selected code does not do what it
      does: it never ends. */
  lemma SwapGoesWrong()
    ensures Accepts(SwapSsa()) && SingleDef(SwapSsa()) && !NoConflict(CopiesFor(SwapSsa(), 2, 1))
    ensures IsSelection(SwapSsa(), SwapMachine()) && !Simulates(SwapSsa(), SwapMachine())
  {
    var w: World := (t: Trace) => 0;
    hide *;
    SwapAccepted();
    SwapSelected();
    SwapReturns(w);
    SwapNotDone(w);
    LostResult(w, SwapSsa(), SwapMachine(), [0, 1], 5, Some(1));
  }

  /** A result that the machine does not show. */
  lemma LostResult(w: World, f: Func, m: MFunc, actuals: seq<Int64>, n: nat, x: Option<Int64>)
    requires Run(w, f, actuals, n) == Finished(x, []) && Run(w, f, actuals, n + 1) == Finished(x, [])
    requires forall k: nat :: ObserveM(RunMFunc(w, m, actuals, k)) != MDone(x, [])
    ensures !Simulates(f, m)
  {
    hide Run, RunMFunc, ObserveM;
    NotSimulated(w, f, m, actuals, n);
  }

  lemma SwapNotDone(w: World)
    ensures forall k: nat :: ObserveM(RunMFunc(w, SwapMachine(), [0, 1], k)) != MDone(Some(1), [])
  {
    hide SwapMachine, RunMFunc;
    forall k: nat ensures ObserveM(RunMFunc(w, SwapMachine(), [0, 1], k)) != MDone(Some(1), []) {
      if k == 0 {
        StartsRunning(w, SwapMachine(), [0, 1]);
      } else {
        SwapNeverEnds(w, k - 1);
      }
    }
  }

  lemma StartsRunning(w: World, m: MFunc, actuals: seq<Int64>)
    ensures RunMFunc(w, m, actuals, 0).MRunning?
  {
  }

  // ---- A branch with copies on both edges ----

  /** Returns its first argument if that is not 0, and else its second; the taken target is laid
      out behind the other. */
  function PickSsa(): Func {
    Func([[Inst(None, Branch(0, 2, 1))],
          [Inst(Some(2), Phi([PhiArg(1, 0)])), Inst(None, Op.Ret(Some(2)))],
          [Inst(Some(3), Phi([PhiArg(0, 0)])), Inst(None, Op.Ret(Some(3)))]], 0, 4, [0, 1])
  }

  /** The copy for the taken edge is nowhere. */
  function PickMachine(): MFunc {
    MFunc([[Make(LABEL, 0, 0, 0, 0), Make(TEST, 0, 0, 0, 0), Mach.Jump(JNE, 2), Make(MOV, 2, 1, 0, 0), Mach.Jump(JMP, 1)],
           [Make(LABEL, 0, 0, 0, 0), Make(RET, 0, 2, 0, 0)],
           [Make(LABEL, 0, 0, 0, 0), Make(RET, 0, 3, 0, 0)]], 4, [0, 1])
  }

  function PickEdges(): seq<EdgeCopies> {
    [EdgeCopies(0, 1, [PhiCopy(2, 1)]), EdgeCopies(0, 2, [PhiCopy(3, 0)])]
  }

  lemma PickCopiesFor(p: Label, t: Label)
    ensures CopiesFor(PickSsa(), p, t) == if p != 0 then [] else if t == 1 then [PhiCopy(2, 1)] else if t == 2 then [PhiCopy(3, 0)] else []
  {
    var f := PickSsa();
    if t == 1 || t == 2 {
      var b := f.blocks[t];
      OneArg(2, 1, 0, p);
      OneArg(3, 0, 0, p);
      assert CopiesOfInst(b[1], p) == [];
      hide CopiesOfInst;
      assert CopiesUpTo(b, 0, p) == [];
      assert CopiesUpTo(b, 1, p) == CopiesOfInst(b[0], p);
      assert CopiesUpTo(b, 2, p) == CopiesUpTo(b, 1, p);
    } else if t < 3 {
      NoPhis(f.blocks[t], |f.blocks[t]|, p);
    }
  }

  lemma PickCollected()
    ensures AllCollected(PickSsa(), PickEdges())
  {
    var f, edges := PickSsa(), PickEdges();
    assert |f.blocks| == 3 && |edges| == 2 && edges[0] == EdgeCopies(0, 1, [PhiCopy(2, 1)]) && edges[1] == EdgeCopies(0, 2, [PhiCopy(3, 0)]);
    assert Ordered(edges);
    assert HasEdge(edges, 0, 1) by { assert edges[0].pred == 0 && edges[0].phi == 1; }
    assert HasEdge(edges, 0, 2) by { assert edges[1].pred == 0 && edges[1].phi == 2; }
    hide PickSsa, PickEdges, CopiesFor, HasEdge, Ordered;
    forall p, t | 0 <= p < 3 && 0 <= t < 3 && CopiesFor(f, p, t) != [] ensures HasEdge(edges, p, t) {
      PickCopiesFor(p, t);
    }
    PickCopiesFor(0, 1);
    PickCopiesFor(0, 2);
  }

  function PickHead(): MachBlock {
    [Make(LABEL, 0, 0, 0, 0), Make(TEST, 0, 0, 0, 0), Mach.Jump(JNE, 2)]
  }

  lemma PickLowered()
    ensures LowerAll(PickSsa()) == [PickHead() + [Mach.Jump(JMP, 1)], PickMachine().blocks[1], PickMachine().blocks[2]]
  {
    var f := PickSsa();
    var start := [Make(LABEL, 0, 0, 0, 0)];
    assert LowerUpTo(f.blocks[0], 0) == start;
    assert LowerUpTo(f.blocks[0], 1) == PickHead() + [Mach.Jump(JMP, 1)];
    assert LowerUpTo(f.blocks[1], 0) == start && LowerUpTo(f.blocks[1], 1) == start;
    assert LowerUpTo(f.blocks[1], 2) == PickMachine().blocks[1];
    assert LowerUpTo(f.blocks[2], 0) == start && LowerUpTo(f.blocks[2], 1) == start;
    assert LowerUpTo(f.blocks[2], 2) == PickMachine().blocks[2];
    assert |f.blocks| == 3 && |f.blocks[0]| == 1 && |f.blocks[1]| == |f.blocks[2]| == 2;
    hide LowerUpTo, PickMachine, PickHead;
    assert |LowerAll(f)| == 3;
  }

  lemma PickPlaced(bs: seq<MachBlock>)
    requires |bs| == 3 && bs[0] == PickHead() + [Mach.Jump(JMP, 1)]
    ensures PlaceUpTo(bs, PickEdges(), 2) == bs[0 := PickMachine().blocks[0]]
  {
    var edges := PickEdges();
    var bs1 := bs[0 := PickMachine().blocks[0]];
    PlaceBefore(bs, 0, PickHead(), 1, [PhiCopy(2, 1)]);
    assert Moves([PhiCopy(2, 1)]) == [Make(MOV, 2, 1, 0, 0)];
    assert PickHead() + [Make(MOV, 2, 1, 0, 0)] + [Mach.Jump(JMP, 1)] == PickMachine().blocks[0];
    assert PlaceEdge(bs, edges[0]) == bs1;
    assert PlaceEdge(bs1, edges[1]) == bs1;
    hide PlaceEdge;
    assert PlaceUpTo(bs, edges, 0) == bs;
    assert PlaceUpTo(bs, edges, 1) == bs1;
  }

  lemma PickSelected()
    ensures IsSelection(PickSsa(), PickMachine())
  {
    assert |PickEdges()| == 2 && PickEdges()[0].pred == 0 == PickEdges()[1].pred;
    assert PickMachine().nextVreg == PickSsa().nextVreg && PickMachine().params == PickSsa().params;
    assert |PickMachine().blocks| == 3;
    assert PickMachine().blocks == [PickMachine().blocks[0], PickMachine().blocks[1], PickMachine().blocks[2]];
    hide PickEdges, PickSsa, PickMachine, LowerAll, PlaceUpTo, IsSelection, AllCollected;
    PickCollected();
    PickLowered();
    PickPlaced(LowerAll(PickSsa()));
    SelectionIs(PickSsa(), PickEdges(), PickMachine());
  }

  lemma PickAt(b: int, i: int)
    requires PickSsa().Has(b, i)
    ensures PickSsa().At(b, i).dst == if b == 1 && i == 0 then Some(2) else if b == 2 && i == 0 then Some(3) else None
    ensures PickSsa().At(b, i).op.IsTerminator() || PickSsa().At(b, i).op.Print? ==> PickSsa().At(b, i).dst.None?
  {
  }

  lemma PickSingle()
    ensures SingleDef(PickSsa())
  {
    var f := PickSsa();
    assert f.params == [0, 1];
    forall b, i | f.Has(b, i)
      ensures f.At(b, i).dst == (if b == 1 && i == 0 then Some(2) else if b == 2 && i == 0 then Some(3) else None)
      ensures f.At(b, i).op.IsTerminator() || f.At(b, i).op.Print? ==> f.At(b, i).dst.None?
    {
      PickAt(b, i);
    }
    hide PickSsa;
  }

  lemma PickAccepted()
    ensures Accepts(PickSsa()) && SingleDef(PickSsa()) && !BranchOk(PickSsa(), 0)
  {
    var f := PickSsa();
    hide CopiesFor, SingleDef;
    assert BlockOk(f, f.blocks[0]) && BlockOk(f, f.blocks[1]) && BlockOk(f, f.blocks[2]);
    hide BlockOk;
    PickSingle();
    PickCopiesFor(0, 1);
    PickCopiesFor(0, 2);
  }

  lemma PickReturns(w: World)
    ensures Run(w, PickSsa(), [1, 0], 2) == Finished(Some(1), []) && Run(w, PickSsa(), [1, 0], 3) == Finished(Some(1), [])
  {
    var f := PickSsa();
    var e0: Env := map[0 := 1, 1 := 0];
    BindTwo(1, 0);
    assert RunBlock(w, f.blocks[0], 0, e0, e0, None, []) == Goto(2, e0, []);
    var b, e1 := f.blocks[2], e0[3 := 1];
    assert RunBlock(w, b, 1, e1, e0, Some(0), []) == Return(Some(1), []);
    assert RunBlock(w, b, 0, e0, e0, Some(0), []) == RunBlock(w, b, 1, e1, e0, Some(0), []);
    assert Run(w, f, [1, 0], 0) == Running(0, None, e0, []);
    assert |f.blocks| == 3;
    hide RunBlock, PickSsa, Run;
    NextBlockOf(w, f, [1, 0], 0, 0, None, e0);
    NextBlockOf(w, f, [1, 0], 1, 2, Some(0), e0);
    Done(w, f, [1, 0], 2, Some(1));
  }

  /** Register 3 has no value where it is returned. */
  lemma PickStarts(w: World)
    ensures RunMFunc(w, PickMachine(), [1, 0], 0).MRunning? && RunMFunc(w, PickMachine(), [1, 0], 1).MRunning?
    ensures RunMFunc(w, PickMachine(), [1, 0], 2) == MFaulted
  {
    var m := PickMachine();
    var bs := m.blocks;
    var e0: Env := map[0 := 1, 1 := 0];
    BindTwo(1, 0);
    assert |bs| == 3 && m.params == [0, 1];
    PickBlocks(w, e0);
    hide RunM, PickMachine;
    assert RunMFunc(w, m, [1, 0], 0) == MRunning(0, e0, []);
    hide RunMFunc;
    NextOf(w, m, [1, 0], 0, 0, e0);
    NextOf(w, m, [1, 0], 1, 2, e0);
  }

  lemma PickBlocks(w: World, e0: Env)
    requires e0 == map[0 := 1, 1 := 0]
    ensures var bs := PickMachine().blocks;
            |bs| == 3 && RunM(w, bs[0], 0, e0, None, []) == Goto(2, e0, []) && RunM(w, bs[2], 0, e0, None, []) == Fault
  {
    var bs := PickMachine().blocks;
    assert bs[0] == [Make(LABEL, 0, 0, 0, 0), Make(TEST, 0, 0, 0, 0), Mach.Jump(JNE, 2), Make(MOV, 2, 1, 0, 0), Mach.Jump(JMP, 1)];
    assert RunM(w, bs[2], 1, e0, None, []) == Fault;
    assert RunM(w, bs[2], 0, e0, None, []) == RunM(w, bs[2], 1, e0, None, []);
    hide RunM, PickMachine;
    TakenJump(w, bs[0], e0);
  }

  lemma {:induction false} PickFaults(w: World, n: nat)
    ensures RunMFunc(w, PickMachine(), [1, 0], n + 2) == MFaulted
  {
    hide PickMachine;
    if n == 0 {
      hide RunMFunc;
      PickStarts(w);
    } else {
      PickFaults(w, n - 1);
    }
  }

  lemma TakenJump(w: World, mb: MachBlock, env: Env)
    requires mb == [Make(LABEL, 0, 0, 0, 0), Make(TEST, 0, 0, 0, 0), Mach.Jump(JNE, 2), Make(MOV, 2, 1, 0, 0), Mach.Jump(JMP, 1)]
    requires 0 in env && env[0] != 0
    ensures RunM(w, mb, 0, env, None, []) == Goto(2, env, [])
  {
    TestFlags(mb[1], env, None);
    hide FlagsAfter, BitwiseWord;
    var now := Some((env[0], 0 as Int64));
    assert RunM(w, mb, 2, env, now, []) == Goto(2, env, []);
    assert RunM(w, mb, 1, env, None, []) == RunM(w, mb, 2, env, now, []);
  }

  /** The program is well formed, its branch is one the selector cannot handle, and the selected
      code returns a register that was never written. */
  lemma PickGoesWrong()
    ensures Accepts(PickSsa()) && SingleDef(PickSsa()) && !BranchOk(PickSsa(), 0)
    ensures IsSelection(PickSsa(), PickMachine()) && !Simulates(PickSsa(), PickMachine())
  {
    var w: World := (t: Trace) => 0;
    hide *;
    PickAccepted();
    PickSelected();
    PickReturns(w);
    PickNotDone(w);
    LostResult(w, PickSsa(), PickMachine(), [1, 0], 2, Some(1));
  }

  lemma PickNotDone(w: World)
    ensures forall k: nat :: ObserveM(RunMFunc(w, PickMachine(), [1, 0], k)) != MDone(Some(1), [])
  {
    hide PickMachine, RunMFunc;
    PickStarts(w);
    forall k: nat ensures ObserveM(RunMFunc(w, PickMachine(), [1, 0], k)) != MDone(Some(1), []) {
      if k > 1 {
        PickFaults(w, k - 2);
      }
    }
  }
}
