/** Whole runs of the selected code (src/isel.c:345-499 and the terminators of 84-306). */
module IselSimulation {
  import opened Wrappers
  import opened Word64
  import opened Ssa
  import opened StrictSsa
  import opened Mach
  import opened Isel
  import opened IselShape
  import opened ParallelCopy
  import opened IselCorrect

  // ---- Leaving a block ----

  /** At the terminator no PHI is ahead. */
  lemma SameAtEnd(w: World, f: Func, p: Label, dirty: bool, env: Env, snap: Env, prev: Option<Label>, menv: Env)
    requires Selectable(f) && p < |f.blocks| && f.blocks[p] != []
    requires BlockRel(w, f, p, |f.blocks[p]| - 1, dirty, env, snap, prev, menv)
    ensures Same(w, SpoiledOut(f, p, dirty), env, menv)
  {
    var last := |f.blocks[p]| - 1;
    TerminatorLast(f, p, last);
    hide Selectable, Spoiled;
    forall v | v in env && (v != 0 || !SpoiledOut(f, p, dirty)) ensures v in menv && menv[v] == env[v] {
      forall j | last <= j && f.Has(p, j) && f.At(p, j).op.Phi? ensures f.At(p, j).dst != Some(v) {
      }
      assert Kept(f, p, last, dirty, v) && !Ahead(f, p, last, v);
    }
  }

  lemma OperandInRange(f: Func, b: nat, i: nat, v: VReg)
    requires Selectable(f) && f.Has(b, i) && Reads(f.At(b, i).op, v)
    ensures v < INVALID_VREG
  {
    assert InstSelectable(f, b, i);
  }

  /** The copies from position `k` on, then the jump. */
  lemma MovesThenJump(w: World, mb: MachBlock, head: MachBlock, cs: seq<PhiCopy>, t: Label, menv: Env, flags: Flags, trace: Trace)
    requires mb == head + Moves(cs) + [Mach.Jump(JMP, t)] && SourcesIn(cs, menv)
    ensures RunM(w, mb, |head|, menv, flags, trace) == Goto(t, InSequence(cs, menv), trace)
  {
    forall k | 0 <= k < |cs| ensures mb[|head| + k] == Make(MOV, cs[k].dst, cs[k].src, 0, 0) {
      assert mb[|head| + k] == Moves(cs)[k];
    }
    assert mb[|head| + |cs|] == Mach.Jump(JMP, t);
    assert MovesAt(mb, |head|, cs);
    RunMoves(w, mb, |head|, cs, menv, flags, trace);
  }

  /** A test of `c` and the conditional jump on it. */
  lemma TestThenJump(w: World, mb: MachBlock, head: MachBlock, c: VReg, via: Label, rest: MachBlock, menv: Env, flags: Flags, trace: Trace)
    requires mb == head + [Make(TEST, 0, c, c, 0), Mach.Jump(JNE, via)] + rest && c in menv
    ensures menv[c] != 0 ==> RunM(w, mb, |head|, menv, flags, trace) == Goto(via, menv, trace)
    ensures menv[c] == 0 ==> RunM(w, mb, |head|, menv, flags, trace) == RunM(w, mb, |head| + 2, menv, Some((0, 0)), trace)
  {
    var k := |head|;
    assert mb[k] == Make(TEST, 0, c, c, 0) && mb[k + 1] == Mach.Jump(JNE, via);
    TestSelf(menv[c]);
    hide BitwiseWord;
    var flags' := FlagsAfter(mb[k], menv, flags);
    assert flags' == Some((menv[c], 0));
    assert RunM(w, mb, k, menv, flags, trace) == RunM(w, mb, k + 1, menv, flags', trace);
  }

  /** Along the taken edge: directly, or through the block of its copies. */
  ghost predicate Arrives(w: World, m: MFunc, p: Label, menv: Env, trace: Trace, t: Label, menv': Env, trace': Trace) {
    var once := StepM(w, m, MRunning(p, menv, trace));
    once == MRunning(t, menv', trace') || StepM(w, m, once) == MRunning(t, menv', trace')
  }

  lemma RoutedArrives(w: World, m: MFunc, p: Label, menv0: Env, trace0: Trace, nb: nat, via: Label, t: Label, cs: seq<PhiCopy>, menv: Env, trace: Trace)
    requires StepM(w, m, MRunning(p, menv0, trace0)) == MRunning(via, menv, trace)
    requires Routed(m.blocks, nb, via, t, cs) && SourcesIn(cs, menv)
    ensures Arrives(w, m, p, menv0, trace0, t, InSequence(cs, menv), trace)
  {
    if cs != [] {
      var mb := m.blocks[via];
      assert mb == [] + Moves(cs) + [Mach.Jump(JMP, t)];
      MovesThenJump(w, mb, [], cs, t, menv, None, trace);
    }
  }

  /** The block has reached its terminator, with the machine at the code for it. */
  ghost predicate AtEnd(w: World, f: Func, m: MFunc, p: Label, dirty: bool, menv0: Env, trace0: Trace, env: Env, menv: Env, flags: Flags, trace: Trace)
    requires p < |f.blocks| && f.blocks[p] != []
  {
    && p < |m.blocks|
    && RunM(w, m.blocks[p], 0, menv0, None, trace0) == RunM(w, m.blocks[p], |Body(f.blocks[p])|, menv, flags, trace)
    && Same(w, SpoiledOut(f, p, dirty), env, menv)
  }

  lemma LeaveByJump(w: World, f: Func, m: MFunc, p: Label, dirty: bool, t: Label, menv0: Env, trace0: Trace, env: Env, menv: Env, flags: Flags, trace: Trace)
    requires Selectable(f) && p < |f.blocks| && f.blocks[p] != [] && t < |f.blocks|
    requires AtEnd(w, f, m, p, dirty, menv0, trace0, env, menv, flags, trace)
    requires JumpShape(m.blocks, p, Body(f.blocks[p]), t, CopiesFor(f, p, t)) && SourcesIn(CopiesFor(f, p, t), menv)
    ensures Arrives(w, m, p, menv0, trace0, t, InSequence(CopiesFor(f, p, t), menv), trace)
  {
    var body, cs := Body(f.blocks[p]), CopiesFor(f, p, t);
    hide Selectable, Body, CopiesFor, InSequence, RunM, Same, Moves;
    MovesThenJump(w, m.blocks[p], body, cs, t, menv, flags, trace);
  }

  lemma BranchTaken(w: World, m: MFunc, nb: nat, p: Label, body: MachBlock, c: VReg, t: Label, e: Label, taken: seq<PhiCopy>, fallen: seq<PhiCopy>,
                    menv0: Env, trace0: Trace, menv: Env, flags: Flags, trace: Trace)
    requires BranchShape(m.blocks, nb, p, body, c, t, e, taken, fallen)
    requires RunM(w, m.blocks[p], 0, menv0, None, trace0) == RunM(w, m.blocks[p], |body|, menv, flags, trace)
    requires c in menv && menv[c] != 0 && SourcesIn(taken, menv)
    ensures Arrives(w, m, p, menv0, trace0, t, InSequence(taken, menv), trace)
  {
    var mb := m.blocks[p];
    var via := TakenTarget(mb, body);
    var rest := Moves(fallen) + [Mach.Jump(JMP, e)];
    assert mb == body + [Make(TEST, 0, c, c, 0), Mach.Jump(JNE, via)] + rest;
    hide TakenTarget, Moves, RunM, InSequence, Routed;
    TestThenJump(w, mb, body, c, via, rest, menv, flags, trace);
    RoutedArrives(w, m, p, menv0, trace0, nb, via, t, taken, menv, trace);
  }

  lemma BranchFallen(w: World, m: MFunc, nb: nat, p: Label, body: MachBlock, c: VReg, t: Label, e: Label, taken: seq<PhiCopy>, fallen: seq<PhiCopy>,
                     menv0: Env, trace0: Trace, menv: Env, flags: Flags, trace: Trace)
    requires BranchShape(m.blocks, nb, p, body, c, t, e, taken, fallen)
    requires RunM(w, m.blocks[p], 0, menv0, None, trace0) == RunM(w, m.blocks[p], |body|, menv, flags, trace)
    requires c in menv && menv[c] == 0 && SourcesIn(fallen, menv)
    ensures Arrives(w, m, p, menv0, trace0, e, InSequence(fallen, menv), trace)
  {
    var mb := m.blocks[p];
    var via := TakenTarget(mb, body);
    var rest := Moves(fallen) + [Mach.Jump(JMP, e)];
    var head := body + [Make(TEST, 0, c, c, 0), Mach.Jump(JNE, via)];
    assert mb == head + rest;
    assert mb == head + Moves(fallen) + [Mach.Jump(JMP, e)];
    hide TakenTarget, Moves, RunM, InSequence, Routed;
    TestThenJump(w, mb, body, c, via, rest, menv, flags, trace);
    MovesThenJump(w, mb, head, fallen, e, menv, Some((0, 0)), trace);
  }

  lemma LeaveByBranch(w: World, f: Func, m: MFunc, p: Label, dirty: bool, c: VReg, t: Label, e: Label, menv0: Env, trace0: Trace,
                      env: Env, menv: Env, flags: Flags, trace: Trace)
    requires Selectable(f) && p < |f.blocks| && f.blocks[p] != []
    requires AtEnd(w, f, m, p, dirty, menv0, trace0, env, menv, flags, trace)
    requires BranchShape(m.blocks, |f.blocks|, p, Body(f.blocks[p]), c, t, e, CopiesFor(f, p, t), CopiesFor(f, p, e))
    requires c in menv
    requires SourcesIn(CopiesFor(f, p, if menv[c] != 0 then t else e), menv)
    ensures var to := if menv[c] != 0 then t else e;
            Arrives(w, m, p, menv0, trace0, to, InSequence(CopiesFor(f, p, to), menv), trace)
  {
    var body, taken, fallen := Body(f.blocks[p]), CopiesFor(f, p, t), CopiesFor(f, p, e);
    hide Selectable, Body, CopiesFor, InSequence, RunM, Same, BranchShape, Arrives;
    if menv[c] != 0 {
      BranchTaken(w, m, |f.blocks|, p, body, c, t, e, taken, fallen, menv0, trace0, menv, flags, trace);
    } else {
      BranchFallen(w, m, |f.blocks|, p, body, c, t, e, taken, fallen, menv0, trace0, menv, flags, trace);
    }
  }

  lemma LeaveByRet(w: World, f: Func, m: MFunc, p: Label, dirty: bool, r: Option<VReg>, menv0: Env, trace0: Trace,
                   env: Env, menv: Env, flags: Flags, trace: Trace)
    requires Selectable(f) && p < |f.blocks| && f.blocks[p] != [] && f.blocks[p][|f.blocks[p]| - 1].op == Ssa.Ret(r)
    requires AtEnd(w, f, m, p, dirty, menv0, trace0, env, menv, flags, trace)
    requires RetShape(m.blocks, p, Body(f.blocks[p]), r)
    requires Leave(Ssa.Ret(r), env, trace).Return? && ReadsClean(f, p, |f.blocks[p]| - 1, dirty)
    ensures StepM(w, m, MRunning(p, menv0, trace0)) == MFinished(Leave(Ssa.Ret(r), env, trace).value, trace)
  {
    var body, mb := Body(f.blocks[p]), m.blocks[p];
    if r.Some? {
      OperandInRange(f, p, |f.blocks[p]| - 1, r.value);
    }
    assert mb[|body|].op.RET?;
  }

  // ---- One block ----

  /** `m` was selected from `f`. */
  ghost predicate Selected(f: Func, m: MFunc) {
    && m.params == f.params
    && |f.blocks| <= |m.blocks|
    && forall p: Label :: p < |f.blocks| && f.blocks[p] != [] ==> EdgesRight(f, m.blocks, p)
  }

  lemma SelectionIsRight(f: Func, m: MFunc)
    requires Selectable(f) && IsSelection(f, m)
    ensures Selected(f, m)
  {
    var edges :| AllCollected(f, edges) && m == MFunc(PlaceUpTo(LowerAll(f), edges, |edges|), f.nextVreg, f.params);
    LowerAllSize(f);
    hide PlaceUpTo, LowerAll, EdgesRight, AllCollected;
    forall p: Label | p < |f.blocks| && f.blocks[p] != [] ensures EdgesRight(f, m.blocks, p) {
      TerminatorLast(f, p, 0);
      SelectionRight(f, edges, p);
    }
  }

  lemma BodyFirst(f: Func, m: MFunc, p: Label)
    requires p < |f.blocks| && f.blocks[p] != [] && EdgesRight(f, m.blocks, p)
    requires f.blocks[p][|f.blocks[p]| - 1].op.IsTerminator()
    ensures p < |m.blocks| && Body(f.blocks[p]) <= m.blocks[p]
  {
    hide Body, CopiesFor, TakenTarget, Moves;
  }

  /** What the machine may be in after the block that `r` ended. */
  ghost predicate Followed(w: World, f: Func, m: MFunc, p: Label, dirty: bool, menv: Env, trace: Trace, r: Exit) {
    match r
    case Fault => false
    case Return(x, trace') => StepM(w, m, MRunning(p, menv, trace)) == MFinished(x, trace')
    case Goto(t, env', trace') =>
      exists menv' :: Arrives(w, m, p, menv, trace, t, menv', trace') && BlockRel(w, f, t, 0, SpoiledAcross(f, p, t, dirty), env', env', Some(p), menv')
  }

  ghost predicate Ready(f: Func, p: Label, dirty: bool, r: Exit) {
    r.Goto? ==> r.target < |f.blocks| && PhisReady(f, r.target, p, r.env) && EdgeClean(f, p, r.target, dirty)
  }

  lemma ArrivesFollowed(w: World, f: Func, m: MFunc, p: Label, dirty: bool, menv0: Env, trace0: Trace, r: Exit, menv': Env)
    requires r.Goto? && Arrives(w, m, p, menv0, trace0, r.target, menv', r.trace)
    requires BlockRel(w, f, r.target, 0, SpoiledAcross(f, p, r.target, dirty), r.env, r.env, Some(p), menv')
    ensures Followed(w, f, m, p, dirty, menv0, trace0, r)
  {
  }

  lemma EndByJump(w: World, f: Func, m: MFunc, p: Label, dirty: bool, t: Label, menv0: Env, trace0: Trace, env: Env, menv: Env, flags: Flags, trace: Trace)
    requires Selectable(f) && p < |f.blocks| && f.blocks[p] != [] && t < |f.blocks|
    requires AtEnd(w, f, m, p, dirty, menv0, trace0, env, menv, flags, trace)
    requires JumpShape(m.blocks, p, Body(f.blocks[p]), t, CopiesFor(f, p, t)) && PhisReady(f, t, p, env) && EdgeClean(f, p, t, dirty)
    ensures Followed(w, f, m, p, dirty, menv0, trace0, Goto(t, env, trace))
  {
    AtEndSame(w, f, m, p, dirty, menv0, trace0, env, menv, flags, trace);
    hide *;
    EdgeTaken(w, f, p, t, dirty, env, menv);
    LeaveByJump(w, f, m, p, dirty, t, menv0, trace0, env, menv, flags, trace);
    ArrivesFollowed(w, f, m, p, dirty, menv0, trace0, Goto(t, env, trace), InSequence(CopiesFor(f, p, t), menv));
  }

  lemma CondAgrees(w: World, f: Func, p: Label, dirty: bool, c: VReg, t: Label, e: Label, env: Env, menv: Env)
    requires p < |f.blocks| && f.blocks[p] != [] && Same(w, SpoiledOut(f, p, dirty), env, menv) && ReadsClean(f, p, |f.blocks[p]| - 1, dirty)
    requires f.blocks[p][|f.blocks[p]| - 1].op == Ssa.Branch(c, t, e) && c in env
    ensures c in menv && menv[c] == env[c]
  {
    assert f.Has(p, |f.blocks[p]| - 1) && Reads(f.At(p, |f.blocks[p]| - 1).op, c);
  }

  lemma EndByBranch(w: World, f: Func, m: MFunc, p: Label, dirty: bool, c: VReg, t: Label, e: Label, menv0: Env, trace0: Trace,
                    env: Env, menv: Env, flags: Flags, trace: Trace)
    requires Selectable(f) && p < |f.blocks| && f.blocks[p] != []
    requires f.blocks[p][|f.blocks[p]| - 1].op == Ssa.Branch(c, t, e) && c in env && ReadsClean(f, p, |f.blocks[p]| - 1, dirty)
    requires AtEnd(w, f, m, p, dirty, menv0, trace0, env, menv, flags, trace)
    requires BranchShape(m.blocks, |f.blocks|, p, Body(f.blocks[p]), c, t, e, CopiesFor(f, p, t), CopiesFor(f, p, e))
    requires var to := if env[c] != 0 then t else e; to < |f.blocks| && PhisReady(f, to, p, env) && EdgeClean(f, p, to, dirty)
    ensures Followed(w, f, m, p, dirty, menv0, trace0, Goto(if env[c] != 0 then t else e, env, trace))
  {
    hide *;
    var to := if env[c] != 0 then t else e;
    AtEndSame(w, f, m, p, dirty, menv0, trace0, env, menv, flags, trace);
    CondAgrees(w, f, p, dirty, c, t, e, env, menv);
    EdgeTaken(w, f, p, to, dirty, env, menv);
    LeaveByBranch(w, f, m, p, dirty, c, t, e, menv0, trace0, env, menv, flags, trace);
    ArrivesFollowed(w, f, m, p, dirty, menv0, trace0, Goto(to, env, trace), InSequence(CopiesFor(f, p, to), menv));
  }

  lemma EndSim(w: World, f: Func, m: MFunc, p: Label, dirty: bool, menv0: Env, trace0: Trace, env: Env, menv: Env, flags: Flags, trace: Trace)
    requires Selectable(f) && p < |f.blocks| && f.blocks[p] != [] && f.blocks[p][|f.blocks[p]| - 1].op.IsTerminator()
    requires EdgesRight(f, m.blocks, p) && ReadsClean(f, p, |f.blocks[p]| - 1, dirty)
    requires AtEnd(w, f, m, p, dirty, menv0, trace0, env, menv, flags, trace)
    requires var r := Leave(f.blocks[p][|f.blocks[p]| - 1].op, env, trace); !r.Fault? && Ready(f, p, dirty, r)
    ensures Followed(w, f, m, p, dirty, menv0, trace0, Leave(f.blocks[p][|f.blocks[p]| - 1].op, env, trace))
  {
    hide Selectable, AtEnd, Body, CopiesFor, RunM, StepM, TakenTarget, Arrives, BlockRel, BranchShape, JumpShape, RetShape, PhisReady, ReadsClean, EdgeClean;
    match f.blocks[p][|f.blocks[p]| - 1].op {
      case Ret(r) => LeaveByRet(w, f, m, p, dirty, r, menv0, trace0, env, menv, flags, trace);
      case Jump(t) => EndByJump(w, f, m, p, dirty, t, menv0, trace0, env, menv, flags, trace);
      case Branch(c, t, e) => EndByBranch(w, f, m, p, dirty, c, t, e, menv0, trace0, env, menv, flags, trace);
    }
  }

  lemma AtEndSame(w: World, f: Func, m: MFunc, p: Label, dirty: bool, menv0: Env, trace0: Trace, env: Env, menv: Env, flags: Flags, trace: Trace)
    requires p < |f.blocks| && f.blocks[p] != [] && AtEnd(w, f, m, p, dirty, menv0, trace0, env, menv, flags, trace)
    ensures Same(w, SpoiledOut(f, p, dirty), env, menv)
  {
  }

  lemma RunAtEnd(w: World, b: Block, env: Env, snap: Env, prev: Option<Label>, trace: Trace)
    requires b != [] && b[|b| - 1].op.IsTerminator()
    ensures RunBlock(w, b, |b| - 1, env, snap, prev, trace) == Leave(b[|b| - 1].op, env, trace)
  {
  }

  lemma BlockSim(w: World, f: Func, m: MFunc, p: Label, dirty: bool, env: Env, prev: Option<Label>, menv: Env, trace: Trace)
    requires Selectable(f) && Selected(f, m) && p < |f.blocks| && BlockClean(f, p, dirty)
    requires BlockRel(w, f, p, 0, dirty, env, env, prev, menv)
    requires var r := RunBlock(w, f.blocks[p], 0, env, env, prev, trace); !r.Fault? && Ready(f, p, dirty, r)
    requires ShiftsFit(w, f.blocks[p], 0, env, env, prev, trace)
    ensures Followed(w, f, m, p, dirty, menv, trace, RunBlock(w, f.blocks[p], 0, env, env, prev, trace))
  {
    var b := f.blocks[p];
    assert b != [];
    TerminatorLast(f, p, |b| - 1);
    assert EdgesRight(f, m.blocks, p) && ReadsClean(f, p, |b| - 1, dirty);
    hide Selectable, Selected, BlockRel, EdgesRight, RunM, RunBlock, Followed, Ready, ReadsClean, ShiftsFit;
    BodyFirst(f, m, p);
    var s := RunBody(w, f, p, 0, |b| - 1, m.blocks[p], dirty, env, env, prev, menv, None, trace);
    LabelStep(w, m.blocks[p], b, menv, trace);
    SameAtEnd(w, f, p, dirty, s.env, env, prev, s.menv);
    RunAtEnd(w, b, s.env, env, prev, s.trace);
    hide Body;
    EndSim(w, f, m, p, dirty, menv, trace, s.env, s.menv, s.flags, s.trace);
  }

  // ---- Whole runs ----

  ghost predicate StateRel(w: World, f: Func, dirty: bool, s: State, ms: MState) {
    match s
    case Faulted => true
    case Running(b, prev, env, trace) =>
      ms.MRunning? && ms.block == b && ms.trace == trace && BlockRel(w, f, b, 0, dirty, env, env, prev, ms.env)
    case Finished(x, trace) => ms == MFinished(x, trace)
  }

  /** Whether register 0 is spoiled after the block that takes `s` to `s'`. */
  ghost predicate SpoiledNext(f: Func, dirty: bool, s: State, s': State) {
    s.Running? && s'.Running? && SpoiledAcross(f, s.block, s'.block, dirty)
  }

  /** The block about to run, and the edge it takes, read no spoiled register. */
  ghost predicate StepClean(f: Func, dirty: bool, s: State, s': State) {
    s.Running? ==> BlockClean(f, s.block, dirty) && (s'.Running? ==> EdgeClean(f, s.block, s'.block, dirty))
  }

  /** Every shift in the block about to run comes out the same on the machine. */
  ghost predicate StepFits(w: World, f: Func, s: State) {
    s.Running? && s.block < |f.blocks| ==> ShiftsFit(w, f.blocks[s.block], 0, s.env, s.env, s.prev, s.trace)
  }

  lemma ReadyBecause(w: World, f: Func, dirty: bool, s: State)
    requires Selectable(f) && s.Running? && s.block < |f.blocks| && StepClean(f, dirty, s, StepBlock(w, f, s))
    requires !StepBlock(w, f, StepBlock(w, f, s)).Faulted?
    ensures Ready(f, s.block, dirty, RunBlock(w, f.blocks[s.block], 0, s.env, s.env, s.prev, s.trace))
  {
    var r := RunBlock(w, f.blocks[s.block], 0, s.env, s.env, s.prev, s.trace);
    hide RunBlock, Selectable, EdgeClean, BlockClean;
    if r.Goto? {
      RunMeansReady(w, f, r.target, r.env, s.block, r.trace);
    }
  }

  lemma StepSim(w: World, f: Func, m: MFunc, dirty: bool, s: State, ms: MState) returns (k: nat, ms': MState)
    requires Selectable(f) && Selected(f, m) && StateRel(w, f, dirty, s, ms) && StepClean(f, dirty, s, StepBlock(w, f, s))
    requires !StepBlock(w, f, StepBlock(w, f, s)).Faulted? && StepFits(w, f, s)
    ensures (k == 1 && ms' == StepM(w, m, ms)) || (k == 2 && ms' == StepM(w, m, StepM(w, m, ms)))
    ensures StateRel(w, f, SpoiledNext(f, dirty, s, StepBlock(w, f, s)), StepBlock(w, f, s), ms')
  {
    if s.Running? {
      assert s.block < |f.blocks|;
      var r := RunBlock(w, f.blocks[s.block], 0, s.env, s.env, s.prev, s.trace);
      ReadyBecause(w, f, dirty, s);
      hide RunBlock, Selectable, Selected, BlockRel, StepM, BlockClean, EdgeClean, SpoiledAcross, ShiftsFit;
      BlockSim(w, f, m, s.block, dirty, s.env, s.prev, ms.env, s.trace);
      k, ms' := 1, StepM(w, m, ms);
      if r.Goto? {
        var menv' :| Arrives(w, m, s.block, ms.env, s.trace, r.target, menv', r.trace)
                     && BlockRel(w, f, r.target, 0, SpoiledAcross(f, s.block, r.target, dirty), r.env, r.env, Some(s.block), menv');
        if ms' != MRunning(r.target, menv', r.trace) {
          k, ms' := 2, StepM(w, m, StepM(w, m, ms));
        }
      }
    } else {
      k, ms' := 1, StepM(w, m, ms);
    }
  }

  lemma StartRel(w: World, f: Func, m: MFunc, actuals: seq<Int64>)
    requires f.entry == 0 && m.params == f.params
    ensures StateRel(w, f, false, Init(f, actuals), InitM(m, actuals))
  {
  }

  lemma MoreSteps(w: World, m: MFunc, actuals: seq<Int64>, k: nat)
    ensures RunMFunc(w, m, actuals, k + 1) == StepM(w, m, RunMFunc(w, m, actuals, k))
    ensures RunMFunc(w, m, actuals, k + 2) == StepM(w, m, StepM(w, m, RunMFunc(w, m, actuals, k)))
  {
    hide StepM;
    assert RunMFunc(w, m, actuals, k + 1) == StepM(w, m, RunMFunc(w, m, actuals, k));
  }

  lemma MoreBlocks(w: World, f: Func, actuals: seq<Int64>, n: nat)
    ensures Run(w, f, actuals, n + 1) == StepBlock(w, f, Run(w, f, actuals, n))
    ensures Run(w, f, actuals, n + 2) == StepBlock(w, f, StepBlock(w, f, Run(w, f, actuals, n)))
  {
    hide StepBlock;
    assert Run(w, f, actuals, n + 1) == StepBlock(w, f, Run(w, f, actuals, n));
  }

  lemma BothStart(w: World, f: Func, m: MFunc, actuals: seq<Int64>)
    requires Selectable(f) && Selected(f, m)
    ensures StateRel(w, f, RunSpoiled(w, f, actuals, 0), Run(w, f, actuals, 0), RunMFunc(w, m, actuals, 0))
  {
    StartRel(w, f, m, actuals);
  }

  /** Whether `n` blocks of a run leave register 0 spoiled. */
  ghost predicate RunSpoiled(w: World, f: Func, actuals: seq<Int64>, n: nat) {
    n > 0 && SpoiledNext(f, RunSpoiled(w, f, actuals, n - 1), Run(w, f, actuals, n - 1), Run(w, f, actuals, n))
  }

  /** Block number `n` of a run reads no spoiled register. */
  ghost predicate RunClean(w: World, f: Func, actuals: seq<Int64>, n: nat) {
    StepClean(f, RunSpoiled(w, f, actuals, n), Run(w, f, actuals, n), Run(w, f, actuals, n + 1))
  }

  /** In block number `n` of a run, every shift comes out the same on the machine. */
  ghost predicate RunFits(w: World, f: Func, actuals: seq<Int64>, n: nat) {
    StepFits(w, f, Run(w, f, actuals, n))
  }

  /** No run shifts a negative value right, except by nothing. */
  ghost predicate RunsFit(f: Func) {
    forall w: World, actuals, n: nat :: !Run(w, f, actuals, n + 2).Faulted? ==> RunFits(w, f, actuals, n)
  }

  /** No run reads register 0 after a PRINT without defining it again. */
  ghost predicate RunsClean(f: Func) {
    forall w: World, actuals, n: nat :: !Run(w, f, actuals, n + 2).Faulted? ==> RunClean(w, f, actuals, n)
  }

  lemma {:induction false} RunSim(w: World, f: Func, m: MFunc, actuals: seq<Int64>, n: nat) returns (k: nat)
    requires Selectable(f) && Selected(f, m) && !Run(w, f, actuals, n + 1).Faulted?
    requires forall j: nat :: j < n ==> RunClean(w, f, actuals, j) && RunFits(w, f, actuals, j)
    ensures n <= k <= 2 * n && StateRel(w, f, RunSpoiled(w, f, actuals, n), Run(w, f, actuals, n), RunMFunc(w, m, actuals, k))
  {
    hide *;
    if n == 0 {
      BothStart(w, f, m, actuals);
      k := 0;
    } else {
      FaultPersists(w, f, actuals, n);
      k := RunSim(w, f, m, actuals, n - 1);
      MoreBlocks(w, f, actuals, n - 1);
      CleanNow(w, f, actuals, n - 1);
      var d, ms := StepSim(w, f, m, RunSpoiled(w, f, actuals, n - 1), Run(w, f, actuals, n - 1), RunMFunc(w, m, actuals, k));
      SpoiledLater(w, f, actuals, n - 1);
      MoreSteps(w, m, actuals, k);
      k := k + d;
    }
  }

  lemma CleanNow(w: World, f: Func, actuals: seq<Int64>, n: nat)
    requires RunClean(w, f, actuals, n) && RunFits(w, f, actuals, n)
    ensures StepClean(f, RunSpoiled(w, f, actuals, n), Run(w, f, actuals, n), Run(w, f, actuals, n + 1)) && StepFits(w, f, Run(w, f, actuals, n))
  {
  }

  lemma SpoiledLater(w: World, f: Func, actuals: seq<Int64>, n: nat)
    ensures RunSpoiled(w, f, actuals, n + 1) ==
              SpoiledNext(f, RunSpoiled(w, f, actuals, n), Run(w, f, actuals, n), Run(w, f, actuals, n + 1))
  {
    hide Run, SpoiledNext;
  }

  /** What a state of an SSA run looks like on the machine. */
  function Seen(s: State): MView {
    match s
    case Faulted => MCrash
    case Running(b, _, _, trace) => MAt(b, trace)
    case Finished(x, trace) => MDone(x, trace)
  }

  /** `m` passes through everything a run of `f` shows, in order and without getting stuck:
      each SSA block takes the machine one block or two. */
  ghost predicate Simulates(f: Func, m: MFunc) {
    forall w: World, actuals, n: nat :: !Run(w, f, actuals, n + 1).Faulted? ==> Passes(w, m, actuals, n, Seen(Run(w, f, actuals, n)))
  }

  ghost predicate Passes(w: World, m: MFunc, actuals: seq<Int64>, n: nat, view: MView) {
    exists k: nat :: n <= k <= 2 * n && ObserveM(RunMFunc(w, m, actuals, k)) == view
  }

  /** What one non-faulting run shows is passed through. */
  lemma RunPasses(w: World, f: Func, m: MFunc, actuals: seq<Int64>, n: nat)
    requires Selectable(f) && Selected(f, m) && !Run(w, f, actuals, n + 1).Faulted?
    requires forall j: nat :: j < n ==> RunClean(w, f, actuals, j) && RunFits(w, f, actuals, j)
    ensures Passes(w, m, actuals, n, Seen(Run(w, f, actuals, n)))
  {
    FaultPersists(w, f, actuals, n);
    hide Selectable, Selected, BlockRel, RunSpoiled, RunClean, RunFits, Run, RunMFunc;
    var k := RunSim(w, f, m, actuals, n);
    assert ObserveM(RunMFunc(w, m, actuals, k)) == Seen(Run(w, f, actuals, n));
  }

  lemma EarlierClean(w: World, f: Func, actuals: seq<Int64>, n: nat)
    requires RunsClean(f) && RunsFit(f) && !Run(w, f, actuals, n + 1).Faulted?
    ensures forall j: nat :: j < n ==> RunClean(w, f, actuals, j) && RunFits(w, f, actuals, j)
  {
    hide Run, RunClean, RunFits;
    forall j: nat | j < n ensures RunClean(w, f, actuals, j) && RunFits(w, f, actuals, j) {
      FaultsStay(w, f, actuals, j + 2, n + 1);
    }
  }

  /** Instruction selection preserves meaning when no run reads a spoiled register or shifts a
      negative value right. */
  lemma CleanRunsSimulate(f: Func, m: MFunc)
    requires Selectable(f) && IsSelection(f, m) && RunsClean(f) && RunsFit(f)
    ensures Simulates(f, m)
  {
    SelectionIsRight(f, m);
    hide Selectable, Selected, RunsClean, RunsFit, Run, Passes, IsSelection;
    forall w: World, actuals, n: nat | !Run(w, f, actuals, n + 1).Faulted?
      ensures Passes(w, m, actuals, n, Seen(Run(w, f, actuals, n)))
    {
      EarlierClean(w, f, actuals, n);
      RunPasses(w, f, m, actuals, n);
    }
  }

  /** A run that faults has faulted for good. */
  lemma {:induction false} FaultsStay(w: World, f: Func, actuals: seq<Int64>, j: nat, n: nat)
    requires j <= n && !Run(w, f, actuals, n).Faulted?
    ensures !Run(w, f, actuals, j).Faulted?
  {
    if j < n {
      FaultPersists(w, f, actuals, n - 1);
      FaultsStay(w, f, actuals, j, n - 1);
    }
  }

  // ---- Runs follow the paths of the graph ----

  lemma {:induction false} GotoIsEdge(w: World, f: Func, b: Label, i: nat, env: Env, snap: Env, prev: Option<Label>, trace: Trace)
    requires b < |f.blocks| && RunBlock(w, f.blocks[b], i, env, snap, prev, trace).Goto?
    ensures Edge(f, b, RunBlock(w, f.blocks[b], i, env, snap, prev, trace).target)
    decreases |f.blocks[b]| - i
  {
    if f.blocks[b][i].op.IsTerminator() {
      assert f.Has(b, i) && Targets(f.At(b, i).op, Leave(f.blocks[b][i].op, env, trace).target);
    } else {
      var r := Exec(w, f.blocks[b][i], env, snap, prev, trace);
      GotoIsEdge(w, f, b, i + 1, r.env, snap, prev, r.trace);
    }
  }

  lemma {:induction false} RunPath(w: World, f: Func, actuals: seq<Int64>, n: nat) returns (path: seq<Label>)
    requires Run(w, f, actuals, n).Running?
    ensures PathTo(f, path, Run(w, f, actuals, n).block) && SpoiledBy(f, path) == RunSpoiled(w, f, actuals, n)
  {
    if n == 0 {
      path := [f.entry];
    } else {
      var s, s' := Run(w, f, actuals, n - 1), Run(w, f, actuals, n);
      var before := RunPath(w, f, actuals, n - 1);
      GotoIsEdge(w, f, s.block, 0, s.env, s.env, s.prev, s.trace);
      path := before + [s'.block];
      PathExtends(f, before, s.block, s'.block);
      assert path[..|path| - 1] == before;
    }
  }

  lemma SafeRunsClean(f: Func)
    requires PrintsSafe(f)
    ensures RunsClean(f)
  {
    forall w: World, actuals, n: nat | !Run(w, f, actuals, n + 2).Faulted? ensures RunClean(w, f, actuals, n) {
      var s, s' := Run(w, f, actuals, n), Run(w, f, actuals, n + 1);
      if s.Running? {
        var path := RunPath(w, f, actuals, n);
        assert May(f, s.block, RunSpoiled(w, f, actuals, n));
        if s'.Running? {
          GotoIsEdge(w, f, s.block, 0, s.env, s.env, s.prev, s.trace);
        }
      }
    }
  }

  lemma {:induction false} NoShiftsFit(w: World, b: Block, i: nat, env: Env, snap: Env, prev: Option<Label>, trace: Trace)
    requires forall j :: 0 <= j < |b| && b[j].op.Binop? ==> !b[j].op.bkind.RShift?
    ensures ShiftsFit(w, b, i, env, snap, prev, trace)
    decreases |b| - i
  {
    if i < |b| && !b[i].op.IsTerminator() {
      var r := Exec(w, b[i], env, snap, prev, trace);
      if r.Went? {
        NoShiftsFit(w, b, i + 1, r.env, snap, prev, r.trace);
      }
    }
  }

  /** Code without right shifts is no trouble. */
  lemma NoShiftsRunFit(f: Func)
    requires forall b, i :: f.Has(b, i) && f.At(b, i).op.Binop? ==> !f.At(b, i).op.bkind.RShift?
    ensures RunsFit(f)
  {
    forall w: World, actuals, n: nat ensures RunFits(w, f, actuals, n) {
      var s := Run(w, f, actuals, n);
      if s.Running? && s.block < |f.blocks| {
        forall j | 0 <= j < |f.blocks[s.block]| && f.blocks[s.block][j].op.Binop? ensures !f.blocks[s.block][j].op.bkind.RShift? {
          assert f.Has(s.block, j);
        }
        NoShiftsFit(w, f.blocks[s.block], 0, s.env, s.env, s.prev, s.trace);
      }
    }
  }

  /** Instruction selection preserves meaning. */
  lemma SelectionSimulates(f: Func, m: MFunc)
    requires Selectable(f) && PrintsSafe(f) && RunsFit(f) && IsSelection(f, m)
    ensures Simulates(f, m)
  {
    SafeRunsClean(f);
    CleanRunsSimulate(f, m);
  }
}
