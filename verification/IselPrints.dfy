/** Exactly when the register a PRINT spoils matters (src/isel.c:288-296). */
module IselPrints {
  import opened Wrappers
  import opened Word64
  import opened Ssa
  import opened SsaVerify
  import opened Mach
  import opened Isel
  import opened IselShape
  import opened ParallelCopy
  import opened IselCorrect
  import opened IselSimulation
  import Cse

  /** Register 0 is only read where its value is shown: printed, passed to a call, or returned. */
  ghost predicate VisibleReads(f: Func) {
    forall b, i :: f.Has(b, i) && Reads(f.At(b, i).op, 0) ==> var op := f.At(b, i).op; op.Print? || op.Call? || op.Ret?
  }

  // ---- A world that answers every print alike ----

  function Answering(w: World, d: Int64): World {
    (t: Trace) => if t != [] && t[|t| - 1].Printed? then d else w(t)
  }

  lemma ReplyIs(w: World, d: Int64, x: Int64)
    requires IsReply(Answering(w, d), x)
    ensures x == d
  {
    var trace: Trace, y :| x == Answering(w, d)(trace + [Printed(y)]);
  }

  /** SSA code does not see the reply to a print. */
  lemma {:induction false} SameBlockRun(w: World, d: Int64, b: Block, i: nat, env: Env, snap: Env, prev: Option<Label>, trace: Trace)
    ensures RunBlock(Answering(w, d), b, i, env, snap, prev, trace) == RunBlock(w, b, i, env, snap, prev, trace)
    decreases |b| - i
  {
    if i < |b| && !b[i].op.IsTerminator() {
      SameExec(w, d, b[i], env, snap, prev, trace);
      var r := Exec(w, b[i], env, snap, prev, trace);
      hide Exec, Answering;
      if r.Went? {
        SameBlockRun(w, d, b, i + 1, r.env, snap, prev, r.trace);
      }
    }
  }

  lemma SameExec(w: World, d: Int64, inst: Inst, env: Env, snap: Env, prev: Option<Label>, trace: Trace)
    requires !inst.op.IsTerminator()
    ensures Exec(Answering(w, d), inst, env, snap, prev, trace) == Exec(w, inst, env, snap, prev, trace)
  {
  }

  lemma {:induction false} SameRun(w: World, d: Int64, f: Func, actuals: seq<Int64>, n: nat)
    ensures Run(Answering(w, d), f, actuals, n) == Run(w, f, actuals, n)
    ensures RunSpoiled(Answering(w, d), f, actuals, n) == RunSpoiled(w, f, actuals, n)
  {
    hide Answering, SpoiledNext;
    if n > 0 {
      SameRun(w, d, f, actuals, n - 1);
      var s := Run(w, f, actuals, n - 1);
      if s.Running? && s.block < |f.blocks| {
        SameBlockRun(w, d, f.blocks[s.block], 0, s.env, s.env, s.prev, s.trace);
      }
    }
  }

  // ---- Traces only grow ----

  lemma {:induction false} RunMGrows(w: World, mb: MachBlock, i: nat, env: Env, flags: Flags, trace: Trace)
    ensures var r := RunM(w, mb, i, env, flags, trace); !r.Fault? ==> trace <= r.trace
    decreases |mb| - i
  {
    if i < |mb| && !mb[i].op.JMP? && !mb[i].op.RET? {
      if mb[i].op.JE? || mb[i].op.JNE? {
        RunMGrows(w, mb, i + 1, env, flags, trace);
      } else {
        var r := ExecM(w, mb[i], env, flags, trace);
        hide ExecM;
        if r.MWent? {
          ExecMGrows(w, mb[i], env, flags, trace);
          RunMGrows(w, mb, i + 1, r.env, r.flags, r.trace);
        }
      }
    }
  }

  lemma ExecMGrows(w: World, inst: MachInst, env: Env, flags: Flags, trace: Trace)
    requires !inst.op.IsJump() && !inst.op.RET?
    ensures var r := ExecM(w, inst, env, flags, trace); r.MWent? ==> trace <= r.trace
  {
  }

  lemma {:induction false} RunBlockGrows(w: World, b: Block, i: nat, env: Env, snap: Env, prev: Option<Label>, trace: Trace)
    ensures var r := RunBlock(w, b, i, env, snap, prev, trace); !r.Fault? ==> trace <= r.trace
    decreases |b| - i
  {
    if i < |b| && !b[i].op.IsTerminator() {
      var r := Exec(w, b[i], env, snap, prev, trace);
      if r.Went? {
        assert trace <= r.trace;
        hide Exec;
        RunBlockGrows(w, b, i + 1, r.env, snap, prev, r.trace);
      }
    }
  }

  function MTrace(s: MState): Trace {
    match s
    case MFaulted => []
    case MRunning(_, _, trace) => trace
    case MFinished(_, trace) => trace
  }

  lemma StepMGrows(w: World, m: MFunc, s: MState)
    requires !StepM(w, m, s).MFaulted?
    ensures !s.MFaulted? && MTrace(s) <= MTrace(StepM(w, m, s))
    ensures s.MFinished? ==> StepM(w, m, s) == s
  {
    if s.MRunning? {
      RunMGrows(w, m.blocks[s.block], 0, s.env, None, s.trace);
    }
  }

  /** Before a machine state come states that have shown no more. */
  lemma {:induction false} Earlier(w: World, m: MFunc, actuals: seq<Int64>, j: nat, k: nat)
    requires j <= k && !RunMFunc(w, m, actuals, k).MFaulted?
    ensures var s, s' := RunMFunc(w, m, actuals, j), RunMFunc(w, m, actuals, k);
            && !s.MFaulted? && MTrace(s) <= MTrace(s') && (s.MFinished? ==> s' == s)
  {
    if j < k {
      var s := RunMFunc(w, m, actuals, k - 1);
      hide StepM;
      StepMGrows(w, m, s);
      Earlier(w, m, actuals, j, k - 1);
    }
  }

  // ---- Showing the wrong thing ----

  /** The machine has gone wrong for good: it is stuck, has shown `wrong` after `before`, or
      has returned `wrong`. */
  ghost predicate Astray(before: Trace, wrong: Trace, s: MState) {
    s.MFaulted? || before + wrong <= MTrace(s)
  }

  lemma {:induction false} StaysAstray(w: World, m: MFunc, actuals: seq<Int64>, before: Trace, wrong: Trace, j: nat, k: nat)
    requires j <= k && Astray(before, wrong, RunMFunc(w, m, actuals, j))
    ensures Astray(before, wrong, RunMFunc(w, m, actuals, k))
  {
    var s := RunMFunc(w, m, actuals, k);
    hide RunMFunc;
    if !s.MFaulted? {
      Earlier(w, m, actuals, j, k);
    }
  }

  lemma OneEvent(before: Trace, right: Event, wrong: Event, trace: Trace)
    ensures before + [right] <= trace && before + [wrong] <= trace ==> right == wrong
  {
    if before + [right] <= trace && before + [wrong] <= trace {
      assert trace[|before|] == (before + [right])[|before|];
      assert trace[|before|] == (before + [wrong])[|before|];
    }
  }

  /** A machine that shows `wrong` where the program shows `right` never passes through what
      the program shows from then on. */
  lemma WrongEvent(w: World, m: MFunc, actuals: seq<Int64>, n: nat, k: nat, view: MView, before: Trace, right: Event, wrong: Event, trace: Trace)
    requires right != wrong && before + [right] <= trace && (view.MAt? || view.MDone?) && view.trace == trace
    requires !RunMFunc(w, m, actuals, k).MFaulted? && MTrace(RunMFunc(w, m, actuals, k)) <= before
    requires Astray(before, [wrong], RunMFunc(w, m, actuals, k + 1))
    ensures !Passes(w, m, actuals, n, view)
  {
    forall j: nat ensures ObserveM(RunMFunc(w, m, actuals, j)) != view {
      var s := RunMFunc(w, m, actuals, j);
      if j <= k {
        Earlier(w, m, actuals, j, k);
        assert |MTrace(s)| < |trace|;
      } else {
        StaysAstray(w, m, actuals, before, [wrong], k + 1, j);
        OneEvent(before, right, wrong, trace);
      }
    }
  }

  lemma WrongResult(w: World, m: MFunc, actuals: seq<Int64>, n: nat, k: nat, view: MView, right: Option<Int64>, wrong: Option<Int64>, trace: Trace)
    requires right != wrong && view.MDone? && view.value == right
    requires RunMFunc(w, m, actuals, k).MRunning? && RunMFunc(w, m, actuals, k + 1) == MFinished(wrong, trace)
    ensures !Passes(w, m, actuals, n, view)
  {
    forall j: nat ensures ObserveM(RunMFunc(w, m, actuals, j)) != view {
      var s := RunMFunc(w, m, actuals, j);
      hide RunMFunc;
      if j <= k {
        Earlier(w, m, actuals, j, k);
      } else if !s.MFaulted? {
        Earlier(w, m, actuals, k + 1, j);
      }
    }
  }

  // ---- The first spoiled read ----

  lemma {:induction false} FirstSpoiledBlock(w: World, f: Func, actuals: seq<Int64>, n: nat) returns (first: nat)
    requires !RunClean(w, f, actuals, n)
    ensures first <= n && !RunClean(w, f, actuals, first) && forall j: nat :: j < first ==> RunClean(w, f, actuals, j)
  {
    hide RunClean;
    if j: nat :| j < n && !RunClean(w, f, actuals, j) {
      first := FirstSpoiledBlock(w, f, actuals, j);
    } else {
      first := n;
    }
  }

  lemma {:induction false} FirstSpoiledRead(f: Func, b: nat, i: nat, dirty: bool) returns (first: nat)
    requires !ReadsClean(f, b, i, dirty)
    ensures first <= i && !ReadsClean(f, b, first, dirty) && forall j: nat :: j < first ==> ReadsClean(f, b, j, dirty)
  {
    hide ReadsClean;
    if j: nat :| j < i && !ReadsClean(f, b, j, dirty) {
      first := FirstSpoiledRead(f, b, j, dirty);
    } else {
      first := i;
    }
  }

  // ---- Both sides up to an instruction ----

  /** The state after the first `i` instructions of a block. */
  function Upto(w: World, b: Block, i: nat, env: Env, prev: Option<Label>, trace: Trace): Step
    requires i <= |b| && forall j :: 0 <= j < i ==> !b[j].op.IsTerminator()
  {
    if i == 0 then Went(env, trace)
    else
      match Upto(w, b, i - 1, env, prev, trace)
      case Stuck => Stuck
      case Went(env', trace') => Exec(w, b[i - 1], env', env, prev, trace')
  }

  lemma {:induction false} SameUpto(w: World, d: Int64, b: Block, i: nat, env: Env, prev: Option<Label>, trace: Trace)
    requires i <= |b| && forall j :: 0 <= j < i ==> !b[j].op.IsTerminator()
    ensures Upto(Answering(w, d), b, i, env, prev, trace) == Upto(w, b, i, env, prev, trace)
  {
    if i > 0 {
      SameUpto(w, d, b, i - 1, env, prev, trace);
      var r := Upto(w, b, i - 1, env, prev, trace);
      hide Answering, Exec;
      if r.Went? {
        SameExec(w, d, b[i - 1], r.env, env, prev, r.trace);
      }
    }
  }

  ghost predicate Open(b: Block, i: nat) {
    i < |b| && forall j :: 0 <= j < i ==> !b[j].op.IsTerminator()
  }

  lemma SelectableOpen(f: Func, b: nat, i: nat)
    requires Selectable(f) && f.Has(b, i)
    ensures Open(f.blocks[b], i)
  {
    TerminatorLast(f, b, i);
  }

  lemma {:induction false} UptoRuns(w: World, b: Block, i: nat, env: Env, prev: Option<Label>, trace: Trace)
    requires Open(b, i) && !RunBlock(w, b, 0, env, env, prev, trace).Fault?
    ensures var u := Upto(w, b, i, env, prev, trace);
            u.Went? && RunBlock(w, b, 0, env, env, prev, trace) == RunBlock(w, b, i, u.env, env, prev, u.trace)
  {
    if i > 0 {
      UptoRuns(w, b, i - 1, env, prev, trace);
      var u := Upto(w, b, i - 1, env, prev, trace);
      assert RunBlock(w, b, i - 1, u.env, env, prev, u.trace) ==
             match Exec(w, b[i - 1], u.env, env, prev, u.trace)
             case Stuck => Fault
             case Went(env', trace') => RunBlock(w, b, i, env', env, prev, trace');
    }
  }

  lemma FitsNow(w: World, b: Block, i: nat, env: Env, snap: Env, prev: Option<Label>, trace: Trace)
    requires i < |b| && !b[i].op.IsTerminator() && ShiftsFit(w, b, i, env, snap, prev, trace)
    ensures ShiftFits(b[i].op, env)
  {
  }

  lemma {:induction false} UptoFits(w: World, b: Block, i: nat, env: Env, prev: Option<Label>, trace: Trace)
    requires Open(b, i) && ShiftsFit(w, b, 0, env, env, prev, trace) && Upto(w, b, i, env, prev, trace).Went?
    ensures var u := Upto(w, b, i, env, prev, trace); ShiftsFit(w, b, i, u.env, env, prev, u.trace)
  {
    hide ShiftFits, Exec;
    if i > 0 {
      UptoFits(w, b, i - 1, env, prev, trace);
    }
  }

  /** The machine and the program reach the code of instruction `i` together. */
  lemma {:induction false} UptoSim(w: World, f: Func, b: nat, i: nat, mb: MachBlock, dirty: bool, env: Env, prev: Option<Label>, menv: Env, trace: Trace)
    returns (menv': Env, flags': Flags)
    requires Selectable(f) && f.Has(b, i) && Open(f.blocks[b], i) && Body(f.blocks[b]) <= mb
    requires forall j: nat :: j < i ==> ReadsClean(f, b, j, dirty)
    requires BlockRel(w, f, b, 0, dirty, env, env, prev, menv)
    requires Upto(w, f.blocks[b], i, env, prev, trace).Went? && ShiftsFit(w, f.blocks[b], 0, env, env, prev, trace)
    ensures var u := Upto(w, f.blocks[b], i, env, prev, trace);
            && RunM(w, mb, 0, menv, None, trace) == RunM(w, mb, |LowerUpTo(f.blocks[b], i)|, menv', flags', u.trace)
            && BlockRel(w, f, b, i, dirty, u.env, env, prev, menv')
  {
    hide Selectable, BlockRel, RunM, Exec, LowerInst, LowerUpTo, ReadsClean, ShiftsFit, ShiftFits;
    if i == 0 {
      LabelStep(w, mb, f.blocks[b], menv, trace);
      menv', flags' := menv, None;
    } else {
      var menv0, flags0 := UptoSim(w, f, b, i - 1, mb, dirty, env, prev, menv, trace);
      var u := Upto(w, f.blocks[b], i - 1, env, prev, trace);
      BodyCode(f.blocks[b], i - 1, mb);
      UptoFits(w, f.blocks[b], i - 1, env, prev, trace);
      FitsNow(w, f.blocks[b], i - 1, u.env, env, prev, u.trace);
      assert ReadsClean(f, b, i - 1, dirty);
      menv', flags' := LowerStep(w, f, b, i - 1, mb, |LowerUpTo(f.blocks[b], i - 1)|, dirty, u.env, env, prev, menv0, flags0, u.trace);
    }
  }

  // ---- A spoiled read shows ----

  predicate Shows(op: Op, env: Env) {
    (op.Print? && op.val in env) || (op.Call? && AllIn(op.actuals, env))
  }

  function Shown(op: Op, env: Env): Event
    requires Shows(op, env)
  {
    if op.Print? then Printed(env[op.val]) else Called(op.func, Values(op.actuals, env))
  }

  /** What the program does at a visible read. */
  lemma VisibleRight(w: World, b: Block, i: nat, env: Env, snap: Env, prev: Option<Label>, trace: Trace)
    requires i < |b| && Reads(b[i].op, 0) && (b[i].op.Print? || b[i].op.Call? || b[i].op.Ret?)
    requires !RunBlock(w, b, i, env, snap, prev, trace).Fault?
    ensures var r := RunBlock(w, b, i, env, snap, prev, trace);
            && 0 in env
            && (b[i].op.Ret? ==> r == Return(Some(env[0]), trace))
            && (!b[i].op.Ret? ==> Shows(b[i].op, env) && trace + [Shown(b[i].op, env)] <= r.trace)
  {
    if !b[i].op.IsTerminator() {
      var r := Exec(w, b[i], env, snap, prev, trace);
      RunBlockGrows(w, b, i + 1, r.env, snap, prev, r.trace);
    }
  }

  /** The value of register 0 can be told from what is shown. */
  lemma ShownDiffers(inst: Inst, env: Env, menv: Env)
    requires Reads(inst.op, 0) && Shows(inst.op, env) && Shows(inst.op, menv) && 0 in env && 0 in menv && env[0] != menv[0]
    ensures Shown(inst.op, env) != Shown(inst.op, menv)
  {
    if inst.op.Call? {
      var j :| 0 <= j < |inst.op.actuals| && inst.op.actuals[j] == 0;
      assert Values(inst.op.actuals, env)[j] != Values(inst.op.actuals, menv)[j];
    }
  }

  /** The lowered form shows what the machine's registers hold, or gets stuck. */
  lemma CallShows(w: World, inst: Inst, mb: MachBlock, k: nat, menv: Env, flags: Flags, trace: Trace)
    requires (inst.op.Print? || inst.op.Call?) && Supported(inst.op) && CodeAt(mb, k, LowerInst(inst))
    ensures var r := RunM(w, mb, k, menv, flags, trace);
            !r.Fault? ==> Shows(inst.op, menv) && trace + [Shown(inst.op, menv)] <= r.trace
  {
    assert mb[k] == LowerInst(inst)[0];
    var r := ExecM(w, mb[k], menv, flags, trace);
    if r.MWent? {
      RunMGrows(w, mb, k + 1, r.env, r.flags, r.trace);
      if inst.op.Print? {
        assert mb[k].args[0] in menv;
      }
    }
  }

  /** A block of the run, at the first spoiled read in it. */
  ghost predicate AtSpoiled(w: World, f: Func, s: State, i: nat, dirty: bool) {
    && s.Running? && f.Has(s.block, i) && Open(f.blocks[s.block], i)
    && !ReadsClean(f, s.block, i, dirty) && (forall j: nat :: j < i ==> ReadsClean(f, s.block, j, dirty))
    && !RunBlock(w, f.blocks[s.block], 0, s.env, s.env, s.prev, s.trace).Fault?
  }

  /** Register 0 as the program has it there. */
  function Expected(w: World, f: Func, s: State, i: nat): Option<Int64>
    requires s.Running? && f.Has(s.block, i) && Open(f.blocks[s.block], i)
  {
    var u := Upto(w, f.blocks[s.block], i, s.env, s.prev, s.trace);
    if u.Went? && 0 in u.env then Some(u.env[0]) else None
  }

  lemma {:induction false} UptoGrows(w: World, b: Block, i: nat, env: Env, prev: Option<Label>, trace: Trace)
    requires Open(b, i) && Upto(w, b, i, env, prev, trace).Went?
    ensures trace <= Upto(w, b, i, env, prev, trace).trace
  {
    if i > 0 {
      UptoGrows(w, b, i - 1, env, prev, trace);
    }
  }

  datatype Brink = Brink(env: Env, menv: Env, flags: Flags, trace: Trace)

  /** Both sides stand before the spoiled read, and disagree on register 0. */
  ghost predicate OnBrink(w: World, f: Func, m: MFunc, s: State, ms: MState, i: nat, at: Brink)
    requires s.Running? && f.Has(s.block, i)
  {
    var b := f.blocks[s.block];
    && RunBlock(w, b, 0, s.env, s.env, s.prev, s.trace) == RunBlock(w, b, i, at.env, s.env, s.prev, at.trace)
    && s.trace <= at.trace
    && ms.MRunning? && ms.trace == s.trace && ms.block == s.block < |m.blocks| && Body(b) <= m.blocks[s.block]
    && RunM(w, m.blocks[s.block], 0, ms.env, None, ms.trace) == RunM(w, m.blocks[s.block], |LowerUpTo(b, i)|, at.menv, at.flags, at.trace)
    && 0 in at.menv && (0 in at.env ==> at.menv[0] != at.env[0])
  }

  /** What register 0 should hold is not what prints are answered with. */
  ghost predicate Unanswered(w: World, f: Func, s: State, i: nat)
    requires s.Running? && f.Has(s.block, i) && Open(f.blocks[s.block], i)
  {
    forall x: Int64 :: IsReply(w, x) ==> Some(x) != Expected(w, f, s, i)
  }

  lemma Approach(w: World, f: Func, m: MFunc, s: State, ms: MState, i: nat, dirty: bool) returns (at: Brink)
    requires Selectable(f) && Selected(f, m) && AtSpoiled(w, f, s, i, dirty) && StateRel(w, f, dirty, s, ms) && Unanswered(w, f, s, i) && StepFits(w, f, s)
    ensures OnBrink(w, f, m, s, ms, i, at)
  {
    var b := f.blocks[s.block];
    TerminatorLast(f, s.block, |b| - 1);
    assert EdgesRight(f, m.blocks, s.block);
    assert Spoiled(f, s.block, i, dirty);
    hide Selectable, Selected, RunBlock, RunM, EdgesRight, LowerUpTo, Spoiled, ReadsClean, Body, Upto, ShiftsFit;
    UptoRuns(w, b, i, s.env, s.prev, s.trace);
    UptoGrows(w, b, i, s.env, s.prev, s.trace);
    BodyFirst(f, m, s.block);
    var u := Upto(w, b, i, s.env, s.prev, s.trace);
    var menv, flags := UptoSim(w, f, s.block, i, m.blocks[s.block], dirty, s.env, s.prev, ms.env, s.trace);
    at := Brink(u.env, menv, flags, u.trace);
    HeldReply(w, f, s.block, i, dirty, u.env, s.env, s.prev, menv);
  }

  lemma HeldReply(w: World, f: Func, b: nat, i: nat, dirty: bool, env: Env, snap: Env, prev: Option<Label>, menv: Env)
    requires BlockRel(w, f, b, i, dirty, env, snap, prev, menv) && Spoiled(f, b, i, dirty)
    ensures 0 in menv && IsReply(w, menv[0])
  {
  }

  lemma SpoiledCall(w: World, f: Func, m: MFunc, actuals: seq<Int64>, n: nat, s: State, k: nat, i: nat, at: Brink)
    requires s.Running? && f.Has(s.block, i) && i < |f.blocks[s.block]| - 1 && OnBrink(w, f, m, s, RunMFunc(w, m, actuals, k), i, at)
    requires var op := f.At(s.block, i).op; (op.Print? || op.Call?) && Supported(op) && Reads(op, 0)
    requires !RunBlock(w, f.blocks[s.block], 0, s.env, s.env, s.prev, s.trace).Fault?
    ensures !Passes(w, m, actuals, n, Seen(StepBlock(w, f, s)))
  {
    var b := f.blocks[s.block];
    var inst := f.At(s.block, i);
    var ms := RunMFunc(w, m, actuals, k);
    var mb := m.blocks[s.block];
    hide RunBlock, RunM, LowerInst, LowerUpTo, Body, Passes, RunMFunc, Reads;
    VisibleRight(w, b, i, at.env, s.env, s.prev, at.trace);
    BodyCode(b, i, mb);
    CallShows(w, inst, mb, |LowerUpTo(b, i)|, at.menv, at.flags, at.trace);
    var r := RunBlock(w, b, 0, s.env, s.env, s.prev, s.trace);
    var right := Shown(inst.op, at.env);
    var wrong := if Shows(inst.op, at.menv) then Shown(inst.op, at.menv) else if right == Printed(0) then Printed(1) else Printed(0);
    if Shows(inst.op, at.menv) {
      ShownDiffers(inst, at.env, at.menv);
    }
    hide Shown, Shows;
    NextIs(w, m, actuals, k);
    WrongEvent(w, m, actuals, n, k, Seen(StepBlock(w, f, s)), at.trace, right, wrong, r.trace);
  }

  lemma NextIs(w: World, m: MFunc, actuals: seq<Int64>, k: nat)
    ensures RunMFunc(w, m, actuals, k + 1) == StepM(w, m, RunMFunc(w, m, actuals, k))
  {
    hide StepM;
  }

  lemma SpoiledReturn(w: World, f: Func, m: MFunc, actuals: seq<Int64>, n: nat, s: State, k: nat, i: nat, at: Brink)
    requires s.Running? && f.Has(s.block, i) && i == |f.blocks[s.block]| - 1 && OnBrink(w, f, m, s, RunMFunc(w, m, actuals, k), i, at)
    requires f.At(s.block, i).op == Ssa.Ret(Some(0)) && RetShape(m.blocks, s.block, Body(f.blocks[s.block]), Some(0))
    requires !RunBlock(w, f.blocks[s.block], 0, s.env, s.env, s.prev, s.trace).Fault?
    ensures !Passes(w, m, actuals, n, Seen(StepBlock(w, f, s)))
  {
    var b := f.blocks[s.block];
    var mb := m.blocks[s.block];
    hide RunBlock, LowerUpTo, Passes, RunMFunc;
    VisibleRight(w, b, i, at.env, s.env, s.prev, at.trace);
    assert mb[|Body(b)|] == Make(RET, 0, 0, 0, 0);
    RetAt(w, mb, |Body(b)|, at.menv, at.flags, at.trace);
    hide RunM;
    NextIs(w, m, actuals, k);
    WrongResult(w, m, actuals, n, k, Seen(StepBlock(w, f, s)), Some(at.env[0]), Some(at.menv[0]), at.trace);
  }

  lemma RetAt(w: World, mb: MachBlock, k: nat, menv: Env, flags: Flags, trace: Trace)
    requires k < |mb| && mb[k] == Make(RET, 0, 0, 0, 0) && 0 in menv
    ensures RunM(w, mb, k, menv, flags, trace) == Return(Some(menv[0]), trace)
  {
  }

  /** A spoiled read is one of a visible instruction. */
  lemma SpoiledIs(w: World, f: Func, m: MFunc, s: State, i: nat, dirty: bool)
    requires Selectable(f) && Selected(f, m) && VisibleReads(f) && AtSpoiled(w, f, s, i, dirty)
    ensures s.Running? && f.Has(s.block, i) && f.blocks[s.block] != []
    ensures !RunBlock(w, f.blocks[s.block], 0, s.env, s.env, s.prev, s.trace).Fault?
    ensures var op := f.At(s.block, i).op;
            && Supported(op) && Reads(op, 0) && (op.Print? || op.Call? || op.Ret?)
            && (op.Ret? ==> i == |f.blocks[s.block]| - 1 && op == Ssa.Ret(Some(0)) && RetShape(m.blocks, s.block, Body(f.blocks[s.block]), Some(0)))
            && (!op.Ret? ==> i < |f.blocks[s.block]| - 1)
  {
    assert InstSelectable(f, s.block, i);
    TerminatorLast(f, s.block, i);
    assert EdgesRight(f, m.blocks, s.block);
    hide Selectable, Selected, RunBlock, RetShape, Body;
  }

  /** The machine does not pass through what the program shows after a spoiled read. */
  lemma SpoiledShows(w: World, f: Func, m: MFunc, actuals: seq<Int64>, n: nat, s: State, k: nat, i: nat, dirty: bool)
    requires Selectable(f) && Selected(f, m) && VisibleReads(f) && AtSpoiled(w, f, s, i, dirty) && Unanswered(w, f, s, i)
    requires StateRel(w, f, dirty, s, RunMFunc(w, m, actuals, k)) && StepFits(w, f, s)
    ensures !Passes(w, m, actuals, n, Seen(StepBlock(w, f, s)))
  {
    hide *;
    SpoiledIs(w, f, m, s, i, dirty);
    var at := Approach(w, f, m, s, RunMFunc(w, m, actuals, k), i, dirty);
    if f.At(s.block, i).op.Ret? {
      SpoiledReturn(w, f, m, actuals, n, s, k, i, at);
    } else {
      SpoiledCall(w, f, m, actuals, n, s, k, i, at);
    }
  }

  // ---- Both directions ----

  lemma SourceIsRead(args: seq<PhiArg>, p: Label)
    ensures PhiSource(args, p) == Some(0) ==> Reads(Phi(args), 0)
  {
    if PhiSource(args, p).Some? {
      var k := PhiSourceIsArg(args, p);
    }
  }

  lemma VisibleEdge(f: Func, p: nat, t: nat, dirty: bool)
    requires VisibleReads(f)
    ensures EdgeClean(f, p, t, dirty)
  {
    forall j | f.Has(t, j) && f.At(t, j).op.Phi? ensures PhiSource(f.At(t, j).op.args, p) != Some(0) {
      SourceIsRead(f.At(t, j).op.args, p);
    }
  }

  lemma BlockAtFault(w: World, f: Func, actuals: seq<Int64>, n: nat, dirty: bool) returns (i: nat)
    requires Selectable(f) && VisibleReads(f) && dirty == RunSpoiled(w, f, actuals, n)
    requires !Run(w, f, actuals, n + 1).Faulted? && !RunClean(w, f, actuals, n)
    ensures AtSpoiled(w, f, Run(w, f, actuals, n), i, dirty)
  {
    var s, s' := Run(w, f, actuals, n), Run(w, f, actuals, n + 1);
    if s'.Running? {
      VisibleEdge(f, s.block, s'.block, dirty);
    }
    var i0 :| !ReadsClean(f, s.block, i0, dirty);
    hide Selectable, VisibleReads, RunSpoiled, RunClean;
    i := FirstSpoiledRead(f, s.block, i0, dirty);
    SelectableOpen(f, s.block, i);
  }

  lemma SameClean(w: World, d: Int64, f: Func, actuals: seq<Int64>, n: nat)
    ensures RunClean(Answering(w, d), f, actuals, n) == RunClean(w, f, actuals, n)
  {
    hide Run, RunSpoiled, Answering;
    SameRun(w, d, f, actuals, n);
    SameRun(w, d, f, actuals, n + 1);
  }

  lemma {:induction false} SameFits(w: World, d: Int64, b: Block, i: nat, env: Env, snap: Env, prev: Option<Label>, trace: Trace)
    requires ShiftsFit(w, b, i, env, snap, prev, trace)
    ensures ShiftsFit(Answering(w, d), b, i, env, snap, prev, trace)
    decreases |b| - i
  {
    hide Answering, ShiftFits;
    if i < |b| && !b[i].op.IsTerminator() {
      SameExec(w, d, b[i], env, snap, prev, trace);
      var r := Exec(w, b[i], env, snap, prev, trace);
      hide Exec;
      if r.Went? {
        SameFits(w, d, b, i + 1, r.env, snap, prev, r.trace);
      }
    }
  }

  lemma SameRunFits(w: World, d: Int64, f: Func, actuals: seq<Int64>, n: nat)
    requires RunFits(w, f, actuals, n)
    ensures RunFits(Answering(w, d), f, actuals, n)
  {
    SameRun(w, d, f, actuals, n);
    var s := Run(w, f, actuals, n);
    hide Run, Answering, ShiftsFit;
    if s.Running? && s.block < |f.blocks| {
      SameFits(w, d, f.blocks[s.block], 0, s.env, s.env, s.prev, s.trace);
    }
  }

  lemma FitsThen(w: World, f: Func, actuals: seq<Int64>, n: nat)
    requires RunFits(w, f, actuals, n)
    ensures StepFits(w, f, Run(w, f, actuals, n))
  {
  }

  lemma Unanswering(w: World, f: Func, s: State, i: nat, dirty: bool) returns (d: Int64)
    requires AtSpoiled(w, f, s, i, dirty)
    ensures AtSpoiled(Answering(w, d), f, s, i, dirty) && Unanswered(Answering(w, d), f, s, i)
  {
    var x := Expected(w, f, s, i);
    d := if x == Some(0) then 1 else 0;
    SameBlockRun(w, d, f.blocks[s.block], 0, s.env, s.env, s.prev, s.trace);
    SameUpto(w, d, f.blocks[s.block], i, s.env, s.prev, s.trace);
    forall y: Int64 | IsReply(Answering(w, d), y) ensures Some(y) != x {
      ReplyIs(w, d, y);
    }
  }

  /** A run that reads a spoiled register shows it, in some world. */
  lemma SpoiledRunFails(w: World, f: Func, m: MFunc, actuals: seq<Int64>, n: nat)
    requires Selectable(f) && Selected(f, m) && VisibleReads(f)
    requires !Run(w, f, actuals, n + 2).Faulted? && !RunClean(w, f, actuals, n)
    requires forall j: nat :: j < n ==> RunClean(w, f, actuals, j)
    requires forall j: nat :: j <= n ==> RunFits(w, f, actuals, j)
    ensures !Simulates(f, m)
  {
    hide *;
    FaultsStay(w, f, actuals, n + 1, n + 2);
    var dirty := RunSpoiled(w, f, actuals, n);
    var s := Run(w, f, actuals, n);
    var i := BlockAtFault(w, f, actuals, n, dirty);
    var d := Unanswering(w, f, s, i, dirty);
    var w' := Answering(w, d);
    SameRun(w, d, f, actuals, n);
    SameRun(w, d, f, actuals, n + 1);
    SameRun(w, d, f, actuals, n + 2);
    forall j: nat | j < n ensures RunClean(w', f, actuals, j) && RunFits(w', f, actuals, j) {
      SameClean(w, d, f, actuals, j);
      SameRunFits(w, d, f, actuals, j);
    }
    SameRunFits(w, d, f, actuals, n);
    FitsThen(w', f, actuals, n);
    var k := RunSim(w', f, m, actuals, n);
    SpoiledShows(w', f, m, actuals, n + 1, s, k, i, dirty);
    MoreBlocks(w', f, actuals, n);
    NotSimulated(w', f, m, actuals, n + 1);
  }

  lemma NotSimulated(w: World, f: Func, m: MFunc, actuals: seq<Int64>, n: nat)
    requires !Run(w, f, actuals, n + 1).Faulted? && !Passes(w, m, actuals, n, Seen(Run(w, f, actuals, n)))
    ensures !Simulates(f, m)
  {
    hide Run, Passes;
  }

  /** When register 0 is read only where it shows, the selected code is right exactly when no
      run reads the register after a PRINT without defining it again. */
  lemma PrintsExact(f: Func, m: MFunc)
    requires Selectable(f) && VisibleReads(f) && RunsFit(f) && IsSelection(f, m)
    ensures Simulates(f, m) <==> RunsClean(f)
  {
    hide Selectable, VisibleReads, IsSelection, Simulates, RunClean, RunFits, Run;
    if RunsClean(f) {
      CleanRunsSimulate(f, m);
    } else {
      var w: World, actuals, n: nat :| !Run(w, f, actuals, n + 2).Faulted? && !RunClean(w, f, actuals, n);
      SelectionIsRight(f, m);
      var first := FirstSpoiledBlock(w, f, actuals, n);
      FaultsStay(w, f, actuals, first + 2, n + 2);
      forall j: nat | j <= first ensures RunFits(w, f, actuals, j) {
        FaultsStay(w, f, actuals, j + 2, n + 2);
      }
      SpoiledRunFails(w, f, m, actuals, first);
    }
  }

  // ---- Printing one register again and again ----

  function PrintBlock(k: nat): (b: Block)
    ensures |b| == k + 2 && b[0] == Inst(Some(0), Const(5)) && b[k + 1] == Inst(None, Op.Ret(None))
    ensures forall i :: 1 <= i <= k ==> b[i] == Inst(None, Op.Print(0))
  {
    [Inst(Some(0), Const(5))] + seq(k, i => Inst(None, Op.Print(0))) + [Inst(None, Op.Ret(None))]
  }

  /** Puts 5 in register 0 and prints it `k` times. */
  function PrintTimes(k: nat): Func {
    Func([PrintBlock(k)], 0, 1, [])
  }

  lemma TimesAt(k: nat, b: nat, i: nat)
    requires PrintTimes(k).Has(b, i)
    ensures b == 0 && i <= k + 1
    ensures PrintTimes(k).At(b, i) == if i == 0 then Inst(Some(0), Const(5)) else if i <= k then Inst(None, Op.Print(0)) else Inst(None, Op.Ret(None))
  {
    hide PrintBlock;
  }

  lemma NoPhiCopies(k: nat, n: nat, p: Label)
    requires n <= k + 2
    ensures CopiesUpTo(PrintBlock(k), n, p) == []
  {
    hide *;
    CopiesStep(PrintBlock(k), n, p);
    if n > 0 {
      NoPhiCopies(k, n - 1, p);
      NoPhiAt(k, n - 1, p);
    }
  }

  lemma CopiesStep(b: Block, n: nat, p: Label)
    requires n <= |b|
    ensures CopiesUpTo(b, n, p) == if n == 0 then [] else CopiesUpTo(b, n - 1, p) + CopiesOfInst(b[n - 1], p)
  {
    hide CopiesOfInst;
  }

  lemma NoPhiAt(k: nat, i: nat, p: Label)
    requires i < k + 2
    ensures CopiesOfInst(PrintBlock(k)[i], p) == []
  {
    assert i == 0 || i == k + 1 || 1 <= i <= k;
    hide PrintBlock;
  }

  lemma TimesSelectable(k: nat)
    ensures Selectable(PrintTimes(k)) && VisibleReads(PrintTimes(k))
  {
    var f := PrintTimes(k);
    forall b: nat, i: nat | f.Has(b, i)
      ensures InstSelectable(f, b, i) && (Reads(f.At(b, i).op, 0) ==> f.At(b, i).op.Print?)
      ensures f.At(b, i).dst.Some? ==> i == 0
      ensures f.At(b, i).op.IsTerminator() ==> f.At(b, i).dst.None?
    {
      TimesAt(k, b, i);
    }
    assert BlockOk(f, f.blocks[0]) by { hide PrintBlock; }
    hide PrintBlock, InstSelectable;
    forall p: Label, t: Label ensures NoConflict(CopiesFor(f, p, t)) {
      if t == 0 { NoPhiCopies(k, k + 2, p); }
    }
    forall b, i | f.Has(b, i) ensures InstSelectable(f, b, i) {
      var b': nat, i': nat := b, i;
    }
    assert Accepts(f);
    assert SingleDef(f);
    assert Cse.LocalOrder(f) by {
      forall b, i, j | f.Has(b, i) && f.Has(b, j) && i <= j && !f.At(b, i).op.Phi? && f.At(b, j).dst.Some?
        ensures !Reads(f.At(b, i).op, f.At(b, j).dst.value)
      {
        TimesAt(k, b, j);
      }
    }
  }

  lemma {:induction false} TimesBlock(w: World, k: nat, i: nat, env: Env, snap: Env, trace: Trace)
    requires 1 <= i <= k + 1 && 0 in env
    ensures RunBlock(w, PrintBlock(k), i, env, snap, None, trace).Return?
    decreases k + 1 - i
  {
    hide PrintBlock;
    if i <= k {
      TimesBlock(w, k, i + 1, env, snap, trace + [Printed(env[0])]);
    }
  }

  lemma TimesRuns(w: World, k: nat)
    ensures Run(w, PrintTimes(k), [], 0) == Running(0, None, map[], [])
    ensures Run(w, PrintTimes(k), [], 1).Finished? && Run(w, PrintTimes(k), [], 2).Finished?
  {
    var f := PrintTimes(k);
    hide PrintBlock;
    var none: Env := map[];
    assert RunBlock(w, PrintBlock(k), 0, none, none, None, []) == RunBlock(w, PrintBlock(k), 1, none[0 := 5], none, None, []);
    TimesBlock(w, k, 1, none[0 := 5], none, []);
    hide RunBlock;
    assert Run(w, f, [], 0) == Running(0, None, none, []);
    assert Run(w, f, [], 1) == StepBlock(w, f, Run(w, f, [], 0));
    assert Run(w, f, [], 2) == StepBlock(w, f, Run(w, f, [], 1));
  }

  lemma TimesSpoiled(k: nat)
    requires k >= 2
    ensures !BlockClean(PrintTimes(k), 0, false)
  {
    var f := PrintTimes(k);
    TimesAt(k, 0, 1);
    TimesAt(k, 0, 2);
    hide PrintTimes;
    assert Spoiled(f, 0, 2, false);
    assert !ReadsClean(f, 0, 2, false);
  }

  lemma TimesClean(k: nat, b: nat, dirty: bool)
    requires k <= 1
    ensures BlockClean(PrintTimes(k), b, dirty)
  {
    var f := PrintTimes(k);
    forall i: nat ensures ReadsClean(f, b, i, dirty) {
      if f.Has(b, i) {
        TimesAt(k, b, i);
        TimesAt(k, 0, 0);
        hide PrintTimes;
      }
    }
  }

  /** Printing it once is right, though the register is the one the call writes; printing it
      twice is not. */
  lemma PrintTimesExact(k: nat, m: MFunc)
    requires IsSelection(PrintTimes(k), m)
    ensures Simulates(PrintTimes(k), m) <==> k <= 1
  {
    hide *;
    var f := PrintTimes(k);
    TimesSelectable(k);
    TimesFit(k);
    PrintsExact(f, m);
    if k <= 1 {
      TimesSafe(k);
      SafeRunsClean(f);
    } else {
      TimesNotClean(k);
    }
  }

  lemma TimesFit(k: nat)
    ensures RunsFit(PrintTimes(k))
  {
    var f := PrintTimes(k);
    forall b: nat, i: nat | f.Has(b, i) ensures !f.At(b, i).op.Binop? {
      TimesAt(k, b, i);
    }
    hide PrintTimes, RunsFit;
    NoShiftsRunFit(f);
  }

  lemma TimesNotClean(k: nat)
    requires k >= 2
    ensures !RunsClean(PrintTimes(k))
  {
    var f := PrintTimes(k);
    var w: World := t => 0;
    hide PrintTimes, BlockClean, Run, EdgeClean;
    TimesRuns(w, k);
    TimesSpoiled(k);
    assert !RunSpoiled(w, f, [], 0);
    assert !RunClean(w, f, [], 0);
  }

  lemma TimesSafe(k: nat)
    requires k <= 1
    ensures PrintsSafe(PrintTimes(k))
  {
    var f := PrintTimes(k);
    forall b: nat, dirty | May(f, b, dirty) ensures BlockClean(f, b, dirty) {
      TimesClean(k, b, dirty);
    }
    forall p: nat, t: nat, dirty ensures EdgeClean(f, p, t, dirty) {
      forall j: nat | f.Has(t, j) ensures !f.At(t, j).op.Phi? {
        TimesAt(k, t, j);
      }
    }
  }
}
