/** Selection, allocation, peephole and expansion together (src/main.c:267-297). */
module BackEnd {
  import opened Wrappers
  import opened Word64
  import opened Ssa
  import opened Mach
  import opened Isel
  import opened IselShape
  import opened IselCorrect
  import opened IselSimulation
  import opened LinearScan
  import opened RegAlloc
  import opened Liveness
  import opened Expand
  import IselShifts
  import Peephole

  // ---- The shape of selected instructions ----

  /** An arithmetic instruction does not write its right operand, and what writes nothing names
      register 0 as its destination. */
  predicate Neat(inst: MachInst) {
    && (inst.op.IsAlu() ==> inst.dst != inst.src2)
    && (Writes(inst).Some? || inst.dst == 0)
  }

  predicate AllNeat(mb: MachBlock) {
    forall i :: 0 <= i < |mb| ==> Neat(mb[i])
  }

  ghost predicate NeatBlocks(bs: seq<MachBlock>) {
    forall b :: 0 <= b < |bs| ==> AllNeat(bs[b])
  }

  /** Nothing in strict SSA reads the register it defines. */
  lemma InstNeat(f: Func, b: nat, i: nat)
    requires Selectable(f) && f.Has(b, i)
    ensures AllNeat(LowerInst(f.At(b, i)))
  {
    var inst := f.At(b, i);
    assert InstSelectable(f, b, i);
    if inst.op.Binop? {
      assert inst.dst.Some? && Reads(inst.op, inst.op.rhs);
    }
    hide Selectable, InstSelectable;
  }

  lemma {:induction false} LoweredNeat(f: Func, b: nat, n: nat)
    requires Selectable(f) && b < |f.blocks| && n <= |f.blocks[b]|
    ensures AllNeat(LowerUpTo(f.blocks[b], n))
  {
    hide Selectable, LowerInst;
    if n > 0 {
      LoweredNeat(f, b, n - 1);
      InstNeat(f, b, n - 1);
    }
  }

  lemma PlaceNeat(bs: seq<MachBlock>, e: EdgeCopies)
    requires e.pred < |bs| && NeatBlocks(bs)
    ensures NeatBlocks(PlaceEdge(bs, e))
  {
    var pb := bs[e.pred];
    var moves := Moves(e.copies);
    assert AllNeat(pb);
    assert AllNeat(moves) && AllNeat(EdgeBlock(e.copies, e.phi));
    assert forall n: nat :: n <= |pb| ==> AllNeat(pb[..n]);
    var n := |pb|;
    assert n > 0 ==> AllNeat(pb[..n - 1] + moves + [pb[n - 1]]);
    assert n > 0 ==> Neat(pb[n - 1]);
    var at := |bs|;
    assert n > 0 && (pb[n - 1].op.JNE? || pb[n - 1].op.JE?) ==> AllNeat(pb[n - 1 := pb[n - 1].(target := at)]);
    assert n > 1 && (pb[n - 2].op.JNE? || pb[n - 2].op.JE?) ==> AllNeat(pb[n - 2 := pb[n - 2].(target := at)]);
    hide AllNeat, Moves, EdgeBlock;
  }

  lemma {:induction false} PlacedNeat(bs: seq<MachBlock>, edges: seq<EdgeCopies>, n: nat)
    requires n <= |edges| && (forall e :: 0 <= e < n ==> edges[e].pred < |bs|) && NeatBlocks(bs)
    ensures NeatBlocks(PlaceUpTo(bs, edges, n))
  {
    hide NeatBlocks, PlaceEdge;
    if n > 0 {
      PlacedNeat(bs, edges, n - 1);
      PlaceNeat(PlaceUpTo(bs, edges, n - 1), edges[n - 1]);
    }
  }

  lemma SelectedNeat(f: Func, m: MFunc)
    requires Selectable(f) && IsSelection(f, m)
    ensures NeatBlocks(m.blocks)
  {
    var edges :| AllCollected(f, edges) && m == MFunc(PlaceUpTo(LowerAll(f), edges, |edges|), f.nextVreg, f.params);
    LowerAllSize(f);
    forall b | 0 <= b < |LowerAll(f)| ensures AllNeat(LowerAll(f)[b]) {
      LoweredNeat(f, b, |f.blocks[b]|);
    }
    hide Selectable, LowerAll, AllNeat, PlaceUpTo, LowerUpTo;
    PlacedNeat(LowerAll(f), edges, |edges|);
  }

  lemma NeatAt(m: MFunc, b: nat, i: nat)
    requires NeatBlocks(m.blocks) && m.Has(b, i)
    ensures Neat(m.At(b, i))
  {
    assert AllNeat(m.blocks[b]);
  }

  /** Every instruction of selected and allocated code expands to x86 code that computes it. */
  lemma SelectedExpands(f: Func, m: MFunc, t: Table, regOf: seq<nat>, b: nat, i: nat)
    requires Selectable(f) && IsSelection(f, m) && PlainCode(m) && IsTable(m, t) && Assigns(m, t, regOf)
    requires m.Has(b, i) && Straight(m.At(b, i))
    ensures ExpandOk(RenameInst(m.At(b, i), regOf))
  {
    SelectedNeat(f, m);
    NeatAt(m, b, i);
    hide Selectable, IsSelection, NeatBlocks, PlainCode, IsTable, Assigns, ExpandOk;
    AllocatedExpands(m, t, regOf, b, i);
  }

  // ---- More in the registers does no harm ----

  ghost predicate Within(env: Env, env': Env) {
    forall v :: v in env ==> v in env' && env'[v] == env[v]
  }

  lemma ExecWithin(w: World, inst: MachInst, env: Env, env': Env, flags: Flags, trace: Trace)
    requires !inst.op.IsJump() && !inst.op.RET? && Within(env, env') && ExecM(w, inst, env, flags, trace).MWent?
    ensures var r, r' := ExecM(w, inst, env, flags, trace), ExecM(w, inst, env', flags, trace);
            r'.MWent? && r'.trace == r.trace && Within(r.env, r'.env) && r'.flags == r.flags
  {
    hide EvalBinop, EvalUnop, EvalCmp, BitwiseWord, AluValue;
    if inst.op.CALL? {
      assert AllIn(inst.args, env') && Values(inst.args, env') == Values(inst.args, env);
    }
  }

  ghost predicate SameExit(r: Exit, r': Exit) {
    match r
    case Fault => true
    case Return(_, _) => r' == r
    case Goto(t, env, trace) => r'.Goto? && r'.target == t && r'.trace == trace && Within(env, r'.env)
  }

  lemma {:induction false} RunWithin(w: World, mb: MachBlock, i: nat, env: Env, env': Env, flags: Flags, trace: Trace)
    requires Within(env, env')
    ensures SameExit(RunM(w, mb, i, env, flags, trace), RunM(w, mb, i, env', flags, trace))
    decreases |mb| - i
  {
    if i < |mb| {
      if mb[i].op.JE? || mb[i].op.JNE? {
        RunWithin(w, mb, i + 1, env, env', flags, trace);
      } else if !mb[i].op.JMP? && !mb[i].op.RET? {
        var r := ExecM(w, mb[i], env, flags, trace);
        hide ExecM;
        if r.MWent? {
          ExecWithin(w, mb[i], env, env', flags, trace);
          RunWithin(w, mb, i + 1, r.env, ExecM(w, mb[i], env', flags, trace).env, r.flags, r.trace);
        }
      }
    }
  }

  /** A run that does not get stuck goes the same way from a machine whose other registers
      hold anything. */
  lemma {:induction false} FromAnywhere(w: World, m: MFunc, actuals: seq<Int64>, env: Env, n: nat)
    requires Within(Bind(m.params, actuals), env) && !RunMFunc(w, m, actuals, n).MFaulted?
    ensures var s, s' := RunMFunc(w, m, actuals, n), Peephole.RunFrom(w, m, env, n);
            ObserveM(s') == ObserveM(s) && (s.MRunning? ==> Within(s.env, s'.env))
  {
    if n > 0 {
      FromAnywhere(w, m, actuals, env, n - 1);
      var s, s' := RunMFunc(w, m, actuals, n - 1), Peephole.RunFrom(w, m, env, n - 1);
      hide RunM, Within;
      if s.MRunning? && s.block < |m.blocks| {
        RunWithin(w, m.blocks[s.block], 0, s.env, s'.env, None, s.trace);
      }
    }
  }

  // ---- The whole back end ----

  /** The allocated code after the peephole pass. */
  function Final(m: MFunc, regOf: seq<nat>): MFunc {
    var m' := RenameFunc(m, regOf);
    m'.(blocks := Peephole.Sweeps(m'.blocks, Peephole.MAX_ITERATIONS))
  }

  /** `m`, started with the actuals in the registers of its parameters and anything in the
      others, passes through everything a run of `f` shows. */
  ghost predicate Realizes(f: Func, m: MFunc) {
    forall w: World, actuals, env: Env, n: nat ::
      !Run(w, f, actuals, n + 1).Faulted? && Peephole.AllRegs(env) && Within(Bind(m.params, actuals), env) ==>
        Shows(w, m, env, n, Seen(Run(w, f, actuals, n)))
  }

  ghost predicate Shows(w: World, m: MFunc, env: Env, n: nat, view: MView) {
    exists k: nat :: n <= k <= 2 * n && ObserveM(Peephole.RunFrom(w, m, env, k)) == view
  }

  lemma TidyCode(f: Func, m: MFunc, t: Table, regOf: seq<nat>)
    requires Selectable(f) && IsSelection(f, m) && PlainCode(m) && Assigns(m, t, regOf)
    ensures Peephole.Tidy(RenameFunc(m, regOf).blocks)
  {
    Peephole.SelectionAdjacent(f, m);
    SelectedNeat(f, m);
    forall b: nat, i: nat | m.Has(b, i) ensures (Writes(m.At(b, i)).Some? && m.At(b, i).dst < |regOf| <= INVALID_VREG) || m.At(b, i).dst == 0 {
      NeatAt(m, b, i);
    }
    assert forall v :: 0 <= v < |regOf| ==> regOf[v] < REG_COUNT;
    hide Selectable, IsSelection, PlainCode, Assigns, NeatBlocks, RenameFunc;
    Peephole.AllocatedTidy(m, regOf);
  }

  lemma OneView(w: World, m: MFunc, regOf: seq<nat>, actuals: seq<Int64>, env: Env, n: nat, view: MView)
    requires MRefines(m, RenameFunc(m, regOf)) && Peephole.Tidy(RenameFunc(m, regOf).blocks)
    requires Passes(w, m, actuals, n, view) && view != MCrash
    requires Peephole.AllRegs(env) && Within(Bind(RenameFunc(m, regOf).params, actuals), env)
    ensures Shows(w, Final(m, regOf), env, n, view)
  {
    var k: nat :| n <= k <= 2 * n && ObserveM(RunMFunc(w, m, actuals, k)) == view;
    var m' := RenameFunc(m, regOf);
    hide RunMFunc, RenameFunc, Peephole.Sweeps, Peephole.Tidy, Peephole.AllRegs, Within, Peephole.RunFrom;
    assert ObserveM(RunMFunc(w, m', actuals, k)) == view;
    FromAnywhere(w, m', actuals, env, k);
    Peephole.PeepholePreserves(w, m', env, k);
    assert ObserveM(Peephole.RunFrom(w, Final(m, regOf), env, k)) == view;
  }

  // ---- Plain code comes from a program without prints and right shifts ----

  /** The code of an instruction that becomes something is in its block's. */
  lemma {:induction false} LoweredHolds(b: Block, n: nat, i: nat) returns (k: nat)
    requires i < n <= |b| && LowerInst(b[i]) != []
    ensures k < |LowerUpTo(b, n)| && LowerUpTo(b, n)[k] == LowerInst(b[i])[0]
  {
    hide LowerInst;
    if i == n - 1 {
      k := |LowerUpTo(b, n - 1)|;
    } else {
      k := LoweredHolds(b, n - 1, i);
    }
  }

  lemma BodyKept(f: Func, m: MFunc, b: nat)
    requires Selectable(f) && Selected(f, m) && b < |f.blocks| && f.blocks[b] != []
    ensures b < |m.blocks| && Body(f.blocks[b]) <= m.blocks[b]
    ensures f.blocks[b][|f.blocks[b]| - 1].op.IsTerminator()
  {
    TerminatorLast(f, b, 0);
    hide Body, Moves, CopiesFor, Selectable;
    assert EdgesRight(f, m.blocks, b);
  }

  lemma InCode(f: Func, m: MFunc, b: nat, i: nat)
    requires Selectable(f) && IsSelection(f, m) && f.Has(b, i) && !f.At(b, i).op.IsTerminator() && LowerInst(f.At(b, i)) != []
    ensures exists k: nat :: m.Has(b, k) && m.At(b, k) == LowerInst(f.At(b, i))[0]
  {
    hide Selectable, IsSelection, Selected, LowerInst, LowerUpTo;
    SelectionIsRight(f, m);
    BodyKept(f, m, b);
    var k := LoweredHolds(f.blocks[b], |f.blocks[b]| - 1, i);
    assert m.At(b, k) == Body(f.blocks[b])[k];
  }

  lemma PlainSource(f: Func, m: MFunc, b: nat, i: nat)
    requires Selectable(f) && IsSelection(f, m) && PlainCode(m) && f.Has(b, i)
    ensures !f.At(b, i).op.Print? && !(f.At(b, i).op.Binop? && f.At(b, i).op.bkind.RShift?)
  {
    hide Selectable, IsSelection, LowerInst, Plain;
    var inst := f.At(b, i);
    if inst.op.Print? || (inst.op.Binop? && inst.op.bkind.RShift?) {
      NotPlain(inst);
      InCode(f, m, b, i);
    }
  }

  lemma NotPlain(inst: Inst)
    requires inst.op.Print? || (inst.op.Binop? && inst.op.bkind.RShift?)
    ensures LowerInst(inst) != [] && !Plain(LowerInst(inst)[0].op)
  {
  }

  /** A block without right shifts. */
  lemma {:induction false} NoShifts(w: World, b: Block, i: nat, env: Env, snap: Env, prev: Option<Label>, trace: Trace)
    requires i <= |b| && forall j :: 0 <= j < |b| ==> !(b[j].op.Binop? && b[j].op.bkind.RShift?)
    ensures ShiftsFit(w, b, i, env, snap, prev, trace)
    decreases |b| - i
  {
    if i < |b| && !b[i].op.IsTerminator() {
      var r := Exec(w, b[i], env, snap, prev, trace);
      hide Exec;
      if r.Went? {
        NoShifts(w, b, i + 1, r.env, snap, prev, r.trace);
      }
    }
  }

  lemma PlainRunsFit(f: Func, m: MFunc)
    requires Selectable(f) && IsSelection(f, m) && PlainCode(m)
    ensures RunsFit(f) && PrintsSafe(f)
  {
    hide Selectable, IsSelection, PlainCode, Run, ShiftsFit;
    forall b: nat, i: nat | f.Has(b, i) ensures !f.At(b, i).op.Print? && !(f.At(b, i).op.Binop? && f.At(b, i).op.bkind.RShift?) {
      PlainSource(f, m, b, i);
    }
    IselShifts.NoPrintsSafe(f);
    hide PrintsSafe;
    forall w: World, actuals, n: nat ensures RunFits(w, f, actuals, n) {
      var s := Run(w, f, actuals, n);
      if s.Running? && s.block < |f.blocks| {
        assert forall j :: 0 <= j < |f.blocks[s.block]| ==> f.Has(s.block, j) && f.At(s.block, j) == f.blocks[s.block][j];
        NoShifts(w, f.blocks[s.block], 0, s.env, s.env, s.prev, s.trace);
      }
    }
  }

  /** From strict SSA to allocated, tidied machine code: every run shows the same. */
  lemma BackEndCorrect(f: Func, m: MFunc, t: Table, regOf: seq<nat>)
    requires Selectable(f) && IsSelection(f, m)
    requires PlainCode(m) && IsTable(m, t) && Assigns(m, t, regOf) && LoopsCovered(m, t)
    ensures Realizes(f, Final(m, regOf))
  {
    hide *;
    PlainRunsFit(f, m);
    SelectionSimulates(f, m);
    LoopsAllocated(m, t, regOf);
    TidyCode(f, m, t, regOf);
    Realized(f, m, regOf);
  }

  lemma Realized(f: Func, m: MFunc, regOf: seq<nat>)
    requires Simulates(f, m) && MRefines(m, RenameFunc(m, regOf)) && Peephole.Tidy(RenameFunc(m, regOf).blocks)
    ensures Realizes(f, Final(m, regOf))
  {
    assert Final(m, regOf).params == RenameFunc(m, regOf).params;
    hide MRefines, RenameFunc, Peephole.Tidy, Run, Passes, Shows, Final, Within, Peephole.AllRegs;
    forall w: World, actuals, env: Env, n: nat
      | !Run(w, f, actuals, n + 1).Faulted? && Peephole.AllRegs(env) && Within(Bind(Final(m, regOf).params, actuals), env)
      ensures Shows(w, Final(m, regOf), env, n, Seen(Run(w, f, actuals, n)))
    {
      FaultPersists(w, f, actuals, n);
      OneView(w, m, regOf, actuals, env, n, Seen(Run(w, f, actuals, n)));
    }
  }
}
