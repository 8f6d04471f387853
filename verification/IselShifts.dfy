/** A right shift through the selector (src/isel.c:155-159): the source shifts arithmetically,
    the selected instruction logically. */
module IselShifts {
  import opened Wrappers
  import opened Word64
  import opened Ssa
  import opened SsaVerify
  import opened StrictSsa
  import opened Mach
  import opened Isel
  import opened IselShape
  import opened ParallelCopy
  import opened IselCorrect
  import opened IselSimulation
  import opened IselPrints
  import Cse

  function ShiftBlock(n: Int64): Block {
    [Inst(Some(1), Const(n)), Inst(Some(2), Binop(RShift, 0, 1)), Inst(None, Op.Ret(Some(2)))]
  }

  /** Returns its argument shifted right by `n`. */
  function ShiftProgram(n: Int64): Func {
    Func([ShiftBlock(n)], 0, 3, [0])
  }

  lemma ShiftAt(n: Int64, b: int, i: int)
    requires ShiftProgram(n).Has(b, i)
    ensures b == 0 && 0 <= i < 3
    ensures ShiftProgram(n).At(b, i) ==
              if i == 0 then Inst(Some(1), Const(n)) else if i == 1 then Inst(Some(2), Binop(RShift, 0, 1)) else Inst(None, Op.Ret(Some(2)))
  {
  }

  lemma {:induction false} NoCopiesUpTo(n: Int64, k: nat, p: Label)
    requires k <= 3
    ensures CopiesUpTo(ShiftBlock(n), k, p) == []
  {
    if k > 0 {
      NoCopiesUpTo(n, k - 1, p);
    }
  }

  lemma ShiftSelectable(n: Int64)
    ensures Selectable(ShiftProgram(n)) && PrintsSafe(ShiftProgram(n))
  {
    var f := ShiftProgram(n);
    assert BlockOk(f, f.blocks[0]);
    forall b: nat, i: nat | f.Has(b, i)
      ensures b == 0 && i < 3 && f.At(b, i).dst == (if i < 2 then Some(i + 1) else None) && InstSelectable(f, b, i)
      ensures f.At(b, i).op.IsTerminator() <==> i == 2
      ensures !f.At(b, i).op.Phi? && !f.At(b, i).op.Print? && forall v: VReg :: Reads(f.At(b, i).op, v) ==> v <= i
    {
      ShiftAt(n, b, i);
    }
    forall p: Label, t: Label ensures NoConflict(CopiesFor(f, p, t)) {
      if t == 0 { NoCopiesUpTo(n, 3, p); }
    }
    hide ShiftBlock, InstSelectable, CopiesFor, NoConflict, BlockOk;
    assert SingleDef(f);
    assert Cse.LocalOrder(f);
    assert forall p: Label :: p < |f.blocks| ==> BranchOk(f, p) by { hide CopiesFor; assert f.Has(0, 2) && !f.At(0, 2).op.Branch?; }
    NoPrintsSafe(f);
  }

  lemma {:induction false} NeverSpoiled(f: Func, path: seq<Label>)
    requires forall b: nat, i: nat :: f.Has(b, i) ==> !f.At(b, i).op.Print?
    ensures !SpoiledBy(f, path)
  {
    if |path| > 1 {
      NeverSpoiled(f, path[..|path| - 1]);
      var p := path[|path| - 2];
      if p < |f.blocks| && f.blocks[p] != [] {
        StaysClean(f, p, |f.blocks[p]| - 1);
      }
    }
  }

  lemma {:induction false} StaysClean(f: Func, b: nat, i: nat)
    requires forall c: nat, j: nat :: f.Has(c, j) ==> !f.At(c, j).op.Print?
    ensures !Spoiled(f, b, i, false)
  {
    if i > 0 {
      StaysClean(f, b, i - 1);
    }
  }

  /** Code that prints nothing reads no spoiled register. */
  lemma NoPrintsSafe(f: Func)
    requires forall b: nat, i: nat :: f.Has(b, i) ==> !f.At(b, i).op.Print?
    ensures PrintsSafe(f)
  {
    hide Spoiled;
    forall b: Label, dirty | May(f, b, dirty) ensures !dirty && BlockClean(f, b, dirty) {
      var path :| PathTo(f, path, b) && SpoiledBy(f, path) == dirty;
      NeverSpoiled(f, path);
      forall i: nat ensures ReadsClean(f, b, i, dirty) {
        StaysClean(f, b, i);
      }
    }
    forall p: Label, t: Label, dirty | May(f, p, dirty) ensures EdgeClean(f, p, t, dirty) {
      if p < |f.blocks| && f.blocks[p] != [] {
        StaysClean(f, p, |f.blocks[p]| - 1);
      }
    }
  }

  lemma ShiftRunsFit(n: Int64)
    requires n % 64 == 0
    ensures RunsFit(ShiftProgram(n))
  {
    var f := ShiftProgram(n);
    forall w: World, actuals, k: nat ensures RunFits(w, f, actuals, k) {
      var s := Run(w, f, actuals, k);
      hide Run;
      if s.Running? && s.block < |f.blocks| {
        var b := f.blocks[0];
        var e1 := s.env[1 := n];
        assert ShiftsFit(w, b, 2, e1, s.env, s.prev, s.trace);
        OneShift(w, b, n, s.env, s.prev, s.trace);
      }
    }
  }

  lemma OneShift(w: World, b: Block, n: Int64, env: Env, prev: Option<Label>, trace: Trace)
    requires b == ShiftBlock(n) && n % 64 == 0
    ensures ShiftsFit(w, b, 0, env, env, prev, trace)
  {
    var e1 := env[1 := n];
    hide EvalBinop;
    assert Exec(w, b[0], env, env, prev, trace) == Went(e1, trace);
    assert ShiftFits(b[1].op, e1);
    var r := Exec(w, b[1], e1, env, prev, trace);
    assert r.Went? ==> ShiftsFit(w, b, 2, r.env, env, prev, r.trace);
    assert ShiftsFit(w, b, 1, e1, env, prev, trace);
  }

  lemma ShiftRun(w: World, n: Int64, x: Int64, y: Int64)
    requires EvalBinop(RShift, x, n) == Some(y)
    ensures Run(w, ShiftProgram(n), [x], 1) == Finished(Some(y), []) && Run(w, ShiftProgram(n), [x], 2) == Finished(Some(y), [])
  {
    var f := ShiftProgram(n);
    var b := f.blocks[0];
    hide EvalBinop;
    var e0: Env := map[0 := x];
    assert Bind([0], [x]) == e0 by { assert Bind([], []) == map[]; }
    var e1 := e0[1 := n];
    var e2 := e1[2 := y];
    assert RunBlock(w, b, 2, e2, e0, None, []) == Return(Some(y), []);
    assert RunBlock(w, b, 1, e1, e0, None, []) == RunBlock(w, b, 2, e2, e0, None, []);
    assert RunBlock(w, b, 0, e0, e0, None, []) == RunBlock(w, b, 1, e1, e0, None, []);
    assert Run(w, f, [x], 0) == Running(0, None, e0, []);
    assert Run(w, f, [x], 2) == StepBlock(w, f, Run(w, f, [x], 1));
  }

  lemma ShiftBody(n: Int64)
    ensures Body(ShiftBlock(n)) == [Make(LABEL, 0, 0, 0, 0), Make(MOV_IMM, 1, 0, 0, n), Make(SHR, 2, 0, 1, 0)]
  {
    var b := ShiftBlock(n);
    assert LowerUpTo(b, 0) == [Make(LABEL, 0, 0, 0, 0)];
    assert LowerUpTo(b, 1) == [Make(LABEL, 0, 0, 0, 0), Make(MOV_IMM, 1, 0, 0, n)];
    assert LowerUpTo(b, 2) == [Make(LABEL, 0, 0, 0, 0), Make(MOV_IMM, 1, 0, 0, n), Make(SHR, 2, 0, 1, 0)];
  }

  lemma ShiftSelected(n: Int64, m: MFunc)
    requires Selected(ShiftProgram(n), m)
    ensures m.params == [0] && RetShape(m.blocks, 0, Body(ShiftBlock(n)), Some(2))
  {
    var f := ShiftProgram(n);
    hide RetShape, Body;
    assert f.blocks[0] == ShiftBlock(n);
    assert EdgesRight(f, m.blocks, 0);
  }

  lemma ShiftCode(n: Int64, m: MFunc)
    requires IsSelection(ShiftProgram(n), m)
    ensures m.params == [0] && |m.blocks| >= 1
    ensures m.blocks[0] == [Make(LABEL, 0, 0, 0, 0), Make(MOV_IMM, 1, 0, 0, n), Make(SHR, 2, 0, 1, 0), Make(RET, 0, 2, 0, 0)]
  {
    hide Selectable, Selected, PrintsSafe, IsSelection, ShiftProgram, ShiftBlock, Body;
    ShiftSelectable(n);
    SelectionIsRight(ShiftProgram(n), m);
    ShiftSelected(n, m);
    ShiftBody(n);
  }

  lemma ShiftRunM(w: World, m: MFunc, n: Int64, x: Int64, y: Int64)
    requires m.params == [0] && |m.blocks| >= 1 && AluValue(SHR, x, n) == Some(y)
    requires m.blocks[0] == [Make(LABEL, 0, 0, 0, 0), Make(MOV_IMM, 1, 0, 0, n), Make(SHR, 2, 0, 1, 0), Make(RET, 0, 2, 0, 0)]
    ensures RunMFunc(w, m, [x], 0).MRunning? && RunMFunc(w, m, [x], 1) == MFinished(Some(y), [])
  {
    hide AluValue;
    var mb := m.blocks[0];
    var e0: Env := map[0 := x];
    assert Bind([0], [x]) == e0 by { assert Bind([], []) == map[]; }
    ShiftBlockRun(w, mb, n, x, y, e0);
    hide RunM;
    assert RunMFunc(w, m, [x], 0) == MRunning(0, e0, []);
    assert RunMFunc(w, m, [x], 1) == StepM(w, m, RunMFunc(w, m, [x], 0));
  }

  lemma ShiftBlockRun(w: World, mb: MachBlock, n: Int64, x: Int64, y: Int64, e0: Env)
    requires mb == [Make(LABEL, 0, 0, 0, 0), Make(MOV_IMM, 1, 0, 0, n), Make(SHR, 2, 0, 1, 0), Make(RET, 0, 2, 0, 0)]
    requires AluValue(SHR, x, n) == Some(y) && e0 == map[0 := x]
    ensures RunM(w, mb, 0, e0, None, []) == Return(Some(y), [])
  {
    hide AluValue;
    var e1 := e0[1 := n];
    var e2 := e1[2 := y];
    assert RunM(w, mb, 3, e2, None, []) == Return(Some(y), []);
    assert RunM(w, mb, 2, e1, None, []) == RunM(w, mb, 3, e2, None, []);
    assert RunM(w, mb, 1, e0, None, []) == RunM(w, mb, 2, e1, None, []);
  }

  /** The selected code is right exactly when it shifts by nothing. */
  lemma ShiftProgramExact(n: Int64, m: MFunc)
    requires IsSelection(ShiftProgram(n), m)
    ensures Simulates(ShiftProgram(n), m) <==> n % 64 == 0
  {
    var f := ShiftProgram(n);
    ShiftSelectable(n);
    hide Selectable, PrintsSafe, RunsFit, Run, RunMFunc, IsSelection, Simulates, Passes;
    if n % 64 == 0 {
      ShiftRunsFit(n);
      SelectionSimulates(f, m);
    } else {
      var w: World := (t: Trace) => 0;
      var x: Int64 := -1;
      ShiftExact(x, n);
      var y, z := EvalBinop(RShift, x, n).value, AluValue(SHR, x, n).value;
      ShiftRun(w, n, x, y);
      ShiftCode(n, m);
      ShiftRunM(w, m, n, x, z);
      WrongResult(w, m, [x], 1, 0, MDone(Some(y), []), Some(y), Some(z), []);
      NotSimulated(w, f, m, [x], 1);
    }
  }
}
