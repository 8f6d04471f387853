/** A program on which common-subexpression elimination, as coded, goes wrong; exactly when it
    does is CseLeaders.UnreadExact. */
module CseDepartures {
  import opened Wrappers
  import opened Word64
  import opened Ssa
  import Cse
  import CseLeaders
  import opened SsaVerify
  import opened StrictSsa
  import opened FoldConditions

  // ---- Common subexpressions and address arithmetic (src/opt_cse.c:116-156) ----

  /** Two negations of the parameter; the second feeds a GEP, whose result is printed. */
  function GepProgram(): Func {
    Func([[Inst(Some(1), Unop(Neg, 0)), Inst(Some(2), Unop(Neg, 0)), Inst(Some(3), Gep(2, 0)),
           Inst(None, Print(3)), Inst(None, Ret(None))]], 0, 4, [0])
  }

  lemma CseOfGepProgram()
    ensures Cse.CseFunc(GepProgram()) ==
              Func([[Inst(Some(1), Unop(Neg, 0)), Inst(Some(2), Const(0)), Inst(Some(3), Gep(2, 0)),
                     Inst(None, Print(3)), Inst(None, Ret(None))]], 0, 4, [0])
  {
    var f := GepProgram();
    var b := f.blocks[0];
    var g := Cse.CseFunc(f);
    assert Cse.CseUpTo(f, 0) == f;
    assert Cse.CseBlock(f, 0, 0) == f;
    assert Cse.FindSame(b, 0, b[0].op) == None;
    assert Cse.CseBlock(f, 0, 1) == f;
    assert Cse.FindSame(b, 1, b[1].op) == Some(0);
    var h := Cse.CseBlock(f, 0, 2);
    assert h.blocks[0] == [Inst(Some(1), Unop(Neg, 0)), Inst(Some(2), Const(0)), Inst(Some(3), Gep(2, 0)), Inst(None, Print(3)), Inst(None, Ret(None))];
    assert h == Cse.CseBlock(f, 0, 3) == Cse.CseBlock(f, 0, 4) == Cse.CseBlock(f, 0, 5);
  }

  lemma GepProgramAt(b: int, i: int)
    requires GepProgram().Has(b, i)
    ensures b == 0 && 0 <= i < 5 && GepProgram().At(b, i).dst == (if i < 3 then Some(i + 1) else None)
    ensures GepProgram().At(b, i).op == if i < 2 then Unop(Neg, 0) else if i == 2 then Gep(2, 0) else if i == 3 then Op.Print(3) else Op.Ret(None)
  {
    if i == 0 {} else if i == 1 {} else if i == 2 {} else if i == 3 {} else {}
  }

  lemma GepProgramForm()
    ensures var f := GepProgram(); SingleDef(f) && InBounds(f) && Accepts(f) && Cse.LocalOrder(f)
  {
    var f := GepProgram();
    assert f.params == [0] && f.nextVreg == 4 && f.blocks[0] != [] && |f.blocks[0]| == 5;
    assert BlockOk(f, f.blocks[0]);
    forall b, i | f.Has(b, i)
      ensures b == 0 && 0 <= i < 5 && f.At(b, i).dst == (if i < 3 then Some(i + 1) else None)
      ensures forall v: VReg :: Reads(f.At(b, i).op, v) ==> v <= i
      ensures f.At(b, i).op.IsTerminator() || f.At(b, i).op.Print? ==> f.At(b, i).dst.None?
    {
      GepProgramAt(b, i);
    }
    hide GepProgram, BlockOk;
    assert SingleDef(f);
    assert Accepts(f);
    AcceptedIsInBounds(f);
  }

  /** Nothing is wrong with the program. */
  lemma GepProgramSound()
    ensures Sound(GepProgram()) && Cse.LocalOrder(GepProgram())
  {
    var f := GepProgram();
    GepProgramForm();
    assert f.params == [0];
    hide GepProgram, SingleDef, InBounds, Accepts, Cse.LocalOrder;
    forall b: nat, i: nat | f.Has(b, i) ensures UsesOk(f, b, i, f.At(b, i).op) {
      GepProgramAt(b, i);
      if i < 2 {
        assert Avail(f, 0, b);
      } else if i < 4 {
        GepProgramAt(b, i - 1);
        assert DefinedBefore(f, i, b, i);
      }
    }
  }

  lemma GepNotClear()
    ensures !CseLeaders.GepsClear(GepProgram())
  {
    var f := GepProgram();
    CseOfGepProgram();
    GepProgramSound();
    var g := Cse.CseFunc(f);
    hide Cse.CseFunc, CseLeaders.GepsClear, Sound, Cse.LocalOrder;
    assert SingleDef(f) by { GepProgramForm(); }
    CseLeaders.UnreadExact(f);
    assert f.Has(0, 1) && g.Has(0, 1) && g.Has(0, 2) && Cse.Candidate(f.At(0, 1)) && g.At(0, 1).op.Const?;
    assert Reads(g.At(0, 2).op, 2);
  }

  /** The pass makes it print 0 instead of minus its argument. */
  lemma CseForgetsGep()
    ensures var f := GepProgram();
            Sound(f) && Cse.LocalOrder(f) && !CseLeaders.GepsClear(f) && !Refines(f, Cse.CseFunc(f))
  {
    var f, g := GepProgram(), Cse.CseFunc(GepProgram());
    var w: World := (t: Trace) => 0;
    CseOfGepProgram();
    RunGep(w, f, true);
    RunGep(w, g, false);
    hide Sound, Run, GepProgram, Cse.CseFunc, Refines, CseLeaders.GepsClear, Cse.LocalOrder;
    GepProgramSound();
    GepNotClear();
    OneRunDiffers(w, f, g, [1], 1);
  }

  lemma RunGep(w: World, f: Func, kept: bool)
    requires f.entry == 0 && f.params == [0] && |f.blocks| == 1
    requires f.blocks[0] == [Inst(Some(1), Unop(Neg, 0)), Inst(Some(2), if kept then Unop(Neg, 0) else Const(0)), Inst(Some(3), Gep(2, 0)),
                             Inst(None, Print(3)), Inst(None, Ret(None))]
    ensures Run(w, f, [1], 1) == Finished(None, [Printed(if kept then -1 else 0)])
  {
    var b := f.blocks[0];
    var e0: Env := map[0 := 1];
    assert Bind([0], [1]) == e0 by { assert Bind([], []) == map[]; }
    var x: Int64 := if kept then -1 else 0;
    var e1, e2, e3 := e0[1 := -1], e0[1 := -1][2 := x], e0[1 := -1][2 := x][3 := x];
    assert RunBlock(w, b, 4, e3, e0, None, [Printed(x)]) == Return(None, [Printed(x)]);
    assert [] + [Printed(x)] == [Printed(x)];
    OneOn(w, b, 3, e3, e0, [], e3, [Printed(x)]);
    OneOn(w, b, 2, e2, e0, [], e3, []);
    OneOn(w, b, 1, e1, e0, [], e2, []);
    OneOn(w, b, 0, e0, e0, [], e1, []);
    hide Exec;
    assert Run(w, f, [1], 0) == Running(0, None, e0, []);
  }

  /** An instruction that goes on to the next. */
  lemma OneOn(w: World, b: Block, i: nat, env: Env, snap: Env, trace: Trace, env': Env, trace': Trace)
    requires i < |b| && !b[i].op.IsTerminator() && Exec(w, b[i], env, snap, None, trace) == Went(env', trace')
    ensures RunBlock(w, b, i, env, snap, None, trace) == RunBlock(w, b, i + 1, env', snap, None, trace')
  {
    hide Exec;
  }
}
