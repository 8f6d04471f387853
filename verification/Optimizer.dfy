/** The -O2 sequence of src/main.c:244-265 and the check that follows it. */
module Optimizer {
  import opened Ssa
  import opened SsaVerify
  import opened StrictSsa
  import Rename
  import ConstFold
  import FoldConditions
  import Dce
  import CopyProp
  import Sccp
  import Cse
  import CseLeaders

  ghost predicate NoGep(f: Func) {
    forall b, i :: f.Has(b, i) ==> !f.At(b, i).op.Gep?
  }

  /** What the optimiser is given: strict SSA without address arithmetic, in which every
      block can be reached. */
  ghost predicate Input(f: Func) {
    Sound(f) && AllReachable(f) && NoGep(f)
  }

  // ---- What each pass hands to the next ----

  lemma SimplifiesNoGep(f: Func, g: Func)
    requires Simplifies(f, g) && NoGep(f)
    ensures NoGep(g)
  {
    forall b, i | g.Has(b, i) ensures !g.At(b, i).op.Gep? {
      assert f.Has(b, i) && SimplerInst(f.At(b, i), g.At(b, i));
    }
  }

  lemma SimplifiesLocalOrder(f: Func, g: Func)
    requires Simplifies(f, g) && Cse.LocalOrder(f)
    ensures Cse.LocalOrder(g)
  {
    forall b, i, j | g.Has(b, i) && g.Has(b, j) && i <= j && !g.At(b, i).op.Phi? && g.At(b, j).dst.Some?
      ensures !Reads(g.At(b, i).op, g.At(b, j).dst.value)
    {
      assert f.Has(b, i) && SimplerInst(f.At(b, i), g.At(b, i));
      assert f.Has(b, j) && SimplerInst(f.At(b, j), g.At(b, j));
    }
  }

  lemma RenamesNoGep(f: Func, g: Func)
    requires Rename.Renames(f, g, {}) && NoGep(f)
    ensures NoGep(g)
  {
    forall b, i | g.Has(b, i) ensures !g.At(b, i).op.Gep? {
      assert f.Has(b, i) && Rename.Renamed(f, f.At(b, i).op, g.At(b, i).op);
    }
  }

  lemma DceNoGep(f: Func, n: nat)
    requires NoGep(f)
    ensures NoGep(Dce.DceIter(f, n))
  {
    if n > 0 {
      DceNoGep(f, n - 1);
      var g := Dce.DceIter(f, n - 1);
      forall b, i | Dce.DceOnce(g).Has(b, i) ensures !Dce.DceOnce(g).At(b, i).op.Gep? {
        assert g.Has(b, Dce.Org(g, b, i));
      }
    }
  }

  lemma NoGepIsClear(f: Func)
    requires NoGep(f)
    ensures CseLeaders.GepsClear(f)
  {
  }

  // ---- The stages ----

  /** Constant folding keeps the input conditions, and meaning if it stays clean. */
  lemma FoldStage(f: Func)
    requires Input(f)
    ensures Input(ConstFold.FoldFunc(f))
    ensures FoldConditions.FoldSafe(f) ==> Refines(f, ConstFold.FoldFunc(f))
  {
    hide Refines, ConstFold.FoldFunc, FoldConditions.FoldSafe;
    var g := ConstFold.FoldFunc(f);
    ConstFold.FoldCorrect(f);
    if FoldConditions.FoldSafe(f) {
      FoldConditions.SafeFoldCorrect(f);
    }
    SimplifiesSound(f, g);
    SimplifiesNoGep(f, g);
    SameTerminatorsGraph(f, g);
    SameGraphReachable(f, g);
  }

  lemma DceStage(f: Func, n: nat)
    requires Input(f)
    ensures Input(Dce.DceIter(f, n)) && Refines(f, Dce.DceIter(f, n))
  {
    hide Refines, Dce.DceIter, Sound, AllReachable, NoGep;
    Dce.DceIterCorrect(f, n);
    DceNoGep(f, n);
  }

  lemma CopyStage(f: Func, g: Func)
    requires Input(f) && CopyProp.Propagated(f, g)
    ensures Input(g) && Refines(f, g)
  {
    hide Refines, Sound, AllReachable, NoGep;
    RenamesNoGep(f, g);
    Rename.RenamesGraph(f, g, {});
    SameGraphReachable(f, g);
  }

  /** From here on blocks may become unreachable, but their instructions keep the order
      they had. */
  ghost predicate Late(f: Func) {
    Sound(f) && Cse.LocalOrder(f) && NoGep(f)
  }

  lemma SccpStage(f: Func, g: Func)
    requires Input(f) && Simplifies(f, g)
    ensures Late(g)
  {
    hide Refines, NoGep, AllReachable;
    assert Cse.LocalOrder(f) by {
      assert forall b: Label :: b < |f.blocks| ==> Reachable(f, b) by { EveryBlock(f); }
      Cse.StrictGivesLocalOrder(f);
    }
    SimplifiesSound(f, g);
    SimplifiesLocalOrder(f, g);
    SimplifiesNoGep(f, g);
  }

  lemma EveryBlock(f: Func)
    requires AllReachable(f)
    ensures forall b: Label :: b < |f.blocks| ==> Reachable(f, b)
  {
  }

  lemma CseStage(f: Func)
    requires Late(f)
    ensures Sound(Cse.CseFunc(f)) && Refines(f, Cse.CseFunc(f))
  {
    hide Sound, Refines, Cse.CseFunc, Cse.LocalOrder;
    NoGepIsClear(f);
    CseLeaders.CseCorrect(f);
  }

  lemma LastDceStage(f: Func, n: nat)
    requires Sound(f)
    ensures Accepts(Dce.DceIter(f, n)) && Refines(f, Dce.DceIter(f, n))
  {
    Dce.DceIterCorrect(f, n);
  }

  // ---- The sequence ----

  /** What dead-code elimination does: up to ten rounds, after which nothing dead is left unless
      each of the ten removed something. */
  ghost predicate Eliminated(f: Func, g: Func) {
    && (exists n: nat :: n <= 10 && g == Dce.DceIter(f, n))
    && (Dce.NothingDead(g) || Dce.Count(g.blocks) + 10 <= Dce.Count(f.blocks))
  }

  /** What SCCP does: constants and decided branches rewritten along the greatest fixpoint, when
      the cap on passes is out of reach. */
  ghost predicate Propagated(f: Func, g: Func) {
    && Simplifies(f, g)
    && (2 * g.nextVreg + 2 <= 1000 ==> exists L :: Sccp.Greatest(f, L) && Sccp.IsRewrite(f, L, g))
  }

  /** Folding, dead-code elimination, copy propagation, SCCP, CSE and dead-code elimination
      again, in this order. */
  ghost predicate InOrder(f: Func, f1: Func, f2: Func, f3: Func, f4: Func, f5: Func, g: Func) {
    && f1 == ConstFold.FoldFunc(f) && Eliminated(f1, f2) && CopyProp.Propagated(f2, f3)
    && Propagated(f3, f4) && f5 == Cse.CseFunc(f4) && Eliminated(f5, g)
  }

  /** The verifier accepts what the optimiser makes of any input, and the result means the
      same provided no sweep of the folder comes to x + 0, x - 0 or x * 1 with x unknown, and
      SCCP's cap is out of reach. */
  method OptimizeO2(func: SsaFunc) returns (ok: bool)
    requires Input(func.Value())
    modifies func
    ensures ok && Accepts(func.Value())
    ensures exists f1, f2, f3, f4, f5 :: InOrder(old(func.Value()), f1, f2, f3, f4, f5, func.Value())
    ensures FoldConditions.FoldSafe(old(func.Value())) && 2 * func.Value().nextVreg + 2 <= 1000 ==>
              Refines(old(func.Value()), func.Value())
  {
    hide *;
    ghost var f0 := func.Value();
    assert SingleDef(f0) && InBounds(f0) by { InputReady(f0); }
    ConstFold.OptConstFold(func);
    ghost var f1 := func.Value();
    FoldStage(f0);
    assert SingleDef(f1) && InBounds(f1) by { InputReady(f1); }
    Dce.OptDce(func);
    ghost var f2 := func.Value();
    ghost var n: nat :| n <= 10 && f2 == Dce.DceIter(f1, n);
    DceStage(f1, n);
    assert SingleDef(f2) && InBounds(f2) by { InputReady(f2); }
    CopyProp.OptCopyProp(func);
    ghost var f3 := func.Value();
    CopyStage(f2, f3);
    assert SingleDef(f3) && InBounds(f3) by { InputReady(f3); }
    assert Sccp.Ready(f3) by { SccpReady(f3); }
    Sccp.OptSccp(func);
    ghost var f4 := func.Value();
    NextIs(func);
    SccpStage(f3, f4);
    assert SingleDef(f4) && Cse.LocalOrder(f4) by { LateReady(f4); }
    Cse.OptCse(func);
    ghost var f5 := func.Value();
    CseStage(f4);
    assert InBounds(f5) by { SoundReady(f5); }
    Dce.OptDce(func);
    ghost var f6 := func.Value();
    ghost var m: nat :| m <= 10 && f6 == Dce.DceIter(f5, m);
    LastDceStage(f5, m);
    assert InOrder(f0, f1, f2, f3, f4, f5, f6) by {
      EliminatedIs(f1, f2, n);
      EliminatedIs(f5, f6, m);
      PropagatedIs(f3, f4);
      OrderIs(f0, f1, f2, f3, f4, f5, f6);
    }
    NextIs(func);
    ok := VerifyFunc(func);
    if FoldConditions.FoldSafe(f0) && 2 * func.Value().nextVreg + 2 <= 1000 {
      RefinesTransitive(f0, f1, f2);
      RefinesTransitive(f0, f2, f3);
      RefinesTransitive(f0, f3, f4);
      RefinesTransitive(f0, f4, f5);
      RefinesTransitive(f0, f5, f6);
    }
  }

  lemma NextIs(func: SsaFunc)
    ensures func.Value().nextVreg == func.nextVreg
  {
  }

  lemma EliminatedIs(f: Func, g: Func, n: nat)
    requires n <= 10 && g == Dce.DceIter(f, n) && (Dce.NothingDead(g) || Dce.Count(g.blocks) + 10 <= Dce.Count(f.blocks))
    ensures Eliminated(f, g)
  {
    hide Dce.DceIter, Dce.NothingDead, Dce.Count;
  }

  lemma PropagatedIs(f: Func, g: Func)
    requires Simplifies(f, g) && (2 * g.nextVreg + 2 <= 1000 ==> exists L :: Sccp.Greatest(f, L) && Sccp.IsRewrite(f, L, g))
    ensures Propagated(f, g)
  {
    hide Simplifies, Sccp.Greatest, Sccp.IsRewrite;
  }

  lemma OrderIs(f: Func, f1: Func, f2: Func, f3: Func, f4: Func, f5: Func, g: Func)
    requires f1 == ConstFold.FoldFunc(f) && Eliminated(f1, f2) && CopyProp.Propagated(f2, f3)
    requires Propagated(f3, f4) && f5 == Cse.CseFunc(f4) && Eliminated(f5, g)
    ensures InOrder(f, f1, f2, f3, f4, f5, g)
  {
    hide Eliminated, Propagated, CopyProp.Propagated, ConstFold.FoldFunc, Cse.CseFunc;
  }

  lemma InputReady(f: Func)
    requires Input(f)
    ensures SingleDef(f) && InBounds(f)
  {
  }

  lemma SccpReady(f: Func)
    requires SingleDef(f) && InBounds(f)
    ensures Sccp.Ready(f)
  {
  }

  lemma LateReady(f: Func)
    requires Late(f)
    ensures SingleDef(f) && Cse.LocalOrder(f)
  {
  }

  lemma SoundReady(f: Func)
    requires Sound(f)
    ensures InBounds(f)
  {
  }
}
