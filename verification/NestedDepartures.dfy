/** Nested control flow: the SSA builder records as predecessor of a join the block where an arm
    began, whichever block the arm ends in (src/ssa_build.c:1019-1020, 1062-1063), and an assignment inside
    an inner if is forgotten. */
module NestedDepartures {
  import opened Wrappers
  import opened Ssa
  import opened Draft
  import opened DraftSeal
  import opened BuilderShapes
  import opened BuilderDepartures
  import BT = BuilderTables

  /** The beginning of  if cond {  in block `cur`; the body starts in the first of the new blocks
      (src/ssa_build.c:1023-1046). */
  function OpenIf(guarded: bool, t: BT.Tables, cur: Label, cond: Name): (r: BT.Tables)
    requires BT.Fit(t) && cur < |t.blocks|
    ensures var n := |t.blocks|;
            && BT.Fit(r) && |r.blocks| == n + 2 && !r.sealed[n] && !r.sealed[n + 1] && r.preds[n] == [cur] && r.preds[n + 1] == []
            && r.sealed[..n] == t.sealed && r.preds[..n] == t.preds
  {
    hide Linked;
    var n := |t.blocks|;
    var c := BT.Lookup(guarded, t, cur, cond);
    BT.AddPred(BT.Append(BT.AddBlock(BT.AddBlock(c.t)), cur, Inst(None, Branch(c.v, n, n + 1))), n, cur)
  }

  /** The end of an if whose body started in block `n` and ends in block `cur`: the jump is put
      where the body ends, but the join is told that it comes from where the body started. */
  function CloseIf(guarded: bool, t: BT.Tables, cur: Label, n: Label, orig: Label): (r: BT.Tables)
    requires BT.Fit(t) && cur < |t.blocks| && n + 1 < |t.blocks| && orig < n && t.preds[n] == [orig] && t.preds[n + 1] == [] && !t.sealed[n + 1]
    ensures BT.Fit(r) && |r.blocks| == |t.blocks|
    ensures r.preds == t.preds[n + 1 := [orig, n]] && r.sealed == t.sealed[n := true][n + 1 := true]
  {
    hide Linked;
    var t1 := BT.Seal(guarded, BT.Append(t, cur, Inst(None, Jump(n + 1))), n);
    assert [] + [orig] + [n] == [orig, n];
    BT.Seal(guarded, BT.AddPred(BT.AddPred(t1, n + 1, orig), n + 1, n), n + 1)
  }

  // ---- An if inside an if ----

  /** The source  fn f(c, x) { if c { if c { x = 1 } }  return x } , up to the return. */
  function NestedIfs(guarded: bool): (r: BT.Tables)
    ensures BT.Fit(r) && |r.blocks| == 5
  {
    hide Linked;
    var outer := OpenIf(guarded, BT.Start(["c", "x"]), 0, "c");
    var inner := OpenIf(guarded, outer, 1, "c");
    var v := inner.nextVreg;
    var body := BT.Note(BT.Append(BT.Number(inner), 3, Inst(Some(v), Const(1))), 3, "x", v);
    CloseIf(guarded, CloseIf(guarded, body, 3, 3, 1), 4, 1, 0)
  }

  function ReturnFound(r: BT.Hit): Func
    requires |r.t.blocks| == 5
  {
    Func(r.t.blocks[2 := r.t.blocks[2] + [Inst(None, Ret(Some(r.v)))]], 0, r.t.nextVreg, [0, 1])
  }

  function BuildNestedIfs(guarded: bool): Func {
    ReturnFound(BT.Lookup(guarded, NestedIfs(guarded), 2, "x"))
  }

  /** What is built is this function, in which the inner assignment is lost. */
  function Forgetful(): Func {
    Func([[Inst(None, Branch(0, 1, 2))], [Inst(Some(2), Phi([PhiArg(0, 0)])), Inst(None, Branch(2, 3, 4))], [Inst(None, Ret(Some(1)))],
          [Inst(Some(3), Const(1)), Inst(None, Jump(4))], [Inst(None, Jump(2))]], 0, 4, [0, 1])
  }

  /** The inner if has been opened; its condition has put PHI 2 into the outer body. */
  function InnerOpen(): BT.Tables {
    BT.Tables([[Inst(None, Branch(0, 1, 2))], [EmptyPhi(2), Inst(None, Branch(2, 3, 4))], [], [], []],
              [[], [0], [], [1], []], [true, false, false, false, false],
              [map["c" := 0, "x" := 1], map["c" := 2], map[], map[], map[]], [Incomplete("c", 2, 1)], 3, false)
  }

  /** The inner if has been closed. */
  function InnerClosed(): BT.Tables {
    BT.Tables([[Inst(None, Branch(0, 1, 2))], [EmptyPhi(2), Inst(None, Branch(2, 3, 4))], [], [Inst(Some(3), Const(1)), Inst(None, Jump(4))], []],
              [[], [0], [], [1], [1, 3]], [true, false, false, true, true],
              [map["c" := 0, "x" := 1], map["c" := 2], map[], map["x" := 3], map[]], [Incomplete("c", 2, 1)], 4, false)
  }

  /** So has the outer one: the jump to block 2 is in block 4, and block 2 expects it from block 1. */
  function OuterClosed(): BT.Tables {
    BT.Tables([[Inst(None, Branch(0, 1, 2))], [Inst(Some(2), Phi([PhiArg(0, 0)])), Inst(None, Branch(2, 3, 4))], [],
               [Inst(Some(3), Const(1)), Inst(None, Jump(4))], [Inst(None, Jump(2))]],
              [[], [0], [0, 1], [1], [1, 3]], [true, true, true, true, true],
              [map["c" := 0, "x" := 1], map["c" := 0], map[], map["x" := 3], map[]], [], 4, false)
  }

  lemma OuterOpened(guarded: bool)
    ensures OpenIf(guarded, BT.Start(["c", "x"]), 0, "c") ==
              BT.Tables([[Inst(None, Branch(0, 1, 2))], [], []], [[], [0], []], [true, false, false],
                        [map["c" := 0, "x" := 1], map[], map[]], [], 2, false)
  {
    var t := BT.Start(["c", "x"]);
    assert ["c", "x"][..1] == ["c"] && ["c"][..0] == [];
    assert ParamTable(["c"]) == map["c" := 0];
    assert t == BT.Tables([[]], [[]], [true], [map["c" := 0, "x" := 1]], [], 2, false);
    Here(guarded, t, 0, "c");
    hide BT.Lookup, BT.Start, Linked;
    var r := OpenIf(guarded, t, 0, "c");
    assert [] + [Inst(None, Branch(0, 1, 2))] == [Inst(None, Branch(0, 1, 2))] && [] + [0] == [0];
    assert r.blocks == [[Inst(None, Branch(0, 1, 2))], [], []] && r.preds == [[], [0], []];
    assert r.sealed == [true, false, false] && r.defs == [map["c" := 0, "x" := 1], map[], map[]];
  }

  lemma InnerOpened(guarded: bool, t: BT.Tables)
    requires t == BT.Tables([[Inst(None, Branch(0, 1, 2))], [], []], [[], [0], []], [true, false, false],
                            [map["c" := 0, "x" := 1], map[], map[]], [], 2, false)
    ensures BT.Fit(t) && OpenIf(guarded, t, 1, "c") == InnerOpen()
  {
    assert BT.Fit(t);
    Unsealed(guarded, t, 1, "c");
    hide BT.Lookup, Linked;
    var r := OpenIf(guarded, t, 1, "c");
    assert [EmptyPhi(2)] + [] + [Inst(None, Branch(2, 3, 4))] == [EmptyPhi(2), Inst(None, Branch(2, 3, 4))] && [] + [1] == [1];
    assert r.blocks == InnerOpen().blocks && r.preds == InnerOpen().preds;
    assert r.sealed == InnerOpen().sealed && r.defs == InnerOpen().defs && r.incomplete == InnerOpen().incomplete;
  }

  /** The PHI that waits belongs to another block. */
  lemma SealOther(guarded: bool, t: BT.Tables, b: Label)
    requires BT.Fit(t) && b < |t.blocks| && (|t.preds[b]| == 1 ==> t.preds[b][0] < b) && |t.incomplete| == 1 && t.incomplete[0].block != b && !t.sealed[b]
    ensures BT.Seal(guarded, t, b) == t.(sealed := t.sealed[b := true])
  {
    var t1 := t.(sealed := t.sealed[b := true]);
    assert BT.SealFrom(guarded, t1, b, 1) == t1;
  }

  /** The body of the inner if. */
  function InnerBody(): BT.Tables {
    var t := InnerOpen();
    t.(blocks := t.blocks[3 := [Inst(Some(3), Const(1))]], defs := t.defs[3 := map["x" := 3]], nextVreg := 4)
  }

  lemma InnerFilled()
    ensures var t := InnerOpen();
            |t.blocks| == 5 == |t.defs| && BT.Note(BT.Append(BT.Number(t), 3, Inst(Some(3), Const(1))), 3, "x", 3) == InnerBody() && BT.Fit(InnerBody())
  {
    assert [] + [Inst(Some(3), Const(1))] == [Inst(Some(3), Const(1))];
  }

  lemma InnerCloses(guarded: bool)
    ensures BT.Fit(InnerBody()) && |InnerBody().blocks| == 5 && InnerBody().preds == [[], [0], [], [1], []] && !InnerBody().sealed[4]
    ensures CloseIf(guarded, InnerBody(), 3, 3, 1) == InnerClosed()
  {
    InnerFilled();
    var t := BT.Append(InnerBody(), 3, Inst(None, Jump(4)));
    assert t.preds[3] == [1] && !t.sealed[3];
    SealOther(guarded, t, 3);
    var t1 := BT.Seal(guarded, t, 3);
    assert [] + [1] + [3] == [1, 3];
    var t2 := BT.AddPred(BT.AddPred(t1, 4, 1), 4, 3);
    assert t2.preds == [[], [0], [], [1], [1, 3]] && BT.Fit(t2);
    SealOther(guarded, t2, 4);
    hide BT.Seal, Linked;
    assert [Inst(Some(3), Const(1))] + [Inst(None, Jump(4))] == [Inst(Some(3), Const(1)), Inst(None, Jump(4))];
    assert t2.blocks == InnerClosed().blocks && t2.sealed[4 := true] == InnerClosed().sealed && t2.defs == InnerClosed().defs;
  }

  /** The outer body when it is sealed: its PHI has one operand, the parameter. */
  lemma OuterCompleted(guarded: bool, t: BT.Tables)
    requires BT.Fit(t) && |t.blocks| == 5 && t.preds[1] == [0] && t.incomplete == [Incomplete("c", 2, 1)] && t.blocks[1] == [EmptyPhi(2), Inst(None, Branch(2, 3, 4))]
    requires t.defs[0] == map["c" := 0, "x" := 1] && t.defs[1] == map["c" := 2]
    ensures BT.Complete(guarded, t, 0) ==
              BT.Cursor(t.(incomplete := [], defs := t.defs[1 := map["c" := 0]],
                           blocks := t.blocks[1 := [Inst(Some(2), Phi([PhiArg(0, 0)])), Inst(None, Branch(2, 3, 4))]]), 0)
  {
    hide BT.LookupAll, BT.Lookup, BT.Store, BT.Unlink, Linked;
    var p := Incomplete("c", 2, 1);
    OneLookup(guarded, t);
    OuterStored(t);
    assert BT.PhiPlace(t.blocks[1], 2) == 0;
    hide BT.PhiPlace;
    assert BT.CompleteAt(guarded, t, 0, 0) == BT.Unlink(guarded, BT.Store(t, p, 0, [0]), 0, 0);
    LastUnlinked(guarded, BT.Store(t, p, 0, [0]));
  }

  lemma OneLookup(guarded: bool, t: BT.Tables)
    requires BT.Fit(t) && |t.blocks| == 5 && t.preds[1] == [0] && t.defs[0] == map["c" := 0, "x" := 1]
    ensures BT.LookupAll(guarded, t, 1, "c", 1) == BT.Hits(t, [0])
  {
    hide BT.LookupAll, BT.Lookup, Linked;
    BT.NoPreds(guarded, t, 1, "c");
    BT.OnePredMore(guarded, t, 1, "c", 0);
    Here(guarded, t, 0, "c");
    assert [] + [0] == [0];
  }

  lemma LastUnlinked(guarded: bool, t: BT.Tables)
    requires |t.incomplete| == 1
    ensures BT.Unlink(guarded, t, 0, 0) == BT.Cursor(t.(incomplete := []), 0)
  {
  }

  lemma OuterStored(t: BT.Tables)
    requires |t.blocks| == 5 == |t.preds| && |t.defs| == 5 && t.preds[1] == [0] && t.blocks[1] == [EmptyPhi(2), Inst(None, Branch(2, 3, 4))]
    requires t.defs[1] == map["c" := 2]
    ensures BT.Store(t, Incomplete("c", 2, 1), 0, [0]) ==
              t.(defs := t.defs[1 := map["c" := 0]], blocks := t.blocks[1 := [Inst(Some(2), Phi([PhiArg(0, 0)])), Inst(None, Branch(2, 3, 4))]])
  {
    assert PhiArgs([0], [0]) == [PhiArg(0, 0)] && AllSame([0]);
    var phi := Inst(Some(2), Phi([PhiArg(0, 0)]));
    assert t.blocks[1][0 := phi] == [phi, Inst(None, Branch(2, 3, 4))];
    var d: map<Name, VReg> := map["c" := 2];
    assert d["c" := 0] == map["c" := 0];
  }

  lemma OuterSealed(guarded: bool)
    ensures var t := BT.Append(InnerClosed(), 4, Inst(None, Jump(2)));
            BT.Fit(t) && t.preds[1] == [0] && BT.Seal(guarded, t, 1) == OuterClosed().(preds := InnerClosed().preds, sealed := [true, true, false, true, true])
  {
    var t := BT.Append(InnerClosed(), 4, Inst(None, Jump(2)));
    assert BT.Fit(t) && !t.sealed[1];
    var t1 := t.(sealed := t.sealed[1 := true]);
    assert [] + [Inst(None, Jump(2))] == [Inst(None, Jump(2))];
    OuterCompleted(guarded, t1);
    hide BT.Complete, Linked;
    var u := BT.Complete(guarded, t1, 0);
    assert BT.SealFrom(guarded, t1, 1, 0) == u.t;
    assert u.t.blocks == OuterClosed().blocks && u.t.defs == OuterClosed().defs && u.t.sealed == [true, true, false, true, true];
  }

  lemma OuterCloses(guarded: bool)
    ensures BT.Fit(InnerClosed()) && |InnerClosed().blocks| == 5 && InnerClosed().preds == [[], [0], [], [1], [1, 3]] && !InnerClosed().sealed[2]
    ensures CloseIf(guarded, InnerClosed(), 4, 1, 0) == OuterClosed()
  {
    assert BT.Fit(InnerClosed());
    OuterSealed(guarded);
    hide BT.Seal, Linked;
    OuterJoined(guarded, BT.Seal(guarded, BT.Append(InnerClosed(), 4, Inst(None, Jump(2))), 1));
  }

  lemma OuterJoined(guarded: bool, t: BT.Tables)
    requires t == OuterClosed().(preds := InnerClosed().preds, sealed := [true, true, false, true, true]) && BT.Fit(t)
    ensures var u := BT.AddPred(BT.AddPred(t, 2, 0), 2, 1); BT.Fit(u) && |u.preds[2]| == 2 && BT.Seal(guarded, u, 2) == OuterClosed()
  {
    hide Linked;
    assert [] + [0] + [1] == [0, 1];
    var u := BT.AddPred(BT.AddPred(t, 2, 0), 2, 1);
    assert u.preds == OuterClosed().preds;
    SealQuiet(guarded, u, 2);
    assert u.sealed[2 := true] == OuterClosed().sealed;
  }

  lemma NestedIfsAre(guarded: bool)
    ensures NestedIfs(guarded) == OuterClosed()
  {
    hide OpenIf, CloseIf, BT.Start, InnerOpen, InnerClosed, InnerBody, OuterClosed, Linked;
    OuterOpened(guarded);
    InnerOpened(guarded, OpenIf(guarded, BT.Start(["c", "x"]), 0, "c"));
    assert InnerOpen().nextVreg == 3 by { NextIs(); }
    InnerFilled();
    InnerCloses(guarded);
    OuterCloses(guarded);
  }

  lemma NextIs()
    ensures InnerOpen().nextVreg == 3
  {
  }

  /** Reading `x` at the join finds the parameter on both recorded sides. */
  lemma ForgetfulRead(guarded: bool)
    ensures BT.Fit(OuterClosed()) && |OuterClosed().blocks| == 5
    ensures var r := BT.Lookup(guarded, OuterClosed(), 2, "x"); r.v == 1 && r.t.blocks == OuterClosed().blocks && r.t.nextVreg == 4
  {
    var t := OuterClosed();
    assert BT.Fit(t) && t.preds[2] == [0, 1];
    Merge(guarded, t, 2, "x");
    var o := BT.Open(t, 2, "x");
    assert o.defs[0] == map["c" := 0, "x" := 1] && o.defs[1] == map["c" := 0] && o.preds[1] == [0];
    hide BT.Lookup, BT.LookupAll, BT.Settle, BT.GivesBack;
    Here(guarded, o, 0, "x");
    Through(guarded, o, 1, "x");
    var t1 := BT.Note(o, 1, "x", 1);
    Agreed(guarded, t1, 2, "x", 4, 1);
  }

  lemma BuildNestedIfsIs(guarded: bool)
    ensures BuildNestedIfs(guarded) == Forgetful()
  {
    hide NestedIfs, OuterClosed, Forgetful, BT.Lookup, ReturnFound;
    NestedIfsAre(guarded);
    ForgetfulRead(guarded);
    ForgetfulIs(BT.Lookup(guarded, OuterClosed(), 2, "x"));
  }

  lemma ForgetfulIs(r: BT.Hit)
    requires r.v == 1 && r.t.blocks == OuterClosed().blocks && r.t.nextVreg == 4
    ensures |r.t.blocks| == 5 && ReturnFound(r) == Forgetful()
  {
    assert [] + [Inst(None, Ret(Some(1)))] == [Inst(None, Ret(Some(1)))];
    assert r.t.blocks[2 := [Inst(None, Ret(Some(1)))]] == Forgetful().blocks;
  }

  /** An if inside an if.  Both builders forget the assignment: called with 1 and 0, the program
      sets `x` to 1 on its way and returns 0. */
  lemma NestedIfForgets(guarded: bool, w: World)
    ensures BuildNestedIfs(guarded) == Forgetful()
    ensures Run(w, Forgetful(), [1, 0], 3) == Running(4, Some(3), map[0 := 1, 1 := 0, 2 := 1, 3 := 1], [])
    ensures Run(w, Forgetful(), [1, 0], 5) == Finished(Some(0), [])
  {
    hide BuildNestedIfs, Run;
    BuildNestedIfsIs(guarded);
    ForgetfulRuns(w);
  }

  lemma ForgetfulRuns(w: World)
    ensures Run(w, Forgetful(), [1, 0], 3) == Running(4, Some(3), map[0 := 1, 1 := 0, 2 := 1, 3 := 1], [])
    ensures Run(w, Forgetful(), [1, 0], 5) == Finished(Some(0), [])
  {
    var f := Forgetful();
    var e0: Env := map[0 := 1, 1 := 0];
    var e2 := e0[2 := 1];
    var e3 := e2[3 := 1];
    assert Bind([0, 1], [1, 0]) == e0 by {
      assert Bind([], []) == map[];
      assert [0, 1][..1] == [0] && [0][..0] == [] && [1, 0][..1] == [1] && [1][..0] == [];
      assert [0, 1][1..] == [1] && [1][1..] == [] && [1, 0][1..] == [0] && [0][1..] == [];
    }
    ForgetfulBlocks(w, e0);
    hide RunBlock, Forgetful;
    assert Run(w, f, [1, 0], 0) == Running(0, None, e0, []);
    assert Run(w, f, [1, 0], 1) == Running(1, Some(0), e0, []);
    assert Run(w, f, [1, 0], 2) == Running(3, Some(1), e2, []);
    assert Run(w, f, [1, 0], 3) == Running(4, Some(3), e3, []);
    assert Run(w, f, [1, 0], 4) == Running(2, Some(4), e3, []);
  }

  lemma ForgetfulBlocks(w: World, e0: Env)
    requires e0 == map[0 := 1, 1 := 0]
    ensures var bs, e2, e3 := Forgetful().blocks, e0[2 := 1], e0[2 := 1][3 := 1];
            && Forgetful().entry == 0 && Forgetful().params == [0, 1] && |bs| == 5
            && RunBlock(w, bs[0], 0, e0, e0, None, []) == Goto(1, e0, [])
            && RunBlock(w, bs[1], 0, e0, e0, Some(0), []) == Goto(3, e2, [])
            && RunBlock(w, bs[3], 0, e2, e2, Some(1), []) == Goto(4, e3, [])
            && RunBlock(w, bs[4], 0, e3, e3, Some(3), []) == Goto(2, e3, [])
            && RunBlock(w, bs[2], 0, e3, e3, Some(4), []) == Return(Some(0), [])
  {
    var bs, e2, e3 := Forgetful().blocks, e0[2 := 1], e0[2 := 1][3 := 1];
    assert RunBlock(w, bs[1], 0, e0, e0, Some(0), []) == RunBlock(w, bs[1], 1, e2, e0, Some(0), []);
    assert RunBlock(w, bs[3], 0, e2, e2, Some(1), []) == RunBlock(w, bs[3], 1, e3, e2, Some(1), []);
  }
}
