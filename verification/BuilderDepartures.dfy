/** Two source programs on which the SSA builder as written goes wrong
    (src/ssa_build.c:290-294, 431), followed call by call from the empty entry block, and what
    the guarded builder makes of them. */
module BuilderDepartures {
  import opened Wrappers
  import opened Word64
  import opened Ssa
  import opened Draft
  import opened DraftSeal
  import opened BuilderShapes
  import DraftRead
  import Hir
  import BT = BuilderTables

  // ---- The calls made for a statement ----

  function ThreeBlocks(t: BT.Tables): (r: BT.Tables)
    ensures BT.Fit(t) ==> BT.Fit(r)
    ensures r == t.(blocks := t.blocks + [[], [], []], preds := t.preds + [[], [], []], sealed := t.sealed + [false, false, false],
                    defs := t.defs + [map[], map[], map[]])
  {
    hide Linked;
    var r := BT.AddBlock(BT.AddBlock(BT.AddBlock(t)));
    assert r.blocks == t.blocks + [[], [], []] && r.preds == t.preds + [[], [], []];
    assert r.sealed == t.sealed + [false, false, false] && r.defs == t.defs + [map[], map[], map[]];
    r
  }

  /** An arm `{ x = value }` that then jumps to `join`. */
  function Arm(guarded: bool, t: BT.Tables, b: Label, pred: Label, x: Name, value: Int64, join: Label): (r: BT.Tables)
    requires BT.Fit(t) && pred < b < |t.blocks| && !t.sealed[b] && t.preds[b] == []
    ensures BT.Fit(r) && |r.blocks| == |t.blocks| && r.preds == t.preds[b := [pred]] && r.sealed == t.sealed[b := true]
  {
    hide Linked;
    var t1 := BT.AddPred(t, b, pred);
    assert t.preds[b] + [pred] == [pred];
    var t2 := BT.Append(BT.Number(t1), b, Inst(Some(t1.nextVreg), Const(value)));
    BT.Seal(guarded, BT.Append(BT.Note(t2, b, x, t1.nextVreg), b, Inst(None, Jump(join))), b)
  }

  /** The statement  if cond { x = k } else { y = l }  in block `cur`; the join is the third of
      the new blocks (src/ssa_build.c:946-1022). */
  function IfElse(guarded: bool, t: BT.Tables, cur: Label, cond: Name, x: Name, k: Int64, y: Name, l: Int64): (r: BT.Tables)
    requires BT.Fit(t) && cur < |t.blocks|
    ensures BT.Fit(r) && |r.blocks| == |t.blocks| + 3
  {
    ForkOn(guarded, BT.Lookup(guarded, t, cur, cond), cur, x, k, y, l)
  }

  /** The same, once the condition is in a register. */
  function ForkOn(guarded: bool, c: BT.Hit, cur: Label, x: Name, k: Int64, y: Name, l: Int64): (r: BT.Tables)
    requires BT.Fit(c.t) && cur < |c.t.blocks|
    ensures BT.Fit(r) && |r.blocks| == |c.t.blocks| + 3
  {
    hide Linked;
    var n := |c.t.blocks|;
    var t1 := BT.Append(ThreeBlocks(c.t), cur, Inst(None, Branch(c.v, n, n + 1)));
    var t2 := Arm(guarded, t1, n, cur, x, k, n + 2);
    var t3 := Arm(guarded, t2, n + 1, cur, y, l, n + 2);
    BT.Seal(guarded, BT.AddPred(BT.AddPred(t3, n + 2, n), n + 2, n + 1), n + 2)
  }

  /** The statement  while cond { }  in block `cur` (src/ssa_build.c:1069-1137). */
  function EmptyWhile(guarded: bool, t: BT.Tables, cur: Label, cond: Name): (r: BT.Tables)
    requires BT.Fit(t) && cur < |t.blocks|
    ensures BT.Fit(r) && |r.blocks| == |t.blocks| + 3
  {
    hide Linked;
    var n := |t.blocks|;
    var t1 := HeaderDue(guarded, t, cur, cond);
    var t2 := BT.Seal(guarded, BT.Seal(guarded, t1, n), n + 1);
    BT.Seal(guarded, BT.AddPred(t2, n + 2, n), n + 2)
  }

  /** The loop when its header is about to be sealed. */
  function HeaderDue(guarded: bool, t: BT.Tables, cur: Label, cond: Name): (r: BT.Tables)
    requires BT.Fit(t) && cur < |t.blocks|
    ensures var n := |t.blocks|;
            && BT.Fit(r) && |r.blocks| == n + 3 && !r.sealed[n] && !r.sealed[n + 1] && !r.sealed[n + 2]
            && r.preds[n] == [cur, n + 1] && r.preds[n + 1] == [n] && r.preds[n + 2] == []
  {
    LoopOn(BT.Lookup(guarded, EnterLoop(t, cur), |t.blocks|, cond), |t.blocks|, cur)
  }

  /** The header's branch and the empty body, once the condition is in a register. */
  function LoopOn(c: BT.Hit, n: Label, cur: Label): (r: BT.Tables)
    requires BT.Fit(c.t) && |c.t.blocks| == n + 3 && cur < n && c.t.preds[n] == [cur] && c.t.preds[n + 1] == [] && c.t.preds[n + 2] == []
    requires !c.t.sealed[n] && !c.t.sealed[n + 1] && !c.t.sealed[n + 2]
    ensures BT.Fit(r) && |r.blocks| == n + 3 && r.sealed == c.t.sealed
    ensures r.preds[n] == [cur, n + 1] && r.preds[n + 1] == [n] && r.preds[n + 2] == []
  {
    hide Linked;
    assert [] + [n] == [n] && [cur] + [n + 1] == [cur, n + 1];
    var t := BT.AddPred(BT.Append(c.t, n, Inst(None, Branch(c.v, n + 1, n + 2))), n + 1, n);
    BT.AddPred(BT.Append(t, n + 1, Inst(None, Jump(n))), n, n + 1)
  }

  /** The jump to the header, which is then the current block. */
  function EnterLoop(t: BT.Tables, cur: Label): (r: BT.Tables)
    requires BT.Fit(t) && cur < |t.blocks|
    ensures var n := |t.blocks|;
            && BT.Fit(r) && |r.blocks| == n + 3 && r.preds == t.preds + [[cur], [], []] && r.sealed == t.sealed + [false, false, false]
  {
    hide Linked;
    var n := |t.blocks|;
    var r := BT.AddPred(BT.Append(ThreeBlocks(t), cur, Inst(None, Jump(n))), n, cur);
    assert [] + [cur] == [cur];
    assert r.preds == t.preds + [[cur], [], []];
    r
  }

  // ---- Lookups and seals, case by case ----

  lemma Here(guarded: bool, t: BT.Tables, b: Label, x: Name)
    requires BT.Fit(t) && b < |t.blocks| && x in t.defs[b]
    ensures BT.Lookup(guarded, t, b, x) == BT.Hit(t, t.defs[b][x])
  {
  }

  lemma Unsealed(guarded: bool, t: BT.Tables, b: Label, x: Name)
    requires BT.Fit(t) && b < |t.blocks| && x !in t.defs[b] && !t.sealed[b]
    ensures BT.Lookup(guarded, t, b, x) == BT.Park(t, b, x)
  {
  }

  lemma Through(guarded: bool, t: BT.Tables, b: Label, x: Name)
    requires BT.Fit(t) && b < |t.blocks| && x !in t.defs[b] && t.sealed[b] && |t.preds[b]| == 1
    ensures var r := BT.Lookup(guarded, t, t.preds[b][0], x); BT.Lookup(guarded, t, b, x) == BT.Hit(BT.Note(r.t, b, x, r.v), r.v)
  {
  }

  lemma Both(guarded: bool, t: BT.Tables, b: Label, x: Name)
    requires BT.Fit(t) && b < |t.blocks| && |t.preds[b]| == 2
    ensures var l := BT.Lookup(guarded, t, t.preds[b][0], x); var r := BT.Lookup(guarded, l.t, t.preds[b][1], x);
            BT.LookupAll(guarded, t, b, x, 2) == BT.Hits(r.t, [l.v, r.v])
  {
    BT.OnePredMore(guarded, t, b, x, 0);
    BT.OnePredMore(guarded, t, b, x, 1);
    BT.NoPreds(guarded, t, b, x);
    hide BT.Lookup, BT.LookupAll;
    var l := BT.Lookup(guarded, t, t.preds[b][0], x);
    assert [] + [l.v] == [l.v];
  }

  lemma Merge(guarded: bool, t: BT.Tables, b: Label, x: Name)
    requires BT.Fit(t) && b < |t.blocks| && x !in t.defs[b] && t.sealed[b] && |t.preds[b]| == 2
    ensures BT.Fit(BT.Open(t, b, x))
    ensures var o := BT.Open(t, b, x);
            var l := BT.Lookup(guarded, o, t.preds[b][0], x); var r := BT.Lookup(guarded, l.t, t.preds[b][1], x);
            BT.Lookup(guarded, t, b, x) == BT.Settle(guarded, r.t, b, x, t.nextVreg, [l.v, r.v])
  {
    Both(guarded, BT.Open(t, b, x), b, x);
    hide BT.LookupAll, BT.Settle;
  }

  /** Both sides agree and nothing was numbered meanwhile: the PHI is given up, guarded or not. */
  lemma Agreed(guarded: bool, t: BT.Tables, b: Label, x: Name, phi: VReg, v: VReg)
    requires b < |t.blocks| && b < |t.defs| && b < |t.preds| && |t.preds[b]| == 2 && t.nextVreg == phi + 1 && v != phi
    ensures BT.Settle(guarded, t, b, x, phi, [v, v]) == BT.Hit(BT.Note(t, b, x, v).(nextVreg := phi), v)
  {
    assert AllSame([v, v]);
  }

  lemma SealQuiet(guarded: bool, t: BT.Tables, b: Label)
    requires BT.Fit(t) && b < |t.blocks| && (|t.preds[b]| == 1 ==> t.preds[b][0] < b) && t.incomplete == [] && !t.sealed[b]
    ensures BT.Seal(guarded, t, b) == t.(sealed := t.sealed[b := true])
  {
  }

  // ---- A number is taken back although more were handed out ----

  /** The source  fn f(c, x, y) { if c { x = 5 } else { y = 1 }  if c { y = 2 } else { y = 3 }  return x + 7 } . */
  function TwoIfsFn(): Hir.Fn {
    Hir.Fn(["c", "x", "y"],
           [Hir.If(Hir.Ident("c"), [Hir.Assign("x", Hir.IntLit(5))], Some([Hir.Assign("y", Hir.IntLit(1))])),
            Hir.If(Hir.Ident("c"), [Hir.Assign("y", Hir.IntLit(2))], Some([Hir.Assign("y", Hir.IntLit(3))]))],
           Hir.Returns(Some(Hir.Binary(Add, Hir.Ident("x"), Hir.IntLit(7)))))
  }

  lemma TwoIfsMeans(w: World)
    ensures Hir.FnLowerable(TwoIfsFn()) && Hir.RunFn(w, TwoIfsFn(), [1, 0, 0], 0) == Hir.Returned(Some(12), [])
  {
    var fn := TwoIfsFn();
    var s0: Hir.Store := map["c" := 1, "x" := 0, "y" := 0];
    assert Hir.ParamStore(fn.params, [1, 0, 0]) == s0 by {
      assert fn.params[..2] == ["c", "x"] && ["c", "x"][..1] == ["c"] && ["c"][..0] == [];
      assert [1, 0, 0][..2] == [1, 0] && [1, 0][..1] == [1] && [1][..0] == [];
    }
    var s1, s2 := s0["x" := 5], s0["x" := 5]["y" := 2];
    OneAssign(w, "x", 5, s0);
    OneAssign(w, "y", 2, s1);
    assert fn.body[..1][..0] == [] && fn.body[..1][0] == fn.body[0];
    hide Hir.ExecAll;
    assert Hir.ExecStmts(w, [], s0, [], 0) == Hir.Normal(s0, []);
    assert Hir.ExecStmts(w, fn.body[..1], s0, [], 0) == Hir.Normal(s1, []);
    assert Hir.ExecStmts(w, fn.body, s0, [], 0) == Hir.Normal(s2, []);
    hide Hir.ExecStmts;
    assert EvalBinop(Add, 5, 7) == Some(12);
    var e := fn.tail.value.value;
    assert Hir.EvalE(w, e.left, s2, []) == Hir.Gives(5, []);
    assert Hir.EvalE(w, e.right, s2, []) == Hir.Gives(7, []);
    assert Hir.EvalE(w, e, s2, []) == Hir.Gives(12, []);
  }

  lemma OneAssign(w: World, x: Name, value: Int64, s: Hir.Store)
    ensures Hir.ExecAll(w, [Hir.Assign(x, Hir.IntLit(value))], s, []) == Hir.Normal(s[x := value], [])
  {
    var ss := [Hir.Assign(x, Hir.IntLit(value))];
    assert ss[..0] == [];
    assert Hir.ExecAll(w, ss[..0], s, []) == Hir.Normal(s, []);
  }

  const PARAMS: map<Name, VReg> := map["c" := 0, "x" := 1, "y" := 2]

  function AtStart(): BT.Tables {
    BT.Start(["c", "x", "y"])
  }

  /** The first if has been built; `c` has been looked up at its join or not yet. */
  function FirstIf(): BT.Tables {
    BT.Tables(
      [[Inst(None, Branch(0, 1, 2))], [Inst(Some(3), Const(5)), Inst(None, Jump(3))], [Inst(Some(4), Const(1)), Inst(None, Jump(3))], []],
      [[], [0], [0], [1, 2]],
      [true, true, true, true],
      [PARAMS, map["x" := 3], map["y" := 4], map[]],
      [], 5, false)
  }

  /** Both have. */
  function SecondIf(): BT.Tables {
    BT.Tables(
      [[Inst(None, Branch(0, 1, 2))], [Inst(Some(3), Const(5)), Inst(None, Jump(3))], [Inst(Some(4), Const(1)), Inst(None, Jump(3))],
       [Inst(None, Branch(0, 4, 5))], [Inst(Some(5), Const(2)), Inst(None, Jump(6))], [Inst(Some(6), Const(3)), Inst(None, Jump(6))], []],
      [[], [0], [0], [1, 2], [3], [3], [4, 5]],
      [true, true, true, true, true, true, true],
      [PARAMS, map["x" := 3, "c" := 0], map["y" := 4, "c" := 0], map["c" := 0], map["y" := 5], map["y" := 6], map[]],
      [], 7, false)
  }

  lemma StartIs()
    ensures AtStart() == BT.Tables([[]], [[]], [true], [PARAMS], [], 3, false)
  {
    assert ["c", "x", "y"][..2] == ["c", "x"] && ["c", "x"][..1] == ["c"] && ["c"][..0] == [];
    assert ParamTable(["c"]) == map["c" := 0];
    assert ParamTable(["c", "x"]) == map["c" := 0, "x" := 1];
  }

  /** What an arm leaves when no PHI waits. */
  lemma ArmIs(guarded: bool, t: BT.Tables, b: Label, pred: Label, x: Name, value: Int64, join: Label)
    requires BT.Fit(t) && pred < b < |t.blocks| && !t.sealed[b] && t.preds[b] == [] && t.blocks[b] == [] && t.incomplete == []
    ensures var v: VReg := t.nextVreg;
            Arm(guarded, t, b, pred, x, value, join) ==
              t.(blocks := t.blocks[b := [Inst(Some(v), Const(value)), Inst(None, Jump(join))]], preds := t.preds[b := [pred]],
                 sealed := t.sealed[b := true], defs := t.defs[b := DraftRead.Define(t.defs[b], x, v)], nextVreg := v + 1)
  {
    var v: VReg := t.nextVreg;
    var t1 := BT.AddPred(t, b, pred);
    var t2 := BT.Append(BT.Number(t1), b, Inst(Some(v), Const(value)));
    var t3 := BT.Append(BT.Note(t2, b, x, v), b, Inst(None, Jump(join)));
    assert [] + [Inst(Some(v), Const(value))] + [Inst(None, Jump(join))] == [Inst(Some(v), Const(value)), Inst(None, Jump(join))];
    assert t3.blocks == t.blocks[b := [Inst(Some(v), Const(value)), Inst(None, Jump(join))]];
    assert [] + [pred] == [pred];
    assert t3.preds == t.preds[b := [pred]];
    SealQuiet(guarded, t3, b);
  }

  /** What an if with two arms leaves when its condition is found and no PHI waits. */
  function IfElseLeaves(c: BT.Hit, cur: Label, x: Name, k: Int64, y: Name, l: Int64): BT.Tables
    requires cur < |c.t.blocks|
  {
    var n := |c.t.blocks|;
    var v: VReg := c.t.nextVreg;
    var v': VReg := v + 1;
    c.t.(blocks := c.t.blocks[cur := c.t.blocks[cur] + [Inst(None, Branch(c.v, n, n + 1))]] +
                   [[Inst(Some(v), Const(k)), Inst(None, Jump(n + 2))], [Inst(Some(v'), Const(l)), Inst(None, Jump(n + 2))], []],
         preds := c.t.preds + [[cur], [cur], [n, n + 1]], sealed := c.t.sealed + [true, true, true],
         defs := c.t.defs + [map[x := v], map[y := v'], map[]], nextVreg := v + 2)
  }

  lemma SetBefore<T>(s: seq<T>, i: nat, x: T, tail: seq<T>)
    requires i < |s|
    ensures (s + tail)[i := x] == s[i := x] + tail
  {
  }

  lemma ArmsAre(guarded: bool, t: BT.Tables, n: Label, cur: Label, x: Name, k: Int64, y: Name, l: Int64)
    requires BT.Fit(t) && cur < n && n + 2 < |t.blocks| && !t.sealed[n] && !t.sealed[n + 1] && t.incomplete == []
    requires t.preds[n] == [] && t.preds[n + 1] == [] && t.blocks[n] == [] && t.blocks[n + 1] == []
    ensures var v: VReg := t.nextVreg; var v': VReg := v + 1;
            Arm(guarded, Arm(guarded, t, n, cur, x, k, n + 2), n + 1, cur, y, l, n + 2) ==
              t.(blocks := t.blocks[n := [Inst(Some(v), Const(k)), Inst(None, Jump(n + 2))]][n + 1 := [Inst(Some(v'), Const(l)), Inst(None, Jump(n + 2))]],
                 preds := t.preds[n := [cur]][n + 1 := [cur]], sealed := t.sealed[n := true][n + 1 := true],
                 defs := t.defs[n := DraftRead.Define(t.defs[n], x, v)][n + 1 := DraftRead.Define(t.defs[n + 1], y, v')], nextVreg := v + 2)
  {
    hide Arm;
    ArmIs(guarded, t, n, cur, x, k, n + 2);
    ArmIs(guarded, Arm(guarded, t, n, cur, x, k, n + 2), n + 1, cur, y, l, n + 2);
  }

  lemma IfElseIs(guarded: bool, t: BT.Tables, cur: Label, cond: Name, x: Name, k: Int64, y: Name, l: Int64, c: BT.Hit)
    requires BT.Fit(t) && cur < |t.blocks| && BT.Lookup(guarded, t, cur, cond) == c && c.t.incomplete == []
    ensures cur < |c.t.blocks| && IfElse(guarded, t, cur, cond, x, k, y, l) == IfElseLeaves(c, cur, x, k, y, l)
  {
    hide BT.Lookup, ForkOn, IfElseLeaves;
    ForkIs(guarded, c, cur, x, k, y, l);
  }

  /** The branch is in place, the new blocks are empty. */
  /** The tables when both arms are done and the join is not sealed. */
  function ArmsDone(u: BT.Tables, cur: Label, here: Block, n: Label, x: Name, k: Int64, y: Name, l: Int64): BT.Tables
    requires cur < |u.blocks|
  {
    var v: VReg := u.nextVreg;
    var v': VReg := v + 1;
    u.(blocks := u.blocks[cur := here] + [[Inst(Some(v), Const(k)), Inst(None, Jump(n + 2))], [Inst(Some(v'), Const(l)), Inst(None, Jump(n + 2))], []],
       preds := u.preds + [[cur], [cur], []], sealed := u.sealed + [true, true, false],
       defs := u.defs + [map[x := v], map[y := v'], map[]], nextVreg := v + 2)
  }

  /** Two arms in turn. */
  function TwoArms(guarded: bool, t: BT.Tables, n: Label, cur: Label, x: Name, k: Int64, y: Name, l: Int64): (r: BT.Tables)
    requires BT.Fit(t) && cur < n && n + 2 < |t.blocks| && !t.sealed[n] && !t.sealed[n + 1] && t.preds[n] == [] && t.preds[n + 1] == []
    ensures BT.Fit(r) && |r.blocks| == |t.blocks|
  {
    hide Linked;
    Arm(guarded, Arm(guarded, t, n, cur, x, k, n + 2), n + 1, cur, y, l, n + 2)
  }

  lemma TwoArmsAre(guarded: bool, t: BT.Tables, n: Label, cur: Label, x: Name, k: Int64, y: Name, l: Int64)
    requires BT.Fit(t) && cur < n && n + 2 < |t.blocks| && !t.sealed[n] && !t.sealed[n + 1] && t.incomplete == []
    requires t.preds[n] == [] && t.preds[n + 1] == [] && t.blocks[n] == [] && t.blocks[n + 1] == []
    ensures var v: VReg := t.nextVreg; var v': VReg := v + 1;
            TwoArms(guarded, t, n, cur, x, k, y, l) ==
              t.(blocks := t.blocks[n := [Inst(Some(v), Const(k)), Inst(None, Jump(n + 2))]][n + 1 := [Inst(Some(v'), Const(l)), Inst(None, Jump(n + 2))]],
                 preds := t.preds[n := [cur]][n + 1 := [cur]], sealed := t.sealed[n := true][n + 1 := true],
                 defs := t.defs[n := DraftRead.Define(t.defs[n], x, v)][n + 1 := DraftRead.Define(t.defs[n + 1], y, v')], nextVreg := v + 2)
  {
    ArmsAre(guarded, t, n, cur, x, k, y, l);
    hide Arm;
  }

  /** Behind the branch, before the arms. */
  function Forked(c: BT.Hit, cur: Label): (t: BT.Tables)
    requires BT.Fit(c.t) && cur < |c.t.blocks|
    ensures BT.Fit(t)
  {
    BT.Append(ThreeBlocks(c.t), cur, Inst(None, Branch(c.v, |c.t.blocks|, |c.t.blocks| + 1)))
  }

  lemma ForkStart(c: BT.Hit, cur: Label)
    requires BT.Fit(c.t) && cur < |c.t.blocks| && c.t.incomplete == []
    ensures var n, u := |c.t.blocks|, c.t;
            var t1 := Forked(c, cur);
            && BT.Fit(t1) && |t1.blocks| == |t1.sealed| == |t1.preds| == |t1.defs| == n + 3 && !t1.sealed[n] && !t1.sealed[n + 1] && t1.incomplete == []
            && t1 == ThreeBlocks(u).(blocks := u.blocks[cur := u.blocks[cur] + [Inst(None, Branch(c.v, n, n + 1))]] + [[], [], []])
            && t1.preds[n] == [] && t1.preds[n + 1] == [] && t1.blocks[n] == [] == t1.blocks[n + 1]
  {
    hide Linked;
    var n, u := |c.t.blocks|, c.t;
    SetBefore(u.blocks, cur, u.blocks[cur] + [Inst(None, Branch(c.v, n, n + 1))], [[], [], []]);
  }

  lemma ForkArms(guarded: bool, c: BT.Hit, cur: Label, x: Name, k: Int64, y: Name, l: Int64)
    requires BT.Fit(c.t) && cur < |c.t.blocks| && c.t.incomplete == []
    ensures var n, t1 := |c.t.blocks|, Forked(c, cur);
            && n + 3 == |t1.blocks| == |t1.sealed| == |t1.preds| && !t1.sealed[n] && !t1.sealed[n + 1] && t1.preds[n] == [] && t1.preds[n + 1] == []
            && TwoArms(guarded, t1, n, cur, x, k, y, l) == ArmsDone(c.t, cur, c.t.blocks[cur] + [Inst(None, Branch(c.v, n, n + 1))], n, x, k, y, l)
  {
    hide *;
    FitSizes(c.t);
    ForkStart(c, cur);
    var n, u, t1 := |c.t.blocks|, c.t, Forked(c, cur);
    TwoArmsAre(guarded, t1, n, cur, x, k, y, l);
    ArmsLeft(u, cur, u.blocks[cur] + [Inst(None, Branch(c.v, n, n + 1))], n, x, k, y, l, t1, TwoArms(guarded, t1, n, cur, x, k, y, l));
  }

  lemma ForkUnfolds(guarded: bool, c: BT.Hit, cur: Label, x: Name, k: Int64, y: Name, l: Int64)
    requires BT.Fit(c.t) && cur < |c.t.blocks|
    requires var n, t1 := |c.t.blocks|, Forked(c, cur);
             && n + 2 < |t1.blocks| && n + 1 < |t1.sealed| && n + 1 < |t1.preds| && !t1.sealed[n] && !t1.sealed[n + 1] && t1.preds[n] == [] && t1.preds[n + 1] == []
             && var t := TwoArms(guarded, t1, n, cur, x, k, y, l);
                n + 2 < |t.blocks| && BT.Fit(BT.AddPred(BT.AddPred(t, n + 2, n), n + 2, n + 1)) && |BT.AddPred(BT.AddPred(t, n + 2, n), n + 2, n + 1).preds[n + 2]| == 2
    ensures var n, t := |c.t.blocks|, TwoArms(guarded, Forked(c, cur), |c.t.blocks|, cur, x, k, y, l);
            ForkOn(guarded, c, cur, x, k, y, l) == BT.Seal(guarded, BT.AddPred(BT.AddPred(t, n + 2, n), n + 2, n + 1), n + 2)
  {
    hide Arm, BT.Seal, Linked, BT.Append, BT.AddPred, ThreeBlocks;
  }

  lemma DoneIs(c: BT.Hit, cur: Label, x: Name, k: Int64, y: Name, l: Int64)
    requires cur < |c.t.blocks|
    ensures var n, u := |c.t.blocks|, c.t; var here := u.blocks[cur] + [Inst(None, Branch(c.v, n, n + 1))];
            var t := ArmsDone(u, cur, here, n, x, k, y, l);
            && t.incomplete == u.incomplete && t.preds == u.preds + [[cur], [cur], []] && t.sealed == u.sealed + [true, true, false]
            && t.(preds := u.preds + [[cur], [cur], [n, n + 1]], sealed := u.sealed + [true, true, true]) == IfElseLeaves(c, cur, x, k, y, l)
  {
  }

  lemma ForkIs(guarded: bool, c: BT.Hit, cur: Label, x: Name, k: Int64, y: Name, l: Int64)
    requires BT.Fit(c.t) && cur < |c.t.blocks| && c.t.incomplete == []
    ensures ForkOn(guarded, c, cur, x, k, y, l) == IfElseLeaves(c, cur, x, k, y, l)
  {
    hide *;
    FitSizes(c.t);
    ForkArms(guarded, c, cur, x, k, y, l);
    DoneIs(c, cur, x, k, y, l);
    JoinSealed(guarded, TwoArms(guarded, Forked(c, cur), |c.t.blocks|, cur, x, k, y, l), c.t, |c.t.blocks|, cur);
    ForkUnfolds(guarded, c, cur, x, k, y, l);
  }

  lemma FitSizes(t: BT.Tables)
    requires BT.Fit(t)
    ensures |t.preds| == |t.sealed| == |t.defs| == |t.blocks|
  {
    hide Linked;
  }

  /** The tables when both arms are done. */
  lemma ArmsLeft(u: BT.Tables, cur: Label, here: Block, n: Label, x: Name, k: Int64, y: Name, l: Int64, t1: BT.Tables, t: BT.Tables)
    requires cur < |u.blocks| == |u.preds| == |u.sealed| == |u.defs| == n
    requires t1 == ThreeBlocks(u).(blocks := u.blocks[cur := here] + [[], [], []])
    requires |t1.blocks| == |t1.preds| == |t1.sealed| == |t1.defs| == n + 3
    requires var v: VReg := t1.nextVreg; var v': VReg := v + 1;
             t == t1.(blocks := t1.blocks[n := [Inst(Some(v), Const(k)), Inst(None, Jump(n + 2))]][n + 1 := [Inst(Some(v'), Const(l)), Inst(None, Jump(n + 2))]],
                      preds := t1.preds[n := [cur]][n + 1 := [cur]], sealed := t1.sealed[n := true][n + 1 := true],
                      defs := t1.defs[n := DraftRead.Define(t1.defs[n], x, v)][n + 1 := DraftRead.Define(t1.defs[n + 1], y, v')], nextVreg := v + 2)
    ensures t == ArmsDone(u, cur, here, n, x, k, y, l)
  {
  }

  lemma JoinSealed(guarded: bool, t: BT.Tables, u: BT.Tables, n: Label, cur: Label)
    requires BT.Fit(t) && |t.blocks| == n + 3 && |u.preds| == |u.sealed| == n && t.incomplete == []
    requires t.preds == u.preds + [[cur], [cur], []] && t.sealed == u.sealed + [true, true, false]
    ensures BT.Fit(BT.AddPred(BT.AddPred(t, n + 2, n), n + 2, n + 1)) && |BT.AddPred(BT.AddPred(t, n + 2, n), n + 2, n + 1).preds[n + 2]| == 2
    ensures BT.Seal(guarded, BT.AddPred(BT.AddPred(t, n + 2, n), n + 2, n + 1), n + 2) ==
              t.(preds := u.preds + [[cur], [cur], [n, n + 1]], sealed := u.sealed + [true, true, true])
  {
    hide Linked;
    assert [] + [n] + [n + 1] == [n, n + 1];
    var t4 := BT.AddPred(BT.AddPred(t, n + 2, n), n + 2, n + 1);
    assert t4.preds == u.preds + [[cur], [cur], [n, n + 1]];
    SealQuiet(guarded, t4, n + 2);
    assert t4.sealed[n + 2 := true] == u.sealed + [true, true, true];
  }

  lemma FirstIfIs(guarded: bool)
    ensures IfElse(guarded, AtStart(), 0, "c", "x", 5, "y", 1) == FirstIf()
  {
    StartIs();
    Here(guarded, AtStart(), 0, "c");
    FirstLeft();
    hide AtStart, BT.Lookup, IfElse, FirstIf, IfElseLeaves;
    IfElseIs(guarded, AtStart(), 0, "c", "x", 5, "y", 1, BT.Hit(AtStart(), 0));
  }

  lemma FirstLeft()
    ensures |AtStart().blocks| == 1 && IfElseLeaves(BT.Hit(AtStart(), 0), 0, "x", 5, "y", 1) == FirstIf()
  {
    StartIs();
    hide AtStart;
    assert [] + [Inst(None, Branch(0, 1, 2))] == [Inst(None, Branch(0, 1, 2))];
    var r := IfElseLeaves(BT.Hit(AtStart(), 0), 0, "x", 5, "y", 1);
    assert r.blocks == FirstIf().blocks && r.preds == FirstIf().preds && r.sealed == FirstIf().sealed && r.defs == FirstIf().defs;
  }

  /** Looking `c` up at the join finds the parameter on both sides and gives its PHI up. */
  function CondRead(): BT.Tables {
    FirstIf().(defs := [PARAMS, map["x" := 3, "c" := 0], map["y" := 4, "c" := 0], map["c" := 0]])
  }

  lemma CondReadIs(guarded: bool)
    ensures BT.Fit(FirstIf()) && BT.Lookup(guarded, FirstIf(), 3, "c") == BT.Hit(CondRead(), 0)
  {
    var t := FirstIf();
    assert BT.Fit(t) && t.preds[3] == [1, 2];
    Merge(guarded, t, 3, "c");
    var o := BT.Open(t, 3, "c");
    assert o.defs == [PARAMS, map["x" := 3], map["y" := 4], map["c" := 5]];
    hide BT.Lookup, BT.LookupAll, BT.Settle, BT.GivesBack;
    Here(guarded, o, 0, "c");
    Through(guarded, o, 1, "c");
    var t1 := BT.Note(o, 1, "c", 0);
    Here(guarded, t1, 0, "c");
    Through(guarded, t1, 2, "c");
    var t2 := BT.Note(t1, 2, "c", 0);
    Agreed(guarded, t2, 3, "c", 5, 0);
    CondNoted(o, t1, t2);
  }

  lemma CondNoted(o: BT.Tables, t1: BT.Tables, t2: BT.Tables)
    requires o == FirstIf().(defs := [PARAMS, map["x" := 3], map["y" := 4], map["c" := 5]], nextVreg := 6)
    requires t1 == BT.Note(o, 1, "c", 0) && |t1.defs| == 4 && t2 == BT.Note(t1, 2, "c", 0)
    ensures |t2.defs| == 4 && BT.Note(t2, 3, "c", 0).(nextVreg := 5) == CondRead()
  {
    var t3 := BT.Note(t2, 3, "c", 0).(nextVreg := 5);
    var a: map<Name, VReg> := map["x" := 3];
    var b: map<Name, VReg> := map["y" := 4];
    var c: map<Name, VReg> := map["c" := 5];
    assert t3.defs == [PARAMS, a["c" := 0], b["c" := 0], c["c" := 0]];
    assert a["c" := 0] == map["x" := 3, "c" := 0] && b["c" := 0] == map["y" := 4, "c" := 0] && c["c" := 0] == map["c" := 0];
  }

  lemma SecondIfIs(guarded: bool)
    ensures BT.Fit(FirstIf()) && |FirstIf().blocks| == 4 && IfElse(guarded, FirstIf(), 3, "c", "y", 2, "y", 3) == SecondIf()
  {
    CondReadIs(guarded);
    SecondLeft();
    assert |FirstIf().blocks| == 4 && CondRead().incomplete == [];
    hide BT.Lookup, IfElse, FirstIf, SecondIf, CondRead, IfElseLeaves;
    IfElseIs(guarded, FirstIf(), 3, "c", "y", 2, "y", 3, BT.Hit(CondRead(), 0));
  }

  lemma SecondLeft()
    ensures |CondRead().blocks| == 4 && IfElseLeaves(BT.Hit(CondRead(), 0), 3, "y", 2, "y", 3) == SecondIf()
  {
    assert [] + [Inst(None, Branch(0, 4, 5))] == [Inst(None, Branch(0, 4, 5))];
    var r := IfElseLeaves(BT.Hit(CondRead(), 0), 3, "y", 2, "y", 3);
    assert r.blocks == SecondIf().blocks && r.preds == SecondIf().preds && r.sealed == SecondIf().sealed && r.defs == SecondIf().defs;
  }

  /** PHI 7 has been opened at the last join. */
  function Opened(): BT.Tables {
    BT.Open(SecondIf(), 6, "x")
  }

  /** Reading `x` at the end of block 3 then emits PHI 8. */
  function AfterFirst(): BT.Tables {
    var t := BT.Note(BT.Open(Opened(), 3, "x"), 2, "x", 1);
    t.(blocks := t.blocks[3 := [Inst(Some(8), Phi(PhiArgs([3, 1], [1, 2])))] + t.blocks[3]])
  }

  lemma OpenedIs()
    ensures var t := Opened(); BT.Fit(t) && t.nextVreg == 8 && |t.blocks| == 7 && |t.preds| == 7 && |t.defs| == 7 && |t.sealed| == 7
    ensures var t := Opened(); t.defs[0] == PARAMS && t.defs[1] == map["x" := 3, "c" := 0] && t.defs[2] == map["y" := 4, "c" := 0] && t.defs[3] == map["c" := 0]
    ensures var t := Opened(); t.preds[2] == [0] && t.preds[3] == [1, 2] && (forall b :: 0 <= b < 7 ==> t.sealed[b])
  {
  }

  lemma ReadAtMerge(guarded: bool)
    ensures BT.Fit(Opened()) && |Opened().blocks| == 7 && BT.Lookup(guarded, Opened(), 3, "x") == BT.Hit(AfterFirst(), 8)
  {
    OpenedIs();
    Merge(guarded, Opened(), 3, "x");
    var o := BT.Open(Opened(), 3, "x");
    hide BT.Lookup, BT.LookupAll, Opened, PhiArgs, BT.Fit;
    assert o.defs[0] == PARAMS && o.defs[1] == map["x" := 3, "c" := 0] && o.defs[2] == map["y" := 4, "c" := 0];
    Here(guarded, o, 1, "x");
    Here(guarded, o, 0, "x");
    Through(guarded, o, 2, "x");
    assert !AllSame([3, 1]) by { assert [3, 1][1] != [3, 1][0]; }
  }

  /** Both sides of the second if have been read. */
  function AfterBoth(): BT.Tables {
    BT.Note(BT.Note(AfterFirst(), 4, "x", 8), 5, "x", 8)
  }

  lemma AfterFirstIs()
    ensures var t := AfterFirst(); BT.Fit(t) && t.nextVreg == 9 && |t.blocks| == 7 && |t.preds| == 7 && |t.defs| == 7 && |t.sealed| == 7
    ensures var t := AfterFirst(); t.defs[3] == map["c" := 0, "x" := 8] && t.defs[4] == map["y" := 5] && t.defs[5] == map["y" := 6]
    ensures var t := AfterFirst(); t.preds[4] == [3] && t.preds[5] == [3] && t.preds[6] == [4, 5] && t.sealed[4] && t.sealed[5]
    ensures Opened().preds[4] == [3] && Opened().sealed[4] && Opened().defs[4] == map["y" := 5]
  {
  }

  lemma ReadBoth(guarded: bool)
    ensures BT.Fit(SecondIf()) && BT.Fit(AfterBoth()) && |SecondIf().blocks| == 7
    ensures AfterBoth().nextVreg == 9 && |AfterBoth().blocks| == 7 == |AfterBoth().defs| && |AfterBoth().preds| == 7 && AfterBoth().preds[6] == [4, 5]
    ensures BT.Lookup(guarded, SecondIf(), 6, "x") == BT.Settle(guarded, AfterBoth(), 6, "x", 7, [8, 8])
  {
    SecondIfFits();
    ReadAtMerge(guarded);
    AfterFirstIs();
    hide BT.Lookup, BT.LookupAll, Opened, AfterFirst, PhiArgs, BT.Fit, BT.Settle;
    Merge(guarded, SecondIf(), 6, "x");
    Through(guarded, Opened(), 4, "x");
    var t := BT.Note(AfterFirst(), 4, "x", 8);
    assert t.defs[3] == map["c" := 0, "x" := 8] && t.defs[5] == map["y" := 6];
    Here(guarded, t, 3, "x");
    Through(guarded, t, 5, "x");
    assert Opened() == BT.Open(SecondIf(), 6, "x") by { OpenedUnfolds(); }
  }

  lemma SecondIfFits()
    ensures BT.Fit(SecondIf()) && SecondIf().nextVreg == 7 && |SecondIf().preds| == |SecondIf().blocks| == 7 && SecondIf().preds[6] == [4, 5]
  {
  }

  lemma OpenedUnfolds()
    ensures Opened() == BT.Open(SecondIf(), 6, "x")
  {
  }

  /** The code of  return x + 7  at the last join. */
  function Finish(r: BT.Hit): Func
    requires |r.t.blocks| == 7
  {
    var seven, sum := r.t.nextVreg, r.t.nextVreg + 1;
    Func(r.t.blocks[6 := r.t.blocks[6] + [Inst(Some(seven), Const(7)), Inst(Some(sum), Binop(Add, r.v, seven)), Inst(None, Ret(Some(sum)))]],
         0, r.t.nextVreg + 2, [0, 1, 2])
  }

  /** The whole build. */
  function BuildTwoIfs(guarded: bool): Func {
    var t := IfElse(guarded, IfElse(guarded, AtStart(), 0, "c", "x", 5, "y", 1), 3, "c", "y", 2, "y", 3);
    Finish(BT.Lookup(guarded, t, 6, "x"))
  }

  /** The blocks of the finished function: `merge` are the PHIs of the last one. */
  function Program(merge: Block, sum: VReg, found: VReg, seven: VReg): Func {
    Func([[Inst(None, Branch(0, 1, 2))],
          [Inst(Some(3), Const(5)), Inst(None, Jump(3))],
          [Inst(Some(4), Const(1)), Inst(None, Jump(3))],
          [Inst(Some(8), Phi([PhiArg(3, 1), PhiArg(1, 2)])), Inst(None, Branch(0, 4, 5))],
          [Inst(Some(5), Const(2)), Inst(None, Jump(6))],
          [Inst(Some(6), Const(3)), Inst(None, Jump(6))],
          merge + [Inst(Some(seven), Const(7)), Inst(Some(sum), Binop(Add, found, seven)), Inst(None, Ret(Some(sum)))]],
         0, sum + 1, [0, 1, 2])
  }

  function LastPhi(): Inst {
    Inst(Some(7), Phi([PhiArg(8, 4), PhiArg(8, 5)]))
  }

  lemma BlocksAre()
    ensures var bs := AfterBoth().blocks;
            |bs| == 7 && Func(bs[6 := bs[6] + [Inst(Some(8), Const(7)), Inst(Some(9), Binop(Add, 8, 8)), Inst(None, Ret(Some(9)))]], 0, 10, [0, 1, 2])
              == Program([], 9, 8, 8)
    ensures var bs, phi := AfterBoth().blocks, LastPhi();
            |bs| == 7 && Func(bs[6 := [phi] + bs[6]][6 := [phi] + bs[6] + [Inst(Some(9), Const(7)), Inst(Some(10), Binop(Add, 7, 9)), Inst(None, Ret(Some(10)))]],
                              0, 11, [0, 1, 2])
              == Program([phi], 10, 7, 9)
  {
    var bs := AfterBoth().blocks;
    assert PhiArgs([3, 1], [1, 2]) == [PhiArg(3, 1), PhiArg(1, 2)];
    assert bs[3] == [Inst(Some(8), Phi([PhiArg(3, 1), PhiArg(1, 2)])), Inst(None, Branch(0, 4, 5))];
    assert bs[6] == [];
    var phi := LastPhi();
    var code := [Inst(Some(9), Const(7)), Inst(Some(10), Binop(Add, 7, 9)), Inst(None, Ret(Some(10)))];
    assert [phi] + bs[6] + code == [phi] + code;
    assert bs[6 := [phi] + bs[6]][6 := [phi] + code] == bs[6 := [phi] + code] == Program([phi], 10, 7, 9).blocks;
  }

  lemma Founds()
    ensures BT.Fit(SecondIf()) && |SecondIf().blocks| == 7
    ensures Finish(BT.Lookup(false, SecondIf(), 6, "x")) == Program([], 9, 8, 8)
    ensures Finish(BT.Lookup(true, SecondIf(), 6, "x")) == Program([LastPhi()], 10, 7, 9)
  {
    ReadBoth(false);
    ReadBoth(true);
    BlocksAre();
    hide BT.Lookup, BT.LookupAll, AfterBoth, SecondIf, BT.Fit, Program;
    assert AllSame([8, 8]);
    assert PhiArgs([8, 8], [4, 5]) == [PhiArg(8, 4), PhiArg(8, 5)];
  }

  lemma BuildTwoIfsIs(guarded: bool)
    ensures BuildTwoIfs(guarded) == if guarded then Program([LastPhi()], 10, 7, 9) else Program([], 9, 8, 8)
  {
    FirstIfIs(guarded);
    SecondIfIs(guarded);
    hide IfElse, AtStart, FirstIf, SecondIf, BT.Lookup, Finish, Program;
    Founds();
  }

  /** Block by block, for the condition 1. */
  lemma RunProgram(w: World, merge: Block, sum: VReg, found: VReg, seven: VReg)
    requires (merge == [] && found == seven == 8 && sum == 9) || (merge == [LastPhi()] && found == 7 && seven == 9 && sum == 10)
    ensures Run(w, Program(merge, sum, found, seven), [1, 0, 0], 5) == Finished(Some(if merge == [] then 14 else 12), [])
  {
    var f := Program(merge, sum, found, seven);
    var e0: Env := map[0 := 1, 1 := 0, 2 := 0];
    var e3 := e0[3 := 5];
    var e5 := e3[8 := 5][5 := 2];
    assert Run(w, f, [1, 0, 0], 0) == Running(0, None, e0, []) by { BindThree(); }
    FirstBlocks(w, merge, sum, found, seven, e0);
    hide RunBlock, Program;
    assert Run(w, f, [1, 0, 0], 1) == Running(1, Some(0), e0, []);
    assert Run(w, f, [1, 0, 0], 2) == Running(3, Some(1), e3, []);
    assert Run(w, f, [1, 0, 0], 3) == Running(4, Some(3), e3[8 := 5], []);
    assert Run(w, f, [1, 0, 0], 4) == Running(6, Some(4), e5, []);
    LastBlock(w, merge, sum, found, seven, e5);
  }

  lemma BindThree()
    ensures Bind([0, 1, 2], [1, 0, 0]) == map[0 := 1, 1 := 0, 2 := 0]
  {
    assert Bind([], []) == map[];
    assert [0, 1, 2][..2] == [0, 1] && [0, 1][..1] == [0] && [0][..0] == [];
    assert [1, 0, 0][..2] == [1, 0] && [1, 0][..1] == [1] && [1][..0] == [];
    assert [0, 1, 2][1..] == [1, 2] && [1, 2][1..] == [2] && [2][1..] == [];
    assert [1, 0, 0][1..] == [0, 0] && [0, 0][1..] == [0] && [0][1..] == [];
  }

  lemma FirstBlocks(w: World, merge: Block, sum: VReg, found: VReg, seven: VReg, e0: Env)
    requires e0 == map[0 := 1, 1 := 0, 2 := 0]
    ensures var bs, e3 := Program(merge, sum, found, seven).blocks, e0[3 := 5];
            && |bs| == 7 && RunBlock(w, bs[0], 0, e0, e0, None, []) == Goto(1, e0, [])
            && RunBlock(w, bs[1], 0, e0, e0, Some(0), []) == Goto(3, e3, [])
            && RunBlock(w, bs[3], 0, e3, e3, Some(1), []) == Goto(4, e3[8 := 5], [])
            && RunBlock(w, bs[4], 0, e3[8 := 5], e3[8 := 5], Some(3), []) == Goto(6, e3[8 := 5][5 := 2], [])
  {
    var bs, e3 := Program(merge, sum, found, seven).blocks, e0[3 := 5];
    var e8 := e3[8 := 5];
    assert RunBlock(w, bs[1], 0, e0, e0, Some(0), []) == RunBlock(w, bs[1], 1, e3, e0, Some(0), []);
    assert RunBlock(w, bs[3], 0, e3, e3, Some(1), []) == RunBlock(w, bs[3], 1, e8, e3, Some(1), []);
    assert RunBlock(w, bs[4], 0, e8, e8, Some(3), []) == RunBlock(w, bs[4], 1, e8[5 := 2], e8, Some(3), []);
  }

  lemma LastBlock(w: World, merge: Block, sum: VReg, found: VReg, seven: VReg, env: Env)
    requires (merge == [] && found == seven == 8 && sum == 9) || (merge == [LastPhi()] && found == 7 && seven == 9 && sum == 10)
    requires 8 in env && env[8] == 5
    ensures RunBlock(w, Program(merge, sum, found, seven).blocks[6], 0, env, env, Some(4), []) == Return(Some(if merge == [] then 14 else 12), [])
  {
    var b := Program(merge, sum, found, seven).blocks[6];
    if merge == [] {
      var e := env[8 := 7];
      assert RunBlock(w, b, 0, env, env, Some(4), []) == RunBlock(w, b, 1, e, env, Some(4), []) == RunBlock(w, b, 2, e[9 := 14], env, Some(4), []);
    } else {
      var e := env[7 := 5];
      assert RunBlock(w, b, 0, env, env, Some(4), []) == RunBlock(w, b, 1, e, env, Some(4), []);
      assert RunBlock(w, b, 1, e, env, Some(4), []) == RunBlock(w, b, 2, e[9 := 7], env, Some(4), []) == RunBlock(w, b, 3, e[9 := 7][10 := 12], env, Some(4), []);
    }
  }

  lemma DefinedTwice()
    ensures !SingleDef(Program([], 9, 8, 8))
  {
    var f := Program([], 9, 8, 8);
    assert f.Has(3, 0) && f.Has(6, 0) && f.At(3, 0).dst == Some(8) == f.At(6, 0).dst;
  }

  /** Two ifs in a row.  The source returns 5 + 7.  The builder as written takes the number of
      PHI 7 back although PHI 8 was emitted meanwhile, hands 8 out again, and its program returns
      14; the guarded builder's returns 12. */
  lemma NumberTakenBack(w: World)
    ensures Hir.FnLowerable(TwoIfsFn()) && Hir.RunFn(w, TwoIfsFn(), [1, 0, 0], 0) == Hir.Returned(Some(12), [])
    ensures !SingleDef(BuildTwoIfs(false)) && Run(w, BuildTwoIfs(false), [1, 0, 0], 5) == Finished(Some(14), [])
    ensures Run(w, BuildTwoIfs(true), [1, 0, 0], 5) == Finished(Some(12), [])
  {
    TwoIfsMeans(w);
    hide Hir.RunFn, Hir.FnLowerable, TwoIfsFn, BuildTwoIfs, Run, Program, SingleDef;
    BuildTwoIfsIs(false);
    BuildTwoIfsIs(true);
    RunProgram(w, [], 9, 8, 8);
    RunProgram(w, [LastPhi()], 10, 7, 9);
    DefinedTwice();
  }

  // ---- Incomplete PHIs are lost ----

  /** The source  fn f(n) { while n { }  return 0 } . */
  function EmptyLoopFn(): Hir.Fn {
    Hir.Fn(["n"], [Hir.While(Hir.Ident("n"), [])], Hir.Returns(Some(Hir.IntLit(0))))
  }

  lemma {:induction false} LoopsOn(w: World, s: Hir.Store, fuel: nat)
    requires "n" in s && s["n"] == 1
    ensures Hir.ExecLoop(w, Hir.Ident("n"), [], s, [], fuel) == Hir.Hungry
  {
    if fuel > 0 {
      LoopsOn(w, s, fuel - 1);
    }
  }

  /** For the argument 1 it goes round for good. */
  lemma EmptyLoopMeans(w: World, fuel: nat)
    ensures Hir.FnLowerable(EmptyLoopFn()) && Hir.RunFn(w, EmptyLoopFn(), [1], fuel) == Hir.Unfinished
  {
    var fn := EmptyLoopFn();
    var s: Hir.Store := map["n" := 1];
    assert Hir.ParamStore(fn.params, [1]) == s by { assert ["n"][..0] == [] && [1][..0] == []; }
    LoopsOn(w, s, fuel);
    assert fn.body[..0] == [];
    assert Hir.ExecStmts(w, [], s, [], fuel) == Hir.Normal(s, []);
  }

  /** The header has read `n`, the body has not; the exit is still untouched. */
  function EmptyLoop(): BT.Tables {
    BT.Tables(
      [[Inst(None, Jump(1))], [EmptyPhi(1), Inst(None, Branch(1, 2, 3))], [Inst(None, Jump(1))], []],
      [[], [0, 2], [1], []],
      [true, false, false, false],
      [map["n" := 0], map["n" := 1], map[], map[]],
      [Incomplete("n", 1, 1)], 2, false)
  }

  lemma LoopStartIs()
    ensures BT.Start(["n"]) == BT.Tables([[]], [[]], [true], [map["n" := 0]], [], 1, false)
  {
    assert ["n"][..0] == [];
    assert ParamTable([]) == map[];
  }

  lemma HeaderDueIs(guarded: bool)
    ensures HeaderDue(guarded, BT.Start(["n"]), 0, "n") == EmptyLoop()
  {
    LoopStartIs();
    hide BT.Lookup, BT.Start;
    var t := BT.Start(["n"]);
    LoopEntered();
    hide EnterLoop;
    var t1 := EnterLoop(t, 0);
    Unsealed(guarded, t1, 1, "n");
    HeaderParked(t1);
    hide BT.Park;
  }

  lemma LoopEntered()
    ensures EnterLoop(BT.Start(["n"]), 0) ==
              BT.Tables([[Inst(None, Jump(1))], [], [], []], [[], [0], [], []], [true, false, false, false],
                        [map["n" := 0], map[], map[], map[]], [], 1, false)
  {
    LoopStartIs();
    hide BT.Start;
    var t := EnterLoop(BT.Start(["n"]), 0);
    assert [] + [Inst(None, Jump(1))] == [Inst(None, Jump(1))];
    assert t.blocks == [[Inst(None, Jump(1))], [], [], []];
    assert t.preds == [[], [0], [], []] && t.sealed == [true, false, false, false] && t.defs == [map["n" := 0], map[], map[], map[]];
  }

  /** The header's branch and the body's jump behind the PHI the condition has parked. */
  lemma HeaderParked(t: BT.Tables)
    requires t == BT.Tables([[Inst(None, Jump(1))], [], [], []], [[], [0], [], []], [true, false, false, false],
                            [map["n" := 0], map[], map[], map[]], [], 1, false)
    ensures var c := BT.Park(t, 1, "n");
            && c.v == 1 && |c.t.blocks| == 4 == |c.t.preds|
            && BT.AddPred(BT.Append(BT.AddPred(BT.Append(c.t, 1, Inst(None, Branch(1, 2, 3))), 2, 1), 2, Inst(None, Jump(1))), 1, 2) == EmptyLoop()
  {
    var c := BT.Park(t, 1, "n");
    assert [EmptyPhi(1)] + [] + [Inst(None, Branch(1, 2, 3))] == [EmptyPhi(1), Inst(None, Branch(1, 2, 3))];
    assert [] + [Inst(None, Jump(1))] == [Inst(None, Jump(1))];
    var r := BT.AddPred(BT.Append(BT.AddPred(BT.Append(c.t, 1, Inst(None, Branch(1, 2, 3))), 2, 1), 2, Inst(None, Jump(1))), 1, 2);
    assert r.blocks == EmptyLoop().blocks;
    assert [] + [1] == [1] && [0] + [2] == [0, 2];
    assert r.preds == EmptyLoop().preds;
    assert r.defs == EmptyLoop().defs && r.incomplete == EmptyLoop().incomplete;
  }

  /** The header is sealed; looking `n` up in the body has put PHI 2 there. */
  function HeaderRead(): BT.Tables {
    var t := EmptyLoop();
    t.(sealed := [true, true, false, false], nextVreg := 3, defs := [map["n" := 0], map["n" := 1], map["n" := 2], map[]],
       blocks := [t.blocks[0], [Inst(Some(1), Phi([PhiArg(0, 0), PhiArg(2, 2)])), Inst(None, Branch(1, 2, 3))],
                  [EmptyPhi(2), Inst(None, Jump(1))], t.blocks[3]])
  }

  lemma HeaderLookups(guarded: bool)
    ensures var t := EmptyLoop().(sealed := [true, true, false, false]);
            BT.Fit(t) && BT.LookupAll(guarded, t, 1, "n", 2) == BT.Hits(BT.Park(t, 2, "n").t, [0, 2])
  {
    var t := EmptyLoop().(sealed := [true, true, false, false]);
    assert BT.Fit(t) && t.preds[1] == [0, 2];
    Both(guarded, t, 1, "n");
    Here(guarded, t, 0, "n");
    Unsealed(guarded, t, 2, "n");
  }

  lemma HeaderStored(t: BT.Tables)
    requires t == BT.Park(EmptyLoop().(sealed := [true, true, false, false]), 2, "n").t
    ensures t.incomplete == [Incomplete("n", 2, 2), Incomplete("n", 1, 1)]
    ensures BT.Store(t, Incomplete("n", 1, 1), 0, [0, 2]) == HeaderRead().(incomplete := t.incomplete)
  {
    assert t.blocks[2] == [EmptyPhi(2), Inst(None, Jump(1))];
    assert PhiArgs([0, 2], [0, 2]) == [PhiArg(0, 0), PhiArg(2, 2)];
    assert !AllSame([0, 2]) by { assert [0, 2][1] != [0, 2][0]; }
    var phi := Inst(Some(1), Phi([PhiArg(0, 0), PhiArg(2, 2)]));
    assert t.blocks[1][0 := phi] == [phi, Inst(None, Branch(1, 2, 3))];
    assert t.blocks[1 := t.blocks[1][0 := phi]] == HeaderRead().blocks;
  }

  /** Sealing the header completes its PHI; reading the body has parked another one in front. */
  lemma HeaderCompleted(guarded: bool)
    ensures var t := EmptyLoop().(sealed := [true, true, false, false]);
            BT.Fit(t) && BT.Complete(guarded, t, 0) ==
              BT.Unlink(guarded, HeaderRead().(incomplete := [Incomplete("n", 2, 2), Incomplete("n", 1, 1)]), 0, 1)
  {
    var t := EmptyLoop().(sealed := [true, true, false, false]);
    HeaderLookups(guarded);
    var r := BT.Park(t, 2, "n").t;
    HeaderStored(r);
    assert t.incomplete == [Incomplete("n", 1, 1)] && IsPhiOf(t.blocks[1][0], 1) && |t.blocks[1]| == 2 && t.preds[1] == [0, 2];
    assert BT.PhiPlace(t.blocks[1], 1) == 0;
    hide BT.LookupAll, HeaderRead, BT.Store, BT.Unlink, BT.Park, BT.PhiPlace, EmptyLoop;
    assert BT.CompleteAt(guarded, t, 0, 0) == BT.Fulfil(guarded, r, t.incomplete[0], 0, [0, 2], 0, 1);
  }

  lemma HeaderUnlinked(guarded: bool)
    ensures BT.Unlink(guarded, HeaderRead().(incomplete := [Incomplete("n", 2, 2), Incomplete("n", 1, 1)]), 0, 1) ==
              BT.Cursor(HeaderRead().(incomplete := if guarded then [Incomplete("n", 2, 2)] else []), if guarded then 1 else 0)
  {
    var list := [Incomplete("n", 2, 2), Incomplete("n", 1, 1)];
    assert list[2..] == [] && Without(list, 1) == [Incomplete("n", 2, 2)];
    hide HeaderRead;
  }

  /** As written, the entry for the body has gone with that for the header. */
  lemma HeaderSealed(guarded: bool)
    ensures BT.Fit(EmptyLoop())
    ensures BT.Seal(guarded, EmptyLoop(), 1) == HeaderRead().(incomplete := if guarded then [Incomplete("n", 2, 2)] else [])
  {
    var t := EmptyLoop().(sealed := [true, true, false, false]);
    assert EmptyLoop().sealed[1 := true] == t.sealed && |t.blocks| == 4 && t.incomplete == [Incomplete("n", 1, 1)] && !EmptyLoop().sealed[1];
    assert BT.Fit(EmptyLoop());
    hide EmptyLoop, HeaderRead, BT.Complete, BT.Unlink, BT.SealFrom, BT.Fit;
    HeaderCompleted(guarded);
    HeaderUnlinked(guarded);
    HeaderSealFrom(guarded, t, BT.Complete(guarded, t, 0));
  }

  lemma HeaderSealFrom(guarded: bool, t: BT.Tables, u: BT.Cursor)
    requires BT.Fit(t) && |t.blocks| == 4 && t.incomplete == [Incomplete("n", 1, 1)] && BT.Complete(guarded, t, 0) == u
    requires u.t.incomplete == (if guarded then [Incomplete("n", 2, 2)] else []) && u.next == |u.t.incomplete| == (if guarded then 1 else 0)
    ensures BT.SealFrom(guarded, t, 1, 0) == u.t
  {
    hide BT.Complete;
  }

  /** The body's PHI with the operands it ends with. */
  function BodyBlock(bodyArgs: seq<PhiArg>): Block {
    [Inst(Some(2), Phi(bodyArgs)), Inst(None, Jump(1))]
  }

  lemma BodySealedBare()
    ensures var t := HeaderRead().(incomplete := []);
            BT.Fit(t) && BT.Seal(false, t, 2) == t.(sealed := [true, true, true, false]) && t.blocks[2] == BodyBlock([])
  {
    var t := HeaderRead().(incomplete := []);
    assert t.sealed[2 := true] == [true, true, true, false];
    SealQuiet(false, t, 2);
  }

  lemma BodySealed()
    ensures var t := HeaderRead().(incomplete := [Incomplete("n", 2, 2)]);
            BT.Fit(t) && BT.Seal(true, t, 2).blocks == t.blocks[2 := BodyBlock([PhiArg(1, 1)])] && BT.Seal(true, t, 2).incomplete == []
            && BT.Seal(true, t, 2).nextVreg == 3
  {
    var t := HeaderRead().(incomplete := [Incomplete("n", 2, 2)]);
    var t1 := t.(sealed := t.sealed[2 := true]);
    assert BT.Fit(t) && BT.Fit(t1) && |t.blocks| == 4 && !t.sealed[2];
    hide HeaderRead, BT.Complete, BT.SealFrom, BT.Fit;
    BodyCompleted(t1);
    BodySealFrom(t1, BT.Complete(true, t1, 0));
  }

  lemma BodyCompleted(t: BT.Tables)
    requires t == HeaderRead().(incomplete := [Incomplete("n", 2, 2)], sealed := HeaderRead().sealed[2 := true])
    ensures BT.Fit(t) && BT.Complete(true, t, 0).t.incomplete == [] && BT.Complete(true, t, 0).next == 0
    ensures BT.Complete(true, t, 0).t.blocks == t.blocks[2 := BodyBlock([PhiArg(1, 1)])] && BT.Complete(true, t, 0).t.nextVreg == 3
  {
    var p := Incomplete("n", 2, 2);
    assert BT.Fit(t) && t.preds[2] == [1];
    BT.NoPreds(true, t, 2, "n");
    BT.OnePredMore(true, t, 2, "n", 0);
    Here(true, t, 1, "n");
    assert BT.LookupAll(true, t, 2, "n", 1) == BT.Hits(t, [1]) by { assert [] + [1] == [1]; }
    BodyStored(t);
    assert Without([p], 0) == [];
    hide BT.LookupAll, BT.Lookup;
    assert BT.Complete(true, t, 0) == BT.Unlink(true, BT.Store(t, p, 0, [1]), 0, 0);
  }

  lemma BodySealFrom(t: BT.Tables, u: BT.Cursor)
    requires BT.Fit(t) && |t.blocks| == 4 && t.incomplete == [Incomplete("n", 2, 2)]
    requires BT.Complete(true, t, 0) == u && u.t.incomplete == [] && u.next == 0
    ensures BT.SealFrom(true, t, 2, 0) == u.t
  {
    hide BT.Complete;
  }

  lemma BodyStored(t: BT.Tables)
    requires |t.blocks| == 4 == |t.preds| && |t.defs| == 4 && t.blocks[2] == [EmptyPhi(2), Inst(None, Jump(1))] && t.preds[2] == [1]
    ensures BT.Store(t, Incomplete("n", 2, 2), 0, [1]).blocks == t.blocks[2 := BodyBlock([PhiArg(1, 1)])]
  {
    assert PhiArgs([1], [1]) == [PhiArg(1, 1)];
    var phi := Inst(Some(2), Phi([PhiArg(1, 1)]));
    assert t.blocks[2][0 := phi] == [phi, Inst(None, Jump(1))];
  }

  /** The whole build: the loop, then  return 0  in the exit. */
  function BuildEmptyLoop(guarded: bool): Func {
    var t := EmptyWhile(guarded, BT.Start(["n"]), 0, "n");
    Func(t.blocks[3 := t.blocks[3] + [Inst(Some(t.nextVreg), Const(0)), Inst(None, Ret(Some(t.nextVreg)))]], 0, t.nextVreg + 1, [0])
  }

  function LoopFunc(bodyArgs: seq<PhiArg>): Func {
    Func([[Inst(None, Jump(1))], [Inst(Some(1), Phi([PhiArg(0, 0), PhiArg(2, 2)])), Inst(None, Branch(1, 2, 3))],
          BodyBlock(bodyArgs), [Inst(Some(3), Const(0)), Inst(None, Ret(Some(3)))]], 0, 4, [0])
  }

  /** The body is sealed next, then the exit gets its predecessor and is sealed. */
  lemma AfterHeader(guarded: bool)
    ensures var t := HeaderRead().(incomplete := if guarded then [Incomplete("n", 2, 2)] else []);
            && BT.Fit(t) && |t.blocks| == 4 && t.preds[2] == [1]
            && var u := BT.Seal(guarded, t, 2);
               u.blocks == HeaderRead().blocks[2 := BodyBlock(if guarded then [PhiArg(1, 1)] else [])] && u.incomplete == [] && u.nextVreg == 3
  {
    if guarded {
      BodySealed();
    } else {
      BodySealedBare();
    }
    var t := HeaderRead().(incomplete := if guarded then [Incomplete("n", 2, 2)] else []);
    assert |t.blocks| == 4 && t.preds[2] == [1];
    assert t.blocks[2 := t.blocks[2]] == t.blocks;
    hide HeaderRead, BT.Seal;
  }

  /** The exit gets its predecessor and is sealed, whatever the tables before it. */
  lemma ExitSealed(guarded: bool, u: BT.Tables)
    requires BT.Fit(u) && |u.blocks| == 4 && u.preds[3] == [] && !u.sealed[3] && u.incomplete == []
    ensures BT.Fit(BT.AddPred(u, 3, 1)) && BT.AddPred(u, 3, 1).preds[3] == [1]
    ensures var r := BT.Seal(guarded, BT.AddPred(u, 3, 1), 3); r.blocks == u.blocks && r.nextVreg == u.nextVreg
  {
    assert [] + [1] == [1];
    SealQuiet(guarded, BT.AddPred(u, 3, 1), 3);
  }

  lemma LoopLeft(guarded: bool)
    ensures var r := EmptyWhile(guarded, BT.Start(["n"]), 0, "n");
            r.blocks == HeaderRead().blocks[2 := BodyBlock(if guarded then [PhiArg(1, 1)] else [])] && r.nextVreg == 3
  {
    assert |BT.Start(["n"]).blocks| == 1;
    assert |EmptyLoop().blocks| == 4 && EmptyLoop().preds == [[], [0, 2], [1], []] && EmptyLoop().sealed == [true, false, false, false] && BT.Fit(EmptyLoop());
    hide BT.Start, HeaderDue, EmptyLoop, HeaderRead, BT.Seal, BodyBlock, EmptyWhile;
    HeaderDueIs(guarded);
    WhileUnfolds(guarded, BT.Start(["n"]), 0, "n", EmptyLoop());
    HeaderSealed(guarded);
    AfterHeader(guarded);
    ExitSealed(guarded, BT.Seal(guarded, BT.Seal(guarded, EmptyLoop(), 1), 2));
  }

  lemma WhileUnfolds(guarded: bool, t: BT.Tables, cur: Label, cond: Name, due: BT.Tables)
    requires BT.Fit(t) && |t.blocks| == 1 && cur == 0 && HeaderDue(guarded, t, cur, cond) == due
    ensures BT.Fit(due) && |due.blocks| == 4 && due.preds[1] == [0, 2] && due.preds[2] == [1] && due.preds[3] == []
    ensures var u := BT.Seal(guarded, BT.Seal(guarded, due, 1), 2);
            BT.Fit(BT.AddPred(u, 3, 1)) && BT.AddPred(u, 3, 1).preds[3] == [1] &&
            EmptyWhile(guarded, t, cur, cond) == BT.Seal(guarded, BT.AddPred(u, 3, 1), 3)
  {
    hide HeaderDue, BT.Seal;
    assert [] + [1] == [1];
  }

  lemma BuildEmptyLoopIs(guarded: bool)
    ensures BuildEmptyLoop(guarded) == LoopFunc(if guarded then [PhiArg(1, 1)] else [])
  {
    LoopLeft(guarded);
    hide EmptyWhile;
    var bodyArgs := if guarded then [PhiArg(1, 1)] else [];
    var bs := HeaderRead().blocks[2 := BodyBlock(bodyArgs)];
    var end := [Inst(Some(3), Const(0)), Inst(None, Ret(Some(3)))];
    assert bs[3] + end == end;
    assert bs[3 := end] == LoopFunc(bodyArgs).blocks;
  }

  /** A loop whose body does not read the variable.  As written, the body's PHI has lost its
      operands, and entering the body faults; guarded, the loop goes round as the source does. */
  lemma PendingLost(w: World, fuel: nat)
    ensures Hir.FnLowerable(EmptyLoopFn()) && Hir.RunFn(w, EmptyLoopFn(), [1], fuel) == Hir.Unfinished
    ensures Run(w, BuildEmptyLoop(false), [1], 3) == Faulted
    ensures Run(w, BuildEmptyLoop(true), [1], 3) == Running(1, Some(2), map[0 := 1, 1 := 1, 2 := 1], [])
  {
    EmptyLoopMeans(w, fuel);
    hide Hir.RunFn, Hir.FnLowerable, EmptyLoopFn, BuildEmptyLoop, Run, LoopFunc;
    BuildEmptyLoopIs(false);
    BuildEmptyLoopIs(true);
    LoopSteps(w, []);
    LoopSteps(w, [PhiArg(1, 1)]);
  }

  lemma LoopSteps(w: World, bodyArgs: seq<PhiArg>)
    requires bodyArgs == [] || bodyArgs == [PhiArg(1, 1)]
    ensures Run(w, LoopFunc(bodyArgs), [1], 3) == if bodyArgs == [] then Faulted else Running(1, Some(2), map[0 := 1, 1 := 1, 2 := 1], [])
  {
    var f := LoopFunc(bodyArgs);
    assert Run(w, f, [1], 0) == Running(0, None, map[0 := 1], []);
    assert Run(w, f, [1], 1) == Running(1, Some(0), map[0 := 1], []);
    var env: Env := map[0 := 1, 1 := 1];
    assert Run(w, f, [1], 2) == Running(2, Some(1), env, []);
    var b := f.blocks[2];
    assert b == [Inst(Some(2), Phi(bodyArgs)), Inst(None, Jump(1))];
    if bodyArgs == [] {
      assert RunBlock(w, b, 0, env, env, Some(1), []) == Fault;
    } else {
      assert RunBlock(w, b, 0, env, env, Some(1), []) == RunBlock(w, b, 1, env[2 := 1], env, Some(1), []) == Goto(1, env[2 := 1], []);
    }
  }
}
