/** What the translation adds to the builder's draft, call by call (src/ssa_build.c:476-762). */
module LoweringSteps {
  import opened Wrappers
  import opened Ssa
  import opened Draft
  import opened DraftRead
  import opened DraftScript
  import opened SsaBuilder
  import opened BuilderRuns
  import opened LoweredCode

  // ---- Work done since some moment ----

  /** The jumps of an instruction of block `b`. */
  function Owed(b: Label, op: Op): set<(Label, Label)> {
    match op
    case Jump(t) => {(b, t)}
    case Branch(_, t, f) => {(b, t), (b, f)}
    case _ => {}
  }

  ghost predicate Since(d0: Draft, d: Draft, c: Label, i: nat) {
    c < |d.script| && i < |d.script[c]| && (c >= |d0.script| || i >= |d0.script[c]|)
  }

  /** Every jump emitted since `d0` is recorded at its target, but for those in `debts`. */
  ghost predicate Recorded(d0: Draft, d: Draft, debts: set<(Label, Label)>) {
    forall c: Label, i: nat, t: Label :: Since(d0, d, c, i) && d.script[c][i].Emit? && (c, t) in Owed(c, d.script[c][i].inst.op) ==>
      KnownPred(d, c, t) || (c, t) in debts
  }

  /** Every write since `d0` stored a register of its own block. */
  ghost predicate WroteLocally(d0: Draft, d: Draft) {
    forall c: Label, i: nat :: Since(d0, d, c, i) && d.script[c][i].Wrote? ==> Produced(d.script[c], i, d.script[c][i].wrote)
  }

  ghost predicate PredsGrow(d0: Draft, d: Draft) {
    |d0.preds| <= |d.preds| && forall t :: 0 <= t < |d0.preds| ==> d0.preds[t] <= d.preds[t]
  }

  ghost predicate Work(d0: Draft, d: Draft, debts: set<(Label, Label)>) {
    && Extends(d0, d) && HomesKept(d0, d) && PredsGrow(d0, d) && Recorded(d0, d, debts) && WroteLocally(d0, d)
    && d.params == d0.params
  }

  lemma WorkRefl(d: Draft)
    ensures Work(d, d, {})
  {
  }

  lemma StillKnown(d0: Draft, d: Draft, c: Label, t: Label)
    requires PredsGrow(d0, d) && KnownPred(d0, c, t)
    ensures KnownPred(d, c, t)
  {
    assert d0.preds[t] <= d.preds[t];
    var i :| 0 <= i < |d0.preds[t]| && d0.preds[t][i] == c;
    assert d.preds[t][i] == c;
  }

  lemma SameAct(d0: Draft, d: Draft, c: Label, i: nat)
    requires Extends(d0, d) && c < |d0.script| && i < |d0.script[c]|
    ensures d.script[c][i] == d0.script[c][i] && d.script[c][..i] == d0.script[c][..i]
  {
    assert d0.script[c] <= d.script[c];
  }

  lemma ExtendsTrans(d0: Draft, d1: Draft, d2: Draft)
    requires Extends(d0, d1) && Extends(d1, d2)
    ensures Extends(d0, d2)
  {
    forall c | 0 <= c < |d0.script| ensures d0.script[c] <= d2.script[c] {
      assert d0.script[c] <= d1.script[c] && d1.script[c] <= d2.script[c];
    }
  }

  lemma WorkTrans(d0: Draft, d1: Draft, d2: Draft, s: set<(Label, Label)>, t: set<(Label, Label)>)
    requires Work(d0, d1, s) && Work(d1, d2, t)
    ensures Work(d0, d2, s + t)
  {
    ExtendsTrans(d0, d1, d2);
    hide Extends, KnownPred, Produced;
    forall c: Label, i: nat, u: Label | Since(d0, d2, c, i) && d2.script[c][i].Emit? && (c, u) in Owed(c, d2.script[c][i].inst.op)
      ensures KnownPred(d2, c, u) || (c, u) in s + t
    {
      if !Since(d1, d2, c, i) {
        SameAct(d1, d2, c, i);
        assert Since(d0, d1, c, i);
        if KnownPred(d1, c, u) {
          StillKnown(d1, d2, c, u);
        }
      }
    }
    forall c: Label, i: nat | Since(d0, d2, c, i) && d2.script[c][i].Wrote? ensures Produced(d2.script[c], i, d2.script[c][i].wrote) {
      if !Since(d1, d2, c, i) {
        SameAct(d1, d2, c, i);
        assert Since(d0, d1, c, i);
        SameProduced(d1.script[c], d2.script[c], i, d2.script[c][i].wrote);
      }
    }
  }

  lemma WorkOn(d0: Draft, d1: Draft, d2: Draft)
    requires Work(d0, d1, {}) && Work(d1, d2, {})
    ensures Work(d0, d2, {})
  {
    var none: set<(Label, Label)> := {};
    WorkTrans(d0, d1, d2, none, none);
    assert none + none == none;
  }

  lemma SameProduced(es: seq<Act>, es': seq<Act>, i: nat, v: VReg)
    requires i <= |es| && i <= |es'| && es'[..i] == es[..i] && Produced(es, i, v)
    ensures Produced(es', i, v)
  {
    var j :| 0 <= j < i && Yields(es[j]) == Some(v);
    assert es'[..i][j] == es[..i][j];
  }

  /** Debts are paid when the predecessors are there. */
  lemma Repaid(d0: Draft, d: Draft, s: set<(Label, Label)>)
    requires Work(d0, d, s) && forall c, t :: (c, t) in s ==> KnownPred(d, c, t)
    ensures Work(d0, d, {})
  {
  }

  // ---- One call more ----

  /** The script of block `b` got one more event. */
  lemma OneMore(d0: Draft, d: Draft, d': Draft, b: Label, ev: Act, s: set<(Label, Label)>)
    requires Work(d0, d, s) && b < |d.script| && d'.script == d.script[b := d.script[b] + [ev]]
    requires HomesKept(d0, d') && d'.preds == d.preds && d'.params == d.params
    requires ev.Wrote? ==> Produced(d.script[b], |d.script[b]|, ev.wrote)
    ensures Work(d0, d', s + if ev.Emit? then Owed(b, ev.inst.op) else {})
  {
    var k := |d.script[b]|;
    assert Extends(d0, d') by {
      forall c | 0 <= c < |d0.script| ensures d0.script[c] <= d'.script[c] {
        assert d0.script[c] <= d.script[c];
      }
    }
    hide Extends, KnownPred, Produced, HomesKept;
    forall c: Label, i: nat, u: Label | Since(d0, d', c, i) && d'.script[c][i].Emit? && (c, u) in Owed(c, d'.script[c][i].inst.op)
      ensures KnownPred(d', c, u) || (c, u) in s + if ev.Emit? then Owed(b, ev.inst.op) else {}
    {
      if c != b || i < k {
        assert Since(d0, d, c, i);
        assert KnownPred(d, c, u) ==> KnownPred(d', c, u) by { SamePreds(d, d', c, u); }
      }
    }
    forall c: Label, i: nat | Since(d0, d', c, i) && d'.script[c][i].Wrote? ensures Produced(d'.script[c], i, d'.script[c][i].wrote) {
      if c != b || i < k {
        assert Since(d0, d, c, i);
      }
      SameProduced(d.script[c], d'.script[c], i, d'.script[c][i].wrote);
    }
  }

  lemma SamePreds(d: Draft, d': Draft, c: Label, t: Label)
    requires d'.preds == d.preds
    ensures KnownPred(d, c, t) == KnownPred(d', c, t)
  {
  }

  /** Only predecessors, tables or homes changed. */
  lemma SameScripts(d0: Draft, d: Draft, d': Draft, s: set<(Label, Label)>)
    requires Work(d0, d, s) && d'.script == d.script && PredsGrow(d, d') && HomesKept(d, d') && d'.params == d.params
    ensures Work(d0, d', s)
  {
    assert Work(d, d', {}) by {
      assert Extends(d, d');
    }
    WorkTrans(d0, d, d', s, {});
    assert s + {} == s;
  }

  lemma WorkReserve(d0: Draft, d: Draft, s: set<(Label, Label)>)
    requires Work(d0, d, s) && Homes(d)
    ensures Work(d0, Reserve(d), s)
  {
    assert d.nextVreg !in d.home;
    SameScripts(d0, d, Reserve(d), s);
  }

  lemma WorkBlock(d0: Draft, d: Draft, s: set<(Label, Label)>)
    requires Work(d0, d, s)
    ensures Work(d0, NewBlock(d), s)
  {
    var d' := NewBlock(d);
    assert Work(d, d', {}) by {
      assert Extends(d, d') && PredsGrow(d, d');
    }
    WorkTrans(d0, d, d', s, {});
    assert s + {} == s;
  }

  lemma WorkPred(d0: Draft, d: Draft, b: Label, q: Label, s: set<(Label, Label)>)
    requires Work(d0, d, s) && b < |d.preds|
    ensures Work(d0, WithPred(d, b, q), s)
  {
    SameScripts(d0, d, WithPred(d, b, q), s);
  }

  /** An instruction whose register, if any, was not there at the beginning. */
  lemma WorkEmit(d0: Draft, d: Draft, b: Label, inst: Inst, s: set<(Label, Label)>)
    requires Work(d0, d, s) && b < |d.script| && (inst.dst.Some? ==> inst.dst.value !in d0.home)
    ensures Work(d0, EmitTo(d, b, inst), s + Owed(b, inst.op))
  {
    OneMore(d0, d, EmitTo(d, b, inst), b, Emit(inst), s);
  }

  lemma WorkRead(d0: Draft, d: Draft, d': Draft, b: Label, x: Name, v: VReg, s: set<(Label, Label)>)
    requires Work(d0, d, s) && Got(d, d', b, x, v) && b < |d.script|
    ensures Work(d0, d', s)
    ensures d'.script == d.script[b := d.script[b] + [Read(x, v)]] && d'.preds == d.preds && d'.sealed == d.sealed && d.nextVreg <= d'.nextVreg
  {
    var d1 :| Found(d, d1, b, x, v) && b < |d1.script| && d' == Append(d1, b, Read(x, v));
    hide Work;
    assert d1.script == d.script && d1.preds == d.preds && HomesKept(d, d1) && d1.params == d.params;
    SameScripts(d0, d, d1, s);
    assert HomesKept(d0, d') by { WorkHomes(d0, d1, s); }
    OneMore(d0, d1, d', b, Read(x, v), s);
    assert s + {} == s;
  }

  lemma WorkHomes(d0: Draft, d: Draft, s: set<(Label, Label)>)
    requires Work(d0, d, s)
    ensures HomesKept(d0, d) && Extends(d0, d) && PredsGrow(d0, d)
  {
  }

  // ---- What a value computed just now looks like ----

  /** A new register, computed at the end of block `b`. */
  function New(d: Draft, b: Label, op: Op): Draft
    requires b < |d.script|
  {
    EmitTo(Reserve(d), b, Inst(Some(d.nextVreg), op))
  }

  lemma WorkNew(d0: Draft, d: Draft, b: Label, op: Op, s: set<(Label, Label)>)
    requires Work(d0, d, s) && Homes(d) && b < |d.script| && !op.IsTerminator()
    ensures Work(d0, New(d, b, op), s)
  {
    WorkReserve(d0, d, s);
    assert d.nextVreg !in d0.home by { WorkHomes(d0, d, s); }
    WorkEmit(d0, Reserve(d), b, Inst(Some(d.nextVreg), op), s);
    assert s + {} == s;
  }

  lemma NewIs(d: Draft, b: Label, op: Op)
    requires b < |d.script| && Homes(d) && Sizes(d)
    ensures var d', v := New(d, b, op), d.nextVreg;
            && d'.script == d.script[b := d.script[b] + [Emit(Inst(Some(v), op))]]
            && Computes(d', Here(d, b), v, op) && Held(d', v, Here(d', b)) && Here(d', b) == Next(Here(d, b))
            && d'.preds == d.preds && d'.sealed == d.sealed && d'.nextVreg == v + 1
  {
  }

  /** A register just read was defined before. */
  lemma ReadIs(d: Draft, d': Draft, b: Label, x: Name, v: VReg)
    requires Good(d') && Got(d, d', b, x, v) && b < |d.script| && d'.open == {} && Sizes(d')
    ensures b < |d'.script| && ActAt(d', Here(d, b), Read(x, v)) && Held(d', v, Here(d', b)) && Here(d', b) == Next(Here(d, b))
  {
    var d1 :| Found(d, d1, b, x, v) && b < |d1.script| && d' == Append(d1, b, Read(x, v));
    assert d1.script == d.script;
    assert EndIs(d1, b, x, v) by { assert Defs(d1); }
    EndKnown(d1, b, x, v);
    assert Homes(d') && Homes(d1);
  }
}
