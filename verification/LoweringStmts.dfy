/** Building SSA from statements and whole functions (src/ssa_build.c:858-1137, 1268-1323). */
module LoweringStmts {
  import opened Wrappers
  import opened Ssa
  import opened Draft
  import opened DraftRead
  import opened DraftScript
  import opened SsaBuilder
  import opened BuilderRuns
  import opened Hir
  import opened LoweredCode
  import opened LoweringSteps
  import opened Lowering

  // ---- Simple statements ----

  /** The statement's code begins where block `b0` ended and ends where block `b1` ends now. */
  ghost predicate PartLowered(d0: Draft, b0: Label, d1: Draft, b1: Label, s: Simple, p: Part) {
    && Good(d1) && Work(d0, d1, {}) && PartOk(d1, s, p) && OnlyIn(d0, d1, b0)
    && b0 < |d0.script| && b1 < |d1.script| && LoweredCode.From(p.code) == Here(d0, b0) && p.to == Here(d1, b1)
    && (Straight(ExprOf(s)) ==> b1 == b0 && |d1.script| == |d0.script|)
  }

  /** After the expression, one event that defines no register. */
  lemma EventAfter(d0: Draft, b0: Label, d1: Draft, b1: Label, d2: Draft, e: Expr, c: Code, ev: Act)
    requires Lowered(d0, b0, d1, b1, e, c) && Spread(d0, b0, d1, b1) && d2.script == d1.script[b1 := d1.script[b1] + [ev]]
    requires d2.home == d1.home && d2.preds == d1.preds && d2.params == d1.params && !(ev.Emit? && ev.inst.op.IsTerminator())
    requires ev.Wrote? ==> ev.wrote == c.reg
    ensures Work(d0, d2, {}) && OnlyIn(d0, d2, b0) && CodeOk(d2, e, c) && ActAt(d2, To(c), ev)
    ensures b1 < |d2.script| == |d1.script| && Here(d2, b1) == Next(To(c))
  {
    hide Good, CodeOk, Produced, Lowered, Spread, Work, Extends, HomesKept, OnlyIn, LoweredCode.From;
    LoweredFacts(d0, b0, d1, b1, e, c);
    SpreadBounds(d0, b0, d1, b1);
    LastProduced(d0, b0, d1, b1, e, c);
    var none: set<(Label, Label)> := {};
    SameHomes(d0, d1, d2, b1, ev);
    OneMore(d0, d1, d2, b1, ev, none);
    assert none + (if ev.Emit? then Owed(b1, ev.inst.op) else {}) == none;
    CodeStays(d1, d2, e, c);
    OnlyEvent(d0, b0, d1, b1, d2, ev);
  }

  lemma LastProduced(d0: Draft, b0: Label, d1: Draft, b1: Label, e: Expr, c: Code)
    requires Lowered(d0, b0, d1, b1, e, c)
    ensures b1 < |d1.script| && Produced(d1.script[b1], |d1.script[b1]|, c.reg)
  {
    var es := d1.script[b1];
    assert Yields(es[|es| - 1]) == Some(c.reg);
  }

  lemma SameHomes(d0: Draft, d1: Draft, d2: Draft, b: Label, ev: Act)
    requires Work(d0, d1, {}) && b < |d1.script| && d2.script == d1.script[b := d1.script[b] + [ev]] && d2.home == d1.home
    ensures HomesKept(d0, d2) && Extends(d1, d2)
  {
    WorkHomes(d0, d1, {});
    hide Work;
  }

  lemma OnlyEvent(d0: Draft, b0: Label, d1: Draft, b1: Label, d2: Draft, ev: Act)
    requires OnlyIn(d0, d1, b0) && b1 < |d1.script| && d2.script == d1.script[b1 := d1.script[b1] + [ev]] && (b1 == b0 || b1 >= |d0.script|)
    ensures OnlyIn(d0, d2, b0)
  {
  }

  lemma SetLowered(d0: Draft, b0: Label, d1: Draft, b1: Label, x: Name, s: Simple, c: Code)
    requires Lowered(d0, b0, d1, b1, ExprOf(s), c) && Spread(d0, b0, d1, b1) && b1 < |d1.defs|
    requires (s.Let? || s.Assign?) && s.name == x && Good(WriteTo(d1, b1, x, c.reg))
    ensures PartLowered(d0, b0, WriteTo(d1, b1, x, c.reg), b1, s, Part(c, 0, 0, Next(To(c))))
  {
    LoweredFacts(d0, b0, d1, b1, ExprOf(s), c);
    LoweredStraight(d0, b0, d1, b1, ExprOf(s), c);
    EventAfter(d0, b0, d1, b1, WriteTo(d1, b1, x, c.reg), ExprOf(s), c, Wrote(x, c.reg));
    hide Good, CodeOk, Work, Lowered, Spread, OnlyIn, Straight, WriteTo;
  }

  lemma LoweredStraight(d0: Draft, b0: Label, d1: Draft, b1: Label, e: Expr, c: Code)
    requires Lowered(d0, b0, d1, b1, e, c)
    ensures Straight(e) ==> b1 == b0 && |d1.script| == |d0.script|
  {
  }

  lemma PrintLowered(d0: Draft, b0: Label, d1: Draft, b1: Label, e: Expr, c: Code)
    requires Lowered(d0, b0, d1, b1, e, c) && Spread(d0, b0, d1, b1) && Good(EmitTo(d1, b1, Inst(None, Print(c.reg))))
    ensures PartLowered(d0, b0, EmitTo(d1, b1, Inst(None, Print(c.reg))), b1, PrintOf(e), Part(c, 0, 0, Next(To(c))))
  {
    hide Good, CodeOk, Work, Lowered, Spread;
    LoweredFacts(d0, b0, d1, b1, e, c);
    LoweredStraight(d0, b0, d1, b1, e, c);
    EventAfter(d0, b0, d1, b1, EmitTo(d1, b1, Inst(None, Print(c.reg))), e, c, Act.Emit(Inst(None, Print(c.reg))));
    hide OnlyIn, Straight, EmitTo;
  }

  lemma DoLowered(d0: Draft, b0: Label, d1: Draft, b1: Label, e: Expr, c: Code)
    requires Lowered(d0, b0, d1, b1, e, c)
    ensures PartLowered(d0, b0, d1, b1, Do(e), Part(c, 0, 0, To(c)))
  {
    hide Good, CodeOk, Work, OnlyIn, Straight;
  }

  /** The target's value was read behind the expression's code. */
  ghost predicate ReadBack(d0: Draft, b0: Label, d: Draft, b1: Label, e: Expr, c: Code, x: Name, t: VReg) {
    && Good(d) && Work(d0, d, {}) && OnlyIn(d0, d, b0) && CodeOk(d, e, c) && ActAt(d, To(c), Read(x, t))
    && b0 < |d0.script| && b1 < |d.script| && Here(d, b1) == Next(To(c)) && LoweredCode.From(c) == Here(d0, b0)
    && (b1 == b0 || b1 >= |d0.script|) && (Straight(e) ==> b1 == b0 && |d.script| == |d0.script|)
  }

  lemma ReadBackIs(d0: Draft, b0: Label, d1: Draft, b1: Label, d2: Draft, e: Expr, c: Code, x: Name, t: VReg)
    requires Lowered(d0, b0, d1, b1, e, c) && Spread(d0, b0, d1, b1) && Got(d1, d2, b1, x, t) && Good(d2)
    ensures ReadBack(d0, b0, d2, b1, e, c, x, t)
  {
    hide Good, CodeOk, Lowered, Spread, Work, Extends, OnlyIn, LoweredCode.From, Got, Straight;
    LoweredFacts(d0, b0, d1, b1, e, c);
    LoweredStraight(d0, b0, d1, b1, e, c);
    SpreadBounds(d0, b0, d1, b1);
    WorkRead(d0, d1, d2, b1, x, t, {});
    WorkRefl(d1);
    WorkRead(d1, d1, d2, b1, x, t, {});
    WorkHomes(d1, d2, {});
    CodeStays(d1, d2, e, c);
    OnlyEvent(d0, b0, d1, b1, d2, Read(x, t));
  }

  /** Behind the target's value the result has been computed. */
  ghost predicate Updated(d0: Draft, b0: Label, d: Draft, b1: Label, e: Expr, c: Code, x: Name, t: VReg, op: Op, r: VReg) {
    && Work(d0, d, {}) && OnlyIn(d0, d, b0) && CodeOk(d, e, c) && ActAt(d, To(c), Read(x, t)) && Computes(d, Next(To(c)), r, op)
    && b0 < |d0.script| && b1 < |d.script| && Here(d, b1) == Next(Next(To(c))) && LoweredCode.From(c) == Here(d0, b0)
    && (b1 == b0 || b1 >= |d0.script|) && (Straight(e) ==> b1 == b0 && |d.script| == |d0.script|) && Produced(d.script[b1], |d.script[b1]|, r)
  }

  lemma UpdatedIs(d0: Draft, b0: Label, d2: Draft, b1: Label, e: Expr, c: Code, x: Name, t: VReg, op: Op)
    requires ReadBack(d0, b0, d2, b1, e, c, x, t) && Good(New(d2, b1, op)) && op.Binop?
    ensures Updated(d0, b0, New(d2, b1, op), b1, e, c, x, t, op, d2.nextVreg)
  {
    hide Good, CodeOk, Work, Extends, OnlyIn, LoweredCode.From, Straight, New, Computes, Held;
    var d3 := New(d2, b1, op);
    OnTop(d0, b0, d2, b1, op);
    CodeStays(d2, d3, e, c);
    ActStays(d2, d3, To(c), Read(x, t));
    ProducedLast(d3.script[b1], d2.nextVreg);
  }

  lemma CompoundLowered(d0: Draft, b0: Label, d2: Draft, b1: Label, aop: AssignOp, x: Name, e: Expr, c: Code, t: VReg)
    requires ReadBack(d0, b0, d2, b1, e, c, x, t) && Good(New(d2, b1, Binop(OpOf(aop), t, c.reg)))
    requires var d3 := New(d2, b1, Binop(OpOf(aop), t, c.reg)); b1 < |d3.defs| && Good(WriteTo(d3, b1, x, d2.nextVreg))
    ensures PartLowered(d0, b0, WriteTo(New(d2, b1, Binop(OpOf(aop), t, c.reg)), b1, x, d2.nextVreg), b1, Compound(aop, x, e),
                        Part(c, t, d2.nextVreg, Next(Next(Next(To(c))))))
  {
    assert b1 < |d2.script|;
    hide Good, ReadBack, New, Updated, PartLowered;
    var op, r := Binop(OpOf(aop), t, c.reg), d2.nextVreg;
    UpdatedIs(d0, b0, d2, b1, e, c, x, t, op);
    var d3 := New(d2, b1, op);
    WrittenBack(d0, b0, d3, WriteTo(d3, b1, x, r), b1, aop, x, e, c, t, r);
  }

  lemma WrittenBack(d0: Draft, b0: Label, d3: Draft, d4: Draft, b1: Label, aop: AssignOp, x: Name, e: Expr, c: Code, t: VReg, r: VReg)
    requires Updated(d0, b0, d3, b1, e, c, x, t, Binop(OpOf(aop), t, c.reg), r) && Good(d4)
    requires b1 < |d3.script| && d4.script == d3.script[b1 := d3.script[b1] + [Wrote(x, r)]]
    requires d4.home == d3.home && d4.preds == d3.preds && d4.params == d3.params
    ensures PartLowered(d0, b0, d4, b1, Compound(aop, x, e), Part(c, t, r, Next(Next(Next(To(c))))))
  {
    hide Good, CodeOk, Work, Extends, OnlyIn, LoweredCode.From, Straight, Held, Produced;
    var ev := Wrote(x, r);
    var none: set<(Label, Label)> := {};
    SameHomes(d0, d3, d4, b1, ev);
    OneMore(d0, d3, d4, b1, ev, none);
    assert none + none == none;
    CodeStays(d3, d4, e, c);
    ActStays(d3, d4, To(c), Read(x, t));
    ActStays(d3, d4, Next(To(c)), Act.Emit(Inst(Some(r), Binop(OpOf(aop), t, c.reg))));
    OnlyEvent(d0, b0, d3, b1, d4, ev);
  }

  lemma ProducedLast(es: seq<Act>, v: VReg)
    requires es != [] && Yields(es[|es| - 1]) == Some(v)
    ensures Produced(es, |es|, v)
  {
  }

  lemma LoweredHeld(d0: Draft, b0: Label, d1: Draft, b1: Label, e: Expr, c: Code)
    requires Lowered(d0, b0, d1, b1, e, c)
    ensures c.reg in d1.home && !d1.home[c.reg].Taken?
  {
    hide Good, Work, OnlyIn;
  }

  /** let, assignment, compound assignment, print and expression statements. */
  method BuildSimple(b: Builder, s: Simple) returns (ghost p: Part)
    requires b.Takes() && Lowerable(ExprOf(s))
    modifies b
    ensures b.Takes() && Spread(old(b.draft), old(b.curBlock), b.draft, b.curBlock)
    ensures Straight(ExprOf(s)) ==> b.curBlock == old(b.curBlock) && |b.draft.script| == |old(b.draft.script)|
    ensures b.Clean() ==> old(b.Clean()) && PartLowered(old(b.draft), old(b.curBlock), b.draft, b.curBlock, s, p)
  {
    hide Good, SsaBuilder.Holds, Builder.Valid, Spread, Lowered, PartLowered, Straight, Lowerable;
    b.Facts();
    ghost var d0, b0 := b.draft, b.curBlock;
    var v, c := BuildExpr(b, ExprOf(s));
    b.Facts();
    ghost var d1, b1 := b.draft, b.curBlock;
    if b.Clean() {
      LoweredHeld(d0, b0, d1, b1, ExprOf(s), c);
      LoweredFacts(d0, b0, d1, b1, ExprOf(s), c);
    }
    match s {
      case Let(x, _) =>
        p := WriteResult(b, s, x, v, d0, b0, c);
      case Assign(x, _) =>
        p := WriteResult(b, s, x, v, d0, b0, c);
      case Compound(aop, x, e) =>
        p := BuildUpdate(b, aop, x, e, v, d0, b0, c);
      case Do(e) =>
        p := Part(c, 0, 0, To(c));
        if b.Clean() {
          DoLowered(d0, b0, d1, b1, e, c);
        }
      case PrintOf(e) =>
        b.EmitInst(Inst(None, Print(v)));
        b.Facts();
        EventSpread(d0, b0, d1, b1, b.draft);
        p := Part(c, 0, 0, Next(To(c)));
        if b.Clean() {
          PrintLowered(d0, b0, d1, b1, e, c);
        }
    }
  }

  /** What a write or print leaves alone. */
  lemma EventSpread(d0: Draft, b0: Label, d1: Draft, b1: Label, d2: Draft)
    requires Spread(d0, b0, d1, b1) && |d2.script| == |d1.script| && d2.preds == d1.preds && d2.sealed == d1.sealed && d1.nextVreg <= d2.nextVreg
    ensures Spread(d0, b0, d2, b1)
  {
  }

  method WriteResult(b: Builder, s: Simple, x: Name, v: VReg, ghost d0: Draft, ghost b0: Label, ghost c: Code) returns (ghost p: Part)
    requires b.Takes() && Spread(d0, b0, b.draft, b.curBlock) && (s.Let? || s.Assign?) && s.name == x
    requires b.Clean() ==> Lowered(d0, b0, b.draft, b.curBlock, ExprOf(s), c) && c.reg == v && v in b.draft.home && !b.draft.home[v].Taken?
    modifies b
    ensures b.Takes() && Spread(d0, b0, b.draft, b.curBlock) && b.curBlock == old(b.curBlock) && |b.draft.script| == |old(b.draft.script)|
    ensures b.Clean() ==> old(b.Clean()) && PartLowered(d0, b0, b.draft, b.curBlock, s, p)
    ensures b.blocks == old(b.blocks)
  {
    hide Good, SsaBuilder.Holds, Builder.Valid, Spread, Lowered, PartLowered, Straight;
    b.Facts();
    ghost var d1, b1 := b.draft, b.curBlock;
    b.WriteVar(x, v);
    b.Facts();
    EventSpread(d0, b0, d1, b1, b.draft);
    p := Part(c, 0, 0, Next(To(c)));
    if b.Clean() {
      SetLowered(d0, b0, d1, b1, x, s, c);
    }
  }

  method BuildUpdate(b: Builder, aop: AssignOp, x: Name, ghost e: Expr, v: VReg, ghost d0: Draft, ghost b0: Label, ghost c: Code) returns (ghost p: Part)
    requires b.Takes() && Spread(d0, b0, b.draft, b.curBlock)
    requires b.Clean() ==> Lowered(d0, b0, b.draft, b.curBlock, e, c) && c.reg == v
    modifies b
    ensures b.Takes() && Spread(d0, b0, b.draft, b.curBlock) && b.curBlock == old(b.curBlock) && |b.draft.script| == |old(b.draft.script)|
    ensures b.Clean() ==> old(b.Clean()) && PartLowered(d0, b0, b.draft, b.curBlock, Compound(aop, x, e), p)
  {
    hide Good, SsaBuilder.Holds, Builder.Valid, Spread, Lowered, PartLowered, Straight, New, Got, ReadBack;
    b.Facts();
    ghost var d1, b1 := b.draft, b.curBlock;
    var t := b.ReadVarCurrent(x);
    b.Facts();
    ghost var d2 := b.draft;
    EventSpread(d0, b0, d1, b1, d2);
    if b.Clean() {
      ReadTakes(d1, d2, b1, x, t);
      ReadBackIs(d0, b0, d1, b1, d2, e, c, x, t);
    }
    var r := EmitOp(b, Binop(OpOf(aop), t, v));
    b.Facts();
    ghost var d3 := b.draft;
    Atop(d0, b0, d2, b1, Binop(OpOf(aop), t, v));
    NewHome(d2, b1, Binop(OpOf(aop), t, v));
    b.WriteVar(x, r);
    b.Facts();
    EventSpread(d0, b0, d3, b1, b.draft);
    p := Part(c, t, r, Next(Next(Next(To(c)))));
    if b.Clean() {
      CompoundLowered(d0, b0, d2, b1, aop, x, e, c, t);
    }
  }

  lemma NewHome(d: Draft, b: Label, op: Op)
    requires b < |d.script|
    ensures d.nextVreg in New(d, b, op).home && !New(d, b, op).home[d.nextVreg].Taken?
  {
  }

  // ---- Straight-line bodies ----

  /** The code of a list of straight statements, all in block `b`. */
  ghost predicate PartsLowered(d0: Draft, b: Label, d1: Draft, ss: seq<Simple>, ps: seq<Part>) {
    && Good(d1) && Work(d0, d1, {}) && OnlyIn(d0, d1, b) && b < |d0.script| == |d1.script|
    && PartsOk(d1, ss, ps, Here(d0, b)) && PartsEnd(ps, Here(d0, b)) == Here(d1, b)
  }

  lemma NoParts(d: Draft, b: Label)
    requires Good(d) && b < |d.script|
    ensures PartsLowered(d, b, d, [], [])
  {
    WorkRefl(d);
  }

  lemma MoreParts(d0: Draft, b: Label, d1: Draft, d2: Draft, ss: seq<Simple>, ps: seq<Part>, s: Simple, p: Part)
    requires PartsLowered(d0, b, d1, ss, ps) && PartLowered(d1, b, d2, b, s, p) && |d2.script| == |d1.script|
    ensures PartsLowered(d0, b, d2, ss + [s], ps + [p])
  {
    hide Good, Work, Extends, PartOk, PartsOk, OnlyIn;
    WorkOn(d0, d1, d2);
    WorkHomes(d1, d2, {});
    PartsStay(d1, d2, ss, ps, Here(d0, b));
    PartsMore(d2, ss, ps, Here(d0, b), s, p);
    OnlyTrans(d0, b, d1, b, d2);
  }

  lemma PartsMore(d: Draft, ss: seq<Simple>, ps: seq<Part>, start: Point, s: Simple, p: Part)
    requires PartsOk(d, ss, ps, start) && PartOk(d, s, p) && LoweredCode.From(p.code) == PartsEnd(ps, start)
    ensures PartsOk(d, ss + [s], ps + [p], start) && PartsEnd(ps + [p], start) == p.to
  {
    hide PartOk;
    assert (ss + [s])[..|ss|] == ss && (ps + [p])[..|ps|] == ps;
  }

  method BuildBody(b: Builder, ss: seq<Simple>) returns (ghost ps: seq<Part>)
    requires b.Takes() && StraightCode(ss)
    modifies b
    ensures b.Takes() && Spread(old(b.draft), old(b.curBlock), b.draft, b.curBlock)
    ensures b.curBlock == old(b.curBlock) && |b.draft.script| == |old(b.draft.script)|
    ensures b.Clean() ==> old(b.Clean()) && PartsLowered(old(b.draft), b.curBlock, b.draft, ss, ps)
  {
    hide Good, SsaBuilder.Holds, Builder.Valid, Spread, PartsLowered, PartLowered, Straight, Lowerable;
    b.Facts();
    ghost var d0, b0 := b.draft, b.curBlock;
    ps := [];
    SpreadSame(d0, b0, d0);
    if b.Clean() {
      NoParts(d0, b0);
    }
    for i := 0 to |ss|
      invariant b.Takes() && Spread(d0, b0, b.draft, b.curBlock) && b.curBlock == b0 && |b.draft.script| == |d0.script|
      invariant b.Clean() ==> old(b.Clean()) && PartsLowered(d0, b0, b.draft, ss[..i], ps)
    {
      ghost var d1 := b.draft;
      assert Straight(ExprOf(ss[i]));
      StraightIsLowerable(ExprOf(ss[i]));
      ghost var p := BuildSimple(b, ss[i]);
      SpreadTrans(d0, b0, d1, b0, b.draft, b.curBlock);
      if b.Clean() {
        MoreParts(d0, b0, d1, b.draft, ss[..i], ps, ss[i], p);
      }
      assert ss[..i] + [ss[i]] == ss[..i + 1];
      ps := ps + [p];
    }
    assert ss[..|ss|] == ss;
  }

  /** A body built in a block of its own, which jumps to `target` and is sealed. */
  ghost predicate ArmBuilt(d0: Draft, d: Draft, block: Label, target: Label, ss: seq<Simple>, ps: seq<Part>) {
    && Good(d) && Work(d0, d, {(block, target)}) && OnlyIn(d0, d, block) && block < |d0.script| == |d.script|
    && BodyOk(d, ss, ps, block, |d.script|, target) && Ended(d.script[block])
  }

  lemma BodyIs(d1: Draft, block: Label, d2: Draft, ss: seq<Simple>, ps: seq<Part>, target: Label, d3: Draft)
    requires PartsLowered(d1, block, d2, ss, ps) && block < |d1.script| && d1.script[block] == []
    requires Extends(d2, d3) && Ends(d3, Here(d2, block), Jump(target)) && |d3.script| == |d2.script|
    ensures BodyOk(d3, ss, ps, block, |d3.script|, target)
  {
    hide Good, Work, Extends, OnlyIn, PartsOk, Ends;
    PartsStay(d2, d3, ss, ps, Here(d1, block));
  }

  lemma ArmIs(d0: Draft, orig: Label, block: Label, d2: Draft, ss: seq<Simple>, ps: seq<Part>, target: Label, d4: Draft)
    requires block < |d0.script| == |d0.preds| && d0.script[block] == []
    requires PartsLowered(WithPred(d0, block, orig), block, d2, ss, ps)
    requires SealedOnly(EmitTo(d2, block, Inst(None, Jump(target))), d4, block) && Good(d4)
    ensures ArmBuilt(d0, d4, block, target, ss, ps)
  {
    hide Good, Extends, HomesKept, PartsOk, Work, BodyOk, Ended, Ends;
    var d1 := WithPred(d0, block, orig);
    var none: set<(Label, Label)> := {};
    WorkRefl(d0);
    WorkPred(d0, d0, block, orig, none);
    WorkOn(d0, d1, d2);
    ClosedWork(d0, d2, d4, block, Jump(target), none);
    assert none + Owed(block, Jump(target)) == {(block, target)};
    BodyIs(d1, block, d2, ss, ps, target, d4);
  }

  lemma FirstPart(d: Draft, ss: seq<Simple>, ps: seq<Part>, start: Point)
    requires PartsOk(d, ss, ps, start) && ss != []
    ensures start.block < |d.script| && start.at < |d.script[start.block]| && !d.script[start.block][start.at].Wrote?
    decreases |ss|
  {
    var n := |ss| - 1;
    if n == 0 {
      FirstAct(d, ExprOf(ss[0]), ps[0].code);
    } else {
      FirstPart(d, ss[..n], ps[..n], start);
    }
  }

  lemma BodyHasCode(d0: Draft, b: Label, d1: Draft, ss: seq<Simple>, ps: seq<Part>)
    requires PartsLowered(d0, b, d1, ss, ps) && ss != [] && b < |d0.script| && d0.script[b] == []
    ensures b < |d1.script| && d1.script[b] != [] && !d1.script[b][0].Wrote?
  {
    FirstPart(d1, ss, ps, Here(d0, b));
  }

  /** A branch or loop body: its own block, reached from `orig`, left by a jump to `target`.  In
      an if with else the jump is only emitted behind an instruction that is no terminator. */
  method BuildArm(b: Builder, block: Label, orig: Label, ss: seq<Simple>, target: Label, always: bool) returns (ghost ps: seq<Part>)
    requires b.Ready() && 0 < block < |b.draft.script| && orig < block && block < |b.draft.sealed| && !b.draft.sealed[block]
    requires block < |b.draft.preds| && b.draft.preds[block] == [] && StraightCode(ss) && (always || ss != [])
    requires b.Clean() ==> b.draft.script[block] == [] && Ended(b.draft.script[orig])
    modifies b
    ensures b.Ready() && b.curBlock == block && old(b.nextVreg) <= b.nextVreg && |b.draft.script| == |old(b.draft.script)|
    ensures block < |old(b.draft.preds)| && b.draft.preds == old(b.draft.preds)[block := [orig]]
    ensures block < |old(b.draft.sealed)| && b.draft.sealed == old(b.draft.sealed)[block := true]
    ensures b.Clean() ==> old(b.Clean()) && ArmBuilt(old(b.draft), b.draft, block, target, ss, ps)
  {
    hide Good, SsaBuilder.Holds, Builder.Valid, SealedOnly, ArmBuilt, PartsLowered, Ended, Spread;
    b.Facts();
    ghost var d0 := b.draft;
    assert d0.preds[block] + [orig] == [orig];
    Enter(b, block, orig);
    b.Facts();
    ghost var d1 := b.draft;
    NotEnded(d1.script[block]);
    ps := BuildBody(b, ss);
    b.Facts();
    ghost var d2 := b.draft;
    SameGraph(d1, block, d2);
    JumpOut(b, d1, ss, ps, target, always);
    b.Facts();
    if b.Clean() {
      PartsOnly(d1, block, d2, ss, ps);
      OthersStay(d1, d2, block, Jump(target), orig);
    }
    CloseBlock(b, block);
    b.Facts();
    if b.Clean() {
      ArmIs(d0, orig, block, d2, ss, ps, target, b.draft);
    }
  }

  lemma PartsOnly(d0: Draft, b: Label, d1: Draft, ss: seq<Simple>, ps: seq<Part>)
    requires PartsLowered(d0, b, d1, ss, ps)
    ensures OnlyIn(d0, d1, b) && |d1.script| == |d0.script| && Work(d0, d1, {}) && Good(d1)
  {
  }

  method JumpOut(b: Builder, ghost d1: Draft, ghost ss: seq<Simple>, ghost ps: seq<Part>, target: Label, always: bool)
    requires b.Takes() && b.curBlock < |d1.script| && b.curBlock != 0 && b.curBlock < |b.draft.sealed| && !b.draft.sealed[b.curBlock] && (always || ss != [])
    requires b.Clean() ==> PartsLowered(d1, b.curBlock, b.draft, ss, ps) && d1.script[b.curBlock] == []
    modifies b
    ensures b.Ready() && b.curBlock == old(b.curBlock) && (b.Clean() <==> old(b.Clean()))
    ensures |b.draft.script| == |old(b.draft.script)| && b.draft.preds == old(b.draft.preds) && b.draft.sealed == old(b.draft.sealed) && b.nextVreg == old(b.nextVreg)
    ensures b.curBlock < |old(b.draft.script)| && (b.Clean() ==> b.draft == EmitTo(old(b.draft), b.curBlock, Inst(None, Jump(target))))
  {
    hide Good, SsaBuilder.Holds, Builder.Valid, PartsLowered, Ended;
    b.Facts();
    var insts := b.blocks[b.curBlock];
    if b.Clean() && !always {
      BodyHasCode(d1, b.curBlock, b.draft, ss, ps);
      b.FilledBody();
      b.OpenEnd();
    }
    if always || (|insts| > 0 && !insts[|insts| - 1].op.IsTerminator()) {
      EndsNow(b.draft, b.curBlock, Jump(target));
      Terminate(b, Jump(target));
      b.Facts();
    }
  }

  // ---- Branches ----

  /** `k` more blocks. */
  function Grown(d: Draft, k: nat): Draft {
    if k == 0 then d else NewBlock(Grown(d, k - 1))
  }

  lemma {:induction false} GrownIs(d: Draft, k: nat)
    requires |d.script| == |d.preds| == |d.sealed|
    ensures var d', n := Grown(d, k), |d.script|;
            && |d'.script| == |d'.preds| == |d'.sealed| == n + k && d'.script[..n] == d.script && d'.preds[..n] == d.preds && d'.sealed[..n] == d.sealed
            && (forall c :: n <= c < n + k ==> d'.script[c] == [] && d'.preds[c] == [] && !d'.sealed[c])
            && d'.nextVreg == d.nextVreg && Work(d, d', {})
  {
    if k == 0 {
      WorkRefl(d);
    } else {
      GrownIs(d, k - 1);
      hide Work;
      WorkBlock(d, Grown(d, k - 1), {});
    }
  }

  /** Block `b` ends with `op`, and there are `k` more blocks. */
  function Opened(d: Draft, b: Label, op: Op, k: nat): Draft
    requires b < |Grown(d, k).script|
  {
    EmitTo(Grown(d, k), b, Inst(None, op))
  }

  lemma OpenedIs(d: Draft, b: Label, op: Op, k: nat)
    requires |d.script| == |d.preds| == |d.sealed| && b < |d.script| && op.IsTerminator() && b < |Grown(d, k).script|
    ensures var d', n := Opened(d, b, op, k), |d.script|;
            && |d'.script| == |d'.preds| == |d'.sealed| == n + k && d'.preds[..n] == d.preds && d'.sealed[..n] == d.sealed
            && (forall c :: n <= c < n + k ==> d'.script[c] == [] && d'.preds[c] == [] && !d'.sealed[c])
            && d'.nextVreg == d.nextVreg && Work(d, d', Owed(b, op)) && Ends(d', Here(d, b), op) && Ended(d'.script[b])
  {
    GrownIs(d, k);
    hide Work;
    var none: set<(Label, Label)> := {};
    WorkEmit(d, Grown(d, k), b, Inst(None, op), none);
    assert none + Owed(b, op) == Owed(b, op);
  }

  /** A block got its predecessors and was sealed. */
  ghost predicate MeetOnly(d: Draft, d': Draft, merge: Label, ps: seq<Label>) {
    && Good(d') && d'.script == d.script && merge < |d.preds| && d'.preds == d.preds[merge := ps] && HomesKept(d, d') && d'.params == d.params
  }

  method Join(b: Builder, merge: Label, p: Label, q: Label)
    requires b.Ready() && 0 < merge < |b.draft.script| && p < |b.draft.script| && q < |b.draft.script|
    requires merge < |b.draft.sealed| && !b.draft.sealed[merge] && merge < |b.draft.preds| && b.draft.preds[merge] == []
    requires b.Clean() ==> b.draft.script[merge] == [] && Ended(b.draft.script[p]) && Ended(b.draft.script[q])
    modifies b
    ensures b.Takes() && b.curBlock == merge && old(b.nextVreg) <= b.nextVreg && |b.draft.script| == |old(b.draft.script)|
    ensures merge < |old(b.draft.preds)| && b.draft.preds == old(b.draft.preds)[merge := [p, q]]
    ensures merge < |old(b.draft.sealed)| && b.draft.sealed == old(b.draft.sealed)[merge := true]
    ensures b.Clean() ==> old(b.Clean()) && MeetOnly(old(b.draft), b.draft, merge, [p, q])
  {
    hide Good, SsaBuilder.Holds, Builder.Valid, Ended, HomesKept;
    b.Facts();
    ghost var d := b.draft;
    assert d.preds[merge] + [p] == [p] && [p] + [q] == [p, q];
    Enter(b, merge, p);
    b.Facts();
    b.AddPred(merge, q);
    b.Facts();
    ghost var d1 := b.draft;
    NotEnded(d1.script[merge]);
    CloseBlock(b, merge);
    b.Facts();
    SameHome(d, d1, b.draft);
  }

  lemma SameHome(d: Draft, d1: Draft, d2: Draft)
    requires d1.home == d.home
    ensures HomesKept(d1, d2) ==> HomesKept(d, d2)
  {
  }

  /** The statement's code begins where block `b0` ended and ends where block `b1` ends now. */
  ghost predicate FlowLowered(d0: Draft, b0: Label, d1: Draft, b1: Label, s: Stmt, f: Flow) {
    && Good(d1) && Work(d0, d1, {}) && FlowOk(d1, s, f)
    && b0 < |d0.script| && b1 < |d1.script| && FlowFrom(f) == Here(d0, b0) && FlowTo(f) == Here(d1, b1)
  }

  lemma ArmFacts(d0: Draft, d: Draft, block: Label, target: Label, ss: seq<Simple>, ps: seq<Part>)
    requires ArmBuilt(d0, d, block, target, ss, ps)
    ensures Good(d) && Work(d0, d, {(block, target)}) && block < |d0.script| == |d.script| && Ended(d.script[block])
    ensures BodyOk(d, ss, ps, block, |d.script|, target)
    ensures forall r :: 0 <= r < |d.script| && r != block ==> d.script[r] == d0.script[r]
  {
    hide Good, Work, BodyOk, Ended;
  }

  lemma MeetFacts(d: Draft, d': Draft, merge: Label, ps: seq<Label>)
    requires MeetOnly(d, d', merge, ps) && d.preds[merge] == []
    ensures Good(d') && d'.script == d.script && d'.preds == d.preds[merge := ps] && Extends(d, d') && Work(d, d', {})
  {
    WorkRefl(d);
    assert PredsGrow(d, d');
    hide Good, Work;
    SameScripts(d, d, d', {});
  }

  /** An if without else. */
  lemma IfLowered(d0: Draft, b0: Label, d1: Draft, b1: Label, c: Expr, cc: Code, thens: seq<Simple>, ps: seq<Part>, d2: Draft, d3: Draft)
    requires Lowered(d0, b0, d1, b1, c, cc) && Spread(d0, b0, d1, b1)
    requires var n := |d1.script|;
             && b1 < |Grown(d1, 2).script| && ArmBuilt(Opened(d1, b1, Branch(cc.reg, n, n + 1), 2), d2, n, n + 1, thens, ps)
             && n + 1 < |d2.preds| && d2.preds[n + 1] == [] && d2.preds[n] == [b1] && MeetOnly(d2, d3, n + 1, [b1, n]) && |d3.script| == n + 2
             && d3.script[n + 1] == []
    ensures FlowLowered(d0, b0, d3, |d1.script| + 1, If(c, thens, None), Split(cc, ps, None))
  {
    hide Good, Work, Lowered, Spread, ArmBuilt, MeetOnly, CodeOk, BodyOk, Ends, Extends, Opened, Grown, Ended, HomesKept, LoweredCode.From;
    var n := |d1.script|;
    var op := Branch(cc.reg, n, n + 1);
    var df := Opened(d1, b1, op, 2);
    LoweredFacts(d0, b0, d1, b1, c, cc);
    SpreadBounds(d0, b0, d1, b1);
    SpreadSizes(d0, b0, d1, b1);
    OpenedIs(d1, b1, op, 2);
    ArmFacts(df, d2, n, n + 1, thens, ps);
    MeetFacts(d2, d3, n + 1, [b1, n]);
    var debts := Owed(b1, op) + {(n, n + 1)};
    WorkTrans(d1, df, d2, Owed(b1, op), {(n, n + 1)});
    WorkTrans(d1, d2, d3, debts, {});
    assert debts + {} == debts;
    assert d3.preds[n] == [b1] && d3.preds[n + 1] == [b1, n];
    KnownOne(d3, b1, n);
    KnownTwo(d3, b1, n, n + 1);
    Repaid(d1, d3, debts);
    WorkOn(d0, d1, d3);
    WorkHomes(d1, d3, {});
    WorkHomes(df, d2, {(n, n + 1)});
    CodeStays(d1, d3, c, cc);
    EndsStay(df, d2, To(cc), op);
    EndsStay(d2, d3, To(cc), op);
    BodyStays(d2, d3, thens, ps, n, n + 2, n + 1);
  }

  lemma SpreadSizes(d0: Draft, b0: Label, d1: Draft, b1: Label)
    requires Spread(d0, b0, d1, b1)
    ensures |d1.script| == |d1.preds| == |d1.sealed|
  {
  }

  lemma KnownOne(d: Draft, p: Label, t: Label)
    requires t < |d.preds| && d.preds[t] == [p]
    ensures KnownPred(d, p, t)
  {
    assert d.preds[t][0] == p;
  }

  lemma KnownTwo(d: Draft, p: Label, q: Label, t: Label)
    requires t < |d.preds| && d.preds[t] == [p, q]
    ensures KnownPred(d, p, t) && KnownPred(d, q, t)
  {
    assert d.preds[t][0] == p && d.preds[t][1] == q;
  }

  lemma IfElseLowered(d0: Draft, b0: Label, d1: Draft, b1: Label, c: Expr, cc: Code, thens: seq<Simple>, ps: seq<Part>,
                      elses: seq<Simple>, qs: seq<Part>, d2: Draft, d3: Draft, d4: Draft)
    requires Lowered(d0, b0, d1, b1, c, cc) && Spread(d0, b0, d1, b1)
    requires var n := |d1.script|;
             && b1 < |Grown(d1, 3).script| && ArmBuilt(Opened(d1, b1, Branch(cc.reg, n, n + 1), 3), d2, n, n + 2, thens, ps)
             && ArmBuilt(d2, d3, n + 1, n + 2, elses, qs) && |d3.preds| == n + 3 && d3.preds[n] == [b1] && d3.preds[n + 1] == [b1] && d3.preds[n + 2] == []
             && MeetOnly(d3, d4, n + 2, [n, n + 1]) && |d4.script| == n + 3 && d4.script[n + 2] == []
    ensures FlowLowered(d0, b0, d4, |d1.script| + 2, If(c, thens, Some(elses)), Split(cc, ps, Some(qs)))
  {
    hide Good, Work, Lowered, Spread, ArmBuilt, MeetOnly, CodeOk, BodyOk, Ends, Extends, Opened, Grown, Ended, HomesKept, LoweredCode.From;
    var n := |d1.script|;
    var op := Branch(cc.reg, n, n + 1);
    var df := Opened(d1, b1, op, 3);
    LoweredFacts(d0, b0, d1, b1, c, cc);
    SpreadBounds(d0, b0, d1, b1);
    SpreadSizes(d0, b0, d1, b1);
    OpenedIs(d1, b1, op, 3);
    ArmFacts(df, d2, n, n + 2, thens, ps);
    ArmFacts(d2, d3, n + 1, n + 2, elses, qs);
    MeetFacts(d3, d4, n + 2, [n, n + 1]);
    WorkTrans(d1, df, d2, Owed(b1, op), {(n, n + 2)});
    WorkTrans(d1, d2, d3, Owed(b1, op) + {(n, n + 2)}, {(n + 1, n + 2)});
    var debts := Owed(b1, op) + {(n, n + 2)} + {(n + 1, n + 2)};
    WorkTrans(d1, d3, d4, debts, {});
    assert debts + {} == debts;
    assert d4.preds[n] == [b1] && d4.preds[n + 1] == [b1] && d4.preds[n + 2] == [n, n + 1];
    KnownOne(d4, b1, n);
    KnownOne(d4, b1, n + 1);
    KnownTwo(d4, n, n + 1, n + 2);
    Repaid(d1, d4, debts);
    WorkOn(d0, d1, d4);
    WorkHomes(d1, d4, {});
    WorkHomes(df, d2, {(n, n + 2)});
    WorkHomes(d2, d3, {(n + 1, n + 2)});
    CodeStays(d1, d4, c, cc);
    EndsStay(df, d2, To(cc), op);
    EndsStay(d2, d3, To(cc), op);
    EndsStay(d3, d4, To(cc), op);
    BodyStays(d2, d3, thens, ps, n, n + 3, n + 2);
    BodyStays(d3, d4, thens, ps, n, n + 3, n + 2);
    BodyStays(d3, d4, elses, qs, n + 1, n + 3, n + 2);
  }

  method OpenIf(b: Builder, cond: VReg) returns (thenBb: Label, mergeBb: Label)
    requires b.Takes()
    modifies b
    ensures b.Ready() && b.curBlock == old(b.curBlock) && (b.Clean() <==> old(b.Clean()))
    ensures thenBb == |old(b.draft.script)| && mergeBb == thenBb + 1
    ensures b.curBlock < |Grown(old(b.draft), 2).script| && b.draft == Opened(old(b.draft), b.curBlock, Branch(cond, thenBb, mergeBb), 2)
  {
    hide Good, SsaBuilder.Holds, Builder.Valid, Grown, Opened;
    b.Facts();
    ghost var d := b.draft;
    TwoMore(d);
    thenBb := b.AddBlock();
    mergeBb := b.AddBlock();
    OpenedUnfolds(d, b.curBlock, Branch(cond, thenBb, mergeBb), 2);
    Terminate(b, Branch(cond, thenBb, mergeBb));
  }

  method OpenIfElse(b: Builder, cond: VReg) returns (thenBb: Label, elseBb: Label, mergeBb: Label)
    requires b.Takes()
    modifies b
    ensures b.Ready() && b.curBlock == old(b.curBlock) && (b.Clean() <==> old(b.Clean()))
    ensures thenBb == |old(b.draft.script)| && elseBb == thenBb + 1 && mergeBb == thenBb + 2
    ensures b.curBlock < |Grown(old(b.draft), 3).script| && b.draft == Opened(old(b.draft), b.curBlock, Branch(cond, thenBb, elseBb), 3)
  {
    hide Good, SsaBuilder.Holds, Builder.Valid, Grown, Opened;
    b.Facts();
    ghost var d := b.draft;
    TwoMore(d);
    thenBb := b.AddBlock();
    elseBb := b.AddBlock();
    mergeBb := b.AddBlock();
    OpenedUnfolds(d, b.curBlock, Branch(cond, thenBb, elseBb), 3);
    Terminate(b, Branch(cond, thenBb, elseBb));
  }

  /** Both bodies of an if with else, in blocks `n` and `n + 1`; `mid` is the draft between them. */
  method BuildArms(b: Builder, n: Label, orig: Label, thens: seq<Simple>, elses: seq<Simple>) returns (ghost mid: Draft, ghost ps: seq<Part>, ghost qs: seq<Part>)
    requires b.Ready() && 0 < n && n + 3 == |b.draft.script| == |b.draft.preds| == |b.draft.sealed| && orig < n
    requires !b.draft.sealed[n] && !b.draft.sealed[n + 1] && !b.draft.sealed[n + 2]
    requires b.draft.preds[n] == b.draft.preds[n + 1] == b.draft.preds[n + 2] == []
    requires StraightCode(thens) && StraightCode(elses) && thens != [] && elses != []
    requires b.Clean() ==> b.draft.script[n] == b.draft.script[n + 1] == b.draft.script[n + 2] == [] && Ended(b.draft.script[orig])
    modifies b
    ensures b.Ready() && old(b.nextVreg) <= b.nextVreg && |b.draft.script| == |b.draft.preds| == |b.draft.sealed| == n + 3
    ensures b.draft.preds == old(b.draft.preds)[n := [orig]][n + 1 := [orig]]
    ensures b.draft.sealed == old(b.draft.sealed)[n := true][n + 1 := true]
    ensures b.Clean() ==> old(b.Clean()) && ArmBuilt(old(b.draft), mid, n, n + 2, thens, ps) && ArmBuilt(mid, b.draft, n + 1, n + 2, elses, qs)
    ensures b.Clean() ==> b.draft.script[n + 2] == [] && Ended(b.draft.script[n]) && Ended(b.draft.script[n + 1])
  {
    hide Good, SsaBuilder.Holds, Builder.Valid, ArmBuilt, Ended, StraightCode;
    ghost var d := b.draft;
    ps := BuildArm(b, n, orig, thens, n + 2, false);
    b.Facts();
    mid := b.draft;
    if b.Clean() {
      ArmFacts(d, mid, n, n + 2, thens, ps);
    }
    qs := BuildArm(b, n + 1, orig, elses, n + 2, false);
    b.Facts();
    if b.Clean() {
      ArmFacts(mid, b.draft, n + 1, n + 2, elses, qs);
    }
  }

  method BuildIf(b: Builder, c: Expr, thens: seq<Simple>) returns (ghost f: Flow)
    requires b.Takes() && Lowerable(c) && StraightCode(thens)
    modifies b
    ensures b.Takes() && Spread(old(b.draft), old(b.curBlock), b.draft, b.curBlock)
    ensures b.Clean() ==> old(b.Clean()) && FlowLowered(old(b.draft), old(b.curBlock), b.draft, b.curBlock, If(c, thens, None), f)
  {
    hide Good, SsaBuilder.Holds, Builder.Valid, Spread, Lowered, FlowLowered, Lowerable, StraightCode;
    ghost var d0, b0 := b.draft, b.curBlock;
    var cond, cc := BuildExpr(b, c);
    f := BuildThen(b, cond, thens, d0, b0, c, cc);
  }

  method BuildThen(b: Builder, cond: VReg, thens: seq<Simple>, ghost d0: Draft, ghost b0: Label, ghost c: Expr, ghost cc: Code) returns (ghost f: Flow)
    requires b.Takes() && Spread(d0, b0, b.draft, b.curBlock) && StraightCode(thens)
    requires b.Clean() ==> Lowered(d0, b0, b.draft, b.curBlock, c, cc) && cc.reg == cond
    modifies b
    ensures b.Takes() && Spread(d0, b0, b.draft, b.curBlock)
    ensures b.Clean() ==> old(b.Clean()) && FlowLowered(d0, b0, b.draft, b.curBlock, If(c, thens, None), f)
  {
    hide Good, SsaBuilder.Holds, Builder.Valid, Spread, Lowered, ArmBuilt, MeetOnly, FlowLowered, Opened, Grown, Ended, StraightCode;
    b.Facts();
    ghost var d1, b1 := b.draft, b.curBlock;
    var orig := b.curBlock;
    var thenBb, mergeBb := OpenIf(b, cond);
    SpreadSizes(d0, b0, d1, b1);
    OpenedIs(d1, b1, Branch(cond, thenBb, mergeBb), 2);
    b.Facts();
    ghost var df := b.draft;
    ghost var ps := BuildArm(b, thenBb, orig, thens, mergeBb, true);
    b.Facts();
    ghost var d2 := b.draft;
    if b.Clean() {
      ArmFacts(df, d2, thenBb, mergeBb, thens, ps);
    }
    Join(b, mergeBb, orig, thenBb);
    b.Facts();
    f := Split(cc, ps, None);
    FlowSpread(d0, b0, d1, b1, df, b.draft, mergeBb, 2);
    if b.Clean() {
      IfSame(d2, b.draft, mergeBb, [orig, thenBb]);
      IfLowered(d0, b0, d1, b1, c, cc, thens, ps, d2, b.draft);
    }
  }

  lemma IfSame(d: Draft, d': Draft, merge: Label, ps: seq<Label>)
    requires MeetOnly(d, d', merge, ps)
    ensures d'.script == d.script
  {
  }

  lemma OpenedUnfolds(d: Draft, b: Label, op: Op, k: nat)
    requires b < |Grown(d, k).script|
    ensures Opened(d, b, op, k) == EmitTo(Grown(d, k), b, Inst(None, op))
  {
  }

  lemma TwoMore(d: Draft)
    ensures Grown(d, 2) == NewBlock(NewBlock(d)) && |Grown(d, 2).script| == |d.script| + 2
    ensures Grown(d, 3) == NewBlock(NewBlock(NewBlock(d))) && |Grown(d, 3).script| == |d.script| + 3
  {
    assert Grown(d, 1) == NewBlock(d);
    assert Grown(d, 2) == NewBlock(NewBlock(d));
  }

  /** All new blocks have been sealed. */
  lemma FlowSpread(d0: Draft, b0: Label, d1: Draft, b1: Label, df: Draft, d: Draft, to: Label, k: nat)
    requires Spread(d0, b0, d1, b1) && |d.script| == |d.preds| == |d.sealed| == |d1.script| + k && d1.nextVreg <= d.nextVreg
    requires |d1.preds| == |d1.script| == |d1.sealed| && |df.preds| == |df.sealed| == |d.script| && df.preds[..|d1.preds|] == d1.preds && df.sealed[..|d1.sealed|] == d1.sealed
    requires forall c :: 0 <= c < |d1.script| ==> d.preds[c] == df.preds[c] && d.sealed[c] == df.sealed[c]
    requires forall c :: |d1.script| <= c < |d.script| ==> d.sealed[c]
    requires |d1.script| <= to < |d.script|
    ensures Spread(d0, b0, d, to)
  {
    assert d.preds[..|d1.preds|] == d1.preds && d.sealed[..|d1.sealed|] == d1.sealed;
    SpreadTrans(d0, b0, d1, b1, d, to);
  }

  method BuildIfElse(b: Builder, c: Expr, thens: seq<Simple>, elses: seq<Simple>) returns (ghost f: Flow)
    requires b.Takes() && Lowerable(c) && StraightCode(thens) && StraightCode(elses) && thens != [] && elses != []
    modifies b
    ensures b.Takes() && Spread(old(b.draft), old(b.curBlock), b.draft, b.curBlock)
    ensures b.Clean() ==> old(b.Clean()) && FlowLowered(old(b.draft), old(b.curBlock), b.draft, b.curBlock, If(c, thens, Some(elses)), f)
  {
    hide Good, SsaBuilder.Holds, Builder.Valid, Spread, Lowered, FlowLowered, Lowerable, StraightCode;
    ghost var d0, b0 := b.draft, b.curBlock;
    var cond, cc := BuildExpr(b, c);
    f := BuildThenElse(b, cond, thens, elses, d0, b0, c, cc);
  }

  method BuildThenElse(b: Builder, cond: VReg, thens: seq<Simple>, elses: seq<Simple>, ghost d0: Draft, ghost b0: Label, ghost c: Expr, ghost cc: Code) returns (ghost f: Flow)
    requires b.Takes() && Spread(d0, b0, b.draft, b.curBlock) && StraightCode(thens) && StraightCode(elses) && thens != [] && elses != []
    requires b.Clean() ==> Lowered(d0, b0, b.draft, b.curBlock, c, cc) && cc.reg == cond
    modifies b
    ensures b.Takes() && Spread(d0, b0, b.draft, b.curBlock)
    ensures b.Clean() ==> old(b.Clean()) && FlowLowered(d0, b0, b.draft, b.curBlock, If(c, thens, Some(elses)), f)
  {
    hide Good, SsaBuilder.Holds, Builder.Valid, Spread, Lowered, ArmBuilt, MeetOnly, FlowLowered, Opened, Grown, Ended, StraightCode;
    b.Facts();
    ghost var d1, b1 := b.draft, b.curBlock;
    var orig := b.curBlock;
    var thenBb, elseBb, mergeBb := OpenIfElse(b, cond);
    SpreadSizes(d0, b0, d1, b1);
    OpenedIs(d1, b1, Branch(cond, thenBb, elseBb), 3);
    b.Facts();
    ghost var df := b.draft;
    ghost var d2, ps, qs := BuildArms(b, thenBb, orig, thens, elses);
    b.Facts();
    ghost var d3 := b.draft;
    Join(b, mergeBb, thenBb, elseBb);
    b.Facts();
    f := Split(cc, ps, Some(qs));
    FlowSpread(d0, b0, d1, b1, df, b.draft, mergeBb, 3);
    if b.Clean() {
      IfSame(d3, b.draft, mergeBb, [thenBb, elseBb]);
      IfElseLowered(d0, b0, d1, b1, c, cc, thens, ps, elses, qs, d2, d3, b.draft);
    }
  }

  // ---- Loops ----

  /** The header of a loop has been built in block `n`, and branches. */
  ghost predicate HeaderBuilt(d0: Draft, b0: Label, d: Draft, c: Expr, cc: Code) {
    var n := |d0.script|;
    && Good(d) && Work(d0, d, {(b0, n), (n, n + 1), (n, n + 2)}) && b0 < n && |d.script| == n + 3
    && Ends(d, Here(d0, b0), Jump(n)) && CodeOk(d, c, cc) && LoweredCode.From(cc) == Point(n, 0, n + 3) && To(cc).block == n
    && Ends(d, To(cc), Branch(cc.reg, n + 1, n + 2)) && Ended(d.script[b0]) && Ended(d.script[n])
    && d.script[n + 1] == [] && d.script[n + 2] == []
  }

  lemma HeaderIs(d0: Draft, b0: Label, c: Expr, cc: Code, d2: Draft)
    requires |d0.script| == |d0.preds| == |d0.sealed| && b0 < |d0.script| && b0 < |Grown(d0, 3).script| && Straight(c)
    requires var n := |d0.script|; var df := Opened(d0, b0, Jump(n), 3);
             && n < |df.preds| && Good(df) && Lowered(WithPred(df, n, b0), n, d2, n, c, cc)
             && |d2.script| == n + 3 && Good(EmitTo(d2, n, Inst(None, Branch(cc.reg, n + 1, n + 2))))
    ensures var n := |d0.script|; HeaderBuilt(d0, b0, EmitTo(d2, n, Inst(None, Branch(cc.reg, n + 1, n + 2))), c, cc)
  {
    hide Good, Work, Lowered, CodeOk, Ends, Extends, Opened, Grown, Ended, HomesKept, LoweredCode.From, OnlyIn, EmitTo;
    var n := |d0.script|;
    var df := Opened(d0, b0, Jump(n), 3);
    var d1 := WithPred(df, n, b0);
    var op := Branch(cc.reg, n + 1, n + 2);
    var d3 := EmitTo(d2, n, Inst(None, op));
    OpenedIs(d0, b0, Jump(n), 3);
    LoweredFacts(d1, n, d2, n, c, cc);
    WorkPred(d0, df, n, b0, Owed(b0, Jump(n)));
    WorkTrans(d0, d1, d2, Owed(b0, Jump(n)), {});
    assert Owed(b0, Jump(n)) + {} == Owed(b0, Jump(n));
    WorkEmit(d0, d2, n, Inst(None, op), Owed(b0, Jump(n)));
    assert Owed(b0, Jump(n)) + Owed(n, op) == {(b0, n), (n, n + 1), (n, n + 2)};
    EndsNow(d2, n, op);
    WorkHomes(d1, d2, {});
    NoDst(d2, n, op);
    WithPredExtends(df, n, b0);
    EndsStay(df, d1, Here(d0, b0), Jump(n));
    EndsStay(d1, d2, Here(d0, b0), Jump(n));
    EndsStay(d2, d3, Here(d0, b0), Jump(n));
    CodeStays(d2, d3, c, cc);
    HeaderScripts(df, d1, d2, d3, b0, n);
  }

  lemma NoDst(d: Draft, b: Label, op: Op)
    requires b < |d.script|
    ensures Extends(d, EmitTo(d, b, Inst(None, op))) && EmitTo(d, b, Inst(None, op)).script == d.script[b := d.script[b] + [Act.Emit(Inst(None, op))]]
  {
  }

  lemma WithPredExtends(d: Draft, b: Label, q: Label)
    requires b < |d.preds|
    ensures Extends(d, WithPred(d, b, q)) && WithPred(d, b, q).script == d.script
  {
  }

  lemma HeaderScripts(df: Draft, d1: Draft, d2: Draft, d3: Draft, b0: Label, n: Label)
    requires d1.script == df.script && OnlyIn(d1, d2, n) && OnlyIn(d2, d3, n) && b0 < n < |df.script| == n + 3 == |d2.script| == |d3.script|
    ensures d3.script[b0] == df.script[b0] && d3.script[n + 1] == df.script[n + 1] && d3.script[n + 2] == df.script[n + 2]
  {
  }

  /** The whole loop: `d3` after the header, `d6` after the body's jump back, `d` at the end. */
  lemma WhileLowered(d0: Draft, b0: Label, d3: Draft, d5: Draft, d: Draft, c: Expr, cc: Code, body: seq<Simple>, ps: seq<Part>)
    requires HeaderBuilt(d0, b0, d3, c, cc) && |d3.preds| == |d0.script| + 3
    requires var n := |d0.script|;
             && PartsLowered(WithPred(d3, n + 1, n), n + 1, d5, body, ps) && n + 1 < |d5.script|
             && d.script == EmitTo(d5, n + 1, Inst(None, Jump(n))).script && HomesKept(d5, d) && PredsGrow(d5, d) && d.params == d5.params && Good(d)
             && |d.preds| == n + 3 && d.preds[n] == [b0, n + 1] && d.preds[n + 1] == [n] && d.preds[n + 2] == [n]
    ensures FlowLowered(d0, b0, d, |d0.script| + 2, While(c, body), Loop(Here(d0, b0), cc, ps))
  {
    hide Good, Work, CodeOk, Ends, Extends, Ended, HomesKept, LoweredCode.From, OnlyIn, PartsLowered, BodyOk, PredsGrow;
    var n := |d0.script|;
    var d4 := WithPred(d3, n + 1, n);
    var d6 := EmitTo(d5, n + 1, Inst(None, Jump(n)));
    var debts: set<(Label, Label)> := {(b0, n), (n, n + 1), (n, n + 2)};
    PartsOnly(d4, n + 1, d5, body, ps);
    WorkPred(d0, d3, n + 1, n, debts);
    WorkTrans(d0, d4, d5, debts, {});
    assert debts + {} == debts;
    WorkEmit(d0, d5, n + 1, Inst(None, Jump(n)), debts);
    var all := debts + Owed(n + 1, Jump(n));
    EmitHomesKept(d5, d, n + 1, Jump(n));
    SameScripts(d0, d6, d, all);
    KnownTwo(d, b0, n + 1, n);
    KnownOne(d, n, n + 1);
    KnownOne(d, n, n + 2);
    Repaid(d0, d, all);
    WorkHomes(d4, d5, {});
    WithPredExtends(d3, n + 1, n);
    NoDst(d5, n + 1, Jump(n));
    SameScriptExtends(d6, d);
    EndsNow(d5, n + 1, Jump(n));
    LoopCode(d0, b0, d3, d4, d5, d6, d, c, cc);
    BodyIs(d4, n + 1, d5, body, ps, n, d6);
    BodyStays(d6, d, body, ps, n + 1, n + 3, n);
    LoopScripts(d3, d4, d5, d6, d, n);
  }

  lemma EmitHomesKept(d5: Draft, d: Draft, b: Label, op: Op)
    requires b < |d5.script| && HomesKept(d5, d) && PredsGrow(d5, d)
    ensures HomesKept(EmitTo(d5, b, Inst(None, op)), d) && PredsGrow(EmitTo(d5, b, Inst(None, op)), d)
  {
  }

  lemma SameScriptExtends(d: Draft, d': Draft)
    requires d'.script == d.script && HomesKept(d, d')
    ensures Extends(d, d')
  {
  }

  lemma LoopCode(d0: Draft, b0: Label, d3: Draft, d4: Draft, d5: Draft, d6: Draft, d: Draft, c: Expr, cc: Code)
    requires HeaderBuilt(d0, b0, d3, c, cc) && Extends(d3, d4) && Extends(d4, d5) && Extends(d5, d6) && Extends(d6, d)
    ensures var n := |d0.script|;
            CodeOk(d, c, cc) && Ends(d, Here(d0, b0), Jump(n)) && Ends(d, To(cc), Branch(cc.reg, n + 1, n + 2))
  {
    hide Good, Work, CodeOk, Ends, Extends, Ended, LoweredCode.From;
    ExtendsTrans(d3, d4, d5);
    ExtendsTrans(d3, d5, d6);
    ExtendsTrans(d3, d6, d);
    var n := |d0.script|;
    CodeStays(d3, d, c, cc);
    EndsStay(d3, d, Here(d0, b0), Jump(n));
    EndsStay(d3, d, To(cc), Branch(cc.reg, n + 1, n + 2));
  }

  lemma LoopScripts(d3: Draft, d4: Draft, d5: Draft, d6: Draft, d: Draft, n: Label)
    requires d4.script == d3.script && OnlyIn(d4, d5, n + 1) && OnlyIn(d5, d6, n + 1) && d.script == d6.script
    requires n + 3 == |d3.script| == |d5.script| == |d6.script|
    ensures d.script[n + 2] == d3.script[n + 2] && |d.script| == n + 3
  {
  }

  method OpenLoop(b: Builder) returns (headerBb: Label)
    requires b.Takes()
    modifies b
    ensures b.Ready() && b.curBlock == old(b.curBlock) && (b.Clean() <==> old(b.Clean())) && headerBb == |old(b.draft.script)|
    ensures b.curBlock < |Grown(old(b.draft), 3).script| && b.draft == Opened(old(b.draft), b.curBlock, Jump(headerBb), 3)
  {
    hide Good, SsaBuilder.Holds, Builder.Valid, Grown, Opened;
    b.Facts();
    ghost var d := b.draft;
    TwoMore(d);
    headerBb := b.AddBlock();
    var bodyBb := b.AddBlock();
    var exitBb := b.AddBlock();
    OpenedUnfolds(d, b.curBlock, Jump(headerBb), 3);
    Terminate(b, Jump(headerBb));
  }

  /** The header of a loop; it is not sealed, because the jump back is still to come. */
  method BuildHeader(b: Builder, c: Expr) returns (ghost cc: Code)
    requires b.Takes() && Straight(c) && Lowerable(c)
    modifies b
    ensures b.Ready() && old(b.nextVreg) <= b.nextVreg && b.curBlock == |old(b.draft.script)|
    ensures |b.draft.script| == |old(b.draft.script)| + 3
    ensures b.draft.preds == old(b.draft.preds) + [[old(b.curBlock)], [], []] && b.draft.sealed == old(b.draft.sealed) + [false, false, false]
    ensures b.Clean() ==> old(b.Clean()) && HeaderBuilt(old(b.draft), old(b.curBlock), b.draft, c, cc)
  {
    hide Good, SsaBuilder.Holds, Builder.Valid, Grown, Opened, Lowered, Spread, HeaderBuilt, Ended, Straight, Lowerable;
    b.Facts();
    ghost var d0, b0 := b.draft, b.curBlock;
    var n := EnterHeader(b);
    b.Facts();
    ghost var d1 := b.draft;
    var cond;
    cond, cc := BuildExpr(b, c);
    b.Facts();
    ghost var d2 := b.draft;
    SameGraph(d1, n, d2);
    EndsNow(d2, n, Branch(cond, n + 1, n + 2));
    Terminate(b, Branch(cond, n + 1, n + 2));
    b.Facts();
    if b.Clean() {
      HeaderIs(d0, b0, c, cc, d2);
    }
  }

  /** The jump to the header, which becomes the current block. */
  method EnterHeader(b: Builder) returns (n: Label)
    requires b.Takes()
    modifies b
    ensures b.Takes() && b.curBlock == n == |old(b.draft.script)| && b.nextVreg == old(b.nextVreg) && |b.draft.script| == n + 3
    ensures b.draft.preds == old(b.draft.preds) + [[old(b.curBlock)], [], []] && b.draft.sealed == old(b.draft.sealed) + [false, false, false]
    ensures var d, b0 := old(b.draft), old(b.curBlock);
            && |d.script| == |d.preds| == |d.sealed| && b0 < |d.script| && b0 < |Grown(d, 3).script|
            && var df := Opened(d, b0, Jump(n), 3);
               n < |df.preds| && b.draft == WithPred(df, n, b0) && (b.Clean() ==> old(b.Clean()) && Good(df))
  {
    hide Good, SsaBuilder.Holds, Builder.Valid, Grown, Opened, Ended;
    b.Facts();
    ghost var d0, b0 := b.draft, b.curBlock;
    var orig := b.curBlock;
    n := OpenLoop(b);
    OpenedIs(d0, b0, Jump(n), 3);
    b.Facts();
    ghost var df := b.draft;
    Enter(b, n, orig);
    b.Facts();
    NotEnded(b.draft.script[n]);
    NewGraph(d0.preds, df.preds, d0.sealed, df.sealed, n, orig);
  }

  lemma NewGraph(ps: seq<seq<Label>>, qs: seq<seq<Label>>, ss: seq<bool>, ts: seq<bool>, n: nat, orig: Label)
    requires |ps| == n == |ss| && |qs| == n + 3 == |ts| && qs[..n] == ps && ts[..n] == ss
    requires forall c :: n <= c < n + 3 ==> qs[c] == [] && !ts[c]
    ensures qs[n := qs[n] + [orig]] == ps + [[orig], [], []] && ts == ss + [false, false, false]
  {
    assert qs[n] + [orig] == [orig];
  }

  /** What the body and the end of a loop do to the draft after the header. */
  ghost predicate LoopClosed(d3: Draft, n: Label, orig: Label, d5: Draft, d: Draft, body: seq<Simple>, ps: seq<Part>) {
    && n + 1 < |d3.preds| && PartsLowered(WithPred(d3, n + 1, n), n + 1, d5, body, ps) && n + 1 < |d5.script|
    && d.script == EmitTo(d5, n + 1, Inst(None, Jump(n))).script && HomesKept(d5, d) && PredsGrow(d5, d) && d.params == d5.params && Good(d)
  }

  method BuildLoop(b: Builder, n: Label, ghost orig: Label, body: seq<Simple>) returns (ghost d5: Draft, ghost ps: seq<Part>)
    requires b.Ready() && 0 < n && |b.draft.script| == |b.draft.preds| == |b.draft.sealed| == n + 3 && StraightCode(body) && orig < n
    requires b.draft.preds[n] == [orig] && b.draft.preds[n + 1] == [] && b.draft.preds[n + 2] == []
    requires !b.draft.sealed[n] && !b.draft.sealed[n + 1] && !b.draft.sealed[n + 2]
    requires b.Clean() ==> b.draft.script[n + 1] == [] && b.draft.script[n + 2] == [] && Ended(b.draft.script[n]) && Ended(b.draft.script[orig])
    modifies b
    ensures b.Takes() && old(b.nextVreg) <= b.nextVreg && b.curBlock == n + 2 && |b.draft.script| == n + 3
    ensures b.draft.preds == old(b.draft.preds)[n := [orig, n + 1]][n + 1 := [n]][n + 2 := [n]]
    ensures b.draft.sealed == old(b.draft.sealed)[n := true][n + 1 := true][n + 2 := true]
    ensures b.Clean() ==> old(b.Clean()) && LoopClosed(old(b.draft), n, orig, d5, b.draft, body, ps)
  {
    hide Good, SsaBuilder.Holds, Builder.Valid, PartsLowered, Spread, Ended, StraightCode, HomesKept, PredsGrow;
    b.Facts();
    ghost var d3 := b.draft;
    assert d3.preds[n + 1] + [n] == [n];
    Enter(b, n + 1, n);
    b.Facts();
    ghost var d4 := b.draft;
    NotEnded(d4.script[n + 1]);
    ps := BuildBody(b, body);
    b.Facts();
    d5 := b.draft;
    SameGraph(d4, n + 1, d5);
    EndsNow(d5, n + 1, Jump(n));
    Terminate(b, Jump(n));
    b.Facts();
    ghost var d6 := b.draft;
    if b.Clean() {
      PartsOnly(d4, n + 1, d5, body, ps);
      OthersStay(d4, d5, n + 1, Jump(n), n);
      OthersStay(d4, d5, n + 1, Jump(n), orig);
      OthersStay(d4, d5, n + 1, Jump(n), n + 2);
    }
    CloseLoop(b, n, orig);
    if b.Clean() {
      LoopHomes(d5, d6, b.draft, n + 1, Jump(n));
      LoopPreds(d5, b.draft, n, orig);
    }
    GraphOrder(d3.preds, d3.sealed, n, orig);
  }

  lemma GraphOrder(ps: seq<seq<Label>>, ss: seq<bool>, n: nat, orig: Label)
    requires |ps| == n + 3 == |ss|
    ensures ps[n + 1 := [n]][n := [orig, n + 1]][n + 2 := [n]] == ps[n := [orig, n + 1]][n + 1 := [n]][n + 2 := [n]]
  {
  }

  lemma LoopHomes(d5: Draft, d6: Draft, d: Draft, b: Label, op: Op)
    requires b < |d5.script| && d6 == EmitTo(d5, b, Inst(None, op)) && HomesKept(d6, d)
    ensures HomesKept(d5, d)
  {
  }

  lemma LoopPreds(d5: Draft, d: Draft, n: Label, orig: Label)
    requires |d5.preds| == n + 3 && d5.preds[n] == [orig] && d5.preds[n + 2] == [] && d.preds == d5.preds[n := [orig, n + 1]][n + 2 := [n]]
    ensures PredsGrow(d5, d)
  {
    forall t | 0 <= t < |d5.preds| ensures d5.preds[t] <= d.preds[t] {
    }
  }

  /** The jump back is recorded, header and body are sealed, and building goes on behind. */
  method CloseLoop(b: Builder, n: Label, ghost orig: Label)
    requires b.Ready() && 0 < n && |b.draft.script| == |b.draft.preds| == |b.draft.sealed| == n + 3 && orig < n
    requires b.draft.preds[n] == [orig] && b.draft.preds[n + 1] == [n] && b.draft.preds[n + 2] == []
    requires !b.draft.sealed[n] && !b.draft.sealed[n + 1] && !b.draft.sealed[n + 2]
    requires b.Clean() ==> b.draft.script[n + 2] == [] && Ended(b.draft.script[n]) && Ended(b.draft.script[n + 1]) && Ended(b.draft.script[orig])
    modifies b
    ensures b.Takes() && old(b.nextVreg) <= b.nextVreg && b.curBlock == n + 2
    ensures b.draft.script == old(b.draft.script) && b.draft.preds == old(b.draft.preds)[n := [orig, n + 1]][n + 2 := [n]]
    ensures b.draft.sealed == old(b.draft.sealed)[n := true][n + 1 := true][n + 2 := true]
    ensures b.Clean() ==> old(b.Clean()) && HomesKept(old(b.draft), b.draft) && b.draft.params == old(b.draft.params) && Good(b.draft)
  {
    hide Good, SsaBuilder.Holds, Builder.Valid, Ended, HomesKept;
    b.Facts();
    ghost var d6 := b.draft;
    assert d6.preds[n + 2] + [n] == [n];
    SealLoop(b, n, orig);
    b.Facts();
    ghost var d9 := b.draft;
    Enter(b, n + 2, n);
    b.Facts();
    ghost var d10 := b.draft;
    NotEnded(d10.script[n + 2]);
    CloseBlock(b, n + 2);
    b.Facts();
    if b.Clean() {
      MoreHomes(d6, d9, d10, b.draft);
    }
  }

  lemma MoreHomes(d: Draft, d1: Draft, d2: Draft, d3: Draft)
    requires HomesKept(d, d1) && d2.home == d1.home && HomesKept(d2, d3)
    ensures HomesKept(d, d3)
  {
  }

  method SealLoop(b: Builder, n: Label, ghost orig: Label)
    requires b.Ready() && 0 < n && |b.draft.script| == |b.draft.preds| == |b.draft.sealed| == n + 3 && orig < n
    requires b.draft.preds[n] == [orig] && b.draft.preds[n + 1] == [n] && !b.draft.sealed[n] && !b.draft.sealed[n + 1]
    requires b.Clean() ==> Ended(b.draft.script[n]) && Ended(b.draft.script[n + 1]) && Ended(b.draft.script[orig])
    modifies b
    ensures b.Ready() && old(b.nextVreg) <= b.nextVreg
    ensures b.draft.script == old(b.draft.script) && b.draft.preds == old(b.draft.preds)[n := [orig, n + 1]]
    ensures b.draft.sealed == old(b.draft.sealed)[n := true][n + 1 := true]
    ensures b.Clean() ==> old(b.Clean()) && HomesKept(old(b.draft), b.draft) && b.draft.params == old(b.draft.params)
  {
    hide Good, SsaBuilder.Holds, Builder.Valid, Ended, HomesKept;
    b.Facts();
    ghost var d6 := b.draft;
    assert d6.preds[n] + [n + 1] == [orig, n + 1];
    b.AddPred(n, n + 1);
    b.Facts();
    ghost var d7 := b.draft;
    CloseBlock(b, n);
    b.Facts();
    ghost var d8 := b.draft;
    CloseBlock(b, n + 1);
    b.Facts();
    if b.Clean() {
      HomesAlike(d6, d7);
      MoreHomes(d6, d7, d7, d8);
      MoreHomes(d6, d8, d8, b.draft);
    }
  }

  lemma HomesAlike(d: Draft, d': Draft)
    requires d'.home == d.home
    ensures HomesKept(d, d')
  {
  }

  method BuildWhile(b: Builder, c: Expr, body: seq<Simple>) returns (ghost f: Flow)
    requires b.Takes() && Straight(c) && StraightCode(body)
    modifies b
    ensures b.Takes() && Spread(old(b.draft), old(b.curBlock), b.draft, b.curBlock)
    ensures b.Clean() ==> old(b.Clean()) && FlowLowered(old(b.draft), old(b.curBlock), b.draft, b.curBlock, While(c, body), f)
  {
    hide Good, SsaBuilder.Holds, Builder.Valid, HeaderBuilt, LoopClosed, FlowLowered, Spread, Ended, Straight, StraightCode;
    b.Facts();
    ghost var d0, b0 := b.draft, b.curBlock;
    StraightIsLowerable(c);
    var n := |b.blocks|;
    ghost var cc := BuildHeader(b, c);
    b.Facts();
    ghost var d3 := b.draft;
    if b.Clean() {
      HeaderFacts(d0, b0, d3, c, cc);
    }
    ghost var d5, ps := BuildLoop(b, n, b0, body);
    b.Facts();
    f := Loop(Here(d0, b0), cc, ps);
    LoopSpread(d0, b0, d3, b.draft);
    if b.Clean() {
      LoopIs(d0, b0, d3, d5, b.draft, c, cc, body, ps);
    }
  }

  lemma HeaderFacts(d0: Draft, b0: Label, d: Draft, c: Expr, cc: Code)
    requires HeaderBuilt(d0, b0, d, c, cc)
    ensures var n := |d0.script|; b0 < n && |d.script| == n + 3 && d.script[n + 1] == [] && d.script[n + 2] == [] && Ended(d.script[n]) && Ended(d.script[b0])
  {
    hide Good, Work, CodeOk, Ends;
  }

  lemma LoopIs(d0: Draft, b0: Label, d3: Draft, d5: Draft, d: Draft, c: Expr, cc: Code, body: seq<Simple>, ps: seq<Part>)
    requires HeaderBuilt(d0, b0, d3, c, cc) && LoopClosed(d3, |d0.script|, b0, d5, d, body, ps) && |d3.preds| == |d0.script| + 3
    requires var n := |d0.script|; |d.preds| == n + 3 && d.preds[n] == [b0, n + 1] && d.preds[n + 1] == [n] && d.preds[n + 2] == [n]
    ensures FlowLowered(d0, b0, d, |d0.script| + 2, While(c, body), Loop(Here(d0, b0), cc, ps))
  {
    hide HeaderBuilt, FlowLowered, PartsLowered, Good, HomesKept, PredsGrow;
    WhileLowered(d0, b0, d3, d5, d, c, cc, body, ps);
  }

  lemma LoopSpread(d0: Draft, b0: Label, d3: Draft, d: Draft)
    requires |d0.script| == |d0.preds| == |d0.sealed| && b0 < |d0.script| && |d.script| == |d.preds| == |d.sealed| == |d0.script| + 3 && d0.nextVreg <= d.nextVreg
    requires var n := |d0.script|;
             && d3.preds == d0.preds + [[b0], [], []] && d3.sealed == d0.sealed + [false, false, false]
             && d.preds == d3.preds[n := [b0, n + 1]][n + 1 := [n]][n + 2 := [n]] && d.sealed == d3.sealed[n := true][n + 1 := true][n + 2 := true]
    ensures Spread(d0, b0, d, |d0.script| + 2)
  {
    assert d.preds[..|d0.preds|] == d0.preds && d.sealed[..|d0.sealed|] == d0.sealed;
  }

  // ---- Whole functions ----

  method BuildStmt(b: Builder, s: Stmt) returns (ghost f: Flow)
    requires b.Takes() && StmtLowerable(s)
    modifies b
    ensures b.Takes() && Spread(old(b.draft), old(b.curBlock), b.draft, b.curBlock)
    ensures b.Clean() ==> old(b.Clean()) && FlowLowered(old(b.draft), old(b.curBlock), b.draft, b.curBlock, s, f)
  {
    hide Good, SsaBuilder.Holds, Builder.Valid, FlowLowered, PartLowered, Spread, Straight, Lowerable, StraightCode;
    ghost var d0, b0 := b.draft, b.curBlock;
    match s {
      case Plain(x) =>
        ghost var p := BuildSimple(b, x);
        f := Step(p);
        if b.Clean() {
          StepLowered(d0, b0, b.draft, b.curBlock, x, p);
        }
      case If(c, thens, elses) =>
        if elses.None? {
          f := BuildIf(b, c, thens);
        } else {
          f := BuildIfElse(b, c, thens, elses.value);
        }
      case While(c, body) =>
        f := BuildWhile(b, c, body);
    }
  }

  lemma StepLowered(d0: Draft, b0: Label, d1: Draft, b1: Label, s: Simple, p: Part)
    requires PartLowered(d0, b0, d1, b1, s, p)
    ensures FlowLowered(d0, b0, d1, b1, Plain(s), Step(p))
  {
    hide Good, Work, PartOk, OnlyIn;
  }

  ghost predicate FlowsLowered(d0: Draft, b0: Label, d1: Draft, b1: Label, ss: seq<Stmt>, fs: seq<Flow>) {
    && Good(d1) && Work(d0, d1, {}) && b0 < |d0.script| && b1 < |d1.script|
    && FlowsOk(d1, ss, fs, Here(d0, b0)) && FlowsEnd(fs, Here(d0, b0)) == Here(d1, b1)
  }

  lemma NoFlows(d: Draft, b: Label)
    requires Good(d) && b < |d.script|
    ensures FlowsLowered(d, b, d, b, [], [])
  {
    WorkRefl(d);
  }

  lemma MoreFlows(d0: Draft, b0: Label, d1: Draft, b1: Label, d2: Draft, b2: Label, ss: seq<Stmt>, fs: seq<Flow>, s: Stmt, f: Flow)
    requires FlowsLowered(d0, b0, d1, b1, ss, fs) && FlowLowered(d1, b1, d2, b2, s, f)
    ensures FlowsLowered(d0, b0, d2, b2, ss + [s], fs + [f])
  {
    hide Good, Work, Extends, FlowOk, FlowsOk;
    WorkOn(d0, d1, d2);
    WorkHomes(d1, d2, {});
    FlowsStay(d1, d2, ss, fs, Here(d0, b0));
    FlowsMore(d2, ss, fs, Here(d0, b0), s, f);
  }

  lemma FlowsMore(d: Draft, ss: seq<Stmt>, fs: seq<Flow>, start: Point, s: Stmt, f: Flow)
    requires FlowsOk(d, ss, fs, start) && FlowOk(d, s, f) && FlowFrom(f) == FlowsEnd(fs, start)
    ensures FlowsOk(d, ss + [s], fs + [f], start) && FlowsEnd(fs + [f], start) == FlowTo(f)
  {
    hide FlowOk;
    assert (ss + [s])[..|ss|] == ss && (fs + [f])[..|fs|] == fs;
  }

  method BuildStmts(b: Builder, ss: seq<Stmt>) returns (ghost fs: seq<Flow>)
    requires b.Takes() && forall i :: 0 <= i < |ss| ==> StmtLowerable(ss[i])
    modifies b
    ensures b.Takes() && Spread(old(b.draft), old(b.curBlock), b.draft, b.curBlock)
    ensures b.Clean() ==> old(b.Clean()) && FlowsLowered(old(b.draft), old(b.curBlock), b.draft, b.curBlock, ss, fs)
  {
    hide Good, SsaBuilder.Holds, Builder.Valid, Spread, FlowsLowered, FlowLowered, StmtLowerable;
    b.Facts();
    ghost var d0, b0 := b.draft, b.curBlock;
    fs := [];
    SpreadSame(d0, b0, d0);
    if b.Clean() {
      NoFlows(d0, b0);
    }
    for i := 0 to |ss|
      invariant b.Takes() && Spread(d0, b0, b.draft, b.curBlock)
      invariant b.Clean() ==> old(b.Clean()) && FlowsLowered(d0, b0, b.draft, b.curBlock, ss[..i], fs)
    {
      ghost var d1, b1 := b.draft, b.curBlock;
      ghost var f := BuildStmt(b, ss[i]);
      SpreadTrans(d0, b0, d1, b1, b.draft, b.curBlock);
      if b.Clean() {
        MoreFlows(d0, b0, d1, b1, b.draft, b.curBlock, ss[..i], fs, ss[i], f);
      }
      assert ss[..i] + [ss[i]] == ss[..i + 1];
      fs := fs + [f];
    }
    assert ss[..|ss|] == ss;
  }

  /** The graph is complete: all blocks sealed, every jump recorded, every write local. */
  lemma AllComplete(params: seq<Name>, d: Draft, b: Label)
    requires Work(Start(params), d, {}) && Spread(Start(params), 0, d, b) && d.pending == [] && d.open == {}
    ensures BuilderRuns.Complete(d)
  {
    forall c | 0 <= c < |d.sealed| ensures d.sealed[c] {
      assert c == 0 ==> d.sealed[0] == d.sealed[..1][0];
    }
    assert RealPreds(d) by { AllRecorded(params, d); }
    assert LocalWrites(d) by {
      forall c: Label, i: nat | c < |d.script| && i < |d.script[c]| && d.script[c][i].Wrote? ensures Produced(d.script[c], i, d.script[c][i].wrote) {
        assert Since(Start(params), d, c, i);
      }
    }
  }

  lemma AllRecorded(params: seq<Name>, d: Draft)
    requires Recorded(Start(params), d, {})
    ensures RealPreds(d)
  {
    hide KnownPred;
    forall c: Label, i: nat | c < |d.script| && i < |d.script[c]| && d.script[c][i].Emit? ensures JumpsKnown(d, c, d.script[c][i].inst.op) {
      var op := d.script[c][i].inst.op;
      assert Since(Start(params), d, c, i);
      if op.Jump? {
        assert (c, op.target) in Owed(c, op);
      } else if op.Branch? {
        assert (c, op.trueBb) in Owed(c, op) && (c, op.falseBb) in Owed(c, op);
      }
    }
  }

  lemma RetLowered(fn: Fn, d1: Draft, b1: Label, fs: seq<Flow>)
    requires FlowsLowered(Start(fn.params), 0, d1, b1, fn.body, fs) && (fn.tail.FallsOff? || fn.tail.value.None?)
    ensures b1 < |d1.script| && FnOk(EmitTo(d1, b1, Inst(None, Ret(None))), fn, FnCode(fs, None)) && Work(Start(fn.params), EmitTo(d1, b1, Inst(None, Ret(None))), {})
  {
    hide Good, Work, Extends, FlowsOk, Start;
    var none: set<(Label, Label)> := {};
    var op := Ret(None);
    WorkEmit(Start(fn.params), d1, b1, Inst(None, op), none);
    assert none + Owed(b1, op) == none;
    NoDst(d1, b1, op);
    EndsNow(d1, b1, op);
    StartHere(fn.params);
    FlowsStay(d1, EmitTo(d1, b1, Inst(None, op)), fn.body, fs, Point(0, 0, 1));
  }

  lemma StartHere(params: seq<Name>)
    ensures |Start(params).script| == 1 && Here(Start(params), 0) == Point(0, 0, 1)
  {
  }

  lemma ValueLowered(fn: Fn, d1: Draft, b1: Label, fs: seq<Flow>, d2: Draft, b2: Label, e: Expr, c: Code)
    requires FlowsLowered(Start(fn.params), 0, d1, b1, fn.body, fs) && fn.tail == Returns(Some(e)) && Lowered(d1, b1, d2, b2, e, c)
    ensures b2 < |d2.script|
    ensures FnOk(EmitTo(d2, b2, Inst(None, Ret(Some(c.reg)))), fn, FnCode(fs, Some(c))) && Work(Start(fn.params), EmitTo(d2, b2, Inst(None, Ret(Some(c.reg)))), {})
  {
    hide Good, Work, Extends, FlowsOk, Start, Lowered, CodeOk, LoweredCode.From;
    LoweredFacts(d1, b1, d2, b2, e, c);
    var none: set<(Label, Label)> := {};
    var op := Ret(Some(c.reg));
    WorkOn(Start(fn.params), d1, d2);
    WorkHomes(d1, d2, none);
    WorkEmit(Start(fn.params), d2, b2, Inst(None, op), none);
    assert none + Owed(b2, op) == none;
    var d3 := EmitTo(d2, b2, Inst(None, op));
    NoDst(d2, b2, op);
    EndsNow(d2, b2, op);
    StartHere(fn.params);
    FlowsStay(d1, d2, fn.body, fs, Point(0, 0, 1));
    FlowsStay(d2, d3, fn.body, fs, Point(0, 0, 1));
    CodeStays(d2, d3, e, c);
  }

  /** The tail of a function; a body that ends in an empty block gets no return. */
  method BuildTail(b: Builder, fn: Fn, ghost fs: seq<Flow>) returns (closed: bool, ghost k: FnCode)
    requires b.Takes() && (fn.tail.Returns? && fn.tail.value.Some? ==> Lowerable(fn.tail.value.value))
    requires Spread(Start(fn.params), 0, b.draft, b.curBlock)
    requires b.Clean() ==> FlowsLowered(Start(fn.params), 0, b.draft, b.curBlock, fn.body, fs)
    modifies b
    ensures b.Ready() && Spread(Start(fn.params), 0, b.draft, b.curBlock) && (fn.tail.Returns? ==> closed)
    ensures !closed ==> b.blocks[b.curBlock] == []
    ensures b.Clean() ==> old(b.Clean()) && (closed ==> FnOk(b.draft, fn, k) && Work(Start(fn.params), b.draft, {}))
  {
    hide Good, SsaBuilder.Holds, Builder.Valid, FlowsLowered, Spread, Lowered, Start, Lowerable, FnOk;
    b.Facts();
    ghost var d1, b1 := b.draft, b.curBlock;
    closed := true;
    k := FnCode(fs, None);
    if fn.tail.Returns? && fn.tail.value.Some? {
      var v, c := BuildExpr(b, fn.tail.value.value);
      b.Facts();
      ghost var d2, b2 := b.draft, b.curBlock;
      SpreadTrans(Start(fn.params), 0, d1, b1, d2, b2);
      Terminate(b, Ret(Some(v)));
      b.Facts();
      EndsNow(d2, b2, Ret(Some(v)));
      EventSpread(Start(fn.params), 0, d2, b2, b.draft);
      k := FnCode(fs, Some(c));
      if b.Clean() {
        ValueLowered(fn, d1, b1, fs, d2, b2, fn.tail.value.value, c);
      }
    } else {
      var insts := b.blocks[b.curBlock];
      if b.Clean() && |insts| > 0 {
        b.OpenEnd();
      }
      if fn.tail.Returns? || (|insts| > 0 && !insts[|insts| - 1].op.IsTerminator()) {
        Terminate(b, Ret(None));
        b.Facts();
        EndsNow(d1, b1, Ret(None));
        EventSpread(Start(fn.params), 0, d1, b1, b.draft);
        if b.Clean() {
          RetLowered(fn, d1, b1, fs);
        }
      } else {
        closed := |insts| > 0;
      }
    }
  }

  lemma StartSpread(params: seq<Name>)
    ensures Spread(Start(params), 0, Start(params), 0) && !Ended(Start(params).script[0]) && Start(params).params == params
  {
  }

  /** The function built, and the draft and code it comes from. */
  ghost predicate LoweredTo(fn: Fn, d: Draft, k: FnCode, f: Func) {
    && Good(d) && BuilderRuns.Complete(d) && FnOk(d, fn, k) && d.params == fn.params
    && |d.heads| == |d.script| && f == Built(d)
  }

  method BuildFn(fn: Fn, guarded: bool) returns (b: Builder, f: Func, closed: bool, ghost k: FnCode)
    requires FnLowerable(fn)
    ensures fresh(b) && b.guarded == guarded && b.Ready() && (fn.tail.Returns? ==> closed)
    ensures b.Clean() && closed ==> LoweredTo(fn, b.draft, k, f)
    ensures b.Clean() && !closed ==> exists c: Label :: c < |f.blocks| && f.blocks[c] == []
  {
    hide Good, SsaBuilder.Holds, Builder.Valid, FlowsLowered, Spread, Lowered, Start, StmtLowerable, Lowerable, FnOk, BuilderRuns.Complete;
    b := new Builder(fn.params, guarded);
    StartSpread(fn.params);
    ghost var fs := BuildStmts(b, fn.body);
    closed, k := BuildTail(b, fn, fs);
    b.Facts();
    f := b.Finish();
    if b.Clean() {
      if closed {
        AllSealed(fn.params, b.draft, b.curBlock);
        AllComplete(fn.params, b.draft, b.curBlock);
        GoodSizes(b.draft);
      } else {
        assert f.blocks[b.curBlock] == [];
      }
    }
  }

  lemma GoodSizes(d: Draft)
    requires Good(d)
    ensures |d.heads| == |d.script|
  {
  }

  lemma AllSealed(params: seq<Name>, d: Draft, b: Label)
    requires Spread(Start(params), 0, d, b)
    ensures forall c :: 0 <= c < |d.sealed| ==> d.sealed[c]
  {
    forall c | 0 <= c < |d.sealed| ensures d.sealed[c] {
      assert c == 0 ==> d.sealed[0] == d.sealed[..1][0];
    }
  }
}
