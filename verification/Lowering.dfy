/** Building SSA from the typed tree (src/ssa_build.c:464-762, 858-1137, 1268-1323): a client of
    the builder that leaves the code of every expression and statement where `LoweredCode`
    says. */
module Lowering {
  import opened Wrappers
  import opened Word64
  import opened Ssa
  import opened Draft
  import opened DraftRead
  import opened DraftScript
  import opened SsaBuilder
  import opened BuilderRuns
  import opened Hir
  import opened LoweredCode
  import opened LoweringSteps

  // ---- What building an expression does ----

  /** How the graph grew, whether or not anything went wrong: new blocks are sealed. */
  ghost predicate Spread(d0: Draft, b0: Label, d1: Draft, b1: Label) {
    && |d0.script| == |d0.preds| == |d0.sealed| && |d1.script| == |d1.preds| == |d1.sealed|
    && |d0.script| <= |d1.script| && d0.nextVreg <= d1.nextVreg
    && d1.sealed[..|d0.sealed|] == d0.sealed && (forall c :: |d0.sealed| <= c < |d1.sealed| ==> d1.sealed[c])
    && d1.preds[..|d0.preds|] == d0.preds
    && b0 < |d0.script| && b1 < |d1.script| && (b1 == b0 || b1 >= |d0.script|)
  }

  lemma SpreadTrans(d0: Draft, b0: Label, d1: Draft, b1: Label, d2: Draft, b2: Label)
    requires Spread(d0, b0, d1, b1) && Spread(d1, b1, d2, b2)
    ensures Spread(d0, b0, d2, b2)
  {
    assert d2.sealed[..|d1.sealed|][..|d0.sealed|] == d2.sealed[..|d0.sealed|];
    assert d2.preds[..|d1.preds|][..|d0.preds|] == d2.preds[..|d0.preds|];
    forall c | |d0.sealed| <= c < |d2.sealed| ensures d2.sealed[c] {
      if c < |d1.sealed| {
        assert d2.sealed[c] == d2.sealed[..|d1.sealed|][c];
      }
    }
  }

  lemma SpreadSame(d: Draft, b: Label, d': Draft)
    requires |d.script| == |d.preds| == |d.sealed| && b < |d.script|
    requires |d'.script| == |d.script| && d'.preds == d.preds && d'.sealed == d.sealed && d.nextVreg <= d'.nextVreg
    ensures Spread(d, b, d', b)
  {
  }

  /** The other blocks are as they were. */
  ghost predicate OnlyIn(d0: Draft, d1: Draft, b: Label) {
    |d0.script| <= |d1.script| && forall r :: 0 <= r < |d0.script| && r != b ==> d1.script[r] == d0.script[r]
  }

  /** The expression's code begins where block `b0` ended and ends where block `b1` ends now. */
  ghost predicate Lowered(d0: Draft, b0: Label, d1: Draft, b1: Label, e: Expr, c: Code) {
    && Good(d1) && Work(d0, d1, {}) && CodeOk(d1, e, c) && OnlyIn(d0, d1, b0)
    && b0 < |d0.script| && b1 < |d1.script| && From(c) == Here(d0, b0) && To(c) == Here(d1, b1)
    && d1.script[b1] != [] && Yields(d1.script[b1][|d1.script[b1]| - 1]) == Some(c.reg)
    && (Straight(e) ==> b1 == b0 && |d1.script| == |d0.script|)
  }

  /** Like `Lowered`, for arguments; nothing may have been built for none. */
  ghost predicate ArgsLowered(d0: Draft, b0: Label, d1: Draft, b1: Label, args: seq<Expr>, cs: seq<Code>) {
    && Good(d1) && Work(d0, d1, {}) && b0 < |d0.script| && b1 < |d1.script| && OnlyIn(d0, d1, b0)
    && ArgsOk(d1, args, cs, Here(d0, b0)) && EndOf(cs, Here(d0, b0)) == Here(d1, b1)
    && ((forall i :: 0 <= i < |args| ==> Straight(args[i])) ==> b1 == b0 && |d1.script| == |d0.script|)
  }

  /** Something computed on top of work done. */
  lemma OnTop(d0: Draft, b0: Label, d1: Draft, b1: Label, op: Op)
    requires b1 < |d1.script| && Good(d1) && Good(New(d1, b1, op)) && Work(d0, d1, {}) && OnlyIn(d0, d1, b0) && !op.IsTerminator() && !op.Print?
    requires b0 < |d0.script| && (b1 == b0 || b1 >= |d0.script|)
    ensures var d2, v := New(d1, b1, op), d1.nextVreg;
            && b1 < |d2.script| == |d1.script| && Work(d0, d2, {}) && OnlyIn(d0, d2, b0) && Extends(d1, d2)
            && Computes(d2, Here(d1, b1), v, op) && Held(d2, v, Here(d2, b1)) && Here(d2, b1) == Next(Here(d1, b1))
            && d2.script[b1] != [] && Yields(d2.script[b1][|d2.script[b1]| - 1]) == Some(v)
  {
    assert Homes(d1) && Sizes(d1);
    NewIs(d1, b1, op);
    WorkNew(d0, d1, b1, op, {});
    WorkRefl(d1);
    WorkNew(d1, d1, b1, op, {});
    WorkHomes(d1, New(d1, b1, op), {});
  }

  lemma LitLowered(d: Draft, b: Label, x: Int64)
    requires Good(d) && b < |d.script| && Good(New(d, b, Const(x)))
    ensures Lowered(d, b, New(d, b, Const(x)), b, IntLit(x), Leaf(Here(d, b), d.nextVreg))
  {
    WorkRefl(d);
    OnTop(d, b, d, b, Const(x));
  }

  lemma IdentLowered(d: Draft, d': Draft, b: Label, x: Name, v: VReg)
    requires Good(d) && b < |d.script| && Good(d') && d'.open == {} && Got(d, d', b, x, v)
    ensures Lowered(d, b, d', b, Ident(x), Leaf(Here(d, b), v))
  {
    WorkRefl(d);
    WorkRead(d, d, d', b, x, v, {});
    assert Sizes(d');
    ReadIs(d, d', b, x, v);
    hide Got, Good, Work, Held;
  }

  lemma UnaryLowered(d0: Draft, b0: Label, d1: Draft, b1: Label, a: Expr, c: Code, uop: UnOpKind)
    requires Good(d0) && Lowered(d0, b0, d1, b1, a, c) && Spread(d0, b0, d1, b1) && Good(New(d1, b1, Unop(uop, c.reg)))
    ensures Lowered(d0, b0, New(d1, b1, Unop(uop, c.reg)), b1, Unary(uop, a), One(c, Here(d1, b1), d1.nextVreg))
  {
    hide Good, Work, New, Extends, Held, Computes, OnlyIn, CodeOk;
    var op := Unop(uop, c.reg);
    OnTop(d0, b0, d1, b1, op);
    CodeStays(d1, New(d1, b1, op), a, c);
    MakeOne(New(d1, b1, op), uop, a, c, d1.nextVreg);
  }

  /** The code of two operands, one after the other. */
  ghost predicate PairLowered(d0: Draft, b0: Label, d1: Draft, b1: Label, l: Expr, r: Expr, cl: Code, cr: Code) {
    && Good(d1) && Work(d0, d1, {}) && OnlyIn(d0, d1, b0) && CodeOk(d1, l, cl) && CodeOk(d1, r, cr)
    && b0 < |d0.script| && b1 < |d1.script| && From(cl) == Here(d0, b0) && From(cr) == To(cl) && To(cr) == Here(d1, b1)
    && (Straight(l) && Straight(r) ==> b1 == b0 && |d1.script| == |d0.script|)
  }

  lemma TwoLowered(d0: Draft, b0: Label, d1: Draft, b1: Label, d2: Draft, b2: Label, l: Expr, r: Expr, cl: Code, cr: Code)
    requires Lowered(d0, b0, d1, b1, l, cl) && Lowered(d1, b1, d2, b2, r, cr) && Spread(d0, b0, d1, b1)
    ensures PairLowered(d0, b0, d2, b2, l, r, cl, cr)
  {
    hide Good, Work, Extends, CodeOk, OnlyIn, HomesKept, PredsGrow, Straight;
    WorkOn(d0, d1, d2);
    WorkHomes(d1, d2, {});
    CodeStays(d1, d2, l, cl);
    OnlyInTrans(d0, b0, d1, b1, d2);
  }

  lemma BinaryLowered(d0: Draft, b0: Label, d1: Draft, b1: Label, l: Expr, r: Expr, cl: Code, cr: Code, op: BinOpKind)
    requires Good(d0) && PairLowered(d0, b0, d1, b1, l, r, cl, cr) && Spread(d0, b0, d1, b1)
    requires Good(New(d1, b1, Binop(op, cl.reg, cr.reg)))
    ensures Lowered(d0, b0, New(d1, b1, Binop(op, cl.reg, cr.reg)), b1, Hir.Binary(op, l, r), Two(cl, cr, Here(d1, b1), d1.nextVreg))
  {
    hide *;
    var o := Binop(op, cl.reg, cr.reg);
    NoTerminator(o);
    PairIs(d0, b0, d1, b1, l, r, cl, cr);
    var d2 := New(d1, b1, o);
    SpreadEnds(d0, b0, d1, b1);
    OnTop(d0, b0, d1, b1, o);
    CodeStays(d1, d2, l, cl);
    CodeStays(d1, d2, r, cr);
    MakeBinary(d2, op, l, r, cl, cr, d1.nextVreg);
    TwoIs(cl, cr, Here(d1, b1), d1.nextVreg);
    LoweredAs(d0, b0, d2, b1, Hir.Binary(op, l, r), Two(cl, cr, Here(d1, b1), d1.nextVreg), Straight(l) && Straight(r));
  }

  lemma NoTerminator(op: Op)
    requires op.Binop? || op.Cmp?
    ensures !op.IsTerminator() && !op.Print?
  {
  }

  lemma PairIs(d0: Draft, b0: Label, d1: Draft, b1: Label, l: Expr, r: Expr, cl: Code, cr: Code)
    requires PairLowered(d0, b0, d1, b1, l, r, cl, cr)
    ensures Good(d1) && Work(d0, d1, {}) && OnlyIn(d0, d1, b0) && CodeOk(d1, l, cl) && CodeOk(d1, r, cr)
    ensures b0 < |d0.script| && b1 < |d1.script| && From(cl) == Here(d0, b0) && From(cr) == To(cl) && To(cr) == Here(d1, b1)
    ensures Straight(l) && Straight(r) ==> b1 == b0 && |d1.script| == |d0.script|
  {
    hide Good, Work, OnlyIn, CodeOk, From, To, Here, Straight;
  }

  lemma SpreadEnds(d0: Draft, b0: Label, d1: Draft, b1: Label)
    requires Spread(d0, b0, d1, b1)
    ensures b0 < |d0.script| && (b1 == b0 || b1 >= |d0.script|)
  {
  }

  lemma TwoIs(cl: Code, cr: Code, at: Point, v: VReg)
    ensures From(Two(cl, cr, at, v)) == From(cl) && To(Two(cl, cr, at, v)) == Next(at)
  {
  }

  /** The pieces of `Lowered` for two operands. */
  lemma LoweredAs(d0: Draft, b0: Label, d2: Draft, b1: Label, e: Expr, c: Code, straight: bool)
    requires Good(d2) && Work(d0, d2, {}) && CodeOk(d2, e, c) && OnlyIn(d0, d2, b0)
    requires b0 < |d0.script| && b1 < |d2.script| && From(c) == Here(d0, b0) && To(c) == Here(d2, b1)
    requires d2.script[b1] != [] && Yields(d2.script[b1][|d2.script[b1]| - 1]) == Some(c.reg)
    requires straight ==> b1 == b0 && |d2.script| == |d0.script|
    requires (e.Binary? || e.Compared?) && (straight <==> Straight(e.left) && Straight(e.right))
    ensures Lowered(d0, b0, d2, b1, e, c)
  {
    hide Good, Work, OnlyIn, CodeOk, From, To, Here, Yields;
  }

  lemma CmpLowered(d0: Draft, b0: Label, d1: Draft, b1: Label, l: Expr, r: Expr, cl: Code, cr: Code, cmp: CmpKind)
    requires Good(d0) && PairLowered(d0, b0, d1, b1, l, r, cl, cr) && Spread(d0, b0, d1, b1)
    requires Good(New(d1, b1, Cmp(cmp, cl.reg, cr.reg)))
    ensures Lowered(d0, b0, New(d1, b1, Cmp(cmp, cl.reg, cr.reg)), b1, Compared(cmp, l, r), Two(cl, cr, Here(d1, b1), d1.nextVreg))
  {
    hide *;
    var o := Cmp(cmp, cl.reg, cr.reg);
    NoTerminator(o);
    PairIs(d0, b0, d1, b1, l, r, cl, cr);
    var d2 := New(d1, b1, o);
    SpreadEnds(d0, b0, d1, b1);
    OnTop(d0, b0, d1, b1, o);
    CodeStays(d1, d2, l, cl);
    CodeStays(d1, d2, r, cr);
    MakeCmp(d2, cmp, l, r, cl, cr, d1.nextVreg);
    TwoIs(cl, cr, Here(d1, b1), d1.nextVreg);
    LoweredAs(d0, b0, d2, b1, Compared(cmp, l, r), Two(cl, cr, Here(d1, b1), d1.nextVreg), Straight(l) && Straight(r));
  }

  lemma NoArgsLowered(d: Draft, b: Label)
    requires Good(d) && b < |d.script|
    ensures ArgsLowered(d, b, d, b, [], [])
  {
    WorkRefl(d);
  }

  lemma MoreArgsLowered(d0: Draft, b0: Label, d1: Draft, b1: Label, d2: Draft, b2: Label, args: seq<Expr>, cs: seq<Code>, e: Expr, c: Code)
    requires ArgsLowered(d0, b0, d1, b1, args, cs) && Lowered(d1, b1, d2, b2, e, c) && Spread(d0, b0, d1, b1)
    ensures ArgsLowered(d0, b0, d2, b2, args + [e], cs + [c])
  {
    hide Good, Work, Extends, CodeOk, OnlyIn, HomesKept, PredsGrow, ArgsOk, EndOf, Straight;
    WorkOn(d0, d1, d2);
    WorkHomes(d1, d2, {});
    ArgsStay(d1, d2, args, cs, Here(d0, b0));
    ArgsAnother(d2, args, cs, Here(d0, b0), e, c);
    OnlyInTrans(d0, b0, d1, b1, d2);
    if forall i :: 0 <= i < |args + [e]| ==> Straight((args + [e])[i]) {
      StraightOnes(args, e);
    }
  }

  lemma OnlyInTrans(d0: Draft, b0: Label, d1: Draft, b1: Label, d2: Draft)
    requires OnlyIn(d0, d1, b0) && OnlyIn(d1, d2, b1) && Spread(d0, b0, d1, b1)
    ensures OnlyIn(d0, d2, b0)
  {
    forall r | 0 <= r < |d0.script| && r != b0 ensures d2.script[r] == d0.script[r] {
      assert r != b1;
    }
  }

  lemma ArgsAnother(d: Draft, args: seq<Expr>, cs: seq<Code>, at: Point, e: Expr, c: Code)
    requires ArgsOk(d, args, cs, at) && CodeOk(d, e, c) && From(c) == EndOf(cs, at)
    ensures ArgsOk(d, args + [e], cs + [c], at) && EndOf(cs + [c], at) == To(c)
  {
    hide CodeOk;
    assert (args + [e])[..|args|] == args && (cs + [c])[..|cs|] == cs;
    assert (args + [e])[|args|] == e;
  }

  lemma StraightOnes(args: seq<Expr>, e: Expr)
    requires forall i :: 0 <= i < |args + [e]| ==> Straight((args + [e])[i])
    ensures Straight(e) && forall i :: 0 <= i < |args| ==> Straight(args[i])
  {
    hide Straight;
    assert (args + [e])[|args|] == e;
    forall i | 0 <= i < |args| ensures Straight(args[i]) {
      assert (args + [e])[i] == args[i];
    }
  }

  lemma CallLowered(d0: Draft, b0: Label, d1: Draft, b1: Label, args: seq<Expr>, cs: seq<Code>, func: string)
    requires Good(d0) && ArgsLowered(d0, b0, d1, b1, args, cs) && Spread(d0, b0, d1, b1) && Good(New(d1, b1, Call(func, Regs(cs))))
    ensures Lowered(d0, b0, New(d1, b1, Call(func, Regs(cs))), b1, CallTo(func, args), Many(Here(d0, b0), cs, Here(d1, b1), d1.nextVreg))
  {
    hide Good, Work, New, Extends, Held, Computes, OnlyIn, ArgsOk, Regs;
    var op := Call(func, Regs(cs));
    OnTop(d0, b0, d1, b1, op);
    ArgsStay(d1, New(d1, b1, op), args, cs, Here(d0, b0));
    MakeCall(New(d1, b1, op), func, args, cs, Here(d0, b0), d1.nextVreg);
  }

  // ---- The translation of expressions ----

  /** ssa_builder_emit: a new register and its instruction. */
  method EmitOp(b: Builder, op: Op) returns (v: VReg)
    requires b.Takes() && !op.IsTerminator()
    modifies b
    ensures b.Takes() && v == old(b.nextVreg) && b.curBlock == old(b.curBlock) && (b.Clean() <==> old(b.Clean()))
    ensures b.curBlock < |old(b.draft.script)| && b.draft == New(old(b.draft), b.curBlock, op)
  {
    hide Good, SsaBuilder.Holds;
    v := b.NewVreg();
    b.EmitInst(Inst(Some(v), op));
  }

  method Terminate(b: Builder, op: Op)
    requires b.Takes() && op.IsTerminator()
    modifies b
    ensures b.Ready() && b.curBlock == old(b.curBlock) && (b.Clean() <==> old(b.Clean()))
    ensures b.curBlock < |old(b.draft.script)| && b.draft == EmitTo(old(b.draft), b.curBlock, Inst(None, op))
  {
    hide Good, SsaBuilder.Holds;
    b.EmitInst(Inst(None, op));
  }

  /** Go on in a block that was reached from `pred`. */
  method Enter(b: Builder, block: Label, pred: Label)
    requires b.Ready() && 0 < block < |b.draft.script| && pred < |b.draft.script| && block < |b.draft.sealed| && !b.draft.sealed[block]
    modifies b
    ensures b.Ready() && b.curBlock == block && (b.Clean() <==> old(b.Clean()))
    ensures block < |old(b.draft.preds)| && b.draft == WithPred(old(b.draft), block, pred)
  {
    hide Good, SsaBuilder.Holds;
    b.SetCurBlock(block);
    b.AddPred(block, pred);
  }

  // ---- Short-circuit operators ----

  /** The first operand's block branches; of the three new blocks one is for the second
      operand, one picks the result, and one is for the case in which the second is skipped. */
  function Forked(d: Draft, b: Label, cond: VReg, swap: bool): Draft
    requires b < |d.script|
  {
    var n := |d.script|;
    EmitTo(NewBlock(NewBlock(NewBlock(Reserve(d)))), b, Inst(None, Branch(cond, if swap then n + 2 else n, if swap then n else n + 2)))
  }

  method OpenFork(b: Builder, cond: VReg, swap: bool) returns (result: VReg, rest: Label, merge: Label, other: Label)
    requires b.Takes()
    modifies b
    ensures b.Ready() && b.curBlock == old(b.curBlock) && (b.Clean() <==> old(b.Clean()))
    ensures result == old(b.nextVreg) && rest == |old(b.draft.script)| && merge == rest + 1 && other == rest + 2
    ensures b.curBlock < |old(b.draft.script)| && b.draft == Forked(old(b.draft), b.curBlock, cond, swap)
  {
    hide Good, SsaBuilder.Holds;
    result := b.NewVreg();
    rest := b.AddBlock();
    merge := b.AddBlock();
    other := b.AddBlock();
    b.EmitInst(Inst(None, if swap then Branch(cond, other, rest) else Branch(cond, rest, other)));
  }

  lemma ForkedIs(d: Draft, b: Label, cond: VReg, swap: bool)
    requires Good(d) && b < |d.script| && Good(Forked(d, b, cond, swap))
    ensures var d', n := Forked(d, b, cond, swap), |d.script|;
            && Work(d, d', {(b, n), (b, n + 2)}) && OnlyIn(d, d', b)
            && |d'.script| == n + 3 == |d'.preds| && |d'.sealed| == n + 3
            && Ends(d', Here(d, b), Branch(cond, if swap then n + 2 else n, if swap then n else n + 2))
            && Ended(d'.script[b])
            && d'.script[n] == d'.script[n + 1] == d'.script[n + 2] == [] && d'.preds[n] == d'.preds[n + 1] == d'.preds[n + 2] == []
            && !d'.sealed[n] && !d'.sealed[n + 1] && !d'.sealed[n + 2]
            && d'.preds[..n] == d.preds && d'.sealed[..n] == d.sealed && d'.nextVreg == d.nextVreg + 1
            && d.nextVreg in d'.home && d'.home[d.nextVreg] == Taken
  {
    assert Homes(d) && Sizes(d);
    ForkWork(d, b, cond, swap);
    hide Good, Work;
  }

  lemma ForkWork(d: Draft, b: Label, cond: VReg, swap: bool)
    requires Good(d) && b < |d.script|
    ensures Work(d, Forked(d, b, cond, swap), {(b, |d.script|), (b, |d.script| + 2)})
  {
    assert Homes(d);
    hide Good, Work, Homes;
    var d1 := Reserve(d);
    var d2 := NewBlock(d1);
    var d3 := NewBlock(d2);
    var d4 := NewBlock(d3);
    var none: set<(Label, Label)> := {};
    WorkRefl(d);
    WorkReserve(d, d, none);
    WorkBlock(d, d1, none);
    WorkBlock(d, d2, none);
    WorkBlock(d, d3, none);
    var inst := Inst(None, Branch(cond, if swap then |d.script| + 2 else |d.script|, if swap then |d.script| else |d.script| + 2));
    WorkEmit(d, d4, b, inst, none);
    assert none + Owed(b, inst.op) == {(b, |d.script|), (b, |d.script| + 2)};
  }

  /** Sealing leaves scripts and predecessors alone. */
  ghost predicate SealedOnly(d: Draft, d': Draft, b: Label) {
    && d'.script == d.script && d'.preds == d.preds && b < |d.sealed| && d'.sealed == d.sealed[b := true]
    && HomesKept(d, d') && d.nextVreg <= d'.nextVreg && d'.params == d.params
  }

  method CloseBlock(b: Builder, block: Label)
    requires b.Ready() && block < |b.draft.preds|
    requires b.Clean() ==> forall i :: 0 <= i < |b.draft.preds[block]| ==> b.draft.preds[block][i] < |b.draft.script| && Ended(b.draft.script[b.draft.preds[block][i]])
    requires |b.draft.preds[block]| == 1 ==> b.draft.preds[block][0] < block
    modifies b
    ensures b.Ready() && b.curBlock == old(b.curBlock) && (b.Clean() ==> old(b.Clean()) && SealedOnly(old(b.draft), b.draft, block))
    ensures b.draft.script == old(b.draft.script) && b.draft.preds == old(b.draft.preds) && old(b.nextVreg) <= b.nextVreg
    ensures block < |old(b.draft.sealed)| && b.draft.sealed == old(b.draft.sealed)[block := true]
    ensures |b.blocks| == |old(b.blocks)| && forall c :: 0 <= c < |b.blocks| ==> |old(b.blocks)[c]| <= |b.blocks[c]|
  {
    hide Good, SsaBuilder.Holds, Builder.Valid, HomesKept, Ended;
    b.Facts();
    b.SealBlock(block);
    b.Facts();
  }

  ghost predicate RestBuilt(d0: Draft, d: Draft, block: Label, merge: Label, e: Expr, c: Code) {
    && Good(d) && Work(d0, d, {(block, merge)}) && OnlyIn(d0, d, block) && block < |d0.script| == |d.script|
    && CodeOk(d, e, c) && From(c) == Point(block, 0, |d.script|) && To(c).block == block && To(c).blocks == |d.script|
    && Ends(d, To(c), Jump(merge)) && Ended(d.script[block])
  }

  lemma EndsNow(d: Draft, b: Label, op: Op)
    requires b < |d.script| && op.IsTerminator()
    ensures var d' := EmitTo(d, b, Inst(None, op));
            && Ends(d', Here(d, b), op) && Ended(d'.script[b]) && OnlyIn(d, d', b) && |d'.script| == |d.script| && d'.preds == d.preds && d'.sealed == d.sealed
            && d'.nextVreg == d.nextVreg
  {
  }

  lemma SealedIsWork(d0: Draft, d: Draft, d': Draft, b: Label, s: set<(Label, Label)>)
    requires Work(d0, d, s) && SealedOnly(d, d', b)
    ensures Work(d0, d', s) && Extends(d, d')
  {
    SameScripts(d0, d, d', s);
  }

  /** A terminator is emitted and the block sealed. */
  lemma ClosedWork(d0: Draft, d: Draft, d': Draft, b: Label, op: Op, s: set<(Label, Label)>)
    requires Work(d0, d, s) && b < |d.script| && op.IsTerminator() && SealedOnly(EmitTo(d, b, Inst(None, op)), d', b)
    ensures Work(d0, d', s + Owed(b, op)) && Ends(d', Here(d, b), op) && Ended(d'.script[b]) && Extends(d, d')
  {
    var d1 := EmitTo(d, b, Inst(None, op));
    WorkEmit(d0, d, b, Inst(None, op), s);
    SealedIsWork(d0, d1, d', b, s + Owed(b, op));
    EndsNow(d, b, op);
    ActStays(d1, d', Here(d, b), Emit(Inst(None, op)));
    assert Extends(d, d1);
    hide Work;
    ExtendsTrans(d, d1, d');
  }

  lemma RestIs(d0: Draft, orig: Label, block: Label, d2: Draft, e: Expr, c: Code, merge: Label, d4: Draft)
    requires block < |d0.script| == |d0.preds| && d0.script[block] == [] && Straight(e)
    requires Lowered(WithPred(d0, block, orig), block, d2, block, e, c)
    requires SealedOnly(EmitTo(d2, block, Inst(None, Jump(merge))), d4, block) && Good(d4)
    ensures RestBuilt(d0, d4, block, merge, e, c)
  {
    hide Good, Extends, CodeOk, HomesKept;
    var d1 := WithPred(d0, block, orig);
    var none: set<(Label, Label)> := {};
    WorkRefl(d0);
    WorkPred(d0, d0, block, orig, none);
    hide Work;
    WorkOn(d0, d1, d2);
    ClosedWork(d0, d2, d4, block, Jump(merge), none);
    assert none + Owed(block, Jump(merge)) == {(block, merge)};
    CodeStays(d2, d4, e, c);
  }

  ghost predicate ConstBuilt(d0: Draft, d: Draft, block: Label, merge: Label, v: VReg, x: Int64) {
    && Good(d) && Work(d0, d, {(block, merge)}) && OnlyIn(d0, d, block) && block < |d0.script| == |d.script|
    && Computes(d, Point(block, 0, |d.script|), v, Const(x)) && Ends(d, Point(block, 1, |d.script|), Jump(merge)) && Ended(d.script[block])
  }

  lemma ConstIs(d0: Draft, orig: Label, block: Label, x: Int64, merge: Label, d4: Draft)
    requires Good(d0) && block < |d0.script| == |d0.preds| && d0.script[block] == []
    requires var d1 := WithPred(d0, block, orig);
             Good(d1) && SealedOnly(EmitTo(New(d1, block, Const(x)), block, Inst(None, Jump(merge))), d4, block) && Good(d4)
    ensures ConstBuilt(d0, d4, block, merge, d0.nextVreg, x)
  {
    var d1 := WithPred(d0, block, orig);
    assert Homes(d1) && Sizes(d1);
    hide Good, HomesKept;
    var d2 := New(d1, block, Const(x));
    var none: set<(Label, Label)> := {};
    WorkRefl(d0);
    WorkPred(d0, d0, block, orig, none);
    WorkNew(d0, d1, block, Const(x), none);
    NewIs(d1, block, Const(x));
    hide Work, Extends;
    ClosedWork(d0, d2, d4, block, Jump(merge), none);
    assert none + Owed(block, Jump(merge)) == {(block, merge)};
    ActStays(d2, d4, Here(d1, block), Emit(Inst(Some(d1.nextVreg), Const(x))));
  }

  method BuildConst(b: Builder, block: Label, orig: Label, x: Int64, merge: Label) returns (v: VReg)
    requires b.Ready() && 0 < block < |b.draft.script| && orig < block && block < |b.draft.sealed| && !b.draft.sealed[block]
    requires block < |b.draft.preds| && b.draft.preds[block] == []
    requires b.Clean() ==> b.draft.script[block] == [] && Ended(b.draft.script[orig])
    modifies b
    ensures b.Ready() && b.curBlock == block && old(b.nextVreg) <= b.nextVreg && |b.draft.script| == |old(b.draft.script)|
    ensures block < |old(b.draft.preds)| && b.draft.preds == old(b.draft.preds)[block := [orig]]
    ensures block < |old(b.draft.sealed)| && b.draft.sealed == old(b.draft.sealed)[block := true]
    ensures b.Clean() ==> old(b.Clean()) && ConstBuilt(old(b.draft), b.draft, block, merge, v, x)
  {
    hide Good, SsaBuilder.Holds, Builder.Valid, SealedOnly, ConstBuilt, Ended;
    b.Facts();
    ghost var d0 := b.draft;
    assert d0.preds[block] + [orig] == [orig];
    Enter(b, block, orig);
    b.Facts();
    ghost var d1 := b.draft;
    NotEnded(d1.script[block]);
    v := EmitOp(b, Const(x));
    Terminate(b, Jump(merge));
    OrigStays(d1, block, Const(x), merge, orig);
    b.Facts();
    CloseBlock(b, block);
    b.Facts();
    if b.Clean() {
      ConstIs(d0, orig, block, x, merge, b.draft);
    }
  }

  lemma NotEnded(es: seq<Act>)
    ensures es == [] ==> !Ended(es)
  {
  }

  lemma OrigStays(d: Draft, block: Label, op: Op, merge: Label, orig: Label)
    requires block < |d.script| && orig < |d.script| && orig != block
    ensures var d' := EmitTo(New(d, block, op), block, Inst(None, Jump(merge)));
            d'.script[orig] == d.script[orig] && d'.preds == d.preds && d'.sealed == d.sealed && |d'.script| == |d.script|
            && d.nextVreg <= d'.nextVreg
  {
  }

  /** The two ways through a short-circuit operator, before they meet. */
  ghost predicate Arms(d0: Draft, d: Draft, orig: Label, cond: VReg, swap: bool, e: Expr, c: Code, z: VReg, x: Int64) {
    var n := |d0.script|;
    && Good(d) && Work(d0, d, {(orig, n), (orig, n + 2), (n, n + 1), (n + 2, n + 1)}) && OnlyIn(d0, d, orig)
    && orig < n && |d.script| == n + 3 == |d.preds|
    && Ends(d, Here(d0, orig), Branch(cond, if swap then n + 2 else n, if swap then n else n + 2))
    && CodeOk(d, e, c) && From(c) == Point(n, 0, n + 3) && To(c).block == n && To(c).blocks == n + 3 && Ends(d, To(c), Jump(n + 1))
    && Computes(d, Point(n + 2, 0, n + 3), z, Const(x)) && Ends(d, Point(n + 2, 1, n + 3), Jump(n + 1))
    && d.script[n + 1] == [] && d.preds[n] == [orig] && d.preds[n + 2] == [orig]
    && Ended(d.script[n]) && Ended(d.script[n + 2])
    && d0.nextVreg in d.home && d.home[d0.nextVreg] == Taken
  }

  lemma FourDebts(d0: Draft, d1: Draft, d2: Draft, d3: Draft, orig: Label, n: nat, p: Label, q: Label)
    requires Work(d0, d1, {(orig, n), (orig, n + 2)}) && Work(d1, d2, {(p, n + 1)}) && Work(d2, d3, {(q, n + 1)})
    requires (p == n && q == n + 2) || (p == n + 2 && q == n)
    ensures Work(d0, d3, {(orig, n), (orig, n + 2), (n, n + 1), (n + 2, n + 1)}) && Extends(d1, d2) && Extends(d2, d3) && HomesKept(d1, d3)
  {
    WorkHomes(d1, d2, {(p, n + 1)});
    WorkHomes(d2, d3, {(q, n + 1)});
    hide Work;
    var two: set<(Label, Label)> := {(orig, n), (orig, n + 2)};
    WorkTrans(d0, d1, d2, two, {(p, n + 1)});
    WorkTrans(d0, d2, d3, two + {(p, n + 1)}, {(q, n + 1)});
    assert two + {(p, n + 1)} + {(q, n + 1)} == {(orig, n), (orig, n + 2), (n, n + 1), (n + 2, n + 1)};
  }

  lemma ArmScripts(d0: Draft, d1: Draft, d2: Draft, d3: Draft, orig: Label, p: Label, q: Label)
    requires var n := |d0.script|;
             && OnlyIn(d0, d1, orig) && OnlyIn(d1, d2, p) && OnlyIn(d2, d3, q) && orig < n && n + 3 == |d1.script| == |d2.script| == |d3.script|
             && ((p == n && q == n + 2) || (p == n + 2 && q == n))
    ensures OnlyIn(d0, d3, orig) && d3.script[|d0.script| + 1] == d1.script[|d0.script| + 1] && d3.script[p] == d2.script[p]
  {
  }

  /** First the second operand's block, then the other. */
  lemma AndArms(d0: Draft, orig: Label, cond: VReg, d2: Draft, d3: Draft, e: Expr, c: Code, z: VReg, x: Int64)
    requires Good(d0) && orig < |d0.script| && Good(Forked(d0, orig, cond, false))
    requires var n := |d0.script|; RestBuilt(Forked(d0, orig, cond, false), d2, n, n + 1, e, c) && ConstBuilt(d2, d3, n + 2, n + 1, z, x)
    requires var n := |d0.script|; |d3.preds| == n + 3 && d3.preds[n] == [orig] && d3.preds[n + 2] == [orig]
    ensures Arms(d0, d3, orig, cond, false, e, c, z, x)
  {
    hide Good, Work, Forked, CodeOk, Extends, Ended, Held, ActAt, OnlyIn, Ends, Computes, LoweredCode.From, To, Here;
    var d1, n := Forked(d0, orig, cond, false), |d0.script|;
    ForkedIs(d0, orig, cond, false);
    FourDebts(d0, d1, d2, d3, orig, n, n, n + 2);
    ArmScripts(d0, d1, d2, d3, orig, n, n + 2);
    CodeStays(d2, d3, e, c);
    ExtendsTrans(d1, d2, d3);
    EndsStay(d1, d3, Here(d0, orig), Branch(cond, n, n + 2));
    EndsStay(d2, d3, To(c), Jump(n + 1));
    assert d0.nextVreg in d3.home && d3.home[d0.nextVreg] == Taken;
  }

  /** First the block for the skipped case, then the second operand's. */
  lemma OrArms(d0: Draft, orig: Label, cond: VReg, d2: Draft, d3: Draft, e: Expr, c: Code, z: VReg, x: Int64)
    requires Good(d0) && orig < |d0.script| && Good(Forked(d0, orig, cond, true))
    requires var n := |d0.script|; ConstBuilt(Forked(d0, orig, cond, true), d2, n + 2, n + 1, z, x) && RestBuilt(d2, d3, n, n + 1, e, c)
    requires var n := |d0.script|; |d3.preds| == n + 3 && d3.preds[n] == [orig] && d3.preds[n + 2] == [orig]
    ensures Arms(d0, d3, orig, cond, true, e, c, z, x)
  {
    hide Good, Work, Forked, CodeOk, Extends, Ended, Held, ActAt, OnlyIn, Ends, Computes, LoweredCode.From, To, Here;
    var d1, n := Forked(d0, orig, cond, true), |d0.script|;
    ForkedIs(d0, orig, cond, true);
    FourDebts(d0, d1, d2, d3, orig, n, n + 2, n);
    ArmScripts(d0, d1, d2, d3, orig, n + 2, n);
    ExtendsTrans(d1, d2, d3);
    EndsStay(d1, d3, Here(d0, orig), Branch(cond, n + 2, n));
    ComputesStay(d2, d3, Point(n + 2, 0, n + 3), z, Const(x));
    EndsStay(d2, d3, Point(n + 2, 1, n + 3), Jump(n + 1));
    assert d0.nextVreg in d3.home && d3.home[d0.nextVreg] == Taken;
  }

  /** The block where both ways meet got its PHI. */
  ghost predicate Met(d: Draft, d': Draft, merge: Label, result: VReg, phi: Op, p: Label, q: Label) {
    && Good(d') && merge < |d.script| && d'.script == d.script[merge := [Act.Emit(Inst(Some(result), phi))]]
    && merge < |d.preds| && d'.preds == d.preds[merge := [p, q]] && d'.params == d.params
    && (forall v :: v in d.home && v != result ==> v in d'.home && d'.home[v] == d.home[v])
    && result in d'.home && d'.home[result] == BodyAt(merge, 0)
  }

  lemma MetIs(d: Draft, d1: Draft, merge: Label, result: VReg, phi: Op, p: Label, q: Label)
    requires Good(d) && merge < |d.script| && merge < |d.preds| && d.script[merge] == [] && d.preds[merge] == [] && Good(d1)
    requires SealedOnly(EmitTo(WithPred(WithPred(d, merge, p), merge, q), merge, Inst(Some(result), phi)), d1, merge)
    ensures Met(d, d1, merge, result, phi, p, q)
  {
    assert [] + [Act.Emit(Inst(Some(result), phi))] == [Act.Emit(Inst(Some(result), phi))];
    assert [] + [p] + [q] == [p, q];
    hide Good;
  }

  /** The merge has its two predecessors. */
  method EnterTwo(b: Builder, merge: Label, p: Label, q: Label)
    requires b.Ready() && 0 < merge < |b.draft.script| && p < |b.draft.script| && q < |b.draft.script|
    requires merge < |b.draft.sealed| && !b.draft.sealed[merge] && merge < |b.draft.preds| && b.draft.preds[merge] == []
    modifies b
    ensures b.Ready() && b.curBlock == merge && (b.Clean() <==> old(b.Clean()))
    ensures merge < |WithPred(old(b.draft), merge, p).preds| && b.draft == WithPred(WithPred(old(b.draft), merge, p), merge, q)
    ensures b.draft.preds == old(b.draft.preds)[merge := [p, q]] && b.draft.sealed == old(b.draft.sealed)
    ensures b.nextVreg == old(b.nextVreg)
  {
    hide Good, SsaBuilder.Holds, Ended, Builder.Valid;
    b.Facts();
    assert b.draft.preds[merge] + [p] == [p] && [p] + [q] == [p, q];
    Enter(b, merge, p);
    b.Facts();
    b.AddPred(merge, q);
    b.Facts();
  }

  method BuildMerge(b: Builder, merge: Label, p: Label, q: Label, result: VReg, phi: Op)
    requires b.Ready() && 0 < merge < |b.draft.script| && p < |b.draft.script| && q < |b.draft.script|
    requires merge < |b.draft.sealed| && !b.draft.sealed[merge] && merge < |b.draft.preds| && b.draft.preds[merge] == []
    requires result < b.nextVreg && phi.Phi?
    requires b.Clean() ==> b.draft.script[merge] == [] && Ended(b.draft.script[p]) && Ended(b.draft.script[q]) && p != merge && q != merge
    requires b.Clean() ==> result in b.draft.home && b.draft.home[result] == Taken
    modifies b
    ensures b.Takes() && b.curBlock == merge && old(b.nextVreg) <= b.nextVreg && |b.draft.script| == |old(b.draft.script)|
    ensures b.draft.preds == old(b.draft.preds)[merge := [p, q]] && b.draft.sealed == old(b.draft.sealed)[merge := true]
    ensures b.Clean() ==> old(b.Clean()) && Met(old(b.draft), b.draft, merge, result, phi, p, q)
  {
    hide Good, SsaBuilder.Holds, SealedOnly, Met, Ended, Builder.Valid;
    b.Facts();
    ghost var d := b.draft;
    EnterTwo(b, merge, p, q);
    b.Facts();
    ghost var d1 := b.draft;
    assert d1.home == d.home && d1.script == d.script;
    NotEnded(d1.script[merge]);
    b.EmitInst(Inst(Some(result), phi));
    b.Facts();
    EmittedOnly(d1, merge, Inst(Some(result), phi), p, q);
    ghost var d2 := b.draft;
    CloseBlock(b, merge);
    b.Facts();
    if b.Clean() {
      MetIs(d, b.draft, merge, result, phi, p, q);
    }
  }

  lemma EmittedOnly(d: Draft, b: Label, inst: Inst, p: Label, q: Label)
    requires b < |d.script| && !inst.op.IsTerminator() && inst.dst.Some? && inst.dst.value < d.nextVreg
    ensures var d' := EmitTo(d, b, inst);
            && d'.preds == d.preds && d'.sealed == d.sealed && d'.nextVreg == d.nextVreg && |d'.script| == |d.script| && !Ended(d'.script[b])
            && (p < |d.script| && p != b ==> d'.script[p] == d.script[p]) && (q < |d.script| && q != b ==> d'.script[q] == d.script[q])
  {
  }

  lemma MetExtends(d0: Draft, d: Draft, d': Draft, orig: Label, merge: Label, result: VReg, phi: Op, p: Label, q: Label)
    requires Met(d, d', merge, result, phi, p, q) && result in d.home && d.home[result] == Taken && d.script[merge] == []
    requires OnlyIn(d0, d, orig) && merge >= |d0.script| && HomesKept(d0, d) && result !in d0.home
    ensures Extends(d, d') && OnlyIn(d0, d', orig) && HomesKept(d0, d')
  {
    forall c | 0 <= c < |d.script| ensures d.script[c] <= d'.script[c] {
    }
  }

  /** All four jumps are known where they lead. */
  lemma WorkMet(d0: Draft, d: Draft, d': Draft, orig: Label, result: VReg, phi: Op, p: Label, q: Label)
    requires var n := |d0.script|;
             && Work(d0, d, {(orig, n), (orig, n + 2), (n, n + 1), (n + 2, n + 1)}) && |d.script| == |d.preds| == n + 3
             && Met(d, d', n + 1, result, phi, p, q) && ((p == n && q == n + 2) || (p == n + 2 && q == n))
             && d.script[n + 1] == [] && d.preds[n] == [orig] && d.preds[n + 2] == [orig] && d.preds[n + 1] == [] && phi.Phi?
    requires HomesKept(d0, d')
    ensures Work(d0, d', {})
  {
    var n := |d0.script|;
    var debts: set<(Label, Label)> := {(orig, n), (orig, n + 2), (n, n + 1), (n + 2, n + 1)};
    var mid := d.(preds := d'.preds);
    assert PredsGrow(d, mid) && HomesKept(d, mid);
    SameScripts(d0, d, mid, debts);
    var ev := Act.Emit(Inst(Some(result), phi));
    assert mid.script[n + 1] + [ev] == [ev];
    hide Work, PredsGrow, HomesKept;
    OneMore(d0, mid, d', n + 1, ev, debts);
    assert debts + Owed(n + 1, phi) == debts;
    assert d'.preds[n] == [orig] && d'.preds[n + 2] == [orig] && d'.preds[n + 1] == [p, q];
    assert KnownPred(d', orig, n) && KnownPred(d', orig, n + 2);
    assert KnownPred(d', n, n + 1) && KnownPred(d', n + 2, n + 1) by { assert p in [p, q] && q in [p, q]; }
    Repaid(d0, d', debts);
  }

  /** A short-circuit operator whose two ways have met. */
  ghost predicate Joined(d0: Draft, d: Draft, orig: Label, cl: Code, swap: bool, r: Expr, cr: Code, z: VReg, x: Int64, phi: Op) {
    var n := |d0.script|;
    && orig < n && Work(d0, d, {}) && OnlyIn(d0, d, orig) && |d.script| == n + 3
    && CodeOk(d, r, cr) && LoweredCode.From(cr) == Point(n, 0, n + 3) && To(cr).block == n && To(cr).blocks == n + 3
    && Ends(d, To(cr), Jump(n + 1)) && Ends(d, Point(n + 2, 1, n + 3), Jump(n + 1))
    && Ends(d, Here(d0, orig), Branch(cl.reg, if swap then n + 2 else n, if swap then n else n + 2))
    && Computes(d, Point(n + 2, 0, n + 3), z, Const(x)) && Fresh(d, n + 1, d0.nextVreg, phi)
  }

  /** The block holds only the computation of `v`. */
  ghost predicate Fresh(d: Draft, b: Label, v: VReg, op: Op) {
    b < |d.script| && d.script[b] == [Act.Emit(Inst(Some(v), op))] && v in d.home && d.home[v] == BodyAt(b, 0)
  }

  lemma NotYet(d: Draft)
    requires Good(d)
    ensures d.nextVreg !in d.home
  {
    assert Homes(d);
  }

  lemma MetFresh(d: Draft, d': Draft, merge: Label, result: VReg, phi: Op, p: Label, q: Label)
    requires Met(d, d', merge, result, phi, p, q)
    ensures Fresh(d', merge, result, phi) && |d'.script| == |d.script|
  {
    hide Good;
  }

  lemma ForkJoined(d0: Draft, d: Draft, d': Draft, orig: Label, cl: Code, swap: bool, r: Expr, cr: Code, z: VReg, x: Int64, phi: Op, p: Label, q: Label)
    requires Good(d0) && Arms(d0, d, orig, cl.reg, swap, r, cr, z, x) && phi.Phi? && |d.preds| == |d0.script| + 3 && d.preds[|d0.script| + 1] == []
    requires Met(d, d', |d0.script| + 1, d0.nextVreg, phi, p, q)
    requires (p == |d0.script| && q == |d0.script| + 2) || (p == |d0.script| + 2 && q == |d0.script|)
    ensures Joined(d0, d', orig, cl, swap, r, cr, z, x, phi)
  {
    hide Good, CodeOk, Work, Ended, Extends, HomesKept, OnlyIn, Ends, Computes, LoweredCode.From, To, Here, Met, Fresh;
    var n := |d0.script|;
    var debts: set<(Label, Label)> := {(orig, n), (orig, n + 2), (n, n + 1), (n + 2, n + 1)};
    NotYet(d0);
    MetFresh(d, d', n + 1, d0.nextVreg, phi, p, q);
    WorkHomes(d0, d, debts);
    MetExtends(d0, d, d', orig, n + 1, d0.nextVreg, phi, p, q);
    WorkMet(d0, d, d', orig, d0.nextVreg, phi, p, q);
    CodeStays(d, d', r, cr);
    EndsStay(d, d', Here(d0, orig), Branch(cl.reg, if swap then n + 2 else n, if swap then n else n + 2));
    EndsStay(d, d', To(cr), Jump(n + 1));
    ComputesStay(d, d', Point(n + 2, 0, n + 3), z, Const(x));
    EndsStay(d, d', Point(n + 2, 1, n + 3), Jump(n + 1));
  }

  lemma FreshIs(d: Draft, b: Label, v: VReg, op: Op)
    requires Fresh(d, b, v, op) && !op.Print?
    ensures Computes(d, Point(b, 0, |d.script|), v, op) && Held(d, v, Point(b, 1, |d.script|)) && Here(d, b) == Point(b, 1, |d.script|)
    ensures d.script[b] != [] && Yields(d.script[b][|d.script[b]| - 1]) == Some(v)
  {
  }

  lemma LoweredFacts(d0: Draft, b0: Label, d1: Draft, b1: Label, e: Expr, c: Code)
    requires Lowered(d0, b0, d1, b1, e, c)
    ensures Good(d1) && Work(d0, d1, {}) && CodeOk(d1, e, c) && OnlyIn(d0, d1, b0)
    ensures b0 < |d0.script| && b1 < |d1.script| && LoweredCode.From(c) == Here(d0, b0) && To(c) == Here(d1, b1) && To(c).blocks == |d1.script|
  {
    hide Good, Work, CodeOk, OnlyIn;
  }

  lemma LoweredIs(d0: Draft, b0: Label, d1: Draft, b1: Label, e: Expr, c: Code)
    requires Good(d1) && Work(d0, d1, {}) && CodeOk(d1, e, c) && OnlyIn(d0, d1, b0)
    requires b0 < |d0.script| && b1 < |d1.script| && LoweredCode.From(c) == Here(d0, b0) && To(c) == Here(d1, b1)
    requires d1.script[b1] != [] && Yields(d1.script[b1][|d1.script[b1]| - 1]) == Some(c.reg)
    requires Straight(e) ==> b1 == b0 && |d1.script| == |d0.script|
    ensures Lowered(d0, b0, d1, b1, e, c)
  {
    hide Good, Work, CodeOk, OnlyIn;
  }

  lemma JoinedFacts(d0: Draft, d: Draft, orig: Label, cl: Code, swap: bool, r: Expr, cr: Code, z: VReg, x: Int64, phi: Op)
    requires Joined(d0, d, orig, cl, swap, r, cr, z, x, phi)
    ensures var n := |d0.script|;
            && orig < n && Work(d0, d, {}) && OnlyIn(d0, d, orig) && |d.script| == n + 3 && CodeOk(d, r, cr)
            && Ends(d, Here(d0, orig), Branch(cl.reg, if swap then n + 2 else n, if swap then n else n + 2))
            && Computes(d, Point(n + 2, 0, n + 3), z, Const(x)) && Fresh(d, n + 1, d0.nextVreg, phi)
  {
    hide Good, Work, CodeOk, OnlyIn, Ends, Computes, Fresh;
  }

  lemma JoinedFork(d0: Draft, d: Draft, orig: Label, cl: Code, swap: bool, r: Expr, cr: Code, z: VReg, x: Int64, phi: Op)
    requires Joined(d0, d, orig, cl, swap, r, cr, z, x, phi) && To(cl).blocks == |d0.script|
    ensures ForkOk(d, Fork(cl, cr, z, Point(|d0.script| + 1, 0, |d0.script| + 3), d0.nextVreg))
  {
    hide Good, Work, CodeOk, OnlyIn, Ends, Computes, Fresh;
  }

  lemma SpreadBounds(d0: Draft, b0: Label, d1: Draft, b1: Label)
    requires Spread(d0, b0, d1, b1)
    ensures b1 == b0 || b1 >= |d0.script|
    ensures b0 < |d0.script| <= |d1.script| && b1 < |d1.script|
  {
  }

  lemma NotStraight(l: Expr, r: Expr)
    ensures !Straight(AndAlso(l, r)) && !Straight(OrElse(l, r))
  {
  }

  lemma ForkEnds(cl: Code, cr: Code, z: VReg, n: nat, v: VReg)
    ensures var c := Fork(cl, cr, z, Point(n + 1, 0, n + 3), v); LoweredCode.From(c) == LoweredCode.From(cl) && To(c) == Point(n + 1, 1, n + 3)
  {
  }

  lemma AndLowered(d0: Draft, b0: Label, d1: Draft, b1: Label, d2: Draft, l: Expr, cl: Code, r: Expr, cr: Code, z: VReg)
    requires Lowered(d0, b0, d1, b1, l, cl) && Spread(d0, b0, d1, b1) && Good(d2)
    requires var n := |d1.script|; Joined(d1, d2, b1, cl, false, r, cr, z, 0, Phi([PhiArg(cr.reg, n), PhiArg(z, n + 2)]))
    ensures var n := |d1.script|; Lowered(d0, b0, d2, n + 1, AndAlso(l, r), Fork(cl, cr, z, Point(n + 1, 0, n + 3), d1.nextVreg))
  {
    hide Lowered, Joined, Spread, Good, Work, CodeOk, OnlyIn, Ends, Computes, Held, Fresh, Extends, ForkOk, Here, To, LoweredCode.From, Straight;
    var n := |d1.script|;
    var phi := Phi([PhiArg(cr.reg, n), PhiArg(z, n + 2)]);
    var c := Fork(cl, cr, z, Point(n + 1, 0, n + 3), d1.nextVreg);
    ForkEnds(cl, cr, z, n, d1.nextVreg);
    LoweredFacts(d0, b0, d1, b1, l, cl);
    JoinedFacts(d1, d2, b1, cl, false, r, cr, z, 0, phi);
    JoinedFork(d1, d2, b1, cl, false, r, cr, z, 0, phi);
    FreshIs(d2, n + 1, d1.nextVreg, phi);
    WorkHomes(d1, d2, {});
    WorkOn(d0, d1, d2);
    CodeStays(d1, d2, l, cl);
    MakeAnd(d2, l, r, c);
    SpreadBounds(d0, b0, d1, b1);
    OnlyTrans(d0, b0, d1, b1, d2);
    NotStraight(l, r);
    LoweredIs(d0, b0, d2, n + 1, AndAlso(l, r), c);
  }

  lemma OrLowered(d0: Draft, b0: Label, d1: Draft, b1: Label, d2: Draft, l: Expr, cl: Code, r: Expr, cr: Code, z: VReg)
    requires Lowered(d0, b0, d1, b1, l, cl) && Spread(d0, b0, d1, b1) && Good(d2)
    requires var n := |d1.script|; Joined(d1, d2, b1, cl, true, r, cr, z, 1, Phi([PhiArg(z, n + 2), PhiArg(cr.reg, n)]))
    ensures var n := |d1.script|; Lowered(d0, b0, d2, n + 1, OrElse(l, r), Fork(cl, cr, z, Point(n + 1, 0, n + 3), d1.nextVreg))
  {
    hide Lowered, Joined, Spread, Good, Work, CodeOk, OnlyIn, Ends, Computes, Held, Fresh, Extends, ForkOk, Here, To, LoweredCode.From, Straight;
    var n := |d1.script|;
    var phi := Phi([PhiArg(z, n + 2), PhiArg(cr.reg, n)]);
    var c := Fork(cl, cr, z, Point(n + 1, 0, n + 3), d1.nextVreg);
    ForkEnds(cl, cr, z, n, d1.nextVreg);
    LoweredFacts(d0, b0, d1, b1, l, cl);
    JoinedFacts(d1, d2, b1, cl, true, r, cr, z, 1, phi);
    JoinedFork(d1, d2, b1, cl, true, r, cr, z, 1, phi);
    FreshIs(d2, n + 1, d1.nextVreg, phi);
    WorkHomes(d1, d2, {});
    WorkOn(d0, d1, d2);
    CodeStays(d1, d2, l, cl);
    MakeOr(d2, l, r, c);
    SpreadBounds(d0, b0, d1, b1);
    OnlyTrans(d0, b0, d1, b1, d2);
    NotStraight(l, r);
    LoweredIs(d0, b0, d2, n + 1, OrElse(l, r), c);
  }

  lemma OnlyTrans(d0: Draft, b0: Label, d1: Draft, b1: Label, d2: Draft)
    requires OnlyIn(d0, d1, b0) && OnlyIn(d1, d2, b1) && (b1 == b0 || b1 >= |d0.script|)
    ensures OnlyIn(d0, d2, b0)
  {
  }

  /** ssa_build_expr: the register that holds the value, and where the code is. */
  method BuildExpr(b: Builder, e: Expr) returns (v: VReg, ghost c: Code)
    requires b.Takes() && Lowerable(e)
    modifies b
    ensures b.Takes() && Spread(old(b.draft), old(b.curBlock), b.draft, b.curBlock)
    ensures Straight(e) ==> b.curBlock == old(b.curBlock) && |b.draft.script| == |old(b.draft.script)|
    ensures b.Clean() ==> old(b.Clean()) && Lowered(old(b.draft), old(b.curBlock), b.draft, b.curBlock, e, c) && c.reg == v
    decreases e, 2
  {
    hide Good, SsaBuilder.Holds, Builder.Valid, Spread, Lowered, New, Got;
    b.Facts();
    ghost var d0, b0 := b.draft, b.curBlock;
    match e {
      case IntLit(x) =>
        v := EmitOp(b, Const(x));
        b.Facts();
        NewSpread(d0, b0, Const(x));
        c := Leaf(Here(d0, b0), v);
        if b.Clean() {
          LitLowered(d0, b0, x);
        }
      case Ident(x) =>
        v := b.ReadVarCurrent(x);
        b.Facts();
        SpreadSame(d0, b0, b.draft);
        c := Leaf(Here(d0, b0), v);
        if b.Clean() {
          IdentLowered(d0, b.draft, b0, x, v);
          ReadTakes(d0, b.draft, b0, x, v);
        }
      case _ =>
        v, c := BuildCompound(b, e);
    }
  }

  lemma NewSpread(d: Draft, b: Label, op: Op)
    requires |d.script| == |d.preds| == |d.sealed| && b < |d.script|
    ensures Spread(d, b, New(d, b, op), b) && |New(d, b, op).script| == |d.script|
  {
    SpreadSame(d, b, New(d, b, op));
  }

  lemma ReadTakes(d: Draft, d': Draft, b: Label, x: Name, v: VReg)
    requires Got(d, d', b, x, v)
    ensures b < |d'.script| && !Ended(d'.script[b])
  {
  }

  /** Operators and calls. */
  method BuildCompound(b: Builder, e: Expr) returns (v: VReg, ghost c: Code)
    requires b.Takes() && Lowerable(e) && !e.IntLit? && !e.Ident?
    modifies b
    ensures b.Takes() && Spread(old(b.draft), old(b.curBlock), b.draft, b.curBlock)
    ensures Straight(e) ==> b.curBlock == old(b.curBlock) && |b.draft.script| == |old(b.draft.script)|
    ensures b.Clean() ==> old(b.Clean()) && Lowered(old(b.draft), old(b.curBlock), b.draft, b.curBlock, e, c) && c.reg == v
    decreases e, 1
  {
    if e.Unary? {
      v, c := BuildUnary(b, e);
    } else if e.Binary? {
      v, c := BuildBinary(b, e);
    } else if e.Compared? {
      v, c := BuildCmp(b, e);
    } else if e.CallTo? {
      v, c := BuildCall(b, e);
    } else if e.AndAlso? {
      v, c := BuildAnd(b, e);
    } else {
      v, c := BuildOr(b, e);
    }
  }

  method BuildUnary(b: Builder, e: Expr) returns (v: VReg, ghost c: Code)
    requires b.Takes() && e.Unary? && Lowerable(e)
    modifies b
    ensures b.Takes() && Spread(old(b.draft), old(b.curBlock), b.draft, b.curBlock)
    ensures Straight(e) ==> b.curBlock == old(b.curBlock) && |b.draft.script| == |old(b.draft.script)|
    ensures b.Clean() ==> old(b.Clean()) && Lowered(old(b.draft), old(b.curBlock), b.draft, b.curBlock, e, c) && c.reg == v
    decreases e, 0
  {
    hide Good, SsaBuilder.Holds, Builder.Valid, Spread, Lowered, New;
    b.Facts();
    ghost var d0, b0 := b.draft, b.curBlock;
    var u, ca := BuildExpr(b, e.operand);
    b.Facts();
    ghost var d1, b1 := b.draft, b.curBlock;
    v := EmitOp(b, Unop(e.uop, u));
    b.Facts();
    Atop(d0, b0, d1, b1, Unop(e.uop, u));
    c := One(ca, Here(d1, b1), v);
    if b.Clean() {
      UnaryLowered(d0, b0, d1, b1, e.operand, ca, e.uop);
    }
  }

  method BuildBinary(b: Builder, e: Expr) returns (v: VReg, ghost c: Code)
    requires b.Takes() && e.Binary? && Lowerable(e)
    modifies b
    ensures b.Takes() && Spread(old(b.draft), old(b.curBlock), b.draft, b.curBlock)
    ensures Straight(e) ==> b.curBlock == old(b.curBlock) && |b.draft.script| == |old(b.draft.script)|
    ensures b.Clean() ==> old(b.Clean()) && Lowered(old(b.draft), old(b.curBlock), b.draft, b.curBlock, e, c) && c.reg == v
    decreases e, 0
  {
    hide Good, SsaBuilder.Holds, Builder.Valid, Spread, Lowered, New, PairLowered;
    b.Facts();
    ghost var d0, b0 := b.draft, b.curBlock;
    var x, cl := BuildExpr(b, e.left);
    b.Facts();
    ghost var d1, b1 := b.draft, b.curBlock;
    var y, cr := BuildExpr(b, e.right);
    b.Facts();
    ghost var d2, b2 := b.draft, b.curBlock;
    SpreadTrans(d0, b0, d1, b1, d2, b2);
    v := EmitOp(b, Binop(e.op, x, y));
    b.Facts();
    Atop(d0, b0, d2, b2, Binop(e.op, x, y));
    c := Two(cl, cr, Here(d2, b2), v);
    if b.Clean() {
      TwoLowered(d0, b0, d1, b1, d2, b2, e.left, e.right, cl, cr);
      BinaryLowered(d0, b0, d2, b2, e.left, e.right, cl, cr, e.op);
    }
  }

  method BuildCmp(b: Builder, e: Expr) returns (v: VReg, ghost c: Code)
    requires b.Takes() && e.Compared? && Lowerable(e)
    modifies b
    ensures b.Takes() && Spread(old(b.draft), old(b.curBlock), b.draft, b.curBlock)
    ensures Straight(e) ==> b.curBlock == old(b.curBlock) && |b.draft.script| == |old(b.draft.script)|
    ensures b.Clean() ==> old(b.Clean()) && Lowered(old(b.draft), old(b.curBlock), b.draft, b.curBlock, e, c) && c.reg == v
    decreases e, 0
  {
    hide Good, SsaBuilder.Holds, Builder.Valid, Spread, Lowered, New, PairLowered;
    b.Facts();
    ghost var d0, b0 := b.draft, b.curBlock;
    var x, cl := BuildExpr(b, e.left);
    b.Facts();
    ghost var d1, b1 := b.draft, b.curBlock;
    var y, cr := BuildExpr(b, e.right);
    b.Facts();
    ghost var d2, b2 := b.draft, b.curBlock;
    SpreadTrans(d0, b0, d1, b1, d2, b2);
    v := EmitOp(b, Cmp(e.cmp, x, y));
    b.Facts();
    Atop(d0, b0, d2, b2, Cmp(e.cmp, x, y));
    c := Two(cl, cr, Here(d2, b2), v);
    if b.Clean() {
      TwoLowered(d0, b0, d1, b1, d2, b2, e.left, e.right, cl, cr);
      CmpLowered(d0, b0, d2, b2, e.left, e.right, cl, cr, e.cmp);
    }
  }

  method BuildCall(b: Builder, e: Expr) returns (v: VReg, ghost c: Code)
    requires b.Takes() && e.CallTo? && Lowerable(e)
    modifies b
    ensures b.Takes() && Spread(old(b.draft), old(b.curBlock), b.draft, b.curBlock)
    ensures Straight(e) ==> b.curBlock == old(b.curBlock) && |b.draft.script| == |old(b.draft.script)|
    ensures b.Clean() ==> old(b.Clean()) && Lowered(old(b.draft), old(b.curBlock), b.draft, b.curBlock, e, c) && c.reg == v
    decreases e, 0
  {
    hide Good, SsaBuilder.Holds, Builder.Valid, Spread, Lowered, New, ArgsLowered, Regs;
    b.Facts();
    ghost var d0, b0 := b.draft, b.curBlock;
    var vs, cs := BuildArgs(b, e.args);
    b.Facts();
    ghost var d1, b1 := b.draft, b.curBlock;
    v := EmitOp(b, Call(e.func, vs));
    b.Facts();
    Atop(d0, b0, d1, b1, Call(e.func, vs));
    c := Many(Here(d0, b0), cs, Here(d1, b1), v);
    if b.Clean() {
      CallLowered(d0, b0, d1, b1, e.args, cs, e.func);
    }
  }

  method BuildArgs(b: Builder, args: seq<Expr>) returns (vs: seq<VReg>, ghost cs: seq<Code>)
    requires b.Takes() && forall i :: 0 <= i < |args| ==> Lowerable(args[i])
    modifies b
    ensures b.Takes() && Spread(old(b.draft), old(b.curBlock), b.draft, b.curBlock)
    ensures (forall i :: 0 <= i < |args| ==> Straight(args[i])) ==> b.curBlock == old(b.curBlock) && |b.draft.script| == |old(b.draft.script)|
    ensures b.Clean() ==> old(b.Clean()) && ArgsLowered(old(b.draft), old(b.curBlock), b.draft, b.curBlock, args, cs) && vs == Regs(cs)
    decreases args
  {
    hide Good, SsaBuilder.Holds, Builder.Valid, Spread, Lowered, ArgsLowered, Regs;
    b.Facts();
    ghost var d0, b0 := b.draft, b.curBlock;
    vs, cs := [], [];
    SpreadSame(d0, b0, d0);
    if b.Clean() {
      NoArgsLowered(d0, b0);
    }
    NoRegs();
    for i := 0 to |args|
      invariant b.Takes() && Spread(d0, b0, b.draft, b.curBlock)
      invariant (forall j :: 0 <= j < i ==> Straight(args[j])) ==> b.curBlock == b0 && |b.draft.script| == |d0.script|
      invariant b.Clean() ==> old(b.Clean()) && ArgsLowered(d0, b0, b.draft, b.curBlock, args[..i], cs) && vs == Regs(cs)
    {
      ghost var d1, b1 := b.draft, b.curBlock;
      var v, c := BuildExpr(b, args[i]);
      SpreadTrans(d0, b0, d1, b1, b.draft, b.curBlock);
      if b.Clean() {
        MoreArgsLowered(d0, b0, d1, b1, b.draft, b.curBlock, args[..i], cs, args[i], c);
        MoreRegs(cs, c);
      }
      assert args[..i] + [args[i]] == args[..i + 1];
      vs, cs := vs + [v], cs + [c];
    }
    assert args[..|args|] == args;
  }

  lemma NoRegs()
    ensures Regs([]) == []
  {
  }

  lemma MoreRegs(cs: seq<Code>, c: Code)
    ensures Regs(cs + [c]) == Regs(cs) + [c.reg]
  {
  }

  method BuildAnd(b: Builder, e: Expr) returns (v: VReg, ghost c: Code)
    requires b.Takes() && e.AndAlso? && Lowerable(e)
    modifies b
    ensures b.Takes() && Spread(old(b.draft), old(b.curBlock), b.draft, b.curBlock)
    ensures Straight(e) ==> b.curBlock == old(b.curBlock) && |b.draft.script| == |old(b.draft.script)|
    ensures b.Clean() ==> old(b.Clean()) && Lowered(old(b.draft), old(b.curBlock), b.draft, b.curBlock, e, c) && c.reg == v
    decreases e, 0
  {
    hide Good, SsaBuilder.Holds, Builder.Valid, Spread, Lowered, Arms, Met, Joined;
    b.Facts();
    ghost var d0, b0 := b.draft, b.curBlock;
    var x, cl := BuildExpr(b, e.left);
    b.Facts();
    ghost var d1, b1 := b.draft, b.curBlock;
    StraightIsLowerable(e.right);
    var rest := |b.blocks|;
    var result, y, z, cr := AndWays(b, x, e.right);
    b.Facts();
    ghost var d3 := b.draft;
    var merge, other := rest + 1, rest + 2;
    MergeOpen(d1, b1, d3);
    if b.Clean() {
      ArmsFacts(d1, d3, b1, x, false, e.right, cr, z, 0);
    }
    BuildMerge(b, merge, rest, other, result, Phi([PhiArg(y, rest), PhiArg(z, other)]));
    b.Facts();
    ForkSpread(d0, b0, d1, b1, d3, b.draft, [rest, other]);
    v := result;
    c := Fork(cl, cr, z, Point(merge, 0, rest + 3), result);
    NotStraight(e.left, e.right);
    if b.Clean() {
      LoweredFacts(d0, b0, d1, b1, e.left, cl);
      ForkJoined(d1, d3, b.draft, b1, cl, false, e.right, cr, z, 0, Phi([PhiArg(y, rest), PhiArg(z, other)]), rest, other);
      AndLowered(d0, b0, d1, b1, b.draft, e.left, cl, e.right, cr, z);
    }
  }

  method AndWays(b: Builder, x: VReg, r: Expr) returns (result: VReg, y: VReg, z: VReg, ghost cr: Code)
    requires b.Takes() && Straight(r) && Lowerable(r)
    modifies b
    ensures b.Ready() && result == old(b.nextVreg) < b.nextVreg && WaysGraph(old(b.draft), old(b.curBlock), b.draft)
    ensures b.Clean() ==> old(b.Clean()) && Arms(old(b.draft), b.draft, old(b.curBlock), x, false, r, cr, z, 0) && cr.reg == y
    decreases r, 4
  {
    hide Good, SsaBuilder.Holds, Builder.Valid, Forked, RestBuilt, ConstBuilt, Arms, Ended;
    b.Facts();
    ghost var d1, b1 := b.draft, b.curBlock;
    var orig := b.curBlock;
    var rest, merge, other;
    result, rest, merge, other := OpenFork(b, x, false);
    b.Facts();
    ForkedGraph(d1, b1, x, false);
    if b.Clean() {
      ForkedIs(d1, b1, x, false);
    }
    ghost var df := b.draft;
    y, cr := BuildRest(b, rest, orig, r, merge);
    b.Facts();
    ghost var d2 := b.draft;
    if b.Clean() {
      RestOnly(df, d2, rest, merge, r, cr);
    }
    z := BuildConst(b, other, orig, 0, merge);
    b.Facts();
    if b.Clean() {
      AndArms(d1, b1, x, d2, b.draft, r, cr, z, 0);
    }
  }

  method BuildOr(b: Builder, e: Expr) returns (v: VReg, ghost c: Code)
    requires b.Takes() && e.OrElse? && Lowerable(e)
    modifies b
    ensures b.Takes() && Spread(old(b.draft), old(b.curBlock), b.draft, b.curBlock)
    ensures Straight(e) ==> b.curBlock == old(b.curBlock) && |b.draft.script| == |old(b.draft.script)|
    ensures b.Clean() ==> old(b.Clean()) && Lowered(old(b.draft), old(b.curBlock), b.draft, b.curBlock, e, c) && c.reg == v
    decreases e, 0
  {
    hide Good, SsaBuilder.Holds, Builder.Valid, Spread, Lowered, Arms, Met, Joined;
    b.Facts();
    ghost var d0, b0 := b.draft, b.curBlock;
    var x, cl := BuildExpr(b, e.left);
    b.Facts();
    ghost var d1, b1 := b.draft, b.curBlock;
    StraightIsLowerable(e.right);
    var rest := |b.blocks|;
    var result, y, z, cr := OrWays(b, x, e.right);
    b.Facts();
    ghost var d3 := b.draft;
    var merge, other := rest + 1, rest + 2;
    MergeOpen(d1, b1, d3);
    if b.Clean() {
      ArmsFacts(d1, d3, b1, x, true, e.right, cr, z, 1);
    }
    BuildMerge(b, merge, other, rest, result, Phi([PhiArg(z, other), PhiArg(y, rest)]));
    b.Facts();
    ForkSpread(d0, b0, d1, b1, d3, b.draft, [other, rest]);
    v := result;
    c := Fork(cl, cr, z, Point(merge, 0, rest + 3), result);
    NotStraight(e.left, e.right);
    if b.Clean() {
      LoweredFacts(d0, b0, d1, b1, e.left, cl);
      ForkJoined(d1, d3, b.draft, b1, cl, true, e.right, cr, z, 1, Phi([PhiArg(z, other), PhiArg(y, rest)]), other, rest);
      OrLowered(d0, b0, d1, b1, b.draft, e.left, cl, e.right, cr, z);
    }
  }

  method OrWays(b: Builder, x: VReg, r: Expr) returns (result: VReg, y: VReg, z: VReg, ghost cr: Code)
    requires b.Takes() && Straight(r) && Lowerable(r)
    modifies b
    ensures b.Ready() && result == old(b.nextVreg) < b.nextVreg && WaysGraph(old(b.draft), old(b.curBlock), b.draft)
    ensures b.Clean() ==> old(b.Clean()) && Arms(old(b.draft), b.draft, old(b.curBlock), x, true, r, cr, z, 1) && cr.reg == y
    decreases r, 4
  {
    hide Good, SsaBuilder.Holds, Builder.Valid, Forked, RestBuilt, ConstBuilt, Arms, Ended;
    b.Facts();
    ghost var d1, b1 := b.draft, b.curBlock;
    var orig := b.curBlock;
    var rest, merge, other;
    result, rest, merge, other := OpenFork(b, x, true);
    b.Facts();
    ForkedGraph(d1, b1, x, true);
    if b.Clean() {
      ForkedIs(d1, b1, x, true);
    }
    ghost var df := b.draft;
    z := BuildConst(b, other, orig, 1, merge);
    b.Facts();
    ghost var d2 := b.draft;
    if b.Clean() {
      ConstOnly(df, d2, other, merge, z, 1);
    }
    y, cr := BuildRest(b, rest, orig, r, merge);
    b.Facts();
    SwapUpdates(df.preds, rest, other, [orig]);
    SwapUpdates(df.sealed, rest, other, true);
    if b.Clean() {
      OrArms(d1, b1, x, d2, b.draft, r, cr, z, 1);
    }
  }

  lemma SwapUpdates<T>(s: seq<T>, i: nat, j: nat, x: T)
    requires i < |s| && j < |s|
    ensures s[i := x][j := x] == s[j := x][i := x]
  {
  }

  lemma RestOnly(d0: Draft, d: Draft, block: Label, merge: Label, e: Expr, c: Code)
    requires RestBuilt(d0, d, block, merge, e, c)
    ensures |d.script| == |d0.script| && forall r :: 0 <= r < |d.script| && r != block ==> d.script[r] == d0.script[r]
  {
    hide Good, Work, CodeOk, Ends;
  }

  lemma ConstOnly(d0: Draft, d: Draft, block: Label, merge: Label, v: VReg, x: Int64)
    requires ConstBuilt(d0, d, block, merge, v, x)
    ensures |d.script| == |d0.script| && forall r :: 0 <= r < |d.script| && r != block ==> d.script[r] == d0.script[r]
  {
    hide Good, Work, Ends, Computes;
  }

  /** Three more blocks; two of them come after block `b` and are sealed. */
  ghost predicate WaysGraph(d0: Draft, b: Label, d: Draft) {
    var n := |d0.script|;
    && b < n && n == |d0.preds| == |d0.sealed| && |d.script| == |d.preds| == |d.sealed| == n + 3
    && d.preds == (d0.preds + [[], [], []])[n := [b]][n + 2 := [b]]
    && d.sealed == (d0.sealed + [false, false, false])[n := true][n + 2 := true]
  }

  lemma MergeOpen(d1: Draft, b1: Label, d3: Draft)
    requires WaysGraph(d1, b1, d3)
    ensures var n := |d1.script|; |d3.preds| == |d3.sealed| == n + 3 && d3.preds[n + 1] == [] && !d3.sealed[n + 1]
  {
  }

  /** The second operand in its own block, which then jumps to where the result is picked. */
  method BuildRest(b: Builder, block: Label, orig: Label, e: Expr, merge: Label) returns (v: VReg, ghost c: Code)
    requires b.Ready() && 0 < block < |b.draft.script| && orig < block && block < |b.draft.sealed| && !b.draft.sealed[block]
    requires block < |b.draft.preds| && b.draft.preds[block] == [] && Straight(e) && Lowerable(e)
    requires b.Clean() ==> b.draft.script[block] == [] && Ended(b.draft.script[orig])
    modifies b
    ensures b.Ready() && b.curBlock == block && old(b.nextVreg) <= b.nextVreg && |b.draft.script| == |old(b.draft.script)|
    ensures block < |old(b.draft.preds)| && b.draft.preds == old(b.draft.preds)[block := [orig]]
    ensures block < |old(b.draft.sealed)| && b.draft.sealed == old(b.draft.sealed)[block := true]
    ensures b.Clean() ==> old(b.Clean()) && RestBuilt(old(b.draft), b.draft, block, merge, e, c) && c.reg == v
    decreases e, 3
  {
    hide Good, SsaBuilder.Holds, Builder.Valid, SealedOnly, RestBuilt, Lowered, Ended, Spread, Lowerable, Straight;
    b.Facts();
    ghost var d0 := b.draft;
    assert d0.preds[block] + [orig] == [orig];
    Enter(b, block, orig);
    b.Facts();
    ghost var d1 := b.draft;
    NotEnded(d1.script[block]);
    v, c := BuildExpr(b, e);
    b.Facts();
    ghost var d2 := b.draft;
    SameGraph(d1, block, d2);
    Terminate(b, Jump(merge));
    b.Facts();
    EndsNow(d2, block, Jump(merge));
    if b.Clean() {
      LoweredFacts(d1, block, d2, block, e, c);
      OthersStay(d1, d2, block, Jump(merge), orig);
    }
    CloseBlock(b, block);
    b.Facts();
    if b.Clean() {
      RestIs(d0, orig, block, d2, e, c, merge, b.draft);
    }
  }

  lemma OthersStay(d1: Draft, d2: Draft, block: Label, op: Op, orig: Label)
    requires OnlyIn(d1, d2, block) && orig < |d1.script| && orig != block && block < |d2.script|
    ensures EmitTo(d2, block, Inst(None, op)).script[orig] == d1.script[orig]
  {
  }

  /** Building within one block leaves the graph as it is. */
  lemma SameGraph(d: Draft, b: Label, d': Draft)
    requires Spread(d, b, d', b) && |d'.script| == |d.script|
    ensures d'.preds == d.preds && d'.sealed == d.sealed && d.nextVreg <= d'.nextVreg
  {
    assert d'.preds[..|d.preds|] == d'.preds && d'.sealed[..|d.sealed|] == d'.sealed;
  }

  lemma ForkedGraph(d: Draft, b: Label, cond: VReg, swap: bool)
    requires |d.script| == |d.preds| == |d.sealed| && b < |d.script|
    ensures var d', n := Forked(d, b, cond, swap), |d.script|;
            && |d'.script| == |d'.preds| == |d'.sealed| == n + 3 && d'.nextVreg == d.nextVreg + 1
            && d'.preds == d.preds + [[], [], []] && d'.sealed == d.sealed + [false, false, false]
            && d'.preds[n] == d'.preds[n + 1] == d'.preds[n + 2] == [] && !d'.sealed[n] && !d'.sealed[n + 1] && !d'.sealed[n + 2]
  {
  }

  lemma ForkSpread(d0: Draft, b0: Label, d1: Draft, b1: Label, d3: Draft, d: Draft, mid: seq<Label>)
    requires Spread(d0, b0, d1, b1) && WaysGraph(d1, b1, d3) && |d.script| == |d.preds| == |d.sealed| && |d.script| == |d3.script| && d1.nextVreg <= d.nextVreg
    requires var n := |d1.script|; d.preds == d3.preds[n + 1 := mid] && d.sealed == d3.sealed[n + 1 := true]
    ensures Spread(d0, b0, d, |d1.script| + 1)
  {
    assert d.preds[..|d1.preds|] == d1.preds && d.sealed[..|d1.sealed|] == d1.sealed;
    SpreadTrans(d0, b0, d1, b1, d, |d1.script| + 1);
  }

  lemma ArmsFacts(d0: Draft, d: Draft, orig: Label, cond: VReg, swap: bool, e: Expr, c: Code, z: VReg, x: Int64)
    requires Arms(d0, d, orig, cond, swap, e, c, z, x)
    ensures var n := |d0.script|;
            && Good(d) && |d.script| == |d.preds| == n + 3 && d.script[n + 1] == [] && Ended(d.script[n]) && Ended(d.script[n + 2])
            && d0.nextVreg in d.home && d.home[d0.nextVreg] == Taken
  {
    hide Good, Work, CodeOk, Ends, Computes, Ended;
  }

  lemma Atop(d0: Draft, b0: Label, d1: Draft, b1: Label, op: Op)
    requires Spread(d0, b0, d1, b1) && |d1.script| == |d1.preds| == |d1.sealed| && b1 < |d1.script|
    ensures Spread(d0, b0, New(d1, b1, op), b1) && |New(d1, b1, op).script| == |d1.script|
  {
    NewSpread(d1, b1, op);
    SpreadTrans(d0, b0, d1, b1, New(d1, b1, op), b1);
  }
}
