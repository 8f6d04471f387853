/** The selected machine code simulates the SSA function, edge by edge. */
module IselCorrect {
  import opened Wrappers
  import opened Word64
  import opened Ssa
  import opened SsaVerify
  import opened StrictSsa
  import opened Mach
  import opened Isel
  import opened IselShape
  import opened ParallelCopy
  import Cse

  // ---- What the selector needs of its input ----

  /** A PRINT is lowered to a call that writes register 0.  Whether that register is spoiled
      before instruction `i` of a block, given whether it is on entry: the next instruction
      that defines register 0 puts it right.  PHIs are done on the way in. */
  ghost predicate Spoiled(f: Func, b: nat, i: nat, dirty: bool) {
    if i == 0 || !f.Has(b, i - 1) then dirty
    else if f.At(b, i - 1).op.Print? then true
    else if !f.At(b, i - 1).op.Phi? && f.At(b, i - 1).dst == Some(0) then false
    else Spoiled(f, b, i - 1, dirty)
  }

  ghost predicate SpoiledOut(f: Func, b: nat, dirty: bool) {
    b < |f.blocks| && f.blocks[b] != [] && Spoiled(f, b, |f.blocks[b]| - 1, dirty)
  }

  /** A PHI for register 0 puts it right as well. */
  ghost predicate SpoiledAcross(f: Func, p: nat, t: nat, dirty: bool) {
    SpoiledOut(f, p, dirty) && forall j :: f.Has(t, j) && f.At(t, j).op.Phi? ==> f.At(t, j).dst != Some(0)
  }

  /** Whether register 0 is spoiled after following a path. */
  ghost predicate SpoiledBy(f: Func, path: seq<Label>) {
    |path| > 1 && SpoiledAcross(f, path[|path| - 2], path[|path| - 1], SpoiledBy(f, path[..|path| - 1]))
  }

  /** Block `b` can be entered with register 0 spoiled, or not. */
  ghost predicate May(f: Func, b: Label, dirty: bool) {
    exists path :: PathTo(f, path, b) && SpoiledBy(f, path) == dirty
  }

  /** Instruction (b, i) does not read a spoiled register. */
  ghost predicate ReadsClean(f: Func, b: nat, i: nat, dirty: bool) {
    f.Has(b, i) && !f.At(b, i).op.Phi? && Reads(f.At(b, i).op, 0) ==> !Spoiled(f, b, i, dirty)
  }

  ghost predicate BlockClean(f: Func, b: nat, dirty: bool) {
    forall i :: ReadsClean(f, b, i, dirty)
  }

  /** Nor do the PHIs on the edge. */
  ghost predicate EdgeClean(f: Func, p: nat, t: nat, dirty: bool) {
    SpoiledOut(f, p, dirty) ==> forall j :: f.Has(t, j) && f.At(t, j).op.Phi? ==> PhiSource(f.At(t, j).op.args, p) != Some(0)
  }

  /** On no path from the entry is register 0 read after a PRINT without having been defined
      again in between. */
  ghost predicate PrintsSafe(f: Func) {
    && (forall b, dirty :: May(f, b, dirty) ==> BlockClean(f, b, dirty))
    && (forall p, t, dirty :: May(f, p, dirty) && Edge(f, p, t) ==> EdgeClean(f, p, t, dirty))
  }

  /** What a spoiled register holds. */
  ghost predicate IsReply(w: World, x: Int64) {
    exists trace: Trace, y :: x == w(trace + [Printed(y)])
  }

  /** `v` can be relied on before instruction `i`. */
  ghost predicate Kept(f: Func, b: nat, i: nat, dirty: bool, v: VReg) {
    v != 0 || !Spoiled(f, b, i, dirty)
  }

  /** The print routine is not called by name. */
  predicate Supported(op: Op) {
    op.Call? ==> op.func != PRINT_ROUTINE
  }

  /** An arithmetic right shift is lowered to a logical one, which comes to the same thing
      here. */
  predicate ShiftFits(op: Op, env: Env) {
    op.Binop? && op.bkind.RShift? && op.lhs in env && op.rhs in env ==> env[op.lhs] >= 0 || env[op.rhs] % 64 == 0
  }

  /** Every shift that running a block from instruction `i` comes to does. */
  ghost predicate ShiftsFit(w: World, b: Block, i: nat, env: Env, snap: Env, prev: Option<Label>, trace: Trace)
    decreases |b| - i
  {
    i < |b| && !b[i].op.IsTerminator() ==>
      && ShiftFits(b[i].op, env)
      && var r := Exec(w, b[i], env, snap, prev, trace);
         (r.Went? ==> ShiftsFit(w, b, i + 1, r.env, snap, prev, r.trace))
  }

  predicate DistinctPreds(args: seq<PhiArg>) {
    forall j, k :: 0 <= j < k < |args| ==> args[j].pred != args[k].pred
  }

  ghost predicate InstSelectable(f: Func, b: nat, i: nat)
    requires f.Has(b, i)
  {
    var inst := f.At(b, i);
    && Supported(inst.op)
    && (inst.op.IsPure() || inst.op.Call? ==> inst.dst.Some?)
    && (inst.op.Phi? ==> DistinctPreds(inst.op.args))
    && (forall v: VReg :: Reads(inst.op, v) ==> v < INVALID_VREG)
    && (inst.dst.Some? ==> inst.dst.value < INVALID_VREG)
  }

  ghost predicate Selectable(f: Func) {
    && f.entry == 0
    && Accepts(f) && SingleDef(f) && Cse.LocalOrder(f)
    && (forall b, i :: f.Has(b, i) ==> InstSelectable(f, b, i))
    && (forall p: Label :: p < |f.blocks| ==> BranchOk(f, p))
    && (forall p: Label, t: Label :: NoConflict(CopiesFor(f, p, t)))
  }

  // ---- The relation inside a block ----

  /** `v` is the result of a PHI at or after position `i`: the machine already holds its new
      value. */
  ghost predicate Ahead(f: Func, b: nat, i: nat, v: VReg) {
    exists j :: i <= j && f.Has(b, j) && f.At(b, j).op.Phi? && f.At(b, j).dst == Some(v)
  }

  ghost predicate PhiHeld(op: Op, d: VReg, snap: Env, prev: Option<Label>, menv: Env)
    requires op.Phi?
  {
    Eval(op, snap, snap, prev).Some? ==> d in menv && Some(menv[d]) == Eval(op, snap, snap, prev)
  }

  /** What can be relied on agrees. */
  ghost predicate ValuesHeld(f: Func, b: nat, i: nat, dirty: bool, env: Env, menv: Env) {
    forall v :: v in env && Kept(f, b, i, dirty, v) && !Ahead(f, b, i, v) ==> v in menv && menv[v] == env[v]
  }

  /** The results of the PHIs to come are there already. */
  ghost predicate PhisHeld(f: Func, b: nat, i: nat, dirty: bool, snap: Env, prev: Option<Label>, menv: Env) {
    forall j :: i <= j && f.Has(b, j) && f.At(b, j).op.Phi? && f.At(b, j).dst.Some? && Kept(f, b, i, dirty, f.At(b, j).dst.value) ==>
      PhiHeld(f.At(b, j).op, f.At(b, j).dst.value, snap, prev, menv)
  }

  ghost predicate BlockRel(w: World, f: Func, b: nat, i: nat, dirty: bool, env: Env, snap: Env, prev: Option<Label>, menv: Env) {
    && ValuesHeld(f, b, i, dirty, env, menv)
    && PhisHeld(f, b, i, dirty, snap, prev, menv)
    && (Spoiled(f, b, i, dirty) ==> 0 in menv && IsReply(w, menv[0]))
  }

  lemma SpoiledAfter(f: Func, b: nat, i: nat, dirty: bool)
    requires f.Has(b, i)
    ensures Spoiled(f, b, i + 1, dirty) ==
              if f.At(b, i).op.Print? then true
              else if !f.At(b, i).op.Phi? && f.At(b, i).dst == Some(0) then false
              else Spoiled(f, b, i, dirty)
  {
  }

  /** Operands of an instruction that is not a PHI agree. */
  lemma OperandsAgree(w: World, f: Func, b: nat, i: nat, dirty: bool, env: Env, snap: Env, prev: Option<Label>, menv: Env, v: VReg)
    requires Selectable(f) && f.Has(b, i) && !f.At(b, i).op.Phi? && Reads(f.At(b, i).op, v) && v in env
    requires ReadsClean(f, b, i, dirty)
    requires BlockRel(w, f, b, i, dirty, env, snap, prev, menv)
    ensures v in menv && menv[v] == env[v]
  {
    assert InstSelectable(f, b, i);
    forall j | i <= j && f.Has(b, j) && f.At(b, j).op.Phi? ensures f.At(b, j).dst != Some(v) {
    }
  }

  lemma WriteValues(f: Func, b: nat, i: nat, dirty: bool, env: Env, menv: Env, x: Int64)
    requires f.Has(b, i) && !f.At(b, i).op.Phi? && !f.At(b, i).op.Print? && f.At(b, i).dst.Some?
    requires ValuesHeld(f, b, i, dirty, env, menv)
    ensures ValuesHeld(f, b, i + 1, dirty, env[f.At(b, i).dst.value := x], menv[f.At(b, i).dst.value := x])
  {
    SpoiledAfter(f, b, i, dirty);
    hide Spoiled, Ahead;
    var d := f.At(b, i).dst.value;
    forall v | v in env && Kept(f, b, i + 1, dirty, v) && v != d && !Ahead(f, b, i + 1, v) ensures v in menv && menv[v] == env[v] {
      AheadBack(f, b, i, v);
    }
  }

  lemma WritePhis(f: Func, b: nat, i: nat, dirty: bool, snap: Env, prev: Option<Label>, menv: Env, x: Int64)
    requires SingleDef(f) && f.Has(b, i) && !f.At(b, i).op.Phi? && !f.At(b, i).op.Print? && f.At(b, i).dst.Some?
    requires PhisHeld(f, b, i, dirty, snap, prev, menv)
    ensures PhisHeld(f, b, i + 1, dirty, snap, prev, menv[f.At(b, i).dst.value := x])
  {
    SpoiledAfter(f, b, i, dirty);
    hide Spoiled, Eval;
    forall j | i + 1 <= j && f.Has(b, j) && f.At(b, j).op.Phi? && f.At(b, j).dst.Some? ensures f.At(b, j).dst != f.At(b, i).dst {
    }
  }

  /** A register written by an instruction that is not a PHI. */
  lemma WriteRel(w: World, f: Func, b: nat, i: nat, dirty: bool, env: Env, snap: Env, prev: Option<Label>, menv: Env, x: Int64)
    requires Selectable(f) && f.Has(b, i) && !f.At(b, i).op.Phi? && !f.At(b, i).op.Print? && f.At(b, i).dst.Some?
    requires BlockRel(w, f, b, i, dirty, env, snap, prev, menv)
    ensures BlockRel(w, f, b, i + 1, dirty, env[f.At(b, i).dst.value := x], snap, prev, menv[f.At(b, i).dst.value := x])
  {
    SpoiledAfter(f, b, i, dirty);
    hide Spoiled, ValuesHeld, PhisHeld, IsReply;
    WriteValues(f, b, i, dirty, env, menv, x);
    WritePhis(f, b, i, dirty, snap, prev, menv, x);
  }

  lemma AheadBack(f: Func, b: nat, i: nat, v: VReg)
    requires f.Has(b, i) && !(f.At(b, i).op.Phi? && f.At(b, i).dst == Some(v)) && !Ahead(f, b, i + 1, v)
    ensures !Ahead(f, b, i, v)
  {
    forall j | i <= j && f.Has(b, j) && f.At(b, j).op.Phi? ensures f.At(b, j).dst != Some(v) {
      if j > i { assert i + 1 <= j; }
    }
  }

  lemma SkipValues(f: Func, b: nat, i: nat, dirty: bool, env: Env, menv: Env)
    requires f.Has(b, i) && f.At(b, i).op.Print?
    requires ValuesHeld(f, b, i, dirty, env, menv)
    ensures forall v :: v in env && v != 0 && !Ahead(f, b, i + 1, v) ==> v in menv && menv[v] == env[v]
  {
    hide Spoiled;
    forall v | v in env && v != 0 && !Ahead(f, b, i + 1, v) ensures v in menv && menv[v] == env[v] {
      AheadBack(f, b, i, v);
    }
  }

  /** A PRINT writes nothing in SSA, and register 0 on the machine. */
  lemma PrintRel(w: World, f: Func, b: nat, i: nat, dirty: bool, env: Env, snap: Env, prev: Option<Label>, menv: Env, menv': Env)
    requires f.Has(b, i) && f.At(b, i).op.Print?
    requires BlockRel(w, f, b, i, dirty, env, snap, prev, menv)
    requires 0 in menv' && IsReply(w, menv'[0]) && menv' == menv[0 := menv'[0]]
    ensures BlockRel(w, f, b, i + 1, dirty, env, snap, prev, menv')
  {
    SpoiledAfter(f, b, i, dirty);
    SkipValues(f, b, i, dirty, env, menv);
    assert ValuesHeld(f, b, i + 1, dirty, env, menv') by { hide Spoiled, Ahead, PhisHeld; }
    hide Spoiled, ValuesHeld, Eval, IsReply, Ahead;
    forall j | i + 1 <= j && f.Has(b, j) && f.At(b, j).op.Phi? && f.At(b, j).dst.Some? && Kept(f, b, i + 1, dirty, f.At(b, j).dst.value)
      ensures PhiHeld(f.At(b, j).op, f.At(b, j).dst.value, snap, prev, menv')
    {
      assert PhiHeld(f.At(b, j).op, f.At(b, j).dst.value, snap, prev, menv);
    }
  }

  /** Executing a PHI catches up with the machine. */
  lemma PhiRel(w: World, f: Func, b: nat, i: nat, dirty: bool, env: Env, snap: Env, prev: Option<Label>, menv: Env)
    requires Selectable(f) && f.Has(b, i) && f.At(b, i).op.Phi? && f.At(b, i).dst.Some?
    requires Eval(f.At(b, i).op, env, snap, prev).Some?
    requires BlockRel(w, f, b, i, dirty, env, snap, prev, menv)
    ensures BlockRel(w, f, b, i + 1, dirty, env[f.At(b, i).dst.value := Eval(f.At(b, i).op, env, snap, prev).value], snap, prev, menv)
  {
    var d := f.At(b, i).dst.value;
    SpoiledAfter(f, b, i, dirty);
    assert Eval(f.At(b, i).op, env, snap, prev) == Eval(f.At(b, i).op, snap, snap, prev);
    assert Kept(f, b, i, dirty, d) ==> PhiHeld(f.At(b, i).op, d, snap, prev, menv);
    assert PhisHeld(f, b, i + 1, dirty, snap, prev, menv) by { hide Spoiled, Eval, ValuesHeld, IsReply; }
    hide Spoiled, Ahead, Eval, PhisHeld, IsReply, Selectable;
    forall v | v in env && v != d && Kept(f, b, i + 1, dirty, v) && !Ahead(f, b, i + 1, v) ensures v in menv && menv[v] == env[v] {
      AheadBack(f, b, i, v);
    }
  }

  // ---- One instruction ----

  /** The lowered form stands at position `k`. */
  ghost predicate CodeAt(mb: MachBlock, k: nat, code: seq<MachInst>) {
    k + |code| <= |mb| && forall j :: 0 <= j < |code| ==> mb[k + j] == code[j]
  }

  lemma {:induction false} BitwiseSelf(op: (bool, bool) -> bool, a: nat, n: nat)
    requires forall x :: op(x, x) == x
    requires a < Pow2(n)
    ensures Bitwise(op, a, a, n) == a
  {
    if n > 0 {
      BitwiseSelf(op, a / 2, n - 1);
    }
  }

  lemma {:induction false} Pow2Sum(m: nat, n: nat)
    ensures Pow2(m + n) == Pow2(m) * Pow2(n)
  {
    if m > 0 {
      Pow2Sum(m - 1, n);
    }
  }

  lemma Pow2Word()
    ensures Pow2(64) == TWO_TO_THE_64
  {
    assert Pow2(8) == 256;
    hide Pow2;
    Pow2Sum(8, 8);
    assert Pow2(16) == 0x1_0000;
    Pow2Sum(16, 16);
    assert Pow2(32) == 0x1_0000_0000;
    Pow2Sum(32, 32);
  }

  lemma TestSelf(x: Int64)
    ensures BitwiseWord((p, q) => p && q, x, x) == x
  {
    var op := (p, q) => p && q;
    Pow2Word();
    BitwiseSelf(op, Unsigned(x), 64);
  }

  /** The two shifts agree on non-negative values and on counts that shift by nothing, and
      nowhere else. */
  lemma ShiftExact(a: Int64, b: Int64)
    ensures AluValue(SHR, a, b) == EvalBinop(RShift, a, b) <==> a >= 0 || b % 64 == 0
  {
    var p := Pow2(b % 64);
    if b % 64 == 0 {
      assert p == 1;
    } else if a < 0 {
      assert p >= 2 by { assert Pow2(b % 64) == 2 * Pow2(b % 64 - 1); }
      hide Pow2;
      HalfOrLess(a, p);
      HalfOrLess(Unsigned(a), p);
    }
  }

  lemma {:induction false} Times(p: int, q: int)
    requires p >= 2
    ensures q >= 0 ==> p * q >= 2 * q
    ensures q < 0 ==> p * q <= q - (p - 1)
    decreases if q >= 0 then q else -q
  {
    if q > 0 {
      Times(p, q - 1);
      assert p * q == p * (q - 1) + p;
    } else if q < -1 {
      Times(p, q + 1);
      assert p * q == p * (q + 1) - p;
    }
  }

  lemma HalfOrLess(x: int, p: int)
    requires p >= 2
    ensures x >= 0 ==> 0 <= x / p && 2 * (x / p) <= x
    ensures x < 0 ==> x <= x / p < 0
  {
    var q := x / p;
    assert x == p * q + x % p;
    Times(p, q);
  }

  lemma AluAgrees(k: BinOpKind, a: Int64, b: Int64)
    requires k.RShift? ==> a >= 0 || b % 64 == 0
    ensures AluValue(AluOp(k), a, b) == EvalBinop(k, a, b)
  {
    if k.RShift? {
      ShiftExact(a, b);
    }
  }

  /** A compare or test at `k`, then a SETcc at `k + 1`. */
  lemma RunSet(w: World, mb: MachBlock, k: nat, test: MachInst, cc: CmpKind, d: nat, menv: Env, flags: Flags, trace: Trace)
    requires test.op.CMP? || test.op.TEST?
    requires CodeAt(mb, k, [test, Make(SET(cc), d, 0, 0, 0)])
    requires test.src in menv && test.src2 in menv
    ensures var set' := FlagsAfter(test, menv, flags);
            && set'.Some?
            && RunM(w, mb, k, menv, flags, trace) ==
                 RunM(w, mb, k + 2, menv[d := EvalCmp(cc, set'.value.0, set'.value.1)], set', trace)
  {
    hide BitwiseWord, EvalCmp;
    var code := [test, Make(SET(cc), d, 0, 0, 0)];
    assert mb[k] == code[0] && mb[k + 1] == code[1];
    assert RunM(w, mb, k, menv, flags, trace) == RunM(w, mb, k + 1, menv, FlagsAfter(test, menv, flags), trace);
  }

  lemma RunOne(w: World, mb: MachBlock, k: nat, inst: MachInst, menv: Env, flags: Flags, trace: Trace)
    requires CodeAt(mb, k, [inst]) && inst.op.Computes() && ValueOf(inst, menv, flags).Some?
    ensures RunM(w, mb, k, menv, flags, trace) ==
              RunM(w, mb, k + 1, menv[inst.dst := ValueOf(inst, menv, flags).value], FlagsAfter(inst, menv, flags), trace)
  {
    hide ValueOf, FlagsAfter;
    assert mb[k] == [inst][0];
  }

  ghost predicate Agree(op: Op, env: Env, menv: Env) {
    forall v: VReg :: Reads(op, v) && v in env ==> v in menv && menv[v] == env[v]
  }

  lemma LowerNot(w: World, inst: Inst, mb: MachBlock, k: nat, env: Env, menv: Env, flags: Flags, trace: Trace)
    returns (flags': Flags)
    requires inst.op.Unop? && inst.op.ukind.Not? && inst.dst.Some? && inst.op.operand in env
    requires CodeAt(mb, k, LowerInst(inst)) && Agree(inst.op, env, menv)
    ensures RunM(w, mb, k, menv, flags, trace) ==
              RunM(w, mb, k + 2, menv[inst.dst.value := EvalUnop(Not, env[inst.op.operand])], flags', trace)
  {
    var x := inst.op.operand;
    assert Reads(inst.op, x);
    TestSelf(menv[x]);
    NotIsTest(menv[x]);
    hide BitwiseWord, EvalUnop, EvalCmp;
    RunSet(w, mb, k, Make(TEST, 0, x, x, 0), Eq, inst.dst.value, menv, flags, trace);
    flags' := FlagsAfter(Make(TEST, 0, x, x, 0), menv, flags);
  }

  /** What the lowered form of an instruction does to the machine. */
  lemma LowerPure(w: World, inst: Inst, mb: MachBlock, k: nat, env: Env, snap: Env, prev: Option<Label>, menv: Env, flags: Flags, trace: Trace)
    returns (flags': Flags)
    requires inst.op.IsPure() && !inst.op.Phi? && ShiftFits(inst.op, env) && inst.dst.Some?
    requires CodeAt(mb, k, LowerInst(inst)) && Agree(inst.op, env, menv)
    requires Eval(inst.op, env, snap, prev).Some?
    ensures RunM(w, mb, k, menv, flags, trace) ==
              RunM(w, mb, k + |LowerInst(inst)|, menv[inst.dst.value := Eval(inst.op, env, snap, prev).value], flags', trace)
  {
    hide EvalBinop, BitwiseWord, EvalUnop, EvalCmp, RunM, AluValue;
    var code := LowerInst(inst);
    flags' := FlagsAfter(code[0], menv, flags);
    match inst.op {
      case Const(x) => RunOne(w, mb, k, code[0], menv, flags, trace);
      case Binop(op, l, r) =>
        assert Reads(inst.op, l) && Reads(inst.op, r);
        AluAgrees(op, env[l], env[r]);
        RunOne(w, mb, k, code[0], menv, flags, trace);
      case Unop(op, x) =>
        if op.Not? {
          flags' := LowerNot(w, inst, mb, k, env, menv, flags, trace);
        } else {
          assert Reads(inst.op, x);
          RunOne(w, mb, k, code[0], menv, flags, trace);
        }
      case Cmp(op, l, r) =>
        assert Reads(inst.op, l) && Reads(inst.op, r);
        RunSet(w, mb, k, code[0], op, inst.dst.value, menv, flags, trace);
      case Gep(p, off) =>
        assert Reads(inst.op, p);
        RunOne(w, mb, k, code[0], menv, flags, trace);
    }
  }

  lemma NotIsTest(x: Int64)
    ensures EvalUnop(Not, x) == EvalCmp(Eq, x, 0)
  {
  }

  lemma InstAgree(w: World, f: Func, b: nat, i: nat, dirty: bool, env: Env, snap: Env, prev: Option<Label>, menv: Env)
    requires Selectable(f) && f.Has(b, i) && !f.At(b, i).op.Phi? && ReadsClean(f, b, i, dirty)
    requires BlockRel(w, f, b, i, dirty, env, snap, prev, menv)
    ensures Agree(f.At(b, i).op, env, menv)
  {
    hide Selectable, BlockRel;
    forall v: VReg | Reads(f.At(b, i).op, v) && v in env ensures v in menv && menv[v] == env[v] {
      OperandsAgree(w, f, b, i, dirty, env, snap, prev, menv, v);
    }
  }

  lemma LowerCall(w: World, inst: Inst, mb: MachBlock, k: nat, env: Env, menv: Env, flags: Flags, trace: Trace)
    requires inst.op.Call? && Supported(inst.op) && inst.dst.Some? && AllIn(inst.op.actuals, env)
    requires CodeAt(mb, k, LowerInst(inst)) && Agree(inst.op, env, menv)
    ensures var trace' := trace + [Called(inst.op.func, Values(inst.op.actuals, env))];
            RunM(w, mb, k, menv, flags, trace) == RunM(w, mb, k + 1, menv[inst.dst.value := w(trace')], None, trace')
  {
    var call := LowerInst(inst)[0];
    assert mb[k] == call;
    forall j | 0 <= j < |inst.op.actuals|
      ensures inst.op.actuals[j] in menv && inst.op.actuals[j] in env && menv[inst.op.actuals[j]] == env[inst.op.actuals[j]]
    {
      assert Reads(inst.op, inst.op.actuals[j]);
    }
    assert AllIn(call.args, menv) && Values(call.args, menv) == Values(inst.op.actuals, env);
  }

  lemma LowerPrint(w: World, inst: Inst, mb: MachBlock, k: nat, env: Env, menv: Env, flags: Flags, trace: Trace)
    requires inst.op.Print? && inst.op.val in env
    requires CodeAt(mb, k, LowerInst(inst)) && Agree(inst.op, env, menv)
    ensures var trace' := trace + [Printed(env[inst.op.val])];
            RunM(w, mb, k, menv, flags, trace) == RunM(w, mb, k + 1, menv[0 := w(trace')], None, trace')
  {
    var call := LowerInst(inst)[0];
    assert mb[k] == call;
    assert Reads(inst.op, inst.op.val);
    assert call.args[0] == inst.op.val && AllIn(call.args, menv);
  }

  /** The machine has done what one SSA instruction does. */
  ghost predicate Matches(w: World, f: Func, b: nat, i: nat, mb: MachBlock, k: nat, dirty: bool, env: Env, snap: Env, prev: Option<Label>,
                          menv: Env, flags: Flags, trace: Trace, menv': Env, flags': Flags)
    requires f.Has(b, i) && !f.At(b, i).op.IsTerminator()
  {
    var r := Exec(w, f.At(b, i), env, snap, prev, trace);
    && r.Went?
    && RunM(w, mb, k, menv, flags, trace) == RunM(w, mb, k + |LowerInst(f.At(b, i))|, menv', flags', r.trace)
    && BlockRel(w, f, b, i + 1, dirty, r.env, snap, prev, menv')
  }

  /** The lowered instruction is about to run. */
  ghost predicate Poised(w: World, f: Func, b: nat, i: nat, mb: MachBlock, k: nat, dirty: bool, env: Env, snap: Env, prev: Option<Label>,
                         menv: Env, trace: Trace) {
    && f.Has(b, i) && !f.At(b, i).op.IsTerminator()
    && CodeAt(mb, k, LowerInst(f.At(b, i))) && BlockRel(w, f, b, i, dirty, env, snap, prev, menv) && ReadsClean(f, b, i, dirty)
    && ShiftFits(f.At(b, i).op, env) && Exec(w, f.At(b, i), env, snap, prev, trace).Went?
  }

  lemma PhiStep(w: World, f: Func, b: nat, i: nat, mb: MachBlock, k: nat, dirty: bool, env: Env, snap: Env, prev: Option<Label>,
                menv: Env, flags: Flags, trace: Trace)
    requires Selectable(f) && Poised(w, f, b, i, mb, k, dirty, env, snap, prev, menv, trace) && f.At(b, i).op.Phi?
    ensures Matches(w, f, b, i, mb, k, dirty, env, snap, prev, menv, flags, trace, menv, flags)
  {
    assert InstSelectable(f, b, i);
    hide Selectable, BlockRel, RunM;
    PhiRel(w, f, b, i, dirty, env, snap, prev, menv);
  }

  lemma PureStep(w: World, f: Func, b: nat, i: nat, mb: MachBlock, k: nat, dirty: bool, env: Env, snap: Env, prev: Option<Label>,
                 menv: Env, flags: Flags, trace: Trace) returns (menv': Env, flags': Flags)
    requires Selectable(f) && Poised(w, f, b, i, mb, k, dirty, env, snap, prev, menv, trace)
    requires f.At(b, i).op.IsPure() && !f.At(b, i).op.Phi?
    ensures Matches(w, f, b, i, mb, k, dirty, env, snap, prev, menv, flags, trace, menv', flags')
  {
    var inst := f.At(b, i);
    assert InstSelectable(f, b, i);
    hide Selectable, BlockRel, RunM, Agree, Eval, LowerInst;
    InstAgree(w, f, b, i, dirty, env, snap, prev, menv);
    var x := Eval(inst.op, env, snap, prev).value;
    flags' := LowerPure(w, inst, mb, k, env, snap, prev, menv, flags, trace);
    WriteRel(w, f, b, i, dirty, env, snap, prev, menv, x);
    menv' := menv[inst.dst.value := x];
  }

  lemma CallStep(w: World, f: Func, b: nat, i: nat, mb: MachBlock, k: nat, dirty: bool, env: Env, snap: Env, prev: Option<Label>,
                 menv: Env, flags: Flags, trace: Trace) returns (menv': Env)
    requires Selectable(f) && Poised(w, f, b, i, mb, k, dirty, env, snap, prev, menv, trace) && f.At(b, i).op.Call?
    ensures Matches(w, f, b, i, mb, k, dirty, env, snap, prev, menv, flags, trace, menv', None)
  {
    var inst := f.At(b, i);
    assert InstSelectable(f, b, i);
    hide Selectable, BlockRel, RunM, Agree;
    InstAgree(w, f, b, i, dirty, env, snap, prev, menv);
    var trace' := trace + [Called(inst.op.func, Values(inst.op.actuals, env))];
    LowerCall(w, inst, mb, k, env, menv, flags, trace);
    WriteRel(w, f, b, i, dirty, env, snap, prev, menv, w(trace'));
    menv' := menv[inst.dst.value := w(trace')];
  }

  lemma PrintStep(w: World, f: Func, b: nat, i: nat, mb: MachBlock, k: nat, dirty: bool, env: Env, snap: Env, prev: Option<Label>,
                  menv: Env, flags: Flags, trace: Trace) returns (menv': Env)
    requires Selectable(f) && Poised(w, f, b, i, mb, k, dirty, env, snap, prev, menv, trace) && f.At(b, i).op.Print?
    ensures Matches(w, f, b, i, mb, k, dirty, env, snap, prev, menv, flags, trace, menv', None)
  {
    var inst := f.At(b, i);
    PrintHasNoDst(f, b, i);
    hide Selectable, BlockRel, RunM, Agree;
    InstAgree(w, f, b, i, dirty, env, snap, prev, menv);
    var trace' := trace + [Printed(env[inst.op.val])];
    LowerPrint(w, inst, mb, k, env, menv, flags, trace);
    menv' := menv[0 := w(trace')];
    PrintRel(w, f, b, i, dirty, env, snap, prev, menv, menv');
  }

  /** One SSA instruction and its lowered form. */
  lemma LowerStep(w: World, f: Func, b: nat, i: nat, mb: MachBlock, k: nat, dirty: bool, env: Env, snap: Env, prev: Option<Label>,
                  menv: Env, flags: Flags, trace: Trace) returns (menv': Env, flags': Flags)
    requires Selectable(f) && Poised(w, f, b, i, mb, k, dirty, env, snap, prev, menv, trace)
    ensures Matches(w, f, b, i, mb, k, dirty, env, snap, prev, menv, flags, trace, menv', flags')
  {
    assert !f.At(b, i).op.IsTerminator();
    hide Selectable, Poised, Matches;
    menv', flags' := menv, flags;
    if f.At(b, i).op.Phi? {
      PhiStep(w, f, b, i, mb, k, dirty, env, snap, prev, menv, flags, trace);
    } else if f.At(b, i).op.IsPure() {
      menv', flags' := PureStep(w, f, b, i, mb, k, dirty, env, snap, prev, menv, flags, trace);
    } else if f.At(b, i).op.Call? {
      menv' := CallStep(w, f, b, i, mb, k, dirty, env, snap, prev, menv, flags, trace);
      flags' := None;
    } else {
      menv' := PrintStep(w, f, b, i, mb, k, dirty, env, snap, prev, menv, flags, trace);
      flags' := None;
    }
  }

  lemma PrintHasNoDst(f: Func, b: nat, i: nat)
    requires Selectable(f) && f.Has(b, i) && f.At(b, i).op.Print?
    ensures f.At(b, i).dst.None?
  {
  }

  // ---- A block up to its terminator ----

  lemma {:induction false} LowerPrefix(b: Block, i: nat, n: nat)
    requires i <= n <= |b|
    ensures |LowerUpTo(b, i)| <= |LowerUpTo(b, n)| && LowerUpTo(b, n)[..|LowerUpTo(b, i)|] == LowerUpTo(b, i)
  {
    if i < n {
      LowerPrefix(b, i, n - 1);
    }
  }

  lemma CodeInPrefix(mb: MachBlock, body: MachBlock, upto: MachBlock, before: MachBlock, code: seq<MachInst>)
    requires body <= mb && upto <= body && upto == before + code
    ensures CodeAt(mb, |before|, code)
  {
    forall j | 0 <= j < |code| ensures mb[|before| + j] == code[j] {
      assert mb[|before| + j] == body[|before| + j] == upto[|before| + j];
    }
  }

  lemma BodyCode(b: Block, i: nat, mb: MachBlock)
    requires b != [] && i < |b| - 1 && Body(b) <= mb
    ensures CodeAt(mb, |LowerUpTo(b, i)|, LowerInst(b[i]))
    ensures |LowerUpTo(b, i)| + |LowerInst(b[i])| == |LowerUpTo(b, i + 1)|
  {
    LowerPrefix(b, i + 1, |b| - 1);
    hide LowerInst, CodeAt;
    CodeInPrefix(mb, Body(b), LowerUpTo(b, i + 1), LowerUpTo(b, i), LowerInst(b[i]));
  }

  /** The state in which both sides reach the terminator. */
  datatype Meet = Meet(env: Env, menv: Env, flags: Flags, trace: Trace)

  /** The block has run up to instruction `n` on both sides. */
  ghost predicate Meets(w: World, f: Func, b: nat, i: nat, n: nat, mb: MachBlock, dirty: bool, env: Env, snap: Env, prev: Option<Label>,
                        menv: Env, flags: Flags, trace: Trace, s: Meet)
    requires b < |f.blocks| && i <= n <= |f.blocks[b]|
  {
    && RunBlock(w, f.blocks[b], i, env, snap, prev, trace) == RunBlock(w, f.blocks[b], n, s.env, snap, prev, s.trace)
    && RunM(w, mb, |LowerUpTo(f.blocks[b], i)|, menv, flags, trace) == RunM(w, mb, |LowerUpTo(f.blocks[b], n)|, s.menv, s.flags, s.trace)
    && BlockRel(w, f, b, n, dirty, s.env, snap, prev, s.menv)
  }

  lemma {:induction false} RunBody(w: World, f: Func, b: nat, i: nat, n: nat, mb: MachBlock, dirty: bool, env: Env, snap: Env, prev: Option<Label>,
                                   menv: Env, flags: Flags, trace: Trace) returns (s: Meet)
    requires Selectable(f) && b < |f.blocks| && i <= n < |f.blocks[b]| && Body(f.blocks[b]) <= mb
    requires forall j: nat :: j < n ==> ReadsClean(f, b, j, dirty)
    requires BlockRel(w, f, b, i, dirty, env, snap, prev, menv)
    requires !RunBlock(w, f.blocks[b], i, env, snap, prev, trace).Fault? && ShiftsFit(w, f.blocks[b], i, env, snap, prev, trace)
    ensures Meets(w, f, b, i, n, mb, dirty, env, snap, prev, menv, flags, trace, s)
    decreases n - i
  {
    hide Selectable, BlockRel, RunM, RunBlock, Exec, LowerInst, LowerUpTo, ReadsClean, ShiftFits;
    if i == n {
      s := Meet(env, menv, flags, trace);
    } else {
      assert f.Has(b, i) && !f.At(b, i).op.IsTerminator() by { TerminatorLast(f, b, i); }
      RunBlockStep(w, f, b, i, env, snap, prev, trace);
      BodyCode(f.blocks[b], i, mb);
      assert ReadsClean(f, b, i, dirty);
      var r := Exec(w, f.At(b, i), env, snap, prev, trace);
      var menv', flags' := LowerStep(w, f, b, i, mb, |LowerUpTo(f.blocks[b], i)|, dirty, env, snap, prev, menv, flags, trace);
      s := RunBody(w, f, b, i + 1, n, mb, dirty, r.env, snap, prev, menv', flags', r.trace);
    }
  }

  lemma RunBlockStep(w: World, f: Func, b: nat, i: nat, env: Env, snap: Env, prev: Option<Label>, trace: Trace)
    requires f.Has(b, i) && !f.At(b, i).op.IsTerminator()
    requires !RunBlock(w, f.blocks[b], i, env, snap, prev, trace).Fault?
    ensures var r := Exec(w, f.At(b, i), env, snap, prev, trace);
            r.Went? && RunBlock(w, f.blocks[b], i, env, snap, prev, trace) == RunBlock(w, f.blocks[b], i + 1, r.env, snap, prev, r.trace)
  {
  }

  lemma TerminatorLast(f: Func, b: nat, i: nat)
    requires Selectable(f) && f.Has(b, i)
    ensures f.At(b, i).op.IsTerminator() <==> i == |f.blocks[b]| - 1
    ensures Closed(f.blocks[b])
  {
    assert BlockOk(f, f.blocks[b]);
  }

  lemma LabelStep(w: World, mb: MachBlock, b: Block, menv: Env, trace: Trace)
    requires b != [] && Body(b) <= mb
    ensures RunM(w, mb, 0, menv, None, trace) == RunM(w, mb, |LowerUpTo(b, 0)|, menv, None, trace)
  {
    LowerPrefix(b, 0, |b| - 1);
    assert mb[0] == Body(b)[0] == LowerUpTo(b, 0)[0];
  }

  // ---- The copies of an edge ----

  /** `c` is what the PHI at (t, i) asks of the edge from `p`. */
  ghost predicate AskedBy(f: Func, t: nat, i: nat, p: Label, c: PhiCopy) {
    && f.Has(t, i) && f.At(t, i).op.Phi? && f.At(t, i).dst == Some(c.dst)
    && PhiSource(f.At(t, i).op.args, p) == Some(c.src) && c.src != c.dst
  }

  lemma {:induction false} SourceFromPrefix(args: seq<PhiArg>, k: nat, p: Label)
    requires k <= |args| && DistinctPreds(args)
    ensures k > 0 && args[k - 1].pred == p ==> PhiSource(args[..k], p) == Some(args[k - 1].src)
    ensures k > 0 && args[k - 1].pred != p ==> PhiSource(args[..k], p) == PhiSource(args[..k - 1], p)
    decreases |args|
  {
    if k > 0 {
      if k == 1 {
        assert args[..1] == [args[0]] && args[..1][1..] == [];
      } else {
        assert args[..k][1..] == args[1..][..k - 1] && args[..k - 1][1..] == args[1..][..k - 2];
        assert args[1..][k - 2] == args[k - 1];
        SourceFromPrefix(args[1..], k - 1, p);
      }
    }
  }

  lemma {:induction false} NoSource(args: seq<PhiArg>, p: Label)
    requires forall j :: 0 <= j < |args| ==> args[j].pred != p
    ensures PhiSource(args, p).None?
  {
    if args != [] {
      NoSource(args[1..], p);
    }
  }

  /** A PHI with distinct predecessors asks at most one copy of an edge. */
  lemma {:induction false} ArgsCopies(d: nat, args: seq<PhiArg>, k: nat, p: Label)
    requires k <= |args| && DistinctPreds(args)
    ensures CopiesOfArgs(d, args, k, p) ==
              match PhiSource(args[..k], p)
              case None => []
              case Some(s) => if s != d then [PhiCopy(d, s)] else []
  {
    if k > 0 {
      ArgsCopies(d, args, k - 1, p);
      SourceFromPrefix(args, k, p);
      if args[k - 1].pred == p {
        NoSource(args[..k - 1], p);
      }
    }
  }

  lemma InstCopies(f: Func, t: nat, i: nat, p: Label)
    requires Selectable(f) && f.Has(t, i)
    ensures var cs := CopiesOfInst(f.At(t, i), p);
            && (cs == [] || (|cs| == 1 && AskedBy(f, t, i, p, cs[0])))
            && (forall c :: AskedBy(f, t, i, p, c) ==> cs == [c])
  {
    if f.At(t, i).op.Phi? {
      assert InstSelectable(f, t, i);
      var args := f.At(t, i).op.args;
      ArgsCopies(Dst(f.At(t, i)), args, |args|, p);
      assert args[..|args|] == args;
    }
  }

  ghost predicate Asked(f: Func, t: nat, n: nat, p: Label, c: PhiCopy) {
    exists j: nat :: j < n && AskedBy(f, t, j, p, c)
  }

  /** Every copy collected is one that some PHI asks for. */
  lemma {:induction false} CopyIsAsked(f: Func, t: nat, n: nat, p: Label, k: nat)
    requires Selectable(f) && t < |f.blocks| && n <= |f.blocks[t]| && k < |CopiesUpTo(f.blocks[t], n, p)|
    ensures Asked(f, t, n, p, CopiesUpTo(f.blocks[t], n, p)[k])
  {
    hide Selectable, AskedBy, CopiesOfInst;
    if n > 0 {
      var before := CopiesUpTo(f.blocks[t], n - 1, p);
      if k < |before| {
        CopyIsAsked(f, t, n - 1, p, k);
      } else {
        InstCopies(f, t, n - 1, p);
      }
    }
  }

  /** Every copy that some PHI asks for is collected. */
  lemma {:induction false} AskedIsCopied(f: Func, t: nat, n: nat, p: Label, j: nat, c: PhiCopy)
    requires Selectable(f) && t < |f.blocks| && j < n <= |f.blocks[t]| && AskedBy(f, t, j, p, c)
    ensures c in CopiesUpTo(f.blocks[t], n, p)
  {
    hide Selectable, AskedBy, CopiesOfInst;
    if j == n - 1 {
      InstCopies(f, t, j, p);
    } else {
      AskedIsCopied(f, t, n - 1, p, j, c);
    }
  }

  lemma AskedOnce(f: Func, t: nat, i: nat, j: nat, p: Label, c: PhiCopy, d: PhiCopy)
    requires SingleDef(f) && AskedBy(f, t, i, p, c) && AskedBy(f, t, j, p, d) && i != j
    ensures c.dst != d.dst
  {
  }

  lemma DistinctAppend(cs: seq<PhiCopy>, more: seq<PhiCopy>)
    requires DistinctDsts(cs) && |more| <= 1
    requires more != [] ==> forall k :: 0 <= k < |cs| ==> cs[k].dst != more[0].dst
    ensures DistinctDsts(cs + more)
  {
  }

  lemma NewCopyDistinct(f: Func, t: nat, n: nat, p: Label, k: nat)
    requires Selectable(f) && t < |f.blocks| && n < |f.blocks[t]| && k < |CopiesUpTo(f.blocks[t], n, p)|
    requires CopiesOfInst(f.blocks[t][n], p) != []
    ensures CopiesUpTo(f.blocks[t], n, p)[k].dst != CopiesOfInst(f.blocks[t][n], p)[0].dst
  {
    var before, now := CopiesUpTo(f.blocks[t], n, p), CopiesOfInst(f.blocks[t][n], p);
    assert SingleDef(f);
    hide Selectable, AskedBy, CopiesOfInst, SingleDef, CopiesUpTo;
    InstCopies(f, t, n, p);
    CopyIsAsked(f, t, n, p, k);
    var j: nat :| j < n && AskedBy(f, t, j, p, before[k]);
    AskedOnce(f, t, j, n, p, before[k], now[0]);
  }

  lemma {:induction false} CopiesDistinct(f: Func, t: nat, n: nat, p: Label)
    requires Selectable(f) && t < |f.blocks| && n <= |f.blocks[t]|
    ensures DistinctDsts(CopiesUpTo(f.blocks[t], n, p))
  {
    hide *;
    if n == 0 {
      NoCopies(f.blocks[t], p);
    } else {
      CopiesDistinct(f, t, n - 1, p);
      MoreCopies(f, t, n, p);
      var before, now := CopiesUpTo(f.blocks[t], n - 1, p), CopiesOfInst(f.blocks[t][n - 1], p);
      if now != [] {
        forall k | 0 <= k < |before| ensures before[k].dst != now[0].dst {
          NewCopyDistinct(f, t, n - 1, p, k);
        }
      }
      DistinctAppend(before, now);
    }
  }

  lemma NoCopies(b: Block, p: Label)
    ensures DistinctDsts(CopiesUpTo(b, 0, p))
  {
  }

  lemma MoreCopies(f: Func, t: nat, n: nat, p: Label)
    requires Selectable(f) && t < |f.blocks| && 0 < n <= |f.blocks[t]|
    ensures CopiesUpTo(f.blocks[t], n, p) == CopiesUpTo(f.blocks[t], n - 1, p) + CopiesOfInst(f.blocks[t][n - 1], p)
    ensures |CopiesOfInst(f.blocks[t][n - 1], p)| <= 1
  {
    InstCopies(f, t, n - 1, p);
    hide Selectable, AskedBy, CopiesOfInst;
  }

  /** The copies of an edge are exactly those the target's PHIs ask for. */
  lemma EdgeCopies(f: Func, p: Label, t: Label)
    requires Selectable(f) && t < |f.blocks|
    ensures var cs := CopiesFor(f, p, t);
            && DistinctDsts(cs) && NoConflict(cs)
            && (forall k :: 0 <= k < |cs| ==> Asked(f, t, |f.blocks[t]|, p, cs[k]))
            && (forall j: nat, c :: AskedBy(f, t, j, p, c) ==> c in cs)
  {
    var cs := CopiesFor(f, p, t);
    assert NoConflict(cs);
    assert cs == CopiesUpTo(f.blocks[t], |f.blocks[t]|, p);
    hide Selectable, CopiesUpTo, NoConflict;
    CopiesDistinct(f, t, |f.blocks[t]|, p);
    forall k | 0 <= k < |cs| ensures Asked(f, t, |f.blocks[t]|, p, cs[k]) {
      CopyIsAsked(f, t, |f.blocks[t]|, p, k);
    }
    forall j: nat, c | AskedBy(f, t, j, p, c) ensures c in cs {
      AskedIsCopied(f, t, |f.blocks[t]|, p, j, c);
    }
  }

  // ---- Taking an edge ----

  /** Everything the machine can be relied on to hold agrees. */
  ghost predicate Same(w: World, spoiled: bool, env: Env, menv: Env) {
    && (forall v :: v in env && (v != 0 || !spoiled) ==> v in menv && menv[v] == env[v])
    && (spoiled ==> 0 in menv && IsReply(w, menv[0]))
  }

  /** The PHIs of the target find their operands. */
  ghost predicate PhisReady(f: Func, t: Label, p: Label, env: Env) {
    forall j :: f.Has(t, j) && f.At(t, j).op.Phi? ==> Eval(f.At(t, j).op, env, env, Some(p)).Some?
  }

  lemma {:induction false} RunNeedsPhis(w: World, f: Func, t: nat, i: nat, env: Env, snap: Env, prev: Option<Label>, trace: Trace, j: nat)
    requires t < |f.blocks| && i <= j && f.Has(t, j) && f.At(t, j).op.Phi?
    requires !RunBlock(w, f.blocks[t], i, env, snap, prev, trace).Fault?
    requires forall k :: i <= k < j ==> !f.blocks[t][k].op.IsTerminator()
    ensures Eval(f.At(t, j).op, snap, snap, prev).Some?
    decreases j - i
  {
    if i < j {
      var r := Exec(w, f.blocks[t][i], env, snap, prev, trace);
      RunNeedsPhis(w, f, t, i + 1, r.env, snap, prev, r.trace, j);
    }
  }

  lemma RunMeansReady(w: World, f: Func, t: nat, env: Env, p: Label, trace: Trace)
    requires Selectable(f) && t < |f.blocks|
    requires !RunBlock(w, f.blocks[t], 0, env, env, Some(p), trace).Fault?
    ensures PhisReady(f, t, p, env)
  {
    forall j | f.Has(t, j) && f.At(t, j).op.Phi? ensures Eval(f.At(t, j).op, env, env, Some(p)).Some? {
      TerminatorLast(f, t, j);
      forall k | 0 <= k < j ensures !f.blocks[t][k].op.IsTerminator() {
        TerminatorLast(f, t, k);
      }
      RunNeedsPhis(w, f, t, 0, env, env, Some(p), trace, j);
    }
  }

  /** What every copy of the edge taken reads. */
  ghost predicate SourcesAgree(cs: seq<PhiCopy>, env: Env, menv: Env) {
    forall k :: 0 <= k < |cs| ==> cs[k].src in env && cs[k].src in menv && menv[cs[k].src] == env[cs[k].src]
  }

  lemma CopySources(w: World, f: Func, p: Label, t: Label, dirty: bool, env: Env, menv: Env)
    requires Selectable(f) && t < |f.blocks| && Same(w, SpoiledOut(f, p, dirty), env, menv) && EdgeClean(f, p, t, dirty) && PhisReady(f, t, p, env)
    ensures SourcesAgree(CopiesFor(f, p, t), env, menv)
  {
    EdgeCopies(f, p, t);
    hide Selectable, CopiesFor, SpoiledOut;
    var cs := CopiesFor(f, p, t);
    forall k | 0 <= k < |cs| ensures cs[k].src in env && cs[k].src in menv && menv[cs[k].src] == env[cs[k].src] {
      var j: nat :| j < |f.blocks[t]| && AskedBy(f, t, j, p, cs[k]);
    }
  }

  lemma CopyHasPhi(f: Func, p: Label, t: Label, c: PhiCopy)
    requires t < |f.blocks| && Asked(f, t, |f.blocks[t]|, p, c)
    ensures exists j: nat :: f.Has(t, j) && f.At(t, j).op.Phi? && f.At(t, j).dst == Some(c.dst)
  {
    var j: nat :| j < |f.blocks[t]| && AskedBy(f, t, j, p, c);
    assert f.Has(t, j) && f.At(t, j).op.Phi? && f.At(t, j).dst == Some(c.dst);
  }

  /** A register no PHI of the target defines is left alone on the edge. */
  lemma EdgeLeaves(f: Func, p: Label, t: Label, menv: Env, v: nat)
    requires Selectable(f) && t < |f.blocks| && SourcesIn(CopiesFor(f, p, t), menv) && v in menv
    requires forall j :: f.Has(t, j) && f.At(t, j).op.Phi? ==> f.At(t, j).dst != Some(v)
    ensures v in InSequence(CopiesFor(f, p, t), menv) && InSequence(CopiesFor(f, p, t), menv)[v] == menv[v]
  {
    var cs := CopiesFor(f, p, t);
    EdgeCopies(f, p, t);
    SequenceIsParallel(cs, menv);
    hide Selectable, CopiesFor, InSequence, NoConflict, DistinctDsts, InParallel, Asked;
    forall k | 0 <= k < |cs| ensures cs[k].dst != v {
      CopyHasPhi(f, p, t, cs[k]);
    }
    ParallelKeeps(cs, menv, InSequence(cs, menv), v);
  }

  lemma AheadHasPhi(f: Func, t: nat, v: VReg)
    requires !Ahead(f, t, 0, v)
    ensures forall j :: f.Has(t, j) && f.At(t, j).op.Phi? ==> f.At(t, j).dst != Some(v)
  {
    forall j | f.Has(t, j) && f.At(t, j).op.Phi? ensures f.At(t, j).dst != Some(v) {
      assert 0 <= j;
    }
  }

  /** Before the first instruction of a block. */
  lemma BlockStart(w: World, f: Func, t: nat, now: bool, env: Env, snap: Env, prev: Option<Label>, menv: Env)
    requires forall v :: v in env && (v != 0 || !now) && !Ahead(f, t, 0, v) ==> v in menv && menv[v] == env[v]
    requires forall j: nat :: f.Has(t, j) && f.At(t, j).op.Phi? && f.At(t, j).dst.Some? ==>
               PhiHeld(f.At(t, j).op, f.At(t, j).dst.value, snap, prev, menv)
    requires now ==> 0 in menv && IsReply(w, menv[0])
    ensures BlockRel(w, f, t, 0, now, env, snap, prev, menv)
  {
    hide PhiHeld, Ahead, IsReply;
  }

  /** After the copies of the edge taken, the machine is ready for the target block. */
  lemma EdgeTaken(w: World, f: Func, p: Label, t: Label, dirty: bool, env: Env, menv: Env)
    requires Selectable(f) && t < |f.blocks| && Same(w, SpoiledOut(f, p, dirty), env, menv) && EdgeClean(f, p, t, dirty) && PhisReady(f, t, p, env)
    ensures SourcesIn(CopiesFor(f, p, t), menv)
    ensures BlockRel(w, f, t, 0, SpoiledAcross(f, p, t, dirty), env, env, Some(p), InSequence(CopiesFor(f, p, t), menv))
  {
    var cs := CopiesFor(f, p, t);
    var menv' := InSequence(cs, menv);
    EdgeCopies(f, p, t);
    CopySources(w, f, p, t, dirty, env, menv);
    SequenceIsParallel(cs, menv);
    var now := SpoiledAcross(f, p, t, dirty);
    hide Selectable, CopiesFor, InSequence, NoConflict, DistinctDsts, SpoiledOut, IsReply, InParallel, EdgeClean, PhisReady, PhiHeld, Ahead;
    forall v | v in env && (v != 0 || !now) && !Ahead(f, t, 0, v) ensures v in menv' && menv'[v] == env[v] {
      AheadHasPhi(f, t, v);
      EdgeLeaves(f, p, t, menv, v);
    }
    forall j: nat | f.Has(t, j) && f.At(t, j).op.Phi? && f.At(t, j).dst.Some?
      ensures PhiHeld(f.At(t, j).op, f.At(t, j).dst.value, env, Some(p), menv')
    {
      EdgePhi(w, f, p, t, j, dirty, env, menv, menv');
    }
    if now {
      EdgeLeaves(f, p, t, menv, 0);
    }
    BlockStart(w, f, t, now, env, env, Some(p), menv');
  }

  lemma OnePhi(f: Func, t: nat, i: nat, j: nat)
    requires SingleDef(f) && f.Has(t, i) && f.Has(t, j) && f.At(t, i).dst.Some? && f.At(t, i).dst == f.At(t, j).dst
    ensures i == j
  {
  }

  lemma ParallelKeeps(cs: seq<PhiCopy>, menv: Env, menv': Env, d: nat)
    requires SourcesIn(cs, menv) && InParallel(cs, menv, menv')
    requires d in menv && forall k :: 0 <= k < |cs| ==> cs[k].dst != d
    ensures d in menv' && menv'[d] == menv[d]
  {
  }

  lemma ParallelGives(cs: seq<PhiCopy>, env: Env, menv: Env, menv': Env, c: PhiCopy)
    requires SourcesIn(cs, menv) && InParallel(cs, menv, menv') && SourcesAgree(cs, env, menv) && c in cs
    ensures c.src in env && c.dst in menv' && menv'[c.dst] == env[c.src]
  {
    var k :| 0 <= k < |cs| && cs[k] == c;
  }

  lemma EdgePhi(w: World, f: Func, p: Label, t: Label, j: nat, dirty: bool, env: Env, menv: Env, menv': Env)
    requires Selectable(f) && t < |f.blocks| && Same(w, SpoiledOut(f, p, dirty), env, menv) && EdgeClean(f, p, t, dirty) && PhisReady(f, t, p, env)
    requires SourcesIn(CopiesFor(f, p, t), menv) && SourcesAgree(CopiesFor(f, p, t), env, menv)
    requires InParallel(CopiesFor(f, p, t), menv, menv')
    requires f.Has(t, j) && f.At(t, j).op.Phi? && f.At(t, j).dst.Some?
    ensures PhiHeld(f.At(t, j).op, f.At(t, j).dst.value, env, Some(p), menv')
  {
    var cs := CopiesFor(f, p, t);
    var d := f.At(t, j).dst.value;
    EdgeCopies(f, p, t);
    var s := PhiSource(f.At(t, j).op.args, p).value;
    assert Eval(f.At(t, j).op, env, env, Some(p)) == Some(env[s]);
    assert SingleDef(f);
    hide Selectable, CopiesFor, SingleDef, NoConflict, DistinctDsts, PhiSource, Eval, SpoiledOut, InParallel, SourcesAgree, Asked;
    if s == d {
      forall k | 0 <= k < |cs| ensures cs[k].dst != d {
        NotOverwritten(f, p, t, j, s, cs[k]);
      }
      ParallelKeeps(cs, menv, menv', d);
    } else {
      assert AskedBy(f, t, j, p, PhiCopy(d, s));
      ParallelGives(cs, env, menv, menv', PhiCopy(d, s));
    }
  }

  /** A PHI that keeps its own register asks for no copy, and no other PHI writes it. */
  lemma NotOverwritten(f: Func, p: Label, t: Label, j: nat, d: nat, c: PhiCopy)
    requires SingleDef(f) && f.Has(t, j) && f.At(t, j).op.Phi? && f.At(t, j).dst == Some(d)
    requires PhiSource(f.At(t, j).op.args, p) == Some(d) && Asked(f, t, |f.blocks[t]|, p, c)
    ensures c.dst != d
  {
    var i: nat :| i < |f.blocks[t]| && AskedBy(f, t, i, p, c);
    if f.At(t, i).dst == Some(d) {
      OnePhi(f, t, i, j);
    }
  }
}
