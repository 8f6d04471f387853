/** Constant folding (src/opt_constfold.c), including its identity arms, which write a
    constant where the other operand belongs. */
module ConstFold {
  import opened Wrappers
  import opened Word64
  import opened Ssa
  import opened SsaVerify
  import opened StrictSsa
  import opened Folding

  // ---- One instruction ----

  ghost predicate ConstDef(f: Func, v: VReg, c: Int64) {
    exists b, i :: f.Has(b, i) && f.At(b, i) == Inst(Some(v), Const(c))
  }

  /** The constant that defines `v`, if a CONST does. */
  ghost function FindConst(f: Func, v: VReg): (r: Option<Int64>)
    ensures r.Some? ==> ConstDef(f, v, r.value)
    ensures r.None? ==> forall c :: !ConstDef(f, v, c)
  {
    if exists c :: ConstDef(f, v, c) then var c :| ConstDef(f, v, c); Some(c) else None
  }

  lemma ConstDefUnique(f: Func, v: VReg, c: Int64, d: Int64)
    requires SingleDef(f) && ConstDef(f, v, c) && ConstDef(f, v, d)
    ensures c == d
  {
  }

  /** The arms for x + 0, x - 0 and x * 1, tried when only the right operand is constant. */
  ghost predicate IdentityArm(f: Func, op: Op) {
    && op.Binop? && FindConst(f, op.lhs).None? && FindConst(f, op.rhs).Some?
    && var c := FindConst(f, op.rhs).value;
       (c == 0 && (op.bkind.Add? || op.bkind.Sub?)) || (c == 1 && op.bkind.Mul?)
  }

  /** The arms in which every operand is constant. */
  ghost predicate ConstantArm(f: Func, op: Op) {
    || (op.Binop? && FindConst(f, op.lhs).Some? && FindConst(f, op.rhs).Some?)
    || (op.Cmp? && FindConst(f, op.clhs).Some? && FindConst(f, op.crhs).Some?)
    || (op.Unop? && FindConst(f, op.operand).Some?)
  }

  function FoldedBinop(k: BinOpKind, a: Int64, c: Int64): Int64 {
    match FoldBinop(k, a, c) case Some(x) => x case None => 0
  }

  ghost function FoldOp(f: Func, op: Op): Op {
    if ConstantArm(f, op) then
      match op
      case Binop(k, l, r) => Const(FoldedBinop(k, FindConst(f, l).value, FindConst(f, r).value))
      case Cmp(k, l, r) => Const(EvalCmp(k, FindConst(f, l).value, FindConst(f, r).value))
      case Unop(k, x) => Const(EvalUnop(k, FindConst(f, x).value))
      case _ => op
    else if IdentityArm(f, op) then Const(FindConst(f, op.rhs).value)
    else op
  }

  /** An environment some run of the function could be in, as far as its constants go. */
  ghost predicate ConstsHold(f: Func, env: Env) {
    forall v, c :: v in env && ConstDef(f, v, c) ==> env[v] == c
  }

  /** Folding an operation is right in every environment exactly when no identity arm is
      taken. */
  lemma FoldExact(f: Func, op: Op)
    requires SingleDef(f) && op.IsPure()
    ensures (forall env: Env, snap: Env, prev :: ConstsHold(f, env) && Eval(op, env, snap, prev).Some? ==>
               FoldOp(f, op).IsPure() && Eval(FoldOp(f, op), env, snap, prev) == Eval(op, env, snap, prev))
            <==> !IdentityArm(f, op)
  {
    if IdentityArm(f, op) {
      IdentityArmWrong(f, op);
    } else {
      forall env: Env, snap: Env, prev | ConstsHold(f, env) && Eval(op, env, snap, prev).Some?
        ensures FoldOp(f, op).IsPure() && Eval(FoldOp(f, op), env, snap, prev) == Eval(op, env, snap, prev)
      {
        FoldRight(f, op, env, snap, prev);
      }
    }
  }

  lemma FoldRight(f: Func, op: Op, env: Env, snap: Env, prev: Option<Label>)
    requires SingleDef(f) && op.IsPure() && !IdentityArm(f, op)
    requires ConstsHold(f, env) && Eval(op, env, snap, prev).Some?
    ensures FoldOp(f, op).IsPure() && Eval(FoldOp(f, op), env, snap, prev) == Eval(op, env, snap, prev)
  {
    if ConstantArm(f, op) {
      match op
      case Binop(k, l, r) => FoldAgrees(k, env[l], env[r]);
      case _ =>
    }
  }

  /** x + 0 becomes 0, x - 0 becomes 0 and x * 1 becomes 1: wrong for x = 1 and x = 0. */
  lemma IdentityArmWrong(f: Func, op: Op)
    requires SingleDef(f) && IdentityArm(f, op)
    ensures exists env: Env, snap: Env, prev :: ConstsHold(f, env) && Eval(op, env, snap, prev).Some?
              && Eval(FoldOp(f, op), env, snap, prev) != Eval(op, env, snap, prev)
  {
    var c := FindConst(f, op.rhs).value;
    var x: Int64 := if op.bkind.Mul? then 0 else 1;
    var env: Env := map[op.lhs := x, op.rhs := c];
    forall v, d | v in env && ConstDef(f, v, d) ensures env[v] == d {
      ConstDefUnique(f, op.rhs, c, if v == op.rhs then d else c);
    }
    assert EvalBinop(op.bkind, x, c) == Some(x);
    assert Eval(op, env, env, None) == Some(x) && Eval(FoldOp(f, op), env, env, None) == Some(c);
  }

  // ---- The sweep ----

  /** The function so far, whether an arm that reports a change was taken, and whether the
      identity arms have stayed out of it. */
  datatype Sweep = Sweep(func: Func, changed: bool, clean: bool)

  ghost function FoldAt(f: Func, b: nat, i: nat): Func
    requires f.Has(b, i)
  {
    f.(blocks := f.blocks[b := f.blocks[b][i := f.At(b, i).(op := FoldOp(f, f.At(b, i).op))]])
  }

  ghost function SweepStep(s: Sweep, b: nat, i: nat): Sweep
    requires s.func.Has(b, i)
  {
    var op := s.func.At(b, i).op;
    Sweep(FoldAt(s.func, b, i), s.changed || ConstantArm(s.func, op), s.clean && !IdentityArm(s.func, op))
  }

  ghost function SweepBlock(s: Sweep, b: nat, i: nat): (t: Sweep)
    requires b < |s.func.blocks| && i <= |s.func.blocks[b]|
    ensures SameShape(s.func, t.func)
  {
    if i == 0 then s else SweepStep(SweepBlock(s, b, i - 1), b, i - 1)
  }

  ghost function SweepTo(s: Sweep, b: nat): (t: Sweep)
    requires b <= |s.func.blocks|
    ensures SameShape(s.func, t.func)
  {
    if b == 0 then s else var t := SweepTo(s, b - 1); SweepBlock(t, b - 1, |t.func.blocks[b - 1]|)
  }

  const MAX_ITERATIONS := 10

  /** Sweeps until one changes nothing, at most `n` of them. */
  ghost function Sweeps(f: Func, clean: bool, n: nat): Sweep
    decreases n
  {
    if n == 0 then Sweep(f, true, clean)
    else
      var s := SweepTo(Sweep(f, false, clean), |f.blocks|);
      if s.changed then Sweeps(s.func, s.clean, n - 1) else s
  }

  ghost function FoldFunc(f: Func): Func {
    Sweeps(f, true, 10).func
  }

  /** No identity arm is taken anywhere in the run of the pass. */
  ghost predicate Clean(f: Func) {
    Sweeps(f, true, 10).clean
  }

  // ---- One rewrite keeps meaning ----

  lemma FoldAtSimplifies(f: Func, b: nat, i: nat)
    requires f.Has(b, i)
    ensures Simplifies(f, FoldAt(f, b, i)) && SameTerminators(f, FoldAt(f, b, i))
  {
  }

  lemma ExecHolds(w: World, f: Func, b: nat, i: nat, env: Env, snap: Env, prev: Option<Label>, trace: Trace)
    requires SingleDef(f) && f.Has(b, i) && !f.At(b, i).op.IsTerminator() && ConstsHold(f, env)
    ensures var r := Exec(w, f.At(b, i), env, snap, prev, trace); r.Went? ==> ConstsHold(f, r.env)
  {
    var inst := f.At(b, i);
    var r := Exec(w, inst, env, snap, prev, trace);
    if r.Went? {
      forall v, c | v in r.env && ConstDef(f, v, c) ensures r.env[v] == c {
        if inst.dst == Some(v) {
          var d, j :| f.Has(d, j) && f.At(d, j) == Inst(Some(v), Const(c));
          assert d == b && j == i;
        }
      }
    }
  }

  lemma {:induction false} FoldedBlock(w: World, f: Func, b: nat, i: nat, c: nat, k: nat,
                                       env: Env, snap: Env, prev: Option<Label>, trace: Trace)
    requires SingleDef(f) && f.Has(b, i) && !IdentityArm(f, f.At(b, i).op)
    requires c < |f.blocks| && k <= |f.blocks[c]| && ConstsHold(f, env)
    requires !RunBlock(w, f.blocks[c], k, env, snap, prev, trace).Fault?
    ensures RunBlock(w, FoldAt(f, b, i).blocks[c], k, env, snap, prev, trace) == RunBlock(w, f.blocks[c], k, env, snap, prev, trace)
    ensures var r := RunBlock(w, f.blocks[c], k, env, snap, prev, trace); r.Goto? ==> ConstsHold(f, r.env)
    decreases |f.blocks[c]| - k
  {
    hide ConstsHold, SingleDef;
    assert f.Has(c, k);
    var inst := f.At(c, k);
    var inst' := FoldAt(f, b, i).blocks[c][k];
    if !inst.op.IsTerminator() {
      var r := Exec(w, inst, env, snap, prev, trace);
      ExecHolds(w, f, c, k, env, snap, prev, trace);
      if inst' != inst {
        FoldRight(f, inst.op, env, snap, prev);
      }
      FoldedBlock(w, f, b, i, c, k + 1, r.env, snap, prev, r.trace);
    }
  }

  lemma {:induction false} FoldedRun(w: World, f: Func, b: nat, i: nat, actuals: seq<Int64>, n: nat)
    requires SingleDef(f) && f.Has(b, i) && !IdentityArm(f, f.At(b, i).op)
    requires !Run(w, f, actuals, n).Faulted?
    ensures Run(w, FoldAt(f, b, i), actuals, n) == Run(w, f, actuals, n)
    ensures Run(w, f, actuals, n).Running? ==> ConstsHold(f, Run(w, f, actuals, n).env)
  {
    if n == 0 {
      forall v | v in Bind(f.params, actuals) ensures v in f.params {
        BindDomain(f.params, actuals, v);
      }
    } else {
      FoldedRun(w, f, b, i, actuals, n - 1);
      var s := Run(w, f, actuals, n - 1);
      if s.Running? && s.block < |f.blocks| {
        FoldedBlock(w, f, b, i, s.block, 0, s.env, s.env, s.prev, s.trace);
      }
    }
  }

  lemma FoldAtPreserves(f: Func, b: nat, i: nat)
    requires SingleDef(f) && f.Has(b, i) && !IdentityArm(f, f.At(b, i).op)
    ensures Refines(f, FoldAt(f, b, i))
  {
    forall w: World, actuals, n: nat | !Run(w, f, actuals, n).Faulted?
      ensures Observe(Run(w, FoldAt(f, b, i), actuals, n)) == Observe(Run(w, f, actuals, n))
    {
      FoldedRun(w, f, b, i, actuals, n);
    }
  }

  // ---- The whole pass keeps meaning ----

  /** What a stretch of the pass that started from `f` has kept. */
  ghost predicate Keeps(f: Func, s: Sweep) {
    && Simplifies(f, s.func) && SameTerminators(f, s.func)
    && SingleDef(s.func) && InBounds(s.func)
    && (s.clean ==> Refines(f, s.func))
  }

  lemma KeepsStart(f: Func, changed: bool)
    requires SingleDef(f) && InBounds(f)
    ensures Keeps(f, Sweep(f, changed, true))
  {
    RefinesReflexive(f);
  }

  lemma FoldAtTerminators(f: Func, g: Func, b: nat, i: nat)
    requires SameTerminators(f, g) && g.Has(b, i)
    ensures SameTerminators(f, FoldAt(g, b, i))
  {
    FoldAtSimplifies(g, b, i);
    forall c, k | f.Has(c, k)
      ensures f.At(c, k).op.IsTerminator() || FoldAt(g, b, i).At(c, k).op.IsTerminator() ==> FoldAt(g, b, i).At(c, k).op == f.At(c, k).op
    {
      assert g.Has(c, k);
    }
  }

  lemma StepKeeps(f: Func, s: Sweep, b: nat, i: nat)
    requires Keeps(f, s) && s.func.Has(b, i)
    ensures Keeps(f, SweepStep(s, b, i))
  {
    hide Refines, SingleDef, InBounds, Simplifies;
    assert SameTerminators(f, FoldAt(s.func, b, i)) by { FoldAtTerminators(f, s.func, b, i); }
    var g := FoldAt(s.func, b, i);
    FoldAtSimplifies(s.func, b, i);
    SimplifiesTransitive(f, s.func, g);
    SimplifiesReady(s.func, g);
    if s.clean && !IdentityArm(s.func, s.func.At(b, i).op) {
      FoldAtPreserves(s.func, b, i);
      RefinesTransitive(f, s.func, g);
    }
  }

  lemma {:induction false} BlockKeeps(f: Func, s: Sweep, b: nat, i: nat)
    requires Keeps(f, s) && b < |s.func.blocks| && i <= |s.func.blocks[b]|
    ensures Keeps(f, SweepBlock(s, b, i))
  {
    hide Keeps, SweepStep;
    if i > 0 {
      BlockKeeps(f, s, b, i - 1);
      StepKeeps(f, SweepBlock(s, b, i - 1), b, i - 1);
    }
  }

  lemma {:induction false} ToKeeps(f: Func, s: Sweep, b: nat)
    requires Keeps(f, s) && b <= |s.func.blocks|
    ensures Keeps(f, SweepTo(s, b))
  {
    hide Keeps, SweepBlock;
    if b > 0 {
      ToKeeps(f, s, b - 1);
      var t := SweepTo(s, b - 1);
      BlockKeeps(f, t, b - 1, |t.func.blocks[b - 1]|);
    }
  }

  lemma {:induction false} SweepsKeep(f: Func, g: Func, clean: bool, n: nat)
    requires Keeps(f, Sweep(g, false, clean))
    ensures Keeps(f, Sweeps(g, clean, n))
    decreases n
  {
    if n > 0 {
      ToKeeps(f, Sweep(g, false, clean), |g.blocks|);
      var s := SweepTo(Sweep(g, false, clean), |g.blocks|);
      if s.changed {
        SweepsKeep(f, s.func, s.clean, n - 1);
      }
    }
  }

  /** The pass only simplifies, keeps SSA form, and preserves meaning if the identity arms
      stay out of it. */
  lemma FoldCorrect(f: Func)
    requires SingleDef(f) && InBounds(f)
    ensures Simplifies(f, FoldFunc(f)) && SameTerminators(f, FoldFunc(f)) && SingleDef(FoldFunc(f)) && InBounds(FoldFunc(f))
    ensures Clean(f) ==> Refines(f, FoldFunc(f))
  {
    KeepsStart(f, false);
    SweepsKeep(f, f, true, MAX_ITERATIONS);
  }

  // ---- The pass ----

  method IsConstVal(func: SsaFunc, v: VReg) returns (r: Option<Int64>)
    requires SingleDef(func.Value())
    ensures r == FindConst(func.Value(), v)
  {
    ghost var f := func.Value();
    for b := 0 to |func.blocks|
      invariant forall c, j, x :: f.Has(c, j) && c < b ==> f.At(c, j) != Inst(Some(v), Const(x))
    {
      for i := 0 to |func.blocks[b]|
        invariant forall c, j, x :: f.Has(c, j) && (c < b || (c == b && j < i)) ==> f.At(c, j) != Inst(Some(v), Const(x))
      {
        var inst := func.blocks[b][i];
        if inst.op.Const? && inst.dst == Some(v) {
          assert f.Has(b, i) && f.At(b, i) == Inst(Some(v), Const(inst.op.value));
          assert ConstDef(f, v, inst.op.value);
          ConstDefUnique(f, v, inst.op.value, FindConst(f, v).value);
          return Some(inst.op.value);
        }
        assert f.Has(b, i) && f.At(b, i) == inst;
      }
    }
    r := None;
  }

  method VisitInst(func: SsaFunc, b: nat, i: nat) returns (changed: bool)
    requires SingleDef(func.Value()) && func.Value().Has(b, i)
    modifies func
    ensures func.Value() == FoldAt(old(func.Value()), b, i)
    ensures changed <==> ConstantArm(old(func.Value()), old(func.Value()).At(b, i).op)
  {
    ghost var f := func.Value();
    var inst := func.blocks[b][i];
    var op := inst.op;
    changed := false;
    match inst.op {
      case Binop(k, l, r) =>
        var x := IsConstVal(func, l);
        var y := IsConstVal(func, r);
        if x.Some? && y.Some? {
          op := Const(FoldedBinop(k, x.value, y.value));
          changed := true;
        } else if y.Some? {
          if y.value == 0 && (k.Add? || k.Sub?) {
            op := Const(0);
          } else if y.value == 1 && k.Mul? {
            op := Const(1);
          }
        }
      case Cmp(k, l, r) =>
        var x := IsConstVal(func, l);
        var y := IsConstVal(func, r);
        if x.Some? && y.Some? {
          op := Const(EvalCmp(k, x.value, y.value));
          changed := true;
        }
      case Unop(k, o) =>
        var x := IsConstVal(func, o);
        if x.Some? {
          op := Const(EvalUnop(k, x.value));
          changed := true;
        }
      case _ =>
    }
    assert op == FoldOp(f, inst.op);
    func.blocks := func.blocks[b := func.blocks[b][i := inst.(op := op)]];
  }

  method OptConstFold(func: SsaFunc)
    requires SingleDef(func.Value()) && InBounds(func.Value())
    modifies func
    ensures func.Value() == FoldFunc(old(func.Value()))
  {
    ghost var f := func.Value();
    var changed, iterations := true, 0;
    ghost var clean := true;
    KeepsStart(f, false);
    while changed && iterations < MAX_ITERATIONS
      invariant iterations <= MAX_ITERATIONS
      invariant Keeps(f, Sweep(func.Value(), false, clean))
      invariant changed ==> Sweeps(f, true, MAX_ITERATIONS) == Sweeps(func.Value(), clean, MAX_ITERATIONS - iterations)
      invariant !changed ==> Sweeps(f, true, MAX_ITERATIONS).func == func.Value()
      decreases MAX_ITERATIONS - iterations
    {
      ghost var start := Sweep(func.Value(), false, clean);
      changed := false;
      iterations := iterations + 1;
      for b := 0 to |func.blocks|
        invariant |func.blocks| == |start.func.blocks|
        invariant Sweep(func.Value(), changed, clean) == SweepTo(start, b)
        invariant Keeps(f, Sweep(func.Value(), changed, clean))
      {
        ghost var s := Sweep(func.Value(), changed, clean);
        for i := 0 to |func.blocks[b]|
          invariant |func.blocks| == |s.func.blocks| && |func.blocks[b]| == |s.func.blocks[b]|
          invariant Sweep(func.Value(), changed, clean) == SweepBlock(s, b, i)
          invariant Keeps(f, Sweep(func.Value(), changed, clean))
        {
          ghost var t := Sweep(func.Value(), changed, clean);
          StepKeeps(f, t, b, i);
          clean := clean && !IdentityArm(func.Value(), func.blocks[b][i].op);
          var fired := VisitInst(func, b, i);
          changed := changed || fired;
          assert Sweep(func.Value(), changed, clean) == SweepStep(t, b, i);
        }
      }
    }
  }
}
