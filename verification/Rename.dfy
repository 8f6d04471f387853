/** The theorem behind copy propagation and common-subexpression elimination: in strict
    SSA, a use may be replaced by any register that a chain of copies and recomputations
    leads to. */
module Rename {
  import opened Wrappers
  import opened Word64
  import opened Ssa
  import opened SsaVerify
  import opened StrictSsa

  /** `x` repeats `y`: its definition is a PHI whose only operand is `y`, or the same pure
      operation that defines `y` earlier in the same block. */
  ghost predicate Repeats(f: Func, x: VReg, y: VReg, b: Label, i: nat) {
    && f.Has(b, i) && f.At(b, i).dst == Some(x)
    && var op := f.At(b, i).op;
       || (op.Phi? && |op.args| == 1 && op.args[0].src == y)
       || (op.IsPure() && !op.Phi? && exists j :: 0 <= j < i && f.At(b, j).dst == Some(y) && f.At(b, j).op == op)
  }

  ghost predicate CopyOf(f: Func, x: VReg, y: VReg) {
    exists b, i :: Repeats(f, x, y, b, i)
  }

  ghost predicate ChainN(f: Func, x: VReg, z: VReg, n: nat)
    decreases n
  {
    if n == 0 then x == z else exists y :: CopyOf(f, x, y) && ChainN(f, y, z, n - 1)
  }

  ghost predicate Chain(f: Func, x: VReg, z: VReg) {
    exists n :: ChainN(f, x, z, n)
  }

  lemma ChainNone(f: Func, x: VReg)
    ensures Chain(f, x, x)
  {
    assert ChainN(f, x, x, 0);
  }

  lemma ChainOne(f: Func, x: VReg, y: VReg)
    requires CopyOf(f, x, y)
    ensures Chain(f, x, y)
  {
    assert ChainN(f, y, y, 0);
    assert ChainN(f, x, y, 1);
  }

  lemma {:induction false} ChainNAppend(f: Func, x: VReg, y: VReg, z: VReg, m: nat, n: nat)
    requires ChainN(f, x, y, m) && ChainN(f, y, z, n)
    ensures ChainN(f, x, z, m + n)
    decreases m
  {
    if m > 0 {
      var x' :| CopyOf(f, x, x') && ChainN(f, x', y, m - 1);
      ChainNAppend(f, x', y, z, m - 1, n);
    }
  }

  lemma ChainAppend(f: Func, x: VReg, y: VReg, z: VReg)
    requires Chain(f, x, y) && Chain(f, y, z)
    ensures Chain(f, x, z)
  {
    var m :| ChainN(f, x, y, m);
    var n :| ChainN(f, y, z, n);
    ChainNAppend(f, x, y, z, m, n);
  }

  /** What a register repeats is available wherever the register is. */
  lemma CopyAvail(f: Func, x: VReg, y: VReg, b: Label, i: nat)
    requires SingleDef(f) && Strict(f) && CopyOf(f, x, y) && AvailAt(f, x, b, i)
    ensures AvailAt(f, y, b, i)
  {
    var d: Label, j: nat :| Repeats(f, x, y, d, j);
    var op := f.At(d, j).op;
    if op.Phi? && |op.args| == 1 && op.args[0].src == y {
      SinglePhiOperand(f, d, j);
    } else {
      assert DefinedBefore(f, y, d, j);
    }
    AvailThrough(f, x, y, d, j, b, i);
  }

  lemma {:induction false} ChainNAvail(f: Func, x: VReg, z: VReg, n: nat, b: Label, i: nat)
    requires SingleDef(f) && Strict(f) && ChainN(f, x, z, n) && AvailAt(f, x, b, i)
    ensures AvailAt(f, z, b, i)
    decreases n
  {
    if n > 0 {
      var y :| CopyOf(f, x, y) && ChainN(f, y, z, n - 1);
      CopyAvail(f, x, y, b, i);
      ChainNAvail(f, y, z, n - 1, b, i);
    }
  }

  lemma ChainAvail(f: Func, x: VReg, z: VReg, b: Label, i: nat)
    requires SingleDef(f) && Strict(f) && Chain(f, x, z) && AvailAt(f, x, b, i)
    ensures AvailAt(f, z, b, i)
  {
    var n :| ChainN(f, x, z, n);
    ChainNAvail(f, x, z, n, b, i);
  }

  // ---- Copies hold the same value, in every run ----

  /** Every available copy is equal to what it repeats. */
  ghost predicate Copies(f: Func, b: Label, i: nat, env: Env) {
    forall x, y :: CopyOf(f, x, y) && AvailAt(f, x, b, i) ==> x in env && y in env && env[x] == env[y]
  }

  /** Registers the block has not yet defined still have their value on entry. */
  ghost predicate Untouched(f: Func, b: Label, i: nat, env: Env, snap: Env) {
    forall v :: v in snap && !DefinedBefore(f, v, b, i) ==> v in env && env[v] == snap[v]
  }

  /** Every pure instruction already executed in the block would give its result again. */
  ghost predicate Computed(f: Func, b: Label, i: nat, env: Env, snap: Env, prev: Option<Label>) {
    forall j, d :: 0 <= j < i && f.Has(b, j) && f.At(b, j).op.IsPure() && f.At(b, j).dst == Some(d) ==>
      d in env && Eval(f.At(b, j).op, env, snap, prev) == Some(env[d])
  }

  ghost predicate BlockInv(f: Func, b: Label, i: nat, env: Env, snap: Env, prev: Option<Label>) {
    && Reachable(f, b)
    && Copies(f, b, i, env)
    && Untouched(f, b, i, env, snap)
    && Computed(f, b, i, env, snap, prev)
  }

  lemma EvalUnchanged(op: Op, env: Env, d: VReg, x: Int64, snap: Env, prev: Option<Label>)
    requires op.IsPure() && (op.Phi? || !Reads(op, d))
    ensures Eval(op, env[d := x], snap, prev) == Eval(op, env, snap, prev)
  {
  }

  /** Operands are not redefined after their use in a reachable block. */
  lemma ComputedStep(f: Func, b: Label, i: nat, env: Env, snap: Env, prev: Option<Label>, env': Env, x: Int64)
    requires SingleDef(f) && Strict(f) && Reachable(f, b) && f.Has(b, i)
    requires Computed(f, b, i, env, snap, prev)
    requires env' == Put(env, f.At(b, i).dst, x)
    requires f.At(b, i).op.IsPure() ==> Eval(f.At(b, i).op, env, snap, prev) == Some(x)
    ensures Computed(f, b, i + 1, env', snap, prev)
  {
    var dst := f.At(b, i).dst;
    if dst.None? { return; }
    forall j, d | 0 <= j < i + 1 && f.Has(b, j) && f.At(b, j).op.IsPure() && f.At(b, j).dst == Some(d)
      ensures d in env' && Eval(f.At(b, j).op, env', snap, prev) == Some(env'[d])
    {
      var op := f.At(b, j).op;
      assert UsesOk(f, b, j, op);
      if !op.Phi? && Reads(op, dst.value) {
        NotDefinedLater(f, dst.value, b, j, i);
      }
      EvalUnchanged(op, env, dst.value, x, snap, prev);
      if j < i {
        assert d != dst.value;
      }
    }
  }

  lemma UntouchedStep(f: Func, b: Label, i: nat, env: Env, snap: Env, x: Int64)
    requires f.Has(b, i) && Untouched(f, b, i, env, snap)
    ensures Untouched(f, b, i + 1, Put(env, f.At(b, i).dst, x), snap)
  {
    var env' := Put(env, f.At(b, i).dst, x);
    forall v | v in snap && !DefinedBefore(f, v, b, i + 1) ensures v in env' && env'[v] == snap[v] {
      assert f.At(b, i).dst != Some(v);
      assert forall j :: 0 <= j < i && f.Has(b, j) && f.At(b, j).dst == Some(v) ==> 0 <= j < i + 1;
    }
  }

  lemma AvailBack(f: Func, v: VReg, b: Label, i: nat)
    requires f.Has(b, i) && AvailAt(f, v, b, i + 1) && f.At(b, i).dst != Some(v)
    ensures AvailAt(f, v, b, i)
  {
    if DefinedBefore(f, v, b, i + 1) {
      var j :| 0 <= j < i + 1 && f.Has(b, j) && f.At(b, j).dst == Some(v);
      assert j < i;
    }
  }

  /** One instruction keeps the whole block invariant. */
  lemma BlockInvStep(f: Func, b: Label, i: nat, env: Env, snap: Env, prev: Option<Label>, x: Int64)
    requires SingleDef(f) && Strict(f) && f.Has(b, i)
    requires BlockInv(f, b, i, env, snap, prev)
    requires f.At(b, i).op.IsPure() ==> Eval(f.At(b, i).op, env, snap, prev) == Some(x)
    ensures BlockInv(f, b, i + 1, Put(env, f.At(b, i).dst, x), snap, prev)
  {
    var inst := f.At(b, i);
    var env' := Put(env, inst.dst, x);
    ComputedStep(f, b, i, env, snap, prev, env', x);
    UntouchedStep(f, b, i, env, snap, x);
    forall u, y | CopyOf(f, u, y) && AvailAt(f, u, b, i + 1)
      ensures u in env' && y in env' && env'[u] == env'[y]
    {
      if inst.dst == Some(u) {
        NewCopy(f, b, i, env', snap, prev, u, y);
      } else {
        AvailBack(f, u, b, i);
        CopyAvail(f, u, y, b, i);
        NotDefinedLater(f, y, b, i, i);
      }
    }
  }

  lemma BlockInvExec(w: World, f: Func, b: Label, i: nat, env: Env, snap: Env, prev: Option<Label>, trace: Trace)
    requires SingleDef(f) && Strict(f) && f.Has(b, i) && !f.At(b, i).op.IsTerminator()
    requires BlockInv(f, b, i, env, snap, prev)
    ensures var r := Exec(w, f.At(b, i), env, snap, prev, trace); r.Went? ==> BlockInv(f, b, i + 1, r.env, snap, prev)
  {
    var inst := f.At(b, i);
    var r := Exec(w, inst, env, snap, prev, trace);
    if r.Went? {
      var x := if inst.op.IsPure() then Eval(inst.op, env, snap, prev).value else if inst.op.Call? then w(r.trace) else 0;
      assert r.env == Put(env, inst.dst, x);
      BlockInvStep(f, b, i, env, snap, prev, x);
    }
  }

  /** A copy just made equals what it repeats. */
  lemma NewCopy(f: Func, b: Label, i: nat, env': Env, snap: Env, prev: Option<Label>, u: VReg, y: VReg)
    requires SingleDef(f) && Strict(f) && Reachable(f, b) && f.Has(b, i) && f.At(b, i).dst == Some(u)
    requires CopyOf(f, u, y)
    requires Untouched(f, b, i + 1, env', snap) && Computed(f, b, i + 1, env', snap, prev)
    ensures u in env' && y in env' && env'[u] == env'[y]
  {
    var d: Label, j: nat :| Repeats(f, u, y, d, j);
    assert d == b && j == i;
    var op := f.At(b, i).op;
    assert op.IsPure();
    assert u in env' && Eval(op, env', snap, prev) == Some(env'[u]);
    if op.Phi? {
      SinglePhiOperand(f, b, i);
      assert PhiSource(op.args, prev.value) == Some(y) by { assert op.args[1..] == []; }
      if DefinedBefore(f, y, b, i + 1) {
        assert DefinedIn(f, b, y);
        NotAvailInOwnBlock(f, y, b);
      }
    } else {
      var k :| 0 <= k < i && f.At(b, k).dst == Some(y) && f.At(b, k).op == op;
      assert f.Has(b, k);
    }
  }

  // ---- Renamed functions ----

  ghost predicate Renamed(f: Func, op: Op, op': Op) {
    match op
    case Const(x) => op' == op
    case Jump(t) => op' == op
    case Binop(k, l, r) => op'.Binop? && op'.bkind == k && Chain(f, l, op'.lhs) && Chain(f, r, op'.rhs)
    case Unop(k, x) => op'.Unop? && op'.ukind == k && Chain(f, x, op'.operand)
    case Cmp(k, l, r) => op'.Cmp? && op'.ckind == k && Chain(f, l, op'.clhs) && Chain(f, r, op'.crhs)
    case Gep(p, off) => op'.Gep? && op'.offset == off && Chain(f, p, op'.ptr)
    case Phi(args) =>
      op'.Phi? && |op'.args| == |args|
      && forall k :: 0 <= k < |args| ==> op'.args[k].pred == args[k].pred && Chain(f, args[k].src, op'.args[k].src)
    case Call(fn, actuals) =>
      op'.Call? && op'.func == fn && |op'.actuals| == |actuals|
      && forall k :: 0 <= k < |actuals| ==> Chain(f, actuals[k], op'.actuals[k])
    case Print(x) => op'.Print? && Chain(f, x, op'.val)
    case Branch(c, t, e) => op'.Branch? && op'.trueBb == t && op'.falseBb == e && Chain(f, c, op'.cond)
    case Ret(r) => op'.Ret? && op'.result.Some? == r.Some? && (r.Some? ==> Chain(f, r.value, op'.result.value))
  }

  /** `g` is `f` with uses renamed along chains; the definitions of the registers in
      `dead` may have become a constant, and then nothing reads them any more. */
  ghost predicate Renames(f: Func, g: Func, dead: set<VReg>) {
    && SameShape(f, g)
    && (forall b, i :: f.Has(b, i) ==>
          && g.At(b, i).dst == f.At(b, i).dst
          && (|| Renamed(f, f.At(b, i).op, g.At(b, i).op)
              || (f.At(b, i).dst.Some? && f.At(b, i).dst.value in dead && f.At(b, i).op.IsPure() && g.At(b, i).op.Const?)))
    && (forall b, i, v: VReg :: g.Has(b, i) && Reads(g.At(b, i).op, v) ==> v !in dead)
  }

  /** A read of the renamed instruction stands for a read of the original. */
  lemma RenamedReads(f: Func, op: Op, op': Op, z: VReg) returns (v: VReg)
    requires Renamed(f, op, op') && Reads(op', z)
    ensures Reads(op, v) && Chain(f, v, z)
  {
    match op
    case Binop(_, l, r) => v := if op'.lhs == z then l else r;
    case Unop(_, x) => v := x;
    case Cmp(_, l, r) => v := if op'.clhs == z then l else r;
    case Gep(p, _) => v := p;
    case Phi(args) =>
      var k :| 0 <= k < |op'.args| && op'.args[k].src == z;
      v := args[k].src;
    case Call(_, actuals) =>
      var k :| 0 <= k < |op'.actuals| && op'.actuals[k] == z;
      v := actuals[k];
    case Print(x) => v := x;
    case Branch(c, _, _) => v := c;
    case Ret(r) => v := r.value;
  }

  lemma RenamesThins(f: Func, g: Func, dead: set<VReg>)
    requires Renames(f, g, dead)
    ensures Thins(f, g)
  {
    forall b: Label, t: Label | Edge(g, b, t) ensures Edge(f, b, t) {
      var i :| g.Has(b, i) && Targets(g.At(b, i).op, t);
      assert f.Has(b, i) && Targets(f.At(b, i).op, t);
    }
  }

  /** Strictness survives renaming. */
  lemma RenamesStrict(f: Func, g: Func, dead: set<VReg>)
    requires SingleDef(f) && Strict(f) && Renames(f, g, dead)
    ensures Strict(g)
  {
    RenamesThins(f, g, dead);
    forall b, i | g.Has(b, i) ensures UsesOk(g, b, i, g.At(b, i).op) {
      var op, op' := f.At(b, i).op, g.At(b, i).op;
      assert f.Has(b, i) && UsesOk(f, b, i, op);
      if !op'.Const? {
        assert Renamed(f, op, op');
        if op'.Phi? {
          forall p: Label | Edge(g, p, b) ensures exists k :: 0 <= k < |op'.args| && op'.args[k].pred == p {
            var k :| 0 <= k < |op.args| && op.args[k].pred == p;
            assert op'.args[k].pred == p;
          }
          forall k | 0 <= k < |op'.args| ensures AvailOut(g, op'.args[k].src, op'.args[k].pred) {
            var p := op.args[k].pred;
            assert AvailOut(f, op.args[k].src, p);
            ChainAvail(f, op.args[k].src, op'.args[k].src, p, |f.blocks[p]|);
            ThinsAvailAt(f, g, op'.args[k].src, p, |f.blocks[p]|);
          }
        } else {
          forall z: VReg | Reads(op', z) ensures AvailAt(g, z, b, i) {
            var v := RenamedReads(f, op, op', z);
            ChainAvail(f, v, z, b, i);
            ThinsAvailAt(f, g, z, b, i);
          }
        }
      }
    }
  }

  // ---- Simulation ----

  ghost predicate EnvRel(dead: set<VReg>, env: Env, env': Env) {
    forall v :: v in env && v !in dead ==> v in env' && env'[v] == env[v]
  }

  /** Along a chain, an available register leads to an equal one. */
  lemma {:induction false} ChainNValue(f: Func, x: VReg, z: VReg, n: nat, b: Label, i: nat, env: Env)
    requires SingleDef(f) && Strict(f) && ChainN(f, x, z, n) && AvailAt(f, x, b, i)
    requires Copies(f, b, i, env) && x in env
    ensures z in env && env[z] == env[x]
    decreases n
  {
    if n > 0 {
      var y :| CopyOf(f, x, y) && ChainN(f, y, z, n - 1);
      CopyAvail(f, x, y, b, i);
      ChainNValue(f, y, z, n - 1, b, i, env);
    }
  }

  lemma ChainValue(f: Func, x: VReg, z: VReg, b: Label, i: nat, env: Env, dead: set<VReg>, env': Env)
    requires SingleDef(f) && Strict(f) && Chain(f, x, z) && AvailAt(f, x, b, i)
    requires Copies(f, b, i, env) && x in env && z !in dead && EnvRel(dead, env, env')
    ensures z in env' && env'[z] == env[x]
  {
    var n :| ChainN(f, x, z, n);
    ChainNValue(f, x, z, n, b, i, env);
  }

  /** The edge a block was entered by, with the copies that held on leaving its source. */
  ghost predicate EntryInv(f: Func, b: Label, prev: Option<Label>, snap: Env) {
    prev.Some? ==> Edge(f, prev.value, b) && prev.value < |f.blocks|
                   && Copies(f, prev.value, |f.blocks[prev.value]|, snap)
  }

  lemma {:induction false} RenamedPhi(f: Func, args: seq<PhiArg>, args': seq<PhiArg>, p: Label)
    requires |args'| == |args|
    requires forall k :: 0 <= k < |args| ==> args'[k].pred == args[k].pred && Chain(f, args[k].src, args'[k].src)
    requires PhiSource(args, p).Some?
    ensures PhiSource(args', p).Some? && Chain(f, PhiSource(args, p).value, PhiSource(args', p).value)
    ensures exists k :: 0 <= k < |args| && args[k] == PhiArg(PhiSource(args, p).value, p)
                        && args'[k] == PhiArg(PhiSource(args', p).value, p)
  {
    if args[0].pred == p {
      assert args[0] == PhiArg(PhiSource(args, p).value, p);
      assert args'[0] == PhiArg(PhiSource(args', p).value, p);
    } else {
      RenamedPhi(f, args[1..], args'[1..], p);
      var k :| 0 <= k < |args[1..]| && args[1..][k] == PhiArg(PhiSource(args, p).value, p)
               && args'[1..][k] == PhiArg(PhiSource(args', p).value, p);
      assert args[k + 1] == args[1..][k] && args'[k + 1] == args'[1..][k];
    }
  }

  /** Evaluating a renamed operation gives the same value. */
  lemma RenamedEval(f: Func, b: Label, i: nat, op': Op, dead: set<VReg>,
                    env: Env, env': Env, snap: Env, snap': Env, prev: Option<Label>)
    requires SingleDef(f) && Strict(f) && f.Has(b, i)
    requires f.At(b, i).op.IsPure() && Renamed(f, f.At(b, i).op, op')
    requires forall v: VReg :: Reads(op', v) ==> v !in dead
    requires Copies(f, b, i, env) && EntryInv(f, b, prev, snap)
    requires EnvRel(dead, env, env') && EnvRel(dead, snap, snap')
    requires Eval(f.At(b, i).op, env, snap, prev).Some?
    ensures op'.IsPure() && Eval(op', env', snap', prev) == Eval(f.At(b, i).op, env, snap, prev)
  {
    var op := f.At(b, i).op;
    assert UsesOk(f, b, i, op);
    match op
    case Const(_) =>
    case Binop(_, l, r) =>
      assert Reads(op, l) && Reads(op, r) && Reads(op', op'.lhs) && Reads(op', op'.rhs);
      ChainValue(f, l, op'.lhs, b, i, env, dead, env');
      ChainValue(f, r, op'.rhs, b, i, env, dead, env');
    case Unop(_, x) =>
      assert Reads(op, x) && Reads(op', op'.operand);
      ChainValue(f, x, op'.operand, b, i, env, dead, env');
    case Cmp(_, l, r) =>
      assert Reads(op, l) && Reads(op, r) && Reads(op', op'.clhs) && Reads(op', op'.crhs);
      ChainValue(f, l, op'.clhs, b, i, env, dead, env');
      ChainValue(f, r, op'.crhs, b, i, env, dead, env');
    case Gep(p, _) =>
      assert Reads(op, p) && Reads(op', op'.ptr);
      ChainValue(f, p, op'.ptr, b, i, env, dead, env');
    case Phi(args) =>
      var p := prev.value;
      RenamedPhi(f, args, op'.args, p);
      var k :| 0 <= k < |args| && args[k] == PhiArg(PhiSource(args, p).value, p)
               && op'.args[k] == PhiArg(PhiSource(op'.args, p).value, p);
      assert AvailOut(f, args[k].src, p);
      assert Reads(op', op'.args[k].src);
      ChainValue(f, args[k].src, op'.args[k].src, p, |f.blocks[p]|, snap, dead, snap');
  }

  lemma RenamedActuals(f: Func, b: Label, i: nat, op': Op, dead: set<VReg>, env: Env, env': Env)
    requires SingleDef(f) && Strict(f) && f.Has(b, i)
    requires f.At(b, i).op.Call? && Renamed(f, f.At(b, i).op, op')
    requires forall v: VReg :: Reads(op', v) ==> v !in dead
    requires Copies(f, b, i, env) && EnvRel(dead, env, env')
    requires AllIn(f.At(b, i).op.actuals, env)
    ensures AllIn(op'.actuals, env') && Values(op'.actuals, env') == Values(f.At(b, i).op.actuals, env)
  {
    var op := f.At(b, i).op;
    assert UsesOk(f, b, i, op);
    forall k | 0 <= k < |op.actuals|
      ensures op'.actuals[k] in env' && op.actuals[k] in env && env'[op'.actuals[k]] == env[op.actuals[k]]
    {
      assert Reads(op, op.actuals[k]) && Reads(op', op'.actuals[k]);
      ChainValue(f, op.actuals[k], op'.actuals[k], b, i, env, dead, env');
    }
  }

  /** One instruction and its renamed form. */
  lemma RenamedExec(w: World, f: Func, g: Func, dead: set<VReg>, b: Label, i: nat,
                    env: Env, env': Env, snap: Env, snap': Env, prev: Option<Label>, trace: Trace)
    requires SingleDef(f) && Strict(f) && Renames(f, g, dead) && f.Has(b, i)
    requires !f.At(b, i).op.IsTerminator()
    requires Copies(f, b, i, env) && EntryInv(f, b, prev, snap)
    requires EnvRel(dead, env, env') && EnvRel(dead, snap, snap')
    requires Exec(w, f.At(b, i), env, snap, prev, trace).Went?
    ensures !g.At(b, i).op.IsTerminator()
    ensures var r, r' := Exec(w, f.At(b, i), env, snap, prev, trace), Exec(w, g.At(b, i), env', snap', prev, trace);
            r'.Went? && r'.trace == r.trace && EnvRel(dead, r.env, r'.env)
  {
    var inst, inst' := f.At(b, i), g.At(b, i);
    assert g.Has(b, i);
    assert inst'.dst == inst.dst;
    if Renamed(f, inst.op, inst'.op) {
      if inst.op.IsPure() {
        RenamedEval(f, b, i, inst'.op, dead, env, env', snap, snap', prev);
      } else if inst.op.Print? {
        assert UsesOk(f, b, i, inst.op);
        assert Reads(inst.op, inst.op.val) && Reads(inst'.op, inst'.op.val);
        ChainValue(f, inst.op.val, inst'.op.val, b, i, env, dead, env');
      } else {
        RenamedActuals(f, b, i, inst'.op, dead, env, env');
      }
    }
  }

  /** Leaving `b`: the same way, with related environments, along an edge. */
  ghost predicate ExitRel(f: Func, dead: set<VReg>, b: Label, r: Exit, r': Exit) {
    b < |f.blocks|
    && match r
       case Fault => false
       case Return(_, _) => r' == r
       case Goto(t, env, trace) =>
         r'.Goto? && r'.target == t && r'.trace == trace && EnvRel(dead, env, r'.env)
         && Edge(f, b, t) && Copies(f, b, |f.blocks[b]|, env)
  }

  /** A renamed block runs as the original, event for event. */
  lemma {:induction false} RenamedBlock(w: World, f: Func, g: Func, dead: set<VReg>, b: Label, i: nat,
                                        env: Env, env': Env, snap: Env, snap': Env, prev: Option<Label>, trace: Trace)
    requires Accepts(f) && SingleDef(f) && Strict(f) && Renames(f, g, dead)
    requires b < |f.blocks| && i <= |f.blocks[b]|
    requires BlockInv(f, b, i, env, snap, prev) && EntryInv(f, b, prev, snap)
    requires EnvRel(dead, env, env') && EnvRel(dead, snap, snap')
    requires !RunBlock(w, f.blocks[b], i, env, snap, prev, trace).Fault?
    ensures ExitRel(f, dead, b, RunBlock(w, f.blocks[b], i, env, snap, prev, trace),
                    RunBlock(w, g.blocks[b], i, env', snap', prev, trace))
    decreases |f.blocks[b]| - i
  {
    assert f.Has(b, i) && g.Has(b, i);
    var inst, inst' := f.At(b, i), g.At(b, i);
    if inst.op.IsTerminator() {
      RenamedLeave(f, g, dead, b, i, env, env', trace);
    } else {
      var r, r' := Exec(w, inst, env, snap, prev, trace), Exec(w, inst', env', snap', prev, trace);
      RenamedExec(w, f, g, dead, b, i, env, env', snap, snap', prev, trace);
      BlockInvExec(w, f, b, i, env, snap, prev, trace);
      RenamedBlock(w, f, g, dead, b, i + 1, r.env, r'.env, snap, snap', prev, r.trace);
    }
  }

  lemma RenamedLeave(f: Func, g: Func, dead: set<VReg>, b: Label, i: nat, env: Env, env': Env, trace: Trace)
    requires Accepts(f) && SingleDef(f) && Strict(f) && Renames(f, g, dead) && f.Has(b, i)
    requires f.At(b, i).op.IsTerminator() && Copies(f, b, i, env) && EnvRel(dead, env, env')
    requires !Leave(f.At(b, i).op, env, trace).Fault?
    ensures g.At(b, i).op.IsTerminator()
    ensures ExitRel(f, dead, b, Leave(f.At(b, i).op, env, trace), Leave(g.At(b, i).op, env', trace))
  {
    var op, op' := f.At(b, i).op, g.At(b, i).op;
    assert g.Has(b, i) && Renamed(f, op, op') && UsesOk(f, b, i, op);
    assert BlockOk(f, f.blocks[b]);
    match op {
      case Jump(t) => assert Targets(op, t);
      case Branch(c, t, e) =>
        assert Reads(op, c) && Reads(op', op'.cond);
        ChainValue(f, c, op'.cond, b, i, env, dead, env');
        assert Targets(op, t) && Targets(op, e);
      case Ret(r) =>
        if r.Some? {
          assert Reads(op, r.value) && Reads(op', op'.result.value);
          ChainValue(f, r.value, op'.result.value, b, i, env, dead, env');
        }
    }
    if Leave(op, env, trace).Goto? {
      forall x, y | CopyOf(f, x, y) && AvailAt(f, x, b, |f.blocks[b]|) ensures x in env && y in env && env[x] == env[y] {
        assert i == |f.blocks[b]| - 1 && f.At(b, i).dst.None?;
        AvailBack(f, x, b, i);
      }
    }
  }

  ghost predicate StateInv(f: Func, s: State) {
    s.Running? ==> Reachable(f, s.block) && Copies(f, s.block, 0, s.env) && EntryInv(f, s.block, s.prev, s.env)
  }

  ghost predicate StateRel(dead: set<VReg>, s: State, s': State) {
    && Observe(s) == Observe(s')
    && (s.Running? ==> EnvRel(dead, s.env, s'.env))
  }

  lemma EnterBlock(f: Func, p: Label, b: Label, env: Env)
    requires Reachable(f, p) && Edge(f, p, b) && Copies(f, p, |f.blocks[p]|, env)
    ensures Reachable(f, b) && Copies(f, b, 0, env)
  {
    var q :| PathTo(f, q, p);
    PathExtends(f, q, p, b);
    forall x, y | CopyOf(f, x, y) && AvailAt(f, x, b, 0) ensures x in env && y in env && env[x] == env[y] {
      AvailAlongEdge(f, x, p, b);
    }
  }

  lemma StartInv(f: Func, actuals: seq<Int64>)
    requires SingleDef(f)
    ensures StateInv(f, Init(f, actuals))
  {
    assert PathTo(f, [f.entry], f.entry);
    forall x, y | CopyOf(f, x, y) ensures !AvailAt(f, x, f.entry, 0) {
      var q := [f.entry];
      var b: Label, i: nat :| Repeats(f, x, y, b, i);
      assert !OnPath(f, q, |q| - 1, x);
    }
  }

  lemma {:induction false} RenamedRun(w: World, f: Func, g: Func, dead: set<VReg>, actuals: seq<Int64>, n: nat)
    requires Sound(f) && Renames(f, g, dead) && !Run(w, f, actuals, n).Faulted?
    ensures StateInv(f, Run(w, f, actuals, n))
    ensures StateRel(dead, Run(w, f, actuals, n), Run(w, g, actuals, n))
  {
    if n == 0 {
      StartInv(f, actuals);
    } else {
      RenamedRun(w, f, g, dead, actuals, n - 1);
      var s, s' := Run(w, f, actuals, n - 1), Run(w, g, actuals, n - 1);
      if s.Running? && s.block < |f.blocks| {
        RenamedBlock(w, f, g, dead, s.block, 0, s.env, s'.env, s.env, s'.env, s.prev, s.trace);
        var r := RunBlock(w, f.blocks[s.block], 0, s.env, s.env, s.prev, s.trace);
        if r.Goto? {
          EnterBlock(f, s.block, r.target, r.env);
        }
      }
    }
  }

  /** Renaming along chains preserves meaning. */
  lemma RenamesPreserves(f: Func, g: Func, dead: set<VReg>)
    requires Sound(f) && Renames(f, g, dead)
    ensures Refines(f, g)
  {
    forall w: World, actuals, n: nat | !Run(w, f, actuals, n).Faulted?
      ensures Observe(Run(w, g, actuals, n)) == Observe(Run(w, f, actuals, n))
    {
      RenamedRun(w, f, g, dead, actuals, n);
    }
  }

  // ---- The shape survives ----

  lemma RenamesKeeps(f: Func, g: Func, dead: set<VReg>)
    requires InBounds(f) && SingleDef(f) && Renames(f, g, dead)
    requires forall b, i, v: VReg :: g.Has(b, i) && Reads(g.At(b, i).op, v) ==> v < g.nextVreg
    ensures InBounds(g) && SingleDef(g)
  {
    RenamesThins(f, g, dead);
    forall b, i | g.Has(b, i)
      ensures g.At(b, i).dst.Some? ==> g.At(b, i).dst.value < g.nextVreg
      ensures g.At(b, i).op.IsTerminator() || g.At(b, i).op.Print? ==> g.At(b, i).dst.None?
    {
      assert f.Has(b, i) && g.At(b, i).dst == f.At(b, i).dst;
    }
    ThinsSingleDef(f, g);
  }

  lemma RenamesSound(f: Func, g: Func, dead: set<VReg>)
    requires Sound(f) && Renames(f, g, dead) && InBounds(g)
    ensures Sound(g)
  {
    RenamesKeeps(f, g, dead);
    RenamesStrict(f, g, dead);
    forall b | 0 <= b < |g.blocks| ensures BlockOk(g, g.blocks[b]) {
      assert BlockOk(f, f.blocks[b]);
      forall i | 0 <= i < |g.blocks[b]|
        ensures g.blocks[b][i].op.IsTerminator() <==> i == |g.blocks[b]| - 1
        ensures InstOk(g, g.blocks[b][i])
      {
        assert f.Has(b, i) && g.Has(b, i) && InstOk(f, f.At(b, i));
        assert f.At(b, i).op.IsTerminator() <==> i == |f.blocks[b]| - 1;
        assert g.blocks[b][i] == g.At(b, i);
      }
    }
  }

  lemma RenamesGraph(f: Func, g: Func, dead: set<VReg>)
    requires Renames(f, g, dead)
    ensures SameGraph(f, g)
  {
    forall b: Label, t: Label ensures Edge(f, b, t) <==> Edge(g, b, t) {
      if Edge(f, b, t) {
        var i :| f.Has(b, i) && Targets(f.At(b, i).op, t);
        assert g.Has(b, i) && Targets(g.At(b, i).op, t);
      }
      if Edge(g, b, t) {
        RenamesThins(f, g, dead);
      }
    }
  }

  lemma RenamesSelf(f: Func)
    ensures Renames(f, f, {})
  {
    forall x ensures Chain(f, x, x) {
      ChainNone(f, x);
    }
  }
}
