/** Dead-code elimination (src/opt_dce.c): instructions without side effects whose result
    nothing reads are dropped, and each block is compacted in place. */
module Dce {
  import opened Wrappers
  import opened Word64
  import opened Ssa
  import opened SsaVerify
  import opened StrictSsa
  import opened Cse

  // ---- What one round keeps ----

  predicate HasSideEffects(op: Op) {
    op.Call? || op.Ret? || op.Branch? || op.Jump? || op.Print?
  }

  ghost predicate Used(f: Func, v: VReg) {
    v in f.params || exists b, i :: f.Has(b, i) && Reads(f.At(b, i).op, v)
  }

  ghost predicate Kept(f: Func, inst: Inst) {
    HasSideEffects(inst.op) || inst.dst.None? || Used(f, inst.dst.value)
  }

  /** The kept instructions from position `i` on. */
  ghost function Filter(f: Func, b: Block, i: nat): Block
    requires i <= |b|
    decreases |b| - i
  {
    if i == |b| then []
    else if Kept(f, b[i]) then [b[i]] + Filter(f, b, i + 1)
    else Filter(f, b, i + 1)
  }

  ghost function DceOnce(f: Func): Func {
    f.(blocks := seq(|f.blocks|, b requires 0 <= b < |f.blocks| => Filter(f, f.blocks[b], 0)))
  }

  ghost predicate NothingRemovable(f: Func) {
    forall b, i :: f.Has(b, i) ==> Kept(f, f.At(b, i))
  }

  // ---- One round keeps meaning ----

  lemma {:induction false} RunShift(w: World, a: Inst, b: Block, i: nat, env: Env, snap: Env, prev: Option<Label>, trace: Trace)
    requires i <= |b|
    ensures RunBlock(w, [a] + b, i + 1, env, snap, prev, trace) == RunBlock(w, b, i, env, snap, prev, trace)
    decreases |b| - i
  {
    var c := [a] + b;
    if i < |b| && !b[i].op.IsTerminator() {
      assert c[i + 1] == b[i];
      var r := Exec(w, b[i], env, snap, prev, trace);
      if r.Went? {
        RunShift(w, a, b, i + 1, r.env, snap, prev, r.trace);
      }
    }
  }

  /** Environments that agree on everything the function reads. */
  ghost predicate AgreeOnUsed(f: Func, env: Env, env': Env) {
    forall v :: v in env && Used(f, v) ==> v in env' && env'[v] == env[v]
  }

  lemma UsedByPhi(f: Func, b: nat, i: nat, p: Label)
    requires f.Has(b, i) && f.At(b, i).op.Phi? && PhiSource(f.At(b, i).op.args, p).Some?
    ensures Used(f, PhiSource(f.At(b, i).op.args, p).value)
  {
    var k := PhiSourceIsArg(f.At(b, i).op.args, p);
    assert Reads(f.At(b, i).op, f.At(b, i).op.args[k].src);
  }

  lemma ExecAgrees(w: World, f: Func, b: nat, i: nat, env: Env, env': Env, snap: Env, snap': Env, prev: Option<Label>, trace: Trace)
    requires f.Has(b, i) && !f.At(b, i).op.IsTerminator()
    requires AgreeOnUsed(f, env, env') && AgreeOnUsed(f, snap, snap')
    requires Exec(w, f.At(b, i), env, snap, prev, trace).Went?
    ensures var r, r' := Exec(w, f.At(b, i), env, snap, prev, trace), Exec(w, f.At(b, i), env', snap', prev, trace);
            r'.Went? && r'.trace == r.trace && AgreeOnUsed(f, r.env, r'.env)
  {
    var inst := f.At(b, i);
    assert forall v: VReg :: Reads(inst.op, v) ==> Used(f, v);
    if inst.op.IsPure() {
      if inst.op.Phi? {
        UsedByPhi(f, b, i, prev.value);
      }
      hide Used, Reads;
      PureAgrees(f, inst.op, env, env', snap, snap', prev);
    } else if inst.op.Call? {
      hide Used;
      assert Values(inst.op.actuals, env') == Values(inst.op.actuals, env);
    } else {
      hide Used;
      assert Reads(inst.op, inst.op.val);
    }
  }

  lemma PureAgrees(f: Func, op: Op, env: Env, env': Env, snap: Env, snap': Env, prev: Option<Label>)
    requires op.IsPure() && Eval(op, env, snap, prev).Some?
    requires forall v: VReg :: Reads(op, v) ==> Used(f, v)
    requires op.Phi? && prev.Some? && PhiSource(op.args, prev.value).Some? ==> Used(f, PhiSource(op.args, prev.value).value)
    requires AgreeOnUsed(f, env, env') && AgreeOnUsed(f, snap, snap')
    ensures Eval(op, env', snap', prev) == Eval(op, env, snap, prev)
  {
    hide Used;
    if op.Binop? {
      assert Reads(op, op.lhs) && Reads(op, op.rhs);
    } else if op.Cmp? {
      assert Reads(op, op.clhs) && Reads(op, op.crhs);
    } else if op.Unop? {
      assert Reads(op, op.operand);
    } else if op.Gep? {
      assert Reads(op, op.ptr);
    }
  }

  /** A dropped instruction changes nothing that is read. */
  lemma DroppedExec(w: World, f: Func, inst: Inst, env: Env, env': Env, snap: Env, prev: Option<Label>, trace: Trace)
    requires !Kept(f, inst) && AgreeOnUsed(f, env, env')
    requires Exec(w, inst, env, snap, prev, trace).Went?
    ensures var r := Exec(w, inst, env, snap, prev, trace); r.trace == trace && AgreeOnUsed(f, r.env, env')
  {
  }

  ghost predicate ExitAgrees(f: Func, r: Exit, r': Exit) {
    match r
    case Fault => false
    case Return(_, _) => r' == r
    case Goto(t, env, trace) => r'.Goto? && r'.target == t && r'.trace == trace && AgreeOnUsed(f, env, r'.env)
  }

  lemma LeaveAgrees(f: Func, b: nat, i: nat, env: Env, env': Env, trace: Trace)
    requires f.Has(b, i) && f.At(b, i).op.IsTerminator() && AgreeOnUsed(f, env, env')
    requires !Leave(f.At(b, i).op, env, trace).Fault?
    ensures ExitAgrees(f, Leave(f.At(b, i).op, env, trace), Leave(f.At(b, i).op, env', trace))
  {
    var op := f.At(b, i).op;
    match op
    case Branch(c, _, _) => assert Reads(op, c);
    case Ret(r) => assert r.Some? ==> Reads(op, r.value);
    case Jump(_) =>
  }

  lemma {:induction false} FilteredBlock(w: World, f: Func, b: nat, i: nat,
                                         env: Env, env': Env, snap: Env, snap': Env, prev: Option<Label>, trace: Trace)
    requires b < |f.blocks| && i <= |f.blocks[b]|
    requires AgreeOnUsed(f, env, env') && AgreeOnUsed(f, snap, snap')
    requires !RunBlock(w, f.blocks[b], i, env, snap, prev, trace).Fault?
    ensures ExitAgrees(f, RunBlock(w, f.blocks[b], i, env, snap, prev, trace),
                       RunBlock(w, Filter(f, f.blocks[b], i), 0, env', snap', prev, trace))
    decreases |f.blocks[b]| - i
  {
    hide AgreeOnUsed, Used;
    assert f.Has(b, i);
    var inst := f.At(b, i);
    if inst.op.IsTerminator() {
      LeaveAgrees(f, b, i, env, env', trace);
    } else {
      var r := Exec(w, inst, env, snap, prev, trace);
      if Kept(f, inst) {
        var r' := Exec(w, inst, env', snap', prev, trace);
        ExecAgrees(w, f, b, i, env, env', snap, snap', prev, trace);
        FilteredBlock(w, f, b, i + 1, r.env, r'.env, snap, snap', prev, r.trace);
        RunShift(w, inst, Filter(f, f.blocks[b], i + 1), 0, r'.env, snap', prev, r.trace);
      } else {
        DroppedExec(w, f, inst, env, env', snap, prev, trace);
        FilteredBlock(w, f, b, i + 1, r.env, env', snap, snap', prev, r.trace);
      }
    }
  }

  lemma {:induction false} FilteredRun(w: World, f: Func, actuals: seq<Int64>, n: nat)
    requires !Run(w, f, actuals, n).Faulted?
    ensures var s, s' := Run(w, f, actuals, n), Run(w, DceOnce(f), actuals, n);
            Observe(s) == Observe(s') && (s.Running? ==> AgreeOnUsed(f, s.env, s'.env))
  {
    if n > 0 {
      FilteredRun(w, f, actuals, n - 1);
      var s, s' := Run(w, f, actuals, n - 1), Run(w, DceOnce(f), actuals, n - 1);
      if s.Running? && s.block < |f.blocks| {
        FilteredBlock(w, f, s.block, 0, s.env, s'.env, s.env, s'.env, s.prev, s.trace);
      }
    }
  }

  lemma DceOncePreserves(f: Func)
    ensures Refines(f, DceOnce(f))
  {
    forall w: World, actuals, n: nat | !Run(w, f, actuals, n).Faulted?
      ensures Observe(Run(w, DceOnce(f), actuals, n)) == Observe(Run(w, f, actuals, n))
    {
      FilteredRun(w, f, actuals, n);
    }
  }

  // ---- Where the kept instructions come from ----

  /** The position in `b` of the `k`-th kept instruction from `i` on. */
  ghost function Origin(f: Func, b: Block, i: nat, k: nat): (j: nat)
    requires i <= |b| && k < |Filter(f, b, i)|
    ensures i <= j < |b| && Filter(f, b, i)[k] == b[j] && Kept(f, b[j])
    decreases |b| - i
  {
    if !Kept(f, b[i]) then Origin(f, b, i + 1, k)
    else if k == 0 then i
    else Origin(f, b, i + 1, k - 1)
  }

  lemma {:induction false} OriginIncreases(f: Func, b: Block, i: nat, k: nat, m: nat)
    requires i <= |b| && k < m < |Filter(f, b, i)|
    ensures Origin(f, b, i, k) < Origin(f, b, i, m)
    decreases |b| - i
  {
    if !Kept(f, b[i]) {
      OriginIncreases(f, b, i + 1, k, m);
    } else if k > 0 {
      OriginIncreases(f, b, i + 1, k - 1, m - 1);
    }
  }

  lemma {:induction false} KeptAppears(f: Func, b: Block, i: nat, j: nat) returns (k: nat)
    requires i <= j < |b| && Kept(f, b[j])
    ensures k < |Filter(f, b, i)| && Origin(f, b, i, k) == j
    decreases |b| - i
  {
    if i == j {
      k := 0;
    } else {
      k := KeptAppears(f, b, i + 1, j);
      if Kept(f, b[i]) { k := k + 1; }
    }
  }

  lemma {:induction false} FilterLength(f: Func, b: Block, i: nat)
    requires i <= |b|
    ensures |Filter(f, b, i)| <= |b| - i
    ensures (forall j :: i <= j < |b| ==> Kept(f, b[j])) ==> Filter(f, b, i) == b[i..]
    ensures (exists j :: i <= j < |b| && !Kept(f, b[j])) ==> |Filter(f, b, i)| < |b| - i
    decreases |b| - i
  {
    if i < |b| {
      FilterLength(f, b, i + 1);
      assert b[i..] == [b[i]] + b[i + 1..];
      if exists j :: i <= j < |b| && !Kept(f, b[j]) {
        var j :| i <= j < |b| && !Kept(f, b[j]);
        assert j == i || i + 1 <= j;
      }
    }
  }

  // ---- One round keeps strict SSA ----

  ghost function Org(f: Func, b: nat, k: nat): (j: nat)
    requires DceOnce(f).Has(b, k)
    ensures f.Has(b, j) && DceOnce(f).At(b, k) == f.At(b, j) && Kept(f, f.At(b, j))
  {
    Origin(f, f.blocks[b], 0, k)
  }

  lemma OrgOrder(f: Func, b: nat, k: nat, m: nat)
    requires DceOnce(f).Has(b, k) && DceOnce(f).Has(b, m)
    ensures Org(f, b, k) < Org(f, b, m) <==> k < m
    ensures Org(f, b, k) == Org(f, b, m) <==> k == m
  {
    if k < m { OriginIncreases(f, f.blocks[b], 0, k, m); }
    if m < k { OriginIncreases(f, f.blocks[b], 0, m, k); }
  }

  lemma OrgOnto(f: Func, b: nat, j: nat) returns (k: nat)
    requires f.Has(b, j) && Kept(f, f.At(b, j))
    ensures DceOnce(f).Has(b, k) && Org(f, b, k) == j
  {
    k := KeptAppears(f, f.blocks[b], 0, j);
  }

  lemma SameEdges(f: Func, b: Label, t: Label)
    ensures Edge(DceOnce(f), b, t) <==> Edge(f, b, t)
  {
    var g := DceOnce(f);
    if Edge(g, b, t) {
      var k :| g.Has(b, k) && Targets(g.At(b, k).op, t);
      assert f.Has(b, Org(f, b, k));
    }
    if Edge(f, b, t) {
      var j :| f.Has(b, j) && Targets(f.At(b, j).op, t);
      var k := OrgOnto(f, b, j);
    }
  }

  lemma SamePaths(f: Func, p: seq<Label>)
    ensures IsPath(DceOnce(f), p) <==> IsPath(f, p)
  {
    forall k | 0 <= k < |p| - 1 ensures Edge(DceOnce(f), p[k], p[k + 1]) <==> Edge(f, p[k], p[k + 1]) {
      SameEdges(f, p[k], p[k + 1]);
    }
  }

  lemma DefinedInKept(f: Func, b: Label, v: VReg)
    requires DefinedIn(f, b, v) && Used(f, v)
    ensures DefinedIn(DceOnce(f), b, v)
  {
    var j :| f.Has(b, j) && f.At(b, j).dst == Some(v);
    var k := OrgOnto(f, b, j);
  }

  lemma AvailKept(f: Func, v: VReg, b: Label)
    requires Avail(f, v, b) && Used(f, v)
    ensures Avail(DceOnce(f), v, b)
  {
    var g := DceOnce(f);
    forall p | PathTo(g, p, b) ensures OnPath(g, p, |p| - 1, v) {
      SamePaths(f, p);
      assert OnPath(f, p, |p| - 1, v);
      if v !in f.params {
        var k :| 0 <= k < |p| - 1 && DefinedIn(f, p[k], v);
        DefinedInKept(f, p[k], v);
      }
    }
  }

  lemma AvailAtKept(f: Func, v: VReg, b: Label, k: nat)
    requires DceOnce(f).Has(b, k) && AvailAt(f, v, b, Org(f, b, k)) && Used(f, v)
    ensures AvailAt(DceOnce(f), v, b, k)
  {
    if DefinedBefore(f, v, b, Org(f, b, k)) {
      var j :| 0 <= j < Org(f, b, k) && f.Has(b, j) && f.At(b, j).dst == Some(v);
      var m := OrgOnto(f, b, j);
      OrgOrder(f, b, m, k);
      assert DceOnce(f).At(b, m).dst == Some(v);
    } else {
      AvailKept(f, v, b);
    }
  }

  lemma AvailOutKept(f: Func, v: VReg, b: Label)
    requires AvailOut(f, v, b) && Used(f, v)
    ensures AvailOut(DceOnce(f), v, b)
  {
    var g := DceOnce(f);
    if DefinedBefore(f, v, b, |f.blocks[b]|) {
      var j :| 0 <= j < |f.blocks[b]| && f.Has(b, j) && f.At(b, j).dst == Some(v);
      var m := OrgOnto(f, b, j);
      assert m < |g.blocks[b]| && g.At(b, m).dst == Some(v);
    } else {
      AvailKept(f, v, b);
    }
  }

  lemma DceStrict(f: Func)
    requires Strict(f)
    ensures Strict(DceOnce(f))
  {
    var g := DceOnce(f);
    forall b: nat, k: nat | g.Has(b, k) ensures UsesOk(g, b, k, g.At(b, k).op) {
      var j := Org(f, b, k);
      var op := f.At(b, j).op;
      assert UsesOk(f, b, j, op);
      if op.Phi? {
        forall p: Label | Edge(g, p, b) ensures exists m :: 0 <= m < |op.args| && op.args[m].pred == p {
          SameEdges(f, p, b);
        }
        forall m | 0 <= m < |op.args| ensures AvailOut(g, op.args[m].src, op.args[m].pred) {
          assert Reads(op, op.args[m].src);
          AvailOutKept(f, op.args[m].src, op.args[m].pred);
        }
      } else {
        forall v: VReg | Reads(op, v) ensures AvailAt(g, v, b, k) {
          AvailAtKept(f, v, b, k);
        }
      }
    }
  }

  lemma DceSingleDef(f: Func)
    requires SingleDef(f)
    ensures SingleDef(DceOnce(f))
  {
    var g := DceOnce(f);
    forall b, k, c, m | g.Has(b, k) && g.Has(c, m) && g.At(b, k).dst.Some? && g.At(b, k).dst == g.At(c, m).dst
      ensures b == c && k == m
    {
      assert f.At(b, Org(f, b, k)).dst == f.At(c, Org(f, c, m)).dst;
      assert b == c;
      OrgOrder(f, b, k, m);
    }
    forall b, k | g.Has(b, k)
      ensures g.At(b, k).dst.Some? ==> g.At(b, k).dst.value !in g.params
      ensures g.At(b, k).op.IsTerminator() || g.At(b, k).op.Print? ==> g.At(b, k).dst.None?
    {
      assert f.Has(b, Org(f, b, k));
    }
  }

  lemma DceInBounds(f: Func)
    requires InBounds(f)
    ensures InBounds(DceOnce(f))
  {
    var g := DceOnce(f);
    forall b, k | g.Has(b, k)
      ensures g.At(b, k).dst.Some? ==> g.At(b, k).dst.value < g.nextVreg
      ensures forall v: VReg :: Reads(g.At(b, k).op, v) ==> v < g.nextVreg
    {
      assert f.Has(b, Org(f, b, k));
    }
  }

  lemma DceAccepts(f: Func)
    requires Accepts(f)
    ensures Accepts(DceOnce(f))
  {
    var g := DceOnce(f);
    forall b: nat | b < |g.blocks| && g.blocks[b] != [] ensures BlockOk(g, g.blocks[b]) {
      var last := |f.blocks[b]| - 1;
      assert BlockOk(f, f.blocks[b]) && g.Has(b, 0) && f.Has(b, last);
      var kl := OrgOnto(f, b, last);
      forall k | 0 <= k < |g.blocks[b]|
        ensures g.blocks[b][k].op.IsTerminator() <==> k == |g.blocks[b]| - 1
        ensures InstOk(g, g.blocks[b][k])
      {
        assert g.Has(b, k) && g.At(b, k) == f.At(b, Org(f, b, k));
        OrgOrder(f, b, k, kl);
        OrgOrder(f, b, |g.blocks[b]| - 1, kl);
        assert InstOk(f, f.blocks[b][Org(f, b, k)]);
      }
    }
  }

  lemma DceLocalOrder(f: Func)
    requires LocalOrder(f)
    ensures LocalOrder(DceOnce(f))
  {
    var g := DceOnce(f);
    forall b, k, m | g.Has(b, k) && g.Has(b, m) && k <= m && !g.At(b, k).op.Phi? && g.At(b, m).dst.Some?
      ensures !Reads(g.At(b, k).op, g.At(b, m).dst.value)
    {
      OrgOrder(f, b, k, m);
      assert f.Has(b, Org(f, b, k)) && f.Has(b, Org(f, b, m));
    }
  }

  lemma DceGraph(f: Func)
    ensures SameGraph(f, DceOnce(f))
  {
    forall b: Label, t: Label ensures Edge(f, b, t) <==> Edge(DceOnce(f), b, t) {
      SameEdges(f, b, t);
    }
  }

  lemma DceOnceSound(f: Func)
    requires Sound(f)
    ensures Sound(DceOnce(f))
  {
    DceStrict(f);
    DceSingleDef(f);
    DceInBounds(f);
    DceAccepts(f);
  }

  // ---- The size goes down ----

  function Count(blocks: seq<Block>): nat {
    if blocks == [] then 0 else |blocks[0]| + Count(blocks[1..])
  }

  lemma {:induction false} CountMonotone(bs: seq<Block>, cs: seq<Block>)
    requires |bs| == |cs| && forall b :: 0 <= b < |bs| ==> |bs[b]| <= |cs[b]|
    ensures Count(bs) <= Count(cs)
    ensures (exists b :: 0 <= b < |bs| && |bs[b]| < |cs[b]|) ==> Count(bs) < Count(cs)
  {
    if bs != [] {
      CountMonotone(bs[1..], cs[1..]);
      if b :| 0 <= b < |bs| && |bs[b]| < |cs[b]| {
        if b > 0 { assert |bs[1..][b - 1]| < |cs[1..][b - 1]|; }
      }
    }
  }

  /** A round that drops anything makes the function smaller; one that does not leaves it
      as it was. */
  lemma RoundShrinks(f: Func)
    ensures NothingRemovable(f) ==> DceOnce(f) == f
    ensures !NothingRemovable(f) ==> Count(DceOnce(f).blocks) < Count(f.blocks)
  {
    var g := DceOnce(f);
    forall b | 0 <= b < |f.blocks|
      ensures |g.blocks[b]| <= |f.blocks[b]|
      ensures NothingRemovable(f) ==> g.blocks[b] == f.blocks[b]
    {
      FilterLength(f, f.blocks[b], 0);
      assert NothingRemovable(f) ==> forall j :: 0 <= j < |f.blocks[b]| ==> f.Has(b, j) && f.At(b, j) == f.blocks[b][j];
      assert f.blocks[b][0..] == f.blocks[b];
    }
    CountMonotone(g.blocks, f.blocks);
    if !NothingRemovable(f) {
      var b, i :| f.Has(b, i) && !Kept(f, f.At(b, i));
      FilterLength(f, f.blocks[b], 0);
      assert |g.blocks[b]| < |f.blocks[b]|;
    }
  }

  // ---- The pass ----

  ghost predicate Marks(f: Func, used: seq<bool>) {
    |used| == f.nextVreg && forall v :: 0 <= v < |used| ==> (used[v] <==> Used(f, v))
  }

  /** After marking the operands of the instructions before (b, i). */
  ghost predicate MarkedUpTo(f: Func, used: seq<bool>, b: int, i: int) {
    |used| == f.nextVreg
    && forall v: VReg :: v < |used| ==> (used[v] <==> ReadBefore(f, v, b, i))
  }

  ghost predicate ReadBefore(f: Func, v: VReg, b: int, i: int) {
    exists c, j :: f.Has(c, j) && (c < b || (c == b && j < i)) && Reads(f.At(c, j).op, v)
  }

  method MarkOperands(op: Op, used: array<bool>)
    requires forall v: VReg :: Reads(op, v) ==> v < used.Length
    modifies used
    ensures forall v: VReg :: v < used.Length ==> (used[v] <==> old(used[v]) || Reads(op, v))
  {
    match op {
      case Binop(_, l, r) =>
        assert Reads(op, l) && Reads(op, r);
        used[l] := true;
        used[r] := true;
      case Unop(_, x) =>
        assert Reads(op, x);
        used[x] := true;
      case Cmp(_, l, r) =>
        assert Reads(op, l) && Reads(op, r);
        used[l] := true;
        used[r] := true;
      case Gep(p, _) =>
        assert Reads(op, p);
        used[p] := true;
      case Branch(c, _, _) =>
        assert Reads(op, c);
        used[c] := true;
      case Call(_, actuals) =>
        for k := 0 to |actuals|
          invariant forall v: VReg :: v < used.Length ==> (used[v] <==> old(used[v]) || v in actuals[..k])
        {
          assert Reads(op, actuals[k]);
          used[actuals[k]] := true;
          assert actuals[..k + 1] == actuals[..k] + [actuals[k]];
        }
        assert actuals[..|actuals|] == actuals;
      case Ret(x) =>
        if x.Some? {
          assert Reads(op, x.value);
          used[x.value] := true;
        }
      case Phi(args) =>
        for k := 0 to |args|
          invariant forall v: VReg :: v < used.Length ==> (used[v] <==> old(used[v]) || exists j :: 0 <= j < k && args[j].src == v)
        {
          assert Reads(op, args[k].src);
          used[args[k].src] := true;
        }
      case Print(x) =>
        assert Reads(op, x);
        used[x] := true;
      case Const(_) =>
      case Jump(_) =>
    }
  }

  method MarkUsed(func: SsaFunc, used: array<bool>)
    requires InBounds(func.Value()) && used.Length == func.nextVreg
    modifies used
    ensures Marks(func.Value(), used[..])
  {
    ghost var f := func.Value();
    for v := 0 to used.Length
      invariant forall u :: 0 <= u < v ==> !used[u]
    {
      used[v] := false;
    }
    for b := 0 to |func.blocks|
      invariant MarkedUpTo(f, used[..], b, 0)
    {
      for i := 0 to |func.blocks[b]|
        invariant MarkedUpTo(f, used[..], b, i)
      {
        assert f.Has(b, i) && f.At(b, i) == func.blocks[b][i];
        ghost var before := used[..];
        MarkOperands(func.blocks[b][i].op, used);
        MarkStep(f, before, used[..], b, i);
      }
      assert forall v: VReg :: ReadBefore(f, v, b, |func.blocks[b]|) <==> ReadBefore(f, v, b + 1, 0);
    }
    assert forall v: VReg :: ReadBefore(f, v, |f.blocks|, 0) ==> Used(f, v);
    assert forall v: VReg :: Used(f, v) && v !in f.params ==> ReadBefore(f, v, |f.blocks|, 0);
    for p := 0 to |func.params|
      invariant forall v: VReg :: v < used.Length ==> (used[v] <==> ReadBefore(f, v, |f.blocks|, 0) || v in func.params[..p])
    {
      assert func.params[p] in func.params;
      used[func.params[p]] := true;
      assert func.params[..p + 1] == func.params[..p] + [func.params[p]];
    }
    assert func.params[..|func.params|] == func.params;
  }

  lemma MarkStep(f: Func, before: seq<bool>, after: seq<bool>, b: nat, i: nat)
    requires f.Has(b, i) && MarkedUpTo(f, before, b, i) && |after| == |before|
    requires forall v: VReg :: v < |after| ==> (after[v] <==> before[v] || Reads(f.At(b, i).op, v))
    ensures MarkedUpTo(f, after, b, i + 1)
  {
    forall v: VReg | v < |after| ensures after[v] <==> ReadBefore(f, v, b, i + 1) {
      if ReadBefore(f, v, b, i + 1) {
        var c, j :| f.Has(c, j) && (c < b || (c == b && j < i + 1)) && Reads(f.At(c, j).op, v);
        assert (c == b && j == i) || ReadBefore(f, v, b, i);
      }
    }
  }

  /** Compact one block behind a write index. */
  method Compact(ghost f: Func, b: Block, used: array<bool>) returns (b': Block, dropped: bool)
    requires Marks(f, used[..])
    requires forall i :: 0 <= i < |b| && b[i].dst.Some? ==> b[i].dst.value < used.Length
    ensures b' == Filter(f, b, 0)
    ensures dropped <==> exists i :: 0 <= i < |b| && !Kept(f, b[i])
  {
    hide *;
    var insts := b;
    var write := 0;
    dropped := false;
    NoneDropped(f, b);
    assert insts[..write] == [];
    for i := 0 to |b|
      invariant write <= i && |insts| == |b| && insts[i..] == b[i..]
      invariant insts[..write] + Filter(f, b, i) == Filter(f, b, 0)
      invariant dropped <==> AnyDropped(f, b, i)
    {
      AnyNext(f, b, i);
      FilterNext(f, b, i);
      SameAt(insts, b, i);
      var inst := insts[i];
      KeepIs(f, used[..], inst);
      var keep := HasSideEffects(inst.op) || inst.dst.None? || used[inst.dst.value];
      ghost var before := insts;
      if keep {
        if write != i {
          insts := insts[write := inst];
        }
        TakenBack(before, insts, write, i);
        Shift(before[..write], b[i], Filter(f, b, i + 1));
        write := write + 1;
      } else {
        dropped := true;
      }
      Later(before, insts, b, if keep then write - 1 else write, i);
    }
    b' := insts[..write];
    FilterEnd(f, b);
    AnyAll(f, b);
  }

  lemma NoneDropped(f: Func, b: Block)
    ensures !AnyDropped(f, b, 0)
  {
  }

  lemma AnyAll(f: Func, b: Block)
    ensures AnyDropped(f, b, |b|) <==> exists i :: 0 <= i < |b| && !Kept(f, b[i])
  {
    hide Kept;
  }

  lemma SameAt(insts: Block, b: Block, i: nat)
    requires i < |b| == |insts| && insts[i..] == b[i..]
    ensures insts[i] == b[i]
  {
    assert insts[i..][0] == b[i..][0];
  }

  lemma KeepIs(f: Func, used: seq<bool>, inst: Inst)
    requires Marks(f, used) && (inst.dst.Some? ==> inst.dst.value < |used|)
    ensures (HasSideEffects(inst.op) || inst.dst.None? || used[inst.dst.value]) <==> Kept(f, inst)
  {
    hide HasSideEffects, Used;
  }

  /** One instruction behind the write index. */
  lemma TakenBack(before: Block, insts: Block, write: nat, i: nat)
    requires write <= i < |before| && insts == if write != i then before[write := before[i]] else before
    ensures insts[..write + 1] == before[..write] + [before[i]]
  {
  }

  lemma Shift(front: Block, inst: Inst, rest: Block)
    ensures front + ([inst] + rest) == (front + [inst]) + rest
  {
  }

  lemma Later(before: Block, insts: Block, b: Block, write: nat, i: nat)
    requires write <= i < |before| == |b| && before[i..] == b[i..]
    requires insts == before || insts == before[write := before[i]]
    ensures |insts| == |b| && insts[i + 1..] == b[i + 1..]
  {
    assert before[i + 1..] == before[i..][1..] == b[i..][1..] == b[i + 1..];
    assert insts[i + 1..] == before[i + 1..];
  }

  ghost predicate AnyDropped(f: Func, b: Block, n: nat) {
    exists j :: 0 <= j < n && j < |b| && !Kept(f, b[j])
  }

  lemma AnyNext(f: Func, b: Block, i: nat)
    requires i < |b|
    ensures AnyDropped(f, b, i + 1) <==> AnyDropped(f, b, i) || !Kept(f, b[i])
  {
    hide Kept;
  }

  lemma FilterNext(f: Func, b: Block, i: nat)
    requires i < |b|
    ensures Filter(f, b, i) == if Kept(f, b[i]) then [b[i]] + Filter(f, b, i + 1) else Filter(f, b, i + 1)
  {
    hide Kept;
  }

  lemma FilterEnd(f: Func, b: Block)
    ensures Filter(f, b, |b|) == []
  {
  }

  ghost predicate RoundAt(f: Func, blocks: seq<Block>, b: nat) {
    && |blocks| == |f.blocks|
    && (forall c :: 0 <= c < b && c < |blocks| ==> blocks[c] == Filter(f, f.blocks[c], 0))
    && (forall c :: b <= c < |blocks| ==> blocks[c] == f.blocks[c])
  }

  method Round(func: SsaFunc, used: array<bool>) returns (changed: bool)
    requires InBounds(func.Value()) && used.Length == func.nextVreg
    modifies func, used
    ensures func.Value() == DceOnce(old(func.Value()))
    ensures changed <==> !NothingRemovable(old(func.Value()))
  {
    ghost var f := func.Value();
    MarkUsed(func, used);
    changed := false;
    for b := 0 to |func.blocks|
      invariant RoundAt(f, func.blocks, b) && Marks(f, used[..])
      invariant changed <==> exists c, i :: f.Has(c, i) && c < b && !Kept(f, f.At(c, i))
    {
      assert forall i :: 0 <= i < |f.blocks[b]| ==> f.Has(b, i) && f.At(b, i) == f.blocks[b][i];
      var compacted, dropped := Compact(f, func.blocks[b], used);
      func.blocks := func.blocks[b := compacted];
      changed := changed || dropped;
    }
    assert func.blocks == DceOnce(f).blocks;
  }

  const MAX_ITERATIONS := 10

  ghost function DceIter(f: Func, n: nat): Func {
    if n == 0 then f else DceOnce(DceIter(f, n - 1))
  }

  lemma {:induction false} DceIterCorrect(f: Func, n: nat)
    ensures Refines(f, DceIter(f, n))
    ensures Sound(f) ==> Sound(DceIter(f, n))
    ensures InBounds(f) ==> InBounds(DceIter(f, n))
    ensures LocalOrder(f) ==> LocalOrder(DceIter(f, n))
    ensures AllReachable(f) ==> AllReachable(DceIter(f, n))
  {
    hide *;
    if n == 0 {
      assert DceIter(f, n) == f by { DceIterZero(f); }
      RefinesReflexive(f);
    } else {
      DceIterCorrect(f, n - 1);
      var g := DceIter(f, n - 1);
      assert DceIter(f, n) == DceOnce(g) by { DceIterSucc(f, n); }
      DceOncePreserves(g);
      RefinesTransitive(f, g, DceOnce(g));
      if Sound(g) { DceOnceSound(g); }
      if InBounds(g) { DceInBounds(g); }
      if LocalOrder(g) { DceLocalOrder(g); }
      if AllReachable(g) { DceGraph(g); SameGraphReachable(g, DceOnce(g)); }
    }
  }

  lemma DceIterZero(f: Func)
    ensures DceIter(f, 0) == f
  {
  }

  lemma DceIterSucc(f: Func, n: nat)
    requires n > 0
    ensures DceIter(f, n) == DceOnce(DceIter(f, n - 1))
  {
  }

  /** Every result that is merely computed is read by somebody. */
  ghost predicate NothingDead(f: Func) {
    forall b, i :: f.Has(b, i) ==> Alive(f, f.At(b, i))
  }

  ghost predicate Alive(f: Func, inst: Inst) {
    match inst.op
    case Const(_) => inst.dst.Some? ==> Used(f, inst.dst.value)
    case Binop(_, _, _) => inst.dst.Some? ==> Used(f, inst.dst.value)
    case Unop(_, _) => inst.dst.Some? ==> Used(f, inst.dst.value)
    case Cmp(_, _, _) => inst.dst.Some? ==> Used(f, inst.dst.value)
    case Gep(_, _) => inst.dst.Some? ==> Used(f, inst.dst.value)
    case Phi(_) => inst.dst.Some? ==> Used(f, inst.dst.value)
    case _ => true
  }

  lemma NoneRemovableAlive(f: Func)
    requires NothingRemovable(f)
    ensures NothingDead(f)
  {
    hide Used;
    forall b, i | f.Has(b, i) ensures Alive(f, f.At(b, i)) {
      assert Kept(f, f.At(b, i));
    }
  }

  /** The pass stops with nothing removable left, unless ten rounds each found something. */
  method OptDce(func: SsaFunc)
    requires InBounds(func.Value())
    modifies func
    ensures exists n: nat :: n <= 10 && func.Value() == DceIter(old(func.Value()), n)
    ensures NothingRemovable(func.Value()) || Count(func.Value().blocks) + 10 <= Count(old(func.Value()).blocks)
    ensures NothingDead(func.Value()) || Count(func.Value().blocks) + 10 <= Count(old(func.Value()).blocks)
  {
    ghost var f := func.Value();
    assert f == DceIter(f, 0);
    if func.nextVreg == 0 {
      return;
    }
    var used := new bool[func.nextVreg];
    var changed, iterations := true, 0;
    while changed && iterations < MAX_ITERATIONS
      invariant iterations <= MAX_ITERATIONS
      invariant func.Value() == DceIter(f, iterations) && InBounds(func.Value())
      invariant func.nextVreg == used.Length
      invariant changed ==> Count(func.blocks) + iterations <= Count(f.blocks)
      invariant !changed ==> NothingRemovable(func.Value())
      decreases MAX_ITERATIONS - iterations
    {
      ghost var g := func.Value();
      changed := Round(func, used);
      RoundShrinks(g);
      DceInBounds(g);
      iterations := iterations + 1;
    }
    if !changed {
      NoneRemovableAlive(func.Value());
    }
  }
}
