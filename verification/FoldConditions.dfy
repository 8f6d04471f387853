/** Exactly when the constant folder's identity arms stay out of a run
    (src/opt_constfold.c:57-128), told from the input alone. */
module FoldConditions {
  import opened Wrappers
  import opened Word64
  import opened Ssa
  import opened SsaVerify
  import opened ConstFold

  // ---- What is known, visit by visit ----

  /** (c, j) is visited before (b, i) in a sweep. */
  predicate Before(c: nat, j: nat, b: nat, i: nat) {
    c < b || (c == b && j < i)
  }

  ghost predicate Defines(f: Func, c: nat, j: nat, v: VReg) {
    f.Has(c, j) && f.At(c, j).dst == Some(v)
  }

  /** The constant that instruction (c, j) has become after `k` sweeps have visited it: its own,
      or the folded value once its operands are known at a visit. */
  ghost function ValAt(f: Func, k: nat, c: nat, j: nat): Option<Int64>
    requires f.Has(c, j)
    decreases k, c, j, 1
  {
    if f.At(c, j).op.Const? then Some(f.At(c, j).op.value)
    else if k == 0 then None
    else
      match f.At(c, j).op
      case Binop(kind, l, r) =>
        if Known(f, k, c, j, l).Some? && Known(f, k, c, j, r).Some?
        then Some(FoldedBinop(kind, Known(f, k, c, j, l).value, Known(f, k, c, j, r).value)) else None
      case Cmp(kind, l, r) =>
        if Known(f, k, c, j, l).Some? && Known(f, k, c, j, r).Some?
        then Some(EvalCmp(kind, Known(f, k, c, j, l).value, Known(f, k, c, j, r).value)) else None
      case Unop(kind, x) =>
        if Known(f, k, c, j, x).Some? then Some(EvalUnop(kind, Known(f, k, c, j, x).value)) else None
      case _ => None
  }

  /** The constant that register `v` is known to be when sweep `k` comes to (b, i).  What stands
      before (b, i) has been visited `k` times, the rest once less. */
  ghost function Known(f: Func, k: nat, b: nat, i: nat, v: VReg): Option<Int64>
    requires k > 0 && f.Has(b, i)
    decreases k, b, i, 0
  {
    if exists c: nat, j: nat :: Defines(f, c, j, v) then
      var c: nat, j: nat :| Defines(f, c, j, v);
      if Before(c, j, b, i) then ValAt(f, k, c, j) else ValAt(f, k - 1, c, j)
    else None
  }

  /** Sweep `k` comes to x + 0, x - 0 or x * 1 at (b, i) with x unknown. */
  ghost predicate BadVisit(f: Func, k: nat, b: nat, i: nat) {
    && k > 0 && f.Has(b, i) && f.At(b, i).op.Binop?
    && var op := f.At(b, i).op;
       && Known(f, k, b, i, op.lhs).None?
       && Known(f, k, b, i, op.rhs) == Some(if op.bkind.Mul? then 1 else 0)
       && (op.bkind.Add? || op.bkind.Sub? || op.bkind.Mul?)
  }

  /** No sweep of the pass does. */
  ghost predicate FoldSafe(f: Func) {
    forall k: nat, b: nat, i: nat :: k <= MAX_ITERATIONS ==> !BadVisit(f, k, b, i)
  }

  lemma OneDef(f: Func, v: VReg, c: nat, j: nat, d: nat, k: nat)
    requires SingleDef(f) && Defines(f, c, j, v) && Defines(f, d, k, v)
    ensures c == d && j == k
  {
  }

  lemma KnownIs(f: Func, k: nat, b: nat, i: nat, v: VReg, c: nat, j: nat)
    requires SingleDef(f) && k > 0 && f.Has(b, i) && Defines(f, c, j, v)
    ensures Known(f, k, b, i, v) == ValAt(f, if Before(c, j, b, i) then k else k - 1, c, j)
  {
    var c': nat, j': nat :| Defines(f, c', j', v) && Known(f, k, b, i, v) == if Before(c', j', b, i) then ValAt(f, k, c', j') else ValAt(f, k - 1, c', j');
    OneDef(f, v, c, j, c', j');
  }

  // ---- What is known stays known ----

  lemma {:induction false} ValStays(f: Func, k: nat, c: nat, j: nat)
    requires SingleDef(f) && f.Has(c, j)
    ensures ValAt(f, k, c, j).Some? ==> ValAt(f, k + 1, c, j) == ValAt(f, k, c, j)
    decreases k, c, j, 1
  {
    if k > 0 {
      forall v: VReg ensures Known(f, k, c, j, v).Some? ==> Known(f, k + 1, c, j, v) == Known(f, k, c, j, v) {
        KnownStays(f, k, c, j, v);
      }
    }
  }

  lemma {:induction false} KnownStays(f: Func, k: nat, b: nat, i: nat, v: VReg)
    requires SingleDef(f) && k > 0 && f.Has(b, i)
    ensures Known(f, k, b, i, v).Some? ==> Known(f, k + 1, b, i, v) == Known(f, k, b, i, v)
    decreases k, b, i, 0
  {
    if c: nat, j: nat :| Defines(f, c, j, v) {
      KnownIs(f, k, b, i, v, c, j);
      KnownIs(f, k + 1, b, i, v, c, j);
      ValStays(f, if Before(c, j, b, i) then k else k - 1, c, j);
    }
  }

  // ---- The pass knows just that ----

  ghost function Held(f: Func, n: nat, c: nat, j: nat): Inst
    requires f.Has(c, j)
  {
    match ValAt(f, n, c, j)
    case Some(x) => Inst(f.At(c, j).dst, Const(x))
    case None => f.At(c, j)
  }

  function Visits(k: nat, b: nat, i: nat, c: nat, j: nat): nat
    requires k > 0
  {
    if Before(c, j, b, i) then k else k - 1
  }

  /** The function as sweep `k` comes to (b, i). */
  ghost predicate Tracks(f: Func, g: Func, k: nat, b: nat, i: nat)
    requires k > 0
  {
    && SameShape(f, g)
    && forall c: nat, j: nat :: f.Has(c, j) ==> g.At(c, j) == Held(f, Visits(k, b, i, c, j), c, j)
  }

  lemma FindKnown(f: Func, g: Func, k: nat, b: nat, i: nat, v: VReg)
    requires SingleDef(f) && k > 0 && f.Has(b, i) && Tracks(f, g, k, b, i)
    ensures FindConst(g, v) == Known(f, k, b, i, v)
  {
    KnownIsConst(f, g, k, b, i, v);
    if x :| ConstDef(g, v, x) {
      var c: nat, j: nat :| g.Has(c, j) && g.At(c, j) == Inst(Some(v), Const(x));
      FindAt(f, g, k, b, i, v, c, j);
      forall y | ConstDef(g, v, y) ensures y == x {
        var d: nat, l: nat :| g.Has(d, l) && g.At(d, l) == Inst(Some(v), Const(y));
        FindAt(f, g, k, b, i, v, d, l);
      }
    }
  }

  lemma KnownIsConst(f: Func, g: Func, k: nat, b: nat, i: nat, v: VReg)
    requires SingleDef(f) && k > 0 && f.Has(b, i) && Tracks(f, g, k, b, i)
    ensures Known(f, k, b, i, v).Some? ==> ConstDef(g, v, Known(f, k, b, i, v).value)
  {
    if Known(f, k, b, i, v).Some? {
      var c: nat, j: nat :| Defines(f, c, j, v);
      KnownIs(f, k, b, i, v, c, j);
      assert g.At(c, j) == Inst(Some(v), Const(Known(f, k, b, i, v).value));
    }
  }

  lemma FindAt(f: Func, g: Func, k: nat, b: nat, i: nat, v: VReg, c: nat, j: nat)
    requires SingleDef(f) && k > 0 && f.Has(b, i) && Tracks(f, g, k, b, i)
    requires g.Has(c, j) && g.At(c, j).dst == Some(v) && g.At(c, j).op.Const?
    ensures Known(f, k, b, i, v) == Some(g.At(c, j).op.value)
  {
    assert f.Has(c, j) && g.At(c, j) == Held(f, Visits(k, b, i, c, j), c, j);
    assert Defines(f, c, j, v);
    KnownIs(f, k, b, i, v, c, j);
  }

  /** What one visit finds and leaves. */
  lemma VisitIs(f: Func, g: Func, k: nat, b: nat, i: nat)
    requires SingleDef(f) && k > 0 && f.Has(b, i) && Tracks(f, g, k, b, i)
    ensures var op := g.At(b, i).op;
            && (IdentityArm(g, op) <==> BadVisit(f, k, b, i))
            && (ConstantArm(g, op) <==> ValAt(f, k, b, i) != ValAt(f, k - 1, b, i))
            && (!IdentityArm(g, op) ==> g.At(b, i).(op := FoldOp(g, op)) == Held(f, k, b, i))
  {
    var op := f.At(b, i).op;
    assert g.At(b, i) == Held(f, k - 1, b, i);
    ValStays(f, k - 1, b, i);
    match op {
      case Binop(_, l, r) => FindKnown(f, g, k, b, i, l); FindKnown(f, g, k, b, i, r);
      case Cmp(_, l, r) => FindKnown(f, g, k, b, i, l); FindKnown(f, g, k, b, i, r);
      case Unop(_, x) => FindKnown(f, g, k, b, i, x);
      case _ =>
    }
    if ValAt(f, k - 1, b, i).Some? && op.Binop? && k > 1 {
      KnownStays(f, k - 1, b, i, op.lhs);
    }
  }

  // ---- One sweep ----

  ghost predicate BadBefore(f: Func, k: nat, b: nat, i: nat) {
    exists m: nat, c: nat, j: nat :: (m < k || (m == k && Before(c, j, b, i))) && BadVisit(f, m, c, j)
  }

  /** Sweep `k` has found something new before (b, i). */
  ghost predicate Grew(f: Func, k: nat, b: nat, i: nat)
    requires k > 0
  {
    exists c: nat, j: nat :: f.Has(c, j) && Before(c, j, b, i) && ValAt(f, k, c, j) != ValAt(f, k - 1, c, j)
  }

  /** The pass, having come to (b, i) in sweep `k`. */
  ghost predicate Abreast(f: Func, s: Sweep, k: nat, b: nat, i: nat)
    requires k > 0
  {
    && SameShape(f, s.func)
    && (s.clean <==> !BadBefore(f, k, b, i))
    && (s.clean ==> Tracks(f, s.func, k, b, i) && (s.changed <==> Grew(f, k, b, i)))
  }

  lemma BadNext(f: Func, k: nat, b: nat, i: nat)
    ensures BadBefore(f, k, b, i + 1) <==> BadBefore(f, k, b, i) || BadVisit(f, k, b, i)
  {
    hide BadVisit;
  }

  lemma GrewNext(f: Func, k: nat, b: nat, i: nat)
    requires k > 0 && f.Has(b, i)
    ensures Grew(f, k, b, i + 1) <==> Grew(f, k, b, i) || ValAt(f, k, b, i) != ValAt(f, k - 1, b, i)
  {
    hide ValAt;
  }

  lemma TracksNext(f: Func, g: Func, g': Func, k: nat, b: nat, i: nat)
    requires k > 0 && f.Has(b, i) && Tracks(f, g, k, b, i)
    requires g' == g.(blocks := g.blocks[b := g.blocks[b][i := Held(f, k, b, i)]])
    ensures Tracks(f, g', k, b, i + 1)
  {
    hide Held;
    forall c: nat, j: nat | f.Has(c, j) ensures g'.At(c, j) == Held(f, Visits(k, b, i + 1, c, j), c, j) {
      assert g.At(c, j) == Held(f, Visits(k, b, i, c, j), c, j);
    }
  }

  lemma StepAbreast(f: Func, s: Sweep, k: nat, b: nat, i: nat)
    requires SingleDef(f) && k > 0 && f.Has(b, i) && Abreast(f, s, k, b, i)
    ensures Abreast(f, SweepStep(s, b, i), k, b, i + 1)
  {
    hide SingleDef, Tracks, IdentityArm, ConstantArm, FoldOp, BadBefore, Grew, BadVisit, ValAt, Held;
    BadNext(f, k, b, i);
    GrewNext(f, k, b, i);
    if s.clean {
      VisitIs(f, s.func, k, b, i);
      if !BadVisit(f, k, b, i) {
        TracksNext(f, s.func, FoldAt(s.func, b, i), k, b, i);
      }
    }
  }

  lemma {:induction false} BlockAbreast(f: Func, s: Sweep, k: nat, b: nat, i: nat)
    requires SingleDef(f) && k > 0 && b < |f.blocks| && i <= |f.blocks[b]| && Abreast(f, s, k, b, 0)
    ensures Abreast(f, SweepBlock(s, b, i), k, b, i)
  {
    hide SweepStep, SingleDef, Tracks, BadBefore, Grew;
    if i > 0 {
      BlockAbreast(f, s, k, b, i - 1);
      StepAbreast(f, SweepBlock(s, b, i - 1), k, b, i - 1);
    }
  }

  /** The end of a block, and the end of a sweep. */
  lemma EndOfBlock(f: Func, s: Sweep, k: nat, b: nat)
    requires k > 0 && b < |f.blocks| && Abreast(f, s, k, b, |f.blocks[b]|)
    ensures Abreast(f, s, k, b + 1, 0)
  {
    hide BadVisit, ValAt, Held;
    forall c: nat, j: nat | f.Has(c, j) ensures Before(c, j, b, |f.blocks[b]|) <==> Before(c, j, b + 1, 0) {
    }
    BadEnd(f, k, b);
  }

  lemma BadEnd(f: Func, k: nat, b: nat)
    requires b < |f.blocks|
    ensures BadBefore(f, k, b, |f.blocks[b]|) <==> BadBefore(f, k, b + 1, 0)
  {
    forall m: nat, c: nat, j: nat | BadVisit(f, m, c, j) ensures Before(c, j, b, |f.blocks[b]|) <==> Before(c, j, b + 1, 0) {
    }
    hide BadVisit;
  }

  lemma {:induction false} SweepAbreast(f: Func, s: Sweep, k: nat, b: nat)
    requires SingleDef(f) && k > 0 && b <= |f.blocks| && Abreast(f, s, k, 0, 0)
    ensures Abreast(f, SweepTo(s, b), k, b, 0)
  {
    hide SingleDef, Abreast, SweepBlock;
    SameSizes(f, s, k, 0);
    if b > 0 {
      SweepAbreast(f, s, k, b - 1);
      var t := SweepTo(s, b - 1);
      SameSizes(f, t, k, b - 1);
      BlockAbreast(f, t, k, b - 1, |f.blocks[b - 1]|);
      EndOfBlock(f, SweepBlock(t, b - 1, |f.blocks[b - 1]|), k, b - 1);
    }
  }

  lemma SameSizes(f: Func, s: Sweep, k: nat, b: nat)
    requires k > 0 && Abreast(f, s, k, b, 0)
    ensures SameShape(f, s.func)
  {
  }

  // ---- From sweep to sweep ----

  lemma EndOfSweep(f: Func, s: Sweep, k: nat)
    requires k > 0 && Abreast(f, s, k, |f.blocks|, 0)
    ensures Abreast(f, s.(changed := false), k + 1, 0, 0)
  {
    hide ValAt, Held;
    forall c: nat, j: nat | f.Has(c, j) ensures Before(c, j, |f.blocks|, 0) && !Before(c, j, 0, 0) {
    }
    BadSweep(f, k);
  }

  lemma BadSweep(f: Func, k: nat)
    ensures BadBefore(f, k, |f.blocks|, 0) <==> BadBefore(f, k + 1, 0, 0)
  {
    forall m: nat, c: nat, j: nat | BadVisit(f, m, c, j) ensures Before(c, j, |f.blocks|, 0) && !Before(c, j, 0, 0) {
    }
    hide BadVisit;
  }

  /** Sweep `k` has learnt nothing. */
  ghost predicate Settled(f: Func, k: nat)
    requires k > 0
  {
    forall c: nat, j: nat :: f.Has(c, j) ==> ValAt(f, k, c, j) == ValAt(f, k - 1, c, j)
  }

  lemma {:induction false} SettledVal(f: Func, k: nat, m: nat, c: nat, j: nat)
    requires SingleDef(f) && k > 0 && Settled(f, k) && m >= k - 1 && f.Has(c, j)
    ensures ValAt(f, m, c, j) == ValAt(f, k, c, j)
    decreases m, c, j, 1
  {
    if m >= k {
      forall v: VReg ensures Known(f, m, c, j, v) == Known(f, k, c, j, v) {
        SettledKnown(f, k, m, c, j, v);
      }
    }
  }

  lemma {:induction false} SettledKnown(f: Func, k: nat, m: nat, b: nat, i: nat, v: VReg)
    requires SingleDef(f) && k > 0 && Settled(f, k) && m >= k && f.Has(b, i)
    ensures Known(f, m, b, i, v) == Known(f, k, b, i, v)
    decreases m, b, i, 0
  {
    if c: nat, j: nat :| Defines(f, c, j, v) {
      KnownIs(f, k, b, i, v, c, j);
      KnownIs(f, m, b, i, v, c, j);
      SettledVal(f, k, if Before(c, j, b, i) then m else m - 1, c, j);
    }
  }

  /** Sweeps after one that learnt nothing go the same way. */
  lemma SettledBad(f: Func, k: nat, m: nat, b: nat, i: nat)
    requires SingleDef(f) && k > 0 && Settled(f, k) && m >= k
    ensures BadVisit(f, m, b, i) <==> BadVisit(f, k, b, i)
  {
    if f.Has(b, i) && f.At(b, i).op.Binop? {
      SettledKnown(f, k, m, b, i, f.At(b, i).op.lhs);
      SettledKnown(f, k, m, b, i, f.At(b, i).op.rhs);
    }
  }

  ghost predicate BadFrom(f: Func, k: nat, n: nat) {
    exists m: nat, b: nat, i: nat :: k <= m < k + n && BadVisit(f, m, b, i)
  }

  lemma {:induction false} SweepsAbreast(f: Func, s: Sweep, k: nat, n: nat)
    requires SingleDef(f) && k > 0 && Abreast(f, s, k, 0, 0) && !s.changed
    ensures Sweeps(s.func, s.clean, n).clean <==> !BadBefore(f, k, 0, 0) && !BadFrom(f, k, n)
    decreases n
  {
    hide *;
    if n == 0 {
      NoSweeps(f, s, k);
    } else {
      SameSizes(f, s, k, 0);
      var t := SweepTo(s, |f.blocks|);
      SweepAbreast(f, s, k, |f.blocks|);
      BadSplit(f, k, n);
      NextSweeps(s, t, n);
      BadSweep(f, k);
      if t.changed {
        EndOfSweep(f, t, k);
        SweepsAbreast(f, t.(changed := false), k + 1, n - 1);
      } else {
        CleanIs(f, t, k);
        if t.clean {
          QuietSweep(f, k, n);
        }
      }
    }
  }

  lemma NoSweeps(f: Func, s: Sweep, k: nat)
    requires k > 0 && Abreast(f, s, k, 0, 0)
    ensures Sweeps(s.func, s.clean, 0).clean <==> !BadBefore(f, k, 0, 0)
    ensures !BadFrom(f, k, 0)
  {
  }

  lemma NextSweeps(s: Sweep, t: Sweep, n: nat)
    requires n > 0 && !s.changed && t == SweepTo(s, |s.func.blocks|)
    ensures Sweeps(s.func, s.clean, n) == if t.changed then Sweeps(t.func, t.clean, n - 1) else t
  {
    hide SweepTo;
    assert s == Sweep(s.func, false, s.clean);
  }

  lemma CleanIs(f: Func, t: Sweep, k: nat)
    requires k > 0 && Abreast(f, t, k, |f.blocks|, 0)
    ensures t.clean <==> !BadBefore(f, k, |f.blocks|, 0)
    ensures t.clean && !t.changed ==> !Grew(f, k, |f.blocks|, 0)
  {
  }

  /** After a sweep that learnt nothing, no later one would take an identity arm. */
  lemma QuietSweep(f: Func, k: nat, n: nat)
    requires SingleDef(f) && k > 0 && n > 0 && !Grew(f, k, |f.blocks|, 0) && !BadBefore(f, k, |f.blocks|, 0)
    ensures !BadFrom(f, k + 1, n - 1)
  {
    hide SingleDef, BadVisit, Grew, Settled, BadBefore;
    NotGrown(f, k);
    if m: nat, b: nat, i: nat :| k + 1 <= m < k + n && BadVisit(f, m, b, i) {
      SettledBad(f, k, m, b, i);
      BadAtEnd(f, k, b, i);
    }
  }

  lemma NotGrown(f: Func, k: nat)
    requires k > 0 && !Grew(f, k, |f.blocks|, 0)
    ensures Settled(f, k)
  {
    hide ValAt;
    forall c: nat, j: nat | f.Has(c, j) ensures ValAt(f, k, c, j) == ValAt(f, k - 1, c, j) {
      assert Before(c, j, |f.blocks|, 0);
    }
  }

  lemma BadAtEnd(f: Func, k: nat, b: nat, i: nat)
    requires BadVisit(f, k, b, i)
    ensures BadBefore(f, k, |f.blocks|, 0)
  {
    assert Before(b, i, |f.blocks|, 0);
    hide BadVisit;
  }

  lemma BadSplit(f: Func, k: nat, n: nat)
    requires n > 0
    ensures BadBefore(f, k, 0, 0) || BadFrom(f, k, n) <==> BadBefore(f, k + 1, 0, 0) || BadFrom(f, k + 1, n - 1)
  {
    hide BadVisit;
    if m: nat, b: nat, i: nat :| k <= m < k + n && BadVisit(f, m, b, i) {
      if m == k {
        assert BadBefore(f, k + 1, 0, 0);
      } else {
        assert BadFrom(f, k + 1, n - 1);
      }
    }
    if m: nat, b: nat, i: nat :| k + 1 <= m < k + n && BadVisit(f, m, b, i) {
      assert BadFrom(f, k, n);
    }
    if m: nat, c: nat, j: nat :| m < k + 1 && BadVisit(f, m, c, j) {
      if m == k { assert BadFrom(f, k, n); } else { assert BadBefore(f, k, 0, 0); }
    }
  }

  /** The identity arms stay out of the run exactly when no sweep comes to x + 0, x - 0 or
      x * 1 with x unknown. */
  lemma CleanExact(f: Func)
    requires SingleDef(f)
    ensures Clean(f) <==> FoldSafe(f)
  {
    var s := Sweep(f, false, true);
    assert Abreast(f, s, 1, 0, 0) by { StartAbreast(f); }
    SweepsAbreast(f, s, 1, MAX_ITERATIONS);
    hide BadVisit;
  }

  lemma StartAbreast(f: Func)
    requires SingleDef(f)
    ensures Abreast(f, Sweep(f, false, true), 1, 0, 0)
  {
    forall m: nat, c: nat, j: nat | m < 1 ensures !BadVisit(f, m, c, j) {
    }
    forall c: nat, j: nat | f.Has(c, j) ensures f.At(c, j) == Held(f, Visits(1, 0, 0, c, j), c, j) {
    }
  }

  /** The folder keeps meaning on every input that is safe in this sense. */
  lemma SafeFoldCorrect(f: Func)
    requires SingleDef(f) && InBounds(f) && FoldSafe(f)
    ensures Refines(f, FoldFunc(f))
  {
    CleanExact(f);
    FoldCorrect(f);
  }

  // ---- A program that is not safe ----

  /** Returns x + 0, x - 0 or x * 1 for its argument x. */
  function IdentityProgram(kind: BinOpKind): Func {
    Func([IdentityBlock(kind)], 0, 3, [0])
  }

  function IdentityBlock(kind: BinOpKind): Block {
    [Inst(Some(1), Const(if kind.Mul? then 1 else 0)), Inst(Some(2), Binop(kind, 0, 1)), Inst(None, Ret(Some(2)))]
  }

  /** The pass replaces the operation by its constant operand. */
  lemma IdentityFolded(kind: BinOpKind)
    requires kind.Add? || kind.Sub? || kind.Mul?
    ensures var c := if kind.Mul? then 1 else 0;
            FoldFunc(IdentityProgram(kind)).blocks == [[Inst(Some(1), Const(c)), Inst(Some(2), Const(c)), Inst(None, Ret(Some(2)))]]
  {
    var f := IdentityProgram(kind);
    var c: Int64 := if kind.Mul? then 1 else 0;
    var g := f.(blocks := [[Inst(Some(1), Const(c)), Inst(Some(2), Const(c)), Inst(None, Ret(Some(2)))]]);
    var s := Sweep(f, false, true);
    assert f.Has(0, 0) && f.At(0, 0) == Inst(Some(1), Const(c));
    assert ConstDef(f, 1, c);
    IdentityConsts(kind);
    assert SweepBlock(s, 0, 0) == s;
    assert SweepBlock(s, 0, 1) == s by { assert FoldAt(f, 0, 0).blocks[0] == f.blocks[0]; assert FoldAt(f, 0, 0) == f; }
    assert FoldAt(f, 0, 1).blocks[0] == g.blocks[0];
    assert FoldAt(f, 0, 1) == g;
    assert SweepBlock(s, 0, 2) == Sweep(g, false, false);
    assert SweepBlock(s, 0, 3) == Sweep(g, false, false) by { assert FoldAt(g, 0, 2).blocks[0] == g.blocks[0]; assert FoldAt(g, 0, 2) == g; }
    assert SweepTo(s, 0) == s;
    assert SweepTo(s, 1) == SweepBlock(s, 0, 3);
    hide SweepTo, SweepBlock;
    assert Sweeps(f, true, MAX_ITERATIONS) == SweepTo(s, 1);
  }

  lemma IdentityConsts(kind: BinOpKind)
    ensures var c := if kind.Mul? then 1 else 0;
            FindConst(IdentityProgram(kind), 0).None? && FindConst(IdentityProgram(kind), 1) == Some(c)
  {
    var f := IdentityProgram(kind);
    var c: Int64 := if kind.Mul? then 1 else 0;
    assert f.Has(0, 0) && f.At(0, 0) == Inst(Some(1), Const(c));
    assert ConstDef(f, 1, c);
    forall b, i, v: VReg, x | f.Has(b, i) && f.At(b, i) == Inst(Some(v), Const(x)) ensures v == 1 && x == c {
      if i == 0 {} else if i == 1 {} else {}
    }
  }

  lemma IdentityRuns(w: World, kind: BinOpKind, f: Func, x: Int64, y: Int64)
    requires f.entry == 0 && f.params == [0] && |f.blocks| == 1 && |f.blocks[0]| == 3
    requires f.blocks[0][0] == Inst(Some(1), Const(if kind.Mul? then 1 else 0)) && f.blocks[0][2] == Inst(None, Ret(Some(2)))
    requires f.blocks[0][1] == Inst(Some(2), Const(y))
             || (f.blocks[0][1] == Inst(Some(2), Binop(kind, 0, 1)) && EvalBinop(kind, x, if kind.Mul? then 1 else 0) == Some(y))
    ensures Run(w, f, [x], 1) == Finished(Some(y), [])
  {
    var b := f.blocks[0];
    var c: Int64 := if kind.Mul? then 1 else 0;
    var e0: Env := map[0 := x];
    assert Bind([0], [x]) == e0 by { assert Bind([], []) == map[]; }
    var e1 := e0[1 := c];
    var e2 := e1[2 := y];
    assert RunBlock(w, b, 2, e2, e0, None, []) == Return(Some(y), []);
    assert RunBlock(w, b, 1, e1, e0, None, []) == RunBlock(w, b, 2, e2, e0, None, []);
    assert RunBlock(w, b, 0, e0, e0, None, []) == RunBlock(w, b, 1, e1, e0, None, []);
    assert Run(w, f, [x], 0) == Running(0, None, e0, []);
  }

  lemma IdentityAt(kind: BinOpKind, b: int, i: int)
    requires IdentityProgram(kind).Has(b, i)
    ensures b == 0 && 0 <= i < 3
    ensures IdentityProgram(kind).At(b, i) ==
              if i == 0 then Inst(Some(1), Const(if kind.Mul? then 1 else 0)) else if i == 1 then Inst(Some(2), Binop(kind, 0, 1)) else Inst(None, Ret(Some(2)))
  {
  }

  lemma IdentityShape(kind: BinOpKind)
    ensures var f := IdentityProgram(kind); SingleDef(f) && Accepts(f) && InBounds(f)
  {
    var f := IdentityProgram(kind);
    assert BlockOk(f, f.blocks[0]);
    forall b, i | f.Has(b, i)
      ensures b == 0 && 0 <= i < 3 && f.At(b, i).dst == if i < 2 then Some(i + 1) else None
      ensures f.At(b, i).op.IsTerminator() <==> i == 2
      ensures !f.At(b, i).op.Print? && forall v: VReg :: Reads(f.At(b, i).op, v) ==> v < 3
    {
      IdentityAt(kind, b, i);
    }
    hide IdentityBlock, BlockOk;
    assert SingleDef(f);
    AcceptedIsInBounds(f);
  }

  lemma IdentityReturns(w: World, kind: BinOpKind)
    requires kind.Add? || kind.Sub? || kind.Mul?
    ensures Run(w, IdentityProgram(kind), [7], 1) == Finished(Some(7), [])
  {
    IdentityRuns(w, kind, IdentityProgram(kind), 7, 7);
  }

  /** It is well formed, and folding changes what it returns. */
  lemma IdentityGoesWrong(kind: BinOpKind)
    requires kind.Add? || kind.Sub? || kind.Mul?
    ensures var f := IdentityProgram(kind); SingleDef(f) && Accepts(f) && InBounds(f) && !FoldSafe(f) && !Refines(f, FoldFunc(f))
  {
    hide *;
    IdentityShape(kind);
    SafeFoldCorrectHere(IdentityProgram(kind));
    FoldedDiffers(kind);
  }

  lemma FoldedDiffers(kind: BinOpKind)
    requires kind.Add? || kind.Sub? || kind.Mul?
    ensures !Refines(IdentityProgram(kind), FoldFunc(IdentityProgram(kind)))
  {
    var f := IdentityProgram(kind);
    hide FoldFunc, Run, Refines, IdentityProgram;
    var w: World := (t: Trace) => 0;
    IdentityReturns(w, kind);
    FoldedReturns(w, kind);
    OneRunDiffers(w, f, FoldFunc(f), [7], 1);
  }

  lemma FoldedReturns(w: World, kind: BinOpKind)
    requires kind.Add? || kind.Sub? || kind.Mul?
    ensures Run(w, FoldFunc(IdentityProgram(kind)), [7], 1) == Finished(Some(if kind.Mul? then 1 else 0), [])
  {
    var f := IdentityProgram(kind);
    assert f.entry == 0 && f.params == [0];
    IdentityShape(kind);
    IdentityFolded(kind);
    SafeFoldCorrectHere(f);
    hide FoldFunc, Run, SingleDef, Accepts, InBounds, Refines, FoldSafe, EvalBinop, IdentityProgram;
    IdentityRuns(w, kind, FoldFunc(f), 7, if kind.Mul? then 1 else 0);
  }

  lemma SafeFoldCorrectHere(f: Func)
    requires SingleDef(f) && InBounds(f)
    ensures FoldSafe(f) ==> Refines(f, FoldFunc(f))
    ensures FoldFunc(f).entry == f.entry && FoldFunc(f).params == f.params
  {
    FoldCorrect(f);
    if FoldSafe(f) {
      SafeFoldCorrect(f);
    }
  }

  lemma OneRunDiffers(w: World, f: Func, g: Func, actuals: seq<Int64>, n: nat)
    requires !Run(w, f, actuals, n).Faulted? && Observe(Run(w, g, actuals, n)) != Observe(Run(w, f, actuals, n))
    ensures !Refines(f, g)
  {
    hide Run, Observe;
  }
}
