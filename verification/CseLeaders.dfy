/** Which instructions common-subexpression elimination removes (src/opt_cse.c:46-181), told
    from the input alone, and exactly when it forgets an address computation. */
module CseLeaders {
  import opened Wrappers
  import opened Ssa
  import opened StrictSsa
  import opened Cse

  // ---- Who is eliminated ----

  predicate Before(c: nat, k: nat, b: nat, i: nat) {
    c < b || (c == b && k < i)
  }

  /** (c, k) defines `v`, and repeats an earlier instruction of its block. */
  ghost predicate Repeated(f: Func, c: nat, k: nat, v: VReg, b: nat, i: nat)
    requires Before(c, k, b, i)
    decreases b, i, 0
  {
    f.Has(c, k) && f.At(c, k).dst == Some(v) && Leader(f, c, k).Some?
  }

  /** The register that stands for `v` when the pass comes to (b, i). */
  ghost function Rep(f: Func, b: nat, i: nat, v: VReg): VReg
    decreases b, i, 1
  {
    if exists c: nat, k: nat :: Before(c, k, b, i) && Repeated(f, c, k, v, b, i) then
      var c: nat, k: nat :| Before(c, k, b, i) && Repeated(f, c, k, v, b, i);
      f.At(c, Leader(f, c, k).value).dst.value
    else v
  }

  ghost function RepArgs(f: Func, b: nat, i: nat, args: seq<PhiArg>): seq<PhiArg>
    decreases b, i, 2
  {
    seq(|args|, n requires 0 <= n < |args| => args[n].(src := Rep(f, b, i, args[n].src)))
  }

  ghost function RepAll(f: Func, b: nat, i: nat, vs: seq<VReg>): seq<VReg>
    decreases b, i, 2
  {
    seq(|vs|, n requires 0 <= n < |vs| => Rep(f, b, i, vs[n]))
  }

  /** An operation as it reads by then; GEPs are passed over. */
  ghost function RepOp(f: Func, b: nat, i: nat, op: Op): Op
    decreases b, i, 3
  {
    match op
    case Binop(k, l, r) => Binop(k, Rep(f, b, i, l), Rep(f, b, i, r))
    case Unop(k, o) => Unop(k, Rep(f, b, i, o))
    case Cmp(k, l, r) => Cmp(k, Rep(f, b, i, l), Rep(f, b, i, r))
    case Phi(args) => Phi(RepArgs(f, b, i, args))
    case Call(name, actuals) => Call(name, RepAll(f, b, i, actuals))
    case Print(v) => Print(Rep(f, b, i, v))
    case Branch(c, t, e) => Branch(Rep(f, b, i, c), t, e)
    case Ret(r) => Ret(if r.Some? then Some(Rep(f, b, i, r.value)) else None)
    case _ => op
  }

  /** (b, j) is a candidate that has not been eliminated and reads as (b, i) does. */
  ghost predicate Leads(f: Func, b: nat, j: nat, i: nat)
    requires f.Has(b, i) && j < i
    decreases b, i, 4
  {
    && Candidate(f.At(b, j)) && Leader(f, b, j).None?
    && RepOp(f, b, i, f.At(b, j).op) == RepOp(f, b, i, f.At(b, i).op)
  }

  /** The first instruction before `n` that leads (b, i). */
  ghost function FirstLead(f: Func, b: nat, i: nat, n: nat): (j: Option<nat>)
    requires f.Has(b, i) && n <= i
    ensures j.Some? ==> j.value < n && Leads(f, b, j.value, i)
    ensures j.None? ==> forall k: nat :: k < n ==> !Leads(f, b, k, i)
    decreases b, i, 5, n
  {
    if n == 0 then None
    else match FirstLead(f, b, i, n - 1)
      case Some(j) => Some(j)
      case None => if Leads(f, b, n - 1, i) then Some(n - 1) else None
  }

  /** The earlier instruction of its block, if any, that makes (b, i) superfluous: the same
      operation on the same operands, counting eliminated operands as what replaced them. */
  ghost function Leader(f: Func, b: nat, i: nat): (j: Option<nat>)
    requires f.Has(b, i)
    ensures j.Some? ==> j.value < i && Candidate(f.At(b, j.value)) && Leader(f, b, j.value).None?
    decreases b, i, 6
  {
    if Candidate(f.At(b, i)) then FirstLead(f, b, i, i) else None
  }

  lemma RepAt(f: Func, b: nat, i: nat, c: nat, k: nat, v: VReg)
    requires SingleDef(f) && f.Has(c, k) && f.At(c, k).dst == Some(v)
    ensures Rep(f, b, i, v) ==
              if Before(c, k, b, i) && Leader(f, c, k).Some? then f.At(c, Leader(f, c, k).value).dst.value else v
  {
    if Before(c, k, b, i) && Leader(f, c, k).Some? {
      assert Repeated(f, c, k, v, b, i);
    }
    if c': nat, k': nat :| Before(c', k', b, i) && Repeated(f, c', k', v, b, i) {
      assert c' == c && k' == k;
    }
  }

  ghost predicate Known(f: Func, v: VReg) {
    exists c: nat, k: nat :: f.Has(c, k) && f.At(c, k).dst == Some(v)
  }

  lemma RepUndefined(f: Func, b: nat, i: nat, v: VReg)
    requires !Known(f, v)
    ensures Rep(f, b, i, v) == v
  {
  }

  /** What replaces a register has not itself been eliminated. */
  lemma RepIsLive(f: Func, b: nat, i: nat, v: VReg, c: nat, k: nat)
    requires SingleDef(f) && f.Has(c, k) && Leader(f, c, k).Some? && Before(c, k, b, i)
    ensures Rep(f, b, i, v) != f.At(c, k).dst.value
  {
    var x := f.At(c, k).dst.value;
    assert f.At(c, k).dst == Some(x);
    if Known(f, v) {
      var d: nat, m: nat :| f.Has(d, m) && f.At(d, m).dst == Some(v);
      RepAt(f, b, i, d, m, v);
      assert v == x ==> d == c && m == k;
      if Before(d, m, b, i) && Leader(f, d, m).Some? {
        var j := Leader(f, d, m).value;
        assert f.Has(d, j) && Leader(f, d, j).None?;
        assert d == c && j == k ==> false;
      }
    } else {
      RepUndefined(f, b, i, v);
    }
  }

  // ---- The pass does just that ----

  /** Instruction (c, k) when the pass comes to (b, i). */
  ghost function Now(f: Func, b: nat, i: nat, c: nat, k: nat): Inst
    requires f.Has(c, k)
  {
    if Before(c, k, b, i) && Leader(f, c, k).Some? then Inst(f.At(c, k).dst, Const(0))
    else Inst(f.At(c, k).dst, RepOp(f, b, i, f.At(c, k).op))
  }

  ghost predicate Tracks(f: Func, g: Func, b: nat, i: nat) {
    && SameShape(f, g)
    && forall c: nat, k: nat :: f.Has(c, k) ==> g.At(c, k) == Now(f, b, i, c, k)
  }

  lemma SameLead(f: Func, g: Func, b: nat, i: nat, j: nat)
    requires Tracks(f, g, b, i) && f.Has(b, i) && j < i && Candidate(f.At(b, i))
    ensures g.Has(b, j) && (Leads(f, b, j, i) <==> Candidate(g.At(b, j)) && g.At(b, j).op == RepOp(f, b, i, f.At(b, i).op))
  {
    assert f.Has(b, j) && g.At(b, j) == Now(f, b, i, b, j);
  }

  /** Looking for an equal expression in the block finds the leader. */
  lemma {:induction false} FindsLead(f: Func, g: Func, b: nat, i: nat, n: nat)
    requires Tracks(f, g, b, i) && f.Has(b, i) && n <= i && Candidate(f.At(b, i))
    ensures FindSame(g.blocks[b], n, RepOp(f, b, i, f.At(b, i).op)) == FirstLead(f, b, i, n)
  {
    hide Tracks, RepOp, Leads, Now;
    if n > 0 {
      FindsLead(f, g, b, i, n - 1);
      SameLead(f, g, b, i, n - 1);
      assert g.At(b, n - 1) == g.blocks[b][n - 1];
    }
  }

  lemma RepNext(f: Func, b: nat, i: nat, v: VReg)
    requires SingleDef(f) && f.Has(b, i)
    ensures Rep(f, b, i + 1, v) ==
              if Leader(f, b, i).Some? then Swap(Rep(f, b, i, v), f.At(b, i).dst.value, f.At(b, Leader(f, b, i).value).dst.value)
              else Rep(f, b, i, v)
  {
    if Known(f, v) {
      var c: nat, k: nat :| f.Has(c, k) && f.At(c, k).dst == Some(v);
      RepAt(f, b, i, c, k, v);
      RepAt(f, b, i + 1, c, k, v);
      if Leader(f, b, i).Some? {
        if c == b && k == i {
        } else if Before(c, k, b, i) && Leader(f, c, k).Some? {
          var j := Leader(f, c, k).value;
          assert f.Has(c, j) && f.At(c, j).dst.Some? && !(c == b && j == i);
        } else {
          assert v != f.At(b, i).dst.value;
        }
      }
    } else {
      RepUndefined(f, b, i, v);
      RepUndefined(f, b, i + 1, v);
      assert f.At(b, i).dst == Some(v) ==> false;
    }
  }

  lemma RepOpNext(f: Func, b: nat, i: nat, op: Op)
    requires SingleDef(f) && f.Has(b, i)
    ensures RepOp(f, b, i + 1, op) ==
              if Leader(f, b, i).Some? then SwapOp(RepOp(f, b, i, op), f.At(b, i).dst.value, f.At(b, Leader(f, b, i).value).dst.value)
              else RepOp(f, b, i, op)
  {
    var i' := i + 1;
    forall v: VReg
      ensures Rep(f, b, i', v) ==
                if Leader(f, b, i).Some? then Swap(Rep(f, b, i, v), f.At(b, i).dst.value, f.At(b, Leader(f, b, i).value).dst.value)
                else Rep(f, b, i, v)
    {
      RepNext(f, b, i, v);
    }
    hide Rep, Leader;
    match op
    case Phi(args) =>
      var ld := Leader(f, b, i);
      if ld.Some? {
        assert RepArgs(f, b, i', args) == SwapArgs(RepArgs(f, b, i, args), f.At(b, i).dst.value, f.At(b, ld.value).dst.value);
      } else {
        assert RepArgs(f, b, i', args) == RepArgs(f, b, i, args);
      }
    case Call(_, actuals) =>
      var ld := Leader(f, b, i);
      if ld.Some? {
        assert RepAll(f, b, i', actuals) == SwapAll(RepAll(f, b, i, actuals), f.At(b, i).dst.value, f.At(b, ld.value).dst.value);
      } else {
        assert RepAll(f, b, i', actuals) == RepAll(f, b, i, actuals);
      }
    case _ =>
  }

  lemma StepTracks(f: Func, g: Func, b: nat, i: nat)
    requires SingleDef(f) && f.Has(b, i) && Tracks(f, g, b, i)
    ensures Tracks(f, CseStep(g, b, i), b, i + 1)
    ensures CseStep(g, b, i) != g ==> Leader(f, b, i).Some?
  {
    var h := CseStep(g, b, i);
    var ld := Leader(f, b, i);
    assert g.At(b, i) == Now(f, b, i, b, i);
    assert Candidate(g.At(b, i)) <==> Candidate(f.At(b, i));
    if Candidate(f.At(b, i)) {
      FindsLead(f, g, b, i, i);
    }
    assert ld.Some? ==> f.Has(b, ld.value) && g.At(b, ld.value) == Now(f, b, i, b, ld.value);
    hide SingleDef, Leader, RepOp, FindSame, FirstLead;
    forall c: nat, k: nat | f.Has(c, k) ensures h.At(c, k) == Now(f, b, i + 1, c, k) {
      assert g.At(c, k) == Now(f, b, i, c, k);
      RepOpNext(f, b, i, f.At(c, k).op);
      if ld.Some? {
        StepShape(g, b, i, ld.value, c, k);
      }
    }
  }

  lemma {:induction false} BlockTracks(f: Func, g: Func, b: nat, i: nat)
    requires SingleDef(f) && b < |f.blocks| && i <= |f.blocks[b]| && Tracks(f, g, b, 0)
    ensures Tracks(f, CseBlock(g, b, i), b, i)
  {
    hide SingleDef, CseStep, Now;
    if i > 0 {
      BlockTracks(f, g, b, i - 1);
      StepTracks(f, CseBlock(g, b, i - 1), b, i - 1);
    }
  }

  lemma RepEnd(f: Func, b: nat, v: VReg)
    requires SingleDef(f) && b < |f.blocks|
    ensures Rep(f, b + 1, 0, v) == Rep(f, b, |f.blocks[b]|, v)
  {
    if Known(f, v) {
      var c: nat, k: nat :| f.Has(c, k) && f.At(c, k).dst == Some(v);
      RepAt(f, b, |f.blocks[b]|, c, k, v);
      RepAt(f, b + 1, 0, c, k, v);
    } else {
      RepUndefined(f, b, |f.blocks[b]|, v);
      RepUndefined(f, b + 1, 0, v);
    }
  }

  lemma RepOpEnd(f: Func, b: nat, op: Op)
    requires SingleDef(f) && b < |f.blocks|
    ensures RepOp(f, b + 1, 0, op) == RepOp(f, b, |f.blocks[b]|, op)
  {
    var b', n := b + 1, |f.blocks[b]|;
    forall v: VReg ensures Rep(f, b', 0, v) == Rep(f, b, n, v) {
      RepEnd(f, b, v);
    }
    hide Rep;
    match op
    case Phi(args) => assert RepArgs(f, b', 0, args) == RepArgs(f, b, n, args);
    case Call(_, actuals) => assert RepAll(f, b', 0, actuals) == RepAll(f, b, n, actuals);
    case _ =>
  }

  lemma EndTracks(f: Func, g: Func, b: nat)
    requires SingleDef(f) && b < |f.blocks| && Tracks(f, g, b, |f.blocks[b]|)
    ensures Tracks(f, g, b + 1, 0)
  {
    hide SingleDef, RepOp, Leader;
    forall c: nat, k: nat | f.Has(c, k) ensures g.At(c, k) == Now(f, b + 1, 0, c, k) {
      assert g.At(c, k) == Now(f, b, |f.blocks[b]|, c, k);
      RepOpEnd(f, b, f.At(c, k).op);
    }
  }

  lemma StartTracks(f: Func)
    ensures Tracks(f, f, 0, 0)
  {
    forall v: VReg ensures Rep(f, 0, 0, v) == v {
    }
    forall c: nat, k: nat | f.Has(c, k) ensures f.At(c, k) == Now(f, 0, 0, c, k) {
      match f.At(c, k).op
      case Phi(args) => assert RepArgs(f, 0, 0, args) == args;
      case Call(_, actuals) => assert RepAll(f, 0, 0, actuals) == actuals;
      case _ =>
    }
  }

  lemma {:induction false} UpToTracks(f: Func, b: nat)
    requires SingleDef(f) && b <= |f.blocks|
    ensures Tracks(f, CseUpTo(f, b), b, 0)
  {
    hide SingleDef, CseBlock, Now;
    if b == 0 {
      StartTracks(f);
    } else {
      UpToTracks(f, b - 1);
      var g := CseUpTo(f, b - 1);
      BlockTracks(f, g, b - 1, |f.blocks[b - 1]|);
      EndTracks(f, CseBlock(g, b - 1, |f.blocks[b - 1]|), b - 1);
    }
  }

  /** The pass eliminates exactly the instructions that have a leader; everything else keeps
      its kind and reads what stands for its operands. */
  lemma CseEliminates(f: Func)
    requires SingleDef(f)
    ensures Tracks(f, CseFunc(f), |f.blocks|, 0)
  {
    UpToTracks(f, |f.blocks|);
  }

  // ---- Address computations ----

  /** No GEP takes its pointer from an instruction that repeats an earlier one of its block. */
  ghost predicate GepsClear(f: Func) {
    forall b, i, c: nat, k: nat :: f.Has(b, i) && f.At(b, i).op.Gep? && f.Has(c, k) && Leader(f, c, k).Some? ==>
      f.At(c, k).dst.value != f.At(b, i).op.ptr
  }

  /** Nothing reads a result the pass has thrown away. */
  ghost predicate EliminatedUnread(f: Func, g: Func) {
    forall b, i, c, j :: f.Has(b, i) && g.Has(b, i) && g.Has(c, j) && Candidate(f.At(b, i)) && g.At(b, i).op.Const? ==>
      !Reads(g.At(c, j).op, f.At(b, i).dst.value)
  }

  lemma RepReads(f: Func, op: Op, c: nat, k: nat)
    requires SingleDef(f) && f.Has(c, k) && Leader(f, c, k).Some?
    ensures Reads(RepOp(f, |f.blocks|, 0, op), f.At(c, k).dst.value) <==> op.Gep? && op.ptr == f.At(c, k).dst.value
  {
    var x := f.At(c, k).dst.value;
    var n := |f.blocks|;
    forall v: VReg ensures Rep(f, n, 0, v) != x {
      RepIsLive(f, n, 0, v, c, k);
    }
    hide Rep, Leader;
    match op
    case Phi(args) => assert forall m :: 0 <= m < |args| ==> RepArgs(f, n, 0, args)[m].src != x;
    case Call(_, actuals) => assert forall m :: 0 <= m < |actuals| ==> RepAll(f, n, 0, actuals)[m] != x;
    case _ =>
  }

  /** A thrown-away result stays in use exactly when some GEP takes its pointer from it. */
  lemma UnreadExact(f: Func)
    requires SingleDef(f)
    ensures EliminatedUnread(f, CseFunc(f)) <==> GepsClear(f)
  {
    var g := CseFunc(f);
    CseEliminates(f);
    hide SingleDef, Leader, RepOp, CseFunc;
    forall b: nat, i: nat | f.Has(b, i)
      ensures g.Has(b, i) && g.At(b, i) == Now(f, |f.blocks|, 0, b, i) && Before(b, i, |f.blocks|, 0)
      ensures Candidate(f.At(b, i)) && g.At(b, i).op.Const? <==> Leader(f, b, i).Some?
    {
      IsEliminated(f, b, i);
    }
    forall b: nat, i: nat, c: nat, k: nat | f.Has(b, i) && f.Has(c, k) && Leader(f, c, k).Some?
      ensures Reads(g.At(b, i).op, f.At(c, k).dst.value) <==> f.At(b, i).op.Gep? && f.At(b, i).op.ptr == f.At(c, k).dst.value
    {
      RepReads(f, f.At(b, i).op, c, k);
      if Leader(f, b, i).Some? {
        LeaderNotGep(f, b, i);
      }
    }
  }

  lemma IsEliminated(f: Func, b: nat, i: nat)
    requires f.Has(b, i)
    ensures Candidate(f.At(b, i)) && Now(f, |f.blocks|, 0, b, i).op.Const? <==> Leader(f, b, i).Some?
  {
  }

  lemma LeaderNotGep(f: Func, b: nat, i: nat)
    requires f.Has(b, i) && Leader(f, b, i).Some?
    ensures !f.At(b, i).op.Gep?
  {
  }

  // ---- Meaning ----

  ghost predicate Sane(f: Func) {
    Sound(f) && LocalOrder(f)
  }

  lemma StepClear(f: Func, g: Func, b: nat, i: nat)
    requires SingleDef(f) && GepsClear(f) && f.Has(b, i) && Tracks(f, g, b, i)
    ensures CseStep(g, b, i) == g || GepsAvoid(g, b, i)
  {
    StepTracks(f, g, b, i);
    hide CseStep, SingleDef, Leader;
    if CseStep(g, b, i) != g {
      forall c: nat, k: nat | g.Has(c, k) && g.At(c, k).op.Gep? ensures g.At(b, i).dst != Some(g.At(c, k).op.ptr) {
        assert f.Has(c, k) && g.At(c, k) == Now(f, b, i, c, k) && g.At(b, i) == Now(f, b, i, b, i);
      }
    }
  }

  lemma {:induction false} BlockCorrect(f: Func, g: Func, b: nat, i: nat)
    requires SingleDef(f) && GepsClear(f) && b < |f.blocks| && i <= |f.blocks[b]| && Tracks(f, g, b, 0) && Sane(g)
    ensures Sane(CseBlock(g, b, i)) && Refines(g, CseBlock(g, b, i))
  {
    hide *;
    SameBlocks(f, g, b, 0);
    NextStep(g, b, i);
    if i == 0 {
      RefinesReflexive(g);
    } else {
      BlockCorrect(f, g, b, i - 1);
      BlockTracks(f, g, b, i - 1);
      var h := CseBlock(g, b, i - 1);
      SameBlocks(f, h, b, i - 1);
      StepClear(f, h, b, i - 1);
      StepSane(h, b, i - 1);
      RefinesTransitive(g, h, CseBlock(g, b, i));
    }
  }

  lemma NextStep(g: Func, b: nat, i: nat)
    requires b < |g.blocks| && i <= |g.blocks[b]|
    ensures CseBlock(g, b, 0) == g
    ensures i > 0 ==> CseBlock(g, b, i - 1).Has(b, i - 1) && CseBlock(g, b, i) == CseStep(CseBlock(g, b, i - 1), b, i - 1)
  {
    hide CseStep;
  }

  lemma SameBlocks(f: Func, g: Func, b: nat, i: nat)
    requires Tracks(f, g, b, i)
    ensures |g.blocks| == |f.blocks| && forall c :: 0 <= c < |f.blocks| ==> |g.blocks[c]| == |f.blocks[c]|
    ensures forall c: nat, k: nat :: f.Has(c, k) <==> g.Has(c, k)
  {
  }

  lemma StepSane(h: Func, b: nat, i: nat)
    requires Sane(h) && h.Has(b, i) && (CseStep(h, b, i) == h || GepsAvoid(h, b, i))
    ensures Sane(CseStep(h, b, i)) && Refines(h, CseStep(h, b, i))
  {
    StepCorrect(h, b, i);
  }

  lemma {:induction false} UpToCorrect(f: Func, b: nat)
    requires SingleDef(f) && GepsClear(f) && Sane(f) && b <= |f.blocks|
    ensures Sane(CseUpTo(f, b)) && Refines(f, CseUpTo(f, b))
  {
    hide SingleDef, GepsClear, Sane, Refines, CseBlock, Now;
    if b == 0 {
      RefinesReflexive(f);
    } else {
      UpToCorrect(f, b - 1);
      UpToTracks(f, b - 1);
      var g := CseUpTo(f, b - 1);
      BlockCorrect(f, g, b - 1, |g.blocks[b - 1]|);
      RefinesTransitive(f, g, CseUpTo(f, b));
    }
  }

  /** The pass preserves meaning on strict SSA, as long as no GEP is left with a pointer that
      has been thrown away. */
  lemma CseCorrect(f: Func)
    requires Sound(f) && LocalOrder(f) && GepsClear(f)
    ensures Refines(f, CseFunc(f)) && Sound(CseFunc(f)) && LocalOrder(CseFunc(f))
    ensures EliminatedUnread(f, CseFunc(f))
  {
    UpToCorrect(f, |f.blocks|);
    UnreadExact(f);
  }
}
