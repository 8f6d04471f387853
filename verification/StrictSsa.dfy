/** Strict SSA: every use is dominated by its definition, stated over the paths of the
    control-flow graph.  The passes rely on it without ever computing dominators. */
module StrictSsa {
  import opened Wrappers
  import opened Ssa
  import opened SsaVerify

  predicate Targets(op: Op, t: Label) {
    (op.Jump? && op.target == t) || (op.Branch? && (op.trueBb == t || op.falseBb == t))
  }

  ghost predicate Edge(f: Func, b: Label, t: Label) {
    exists i :: f.Has(b, i) && Targets(f.At(b, i).op, t)
  }

  ghost predicate IsPath(f: Func, p: seq<Label>) {
    && |p| > 0 && p[0] == f.entry
    && forall k :: 0 <= k < |p| - 1 ==> Edge(f, p[k], p[k + 1])
  }

  ghost predicate PathTo(f: Func, p: seq<Label>, b: Label) {
    IsPath(f, p) && p[|p| - 1] == b
  }

  ghost predicate Reachable(f: Func, b: Label) {
    exists p :: PathTo(f, p, b)
  }

  ghost predicate DefinedIn(f: Func, b: Label, v: VReg) {
    exists i :: f.Has(b, i) && f.At(b, i).dst == Some(v)
  }

  /** `v` is a parameter or defined in one of the first `n` blocks of `p`. */
  ghost predicate OnPath(f: Func, p: seq<Label>, n: nat, v: VReg)
    requires n <= |p|
  {
    v in f.params || exists k :: 0 <= k < n && DefinedIn(f, p[k], v)
  }

  /** Every way of reaching `b` has defined `v` before entering it. */
  ghost predicate Avail(f: Func, v: VReg, b: Label) {
    forall p :: PathTo(f, p, b) ==> OnPath(f, p, |p| - 1, v)
  }

  ghost predicate DefinedBefore(f: Func, v: VReg, b: Label, i: nat) {
    exists j :: 0 <= j < i && f.Has(b, j) && f.At(b, j).dst == Some(v)
  }

  ghost predicate AvailAt(f: Func, v: VReg, b: Label, i: nat) {
    Avail(f, v, b) || DefinedBefore(f, v, b, i)
  }

  ghost predicate AvailOut(f: Func, v: VReg, b: Label) {
    b < |f.blocks| && AvailAt(f, v, b, |f.blocks[b]|)
  }

  /** One PHI is sound: it has an operand for every edge into its block, and each operand
      is available at the end of the block it comes from. */
  ghost predicate PhiOk(f: Func, b: Label, args: seq<PhiArg>) {
    && b != f.entry
    && (forall p :: Edge(f, p, b) ==> exists k :: 0 <= k < |args| && args[k].pred == p)
    && (forall k :: 0 <= k < |args| ==> AvailOut(f, args[k].src, args[k].pred))
  }

  ghost predicate UsesOk(f: Func, b: Label, i: nat, op: Op) {
    if op.Phi? then PhiOk(f, b, op.args)
    else forall v: VReg :: Reads(op, v) ==> AvailAt(f, v, b, i)
  }

  ghost predicate Strict(f: Func) {
    forall b, i :: f.Has(b, i) ==> UsesOk(f, b, i, f.At(b, i).op)
  }

  /** What every pass needs and keeps. */
  ghost predicate Sound(f: Func) {
    Accepts(f) && InBounds(f) && SingleDef(f) && Strict(f)
  }

  // ---- Availability along edges ----

  lemma PathExtends(f: Func, p: seq<Label>, b: Label, t: Label)
    requires PathTo(f, p, b) && Edge(f, b, t)
    ensures PathTo(f, p + [t], t)
  {
    var q := p + [t];
    forall k | 0 <= k < |q| - 1 ensures Edge(f, q[k], q[k + 1]) {
      if k == |p| - 1 { assert q[k] == b; } else { assert Edge(f, p[k], p[k + 1]); }
    }
  }

  lemma PathPrefix(f: Func, p: seq<Label>, k: nat)
    requires IsPath(f, p) && k < |p|
    ensures PathTo(f, p[..k + 1], p[k])
  {
    var q := p[..k + 1];
    forall j | 0 <= j < |q| - 1 ensures Edge(f, q[j], q[j + 1]) {
      assert Edge(f, p[j], p[j + 1]);
    }
  }

  /** Available on entry to a successor means available on the way out. */
  lemma AvailAlongEdge(f: Func, v: VReg, b: Label, t: Label)
    requires Avail(f, v, t) && Edge(f, b, t)
    ensures AvailOut(f, v, b)
  {
    if !DefinedIn(f, b, v) {
      forall p | PathTo(f, p, b) ensures OnPath(f, p, |p| - 1, v) {
        PathExtends(f, p, b, t);
        var q := p + [t];
        assert OnPath(f, q, |q| - 1, v);
        if v !in f.params {
          var k :| 0 <= k < |q| - 1 && DefinedIn(f, q[k], v);
          assert k < |p| - 1 && p[k] == q[k];
        }
      }
    } else {
      var i :| f.Has(b, i) && f.At(b, i).dst == Some(v);
      assert DefinedBefore(f, v, b, |f.blocks[b]|);
    }
  }

  /** A register is never available on entry to a reachable block that defines it. */
  lemma NotAvailInOwnBlock(f: Func, v: VReg, b: Label)
    requires SingleDef(f) && Reachable(f, b) && DefinedIn(f, b, v)
    ensures !Avail(f, v, b)
  {
    var p :| PathTo(f, p, b);
    var k := FirstVisit(p, b, |p| - 1);
    PathPrefix(f, p, k);
    var q := p[..k + 1];
    assert PathTo(f, q, b) && !OnPath(f, q, |q| - 1, v);
  }

  lemma FirstVisit(p: seq<Label>, b: Label, last: nat) returns (k: nat)
    requires last < |p| && p[last] == b
    ensures k <= last && p[k] == b && forall j :: 0 <= j < k ==> p[j] != b
  {
    k := 0;
    while p[k] != b
      invariant k <= last && forall j :: 0 <= j < k ==> p[j] != b
      decreases last - k
    {
      k := k + 1;
    }
  }

  /** In a reachable block, what is available at an instruction is not defined by it or
      after it. */
  lemma NotDefinedLater(f: Func, v: VReg, b: Label, i: nat, j: nat)
    requires SingleDef(f) && Reachable(f, b) && f.Has(b, j) && i <= j
    requires AvailAt(f, v, b, i)
    ensures f.At(b, j).dst != Some(v)
  {
    if f.At(b, j).dst == Some(v) {
      assert DefinedIn(f, b, v);
      NotAvailInOwnBlock(f, v, b);
    }
  }

  /** Dominance is transitive: what is available where `x` is defined is available
      wherever `x` is. */
  lemma AvailThrough(f: Func, x: VReg, y: VReg, d: Label, j: nat, b: Label, i: nat)
    requires SingleDef(f) && f.Has(d, j) && f.At(d, j).dst == Some(x)
    requires AvailAt(f, y, d, j) && AvailAt(f, x, b, i)
    ensures AvailAt(f, y, b, i)
  {
    if DefinedBefore(f, x, b, i) {
      var k :| 0 <= k < i && f.Has(b, k) && f.At(b, k).dst == Some(x);
      assert b == d && k == j;
    } else {
      forall p | PathTo(f, p, b) ensures OnPath(f, p, |p| - 1, y) {
        assert OnPath(f, p, |p| - 1, x);
        var k :| 0 <= k < |p| - 1 && DefinedIn(f, p[k], x);
        var i' :| f.Has(p[k], i') && f.At(p[k], i').dst == Some(x);
        assert p[k] == d;
        OnPathAt(f, y, d, j, p, k);
      }
    }
  }

  lemma OnPathAt(f: Func, y: VReg, d: Label, j: nat, p: seq<Label>, k: nat)
    requires IsPath(f, p) && k < |p| - 1 && p[k] == d && AvailAt(f, y, d, j)
    ensures OnPath(f, p, |p| - 1, y)
  {
    if DefinedBefore(f, y, d, j) {
      assert DefinedIn(f, p[k], y);
    } else {
      PathPrefix(f, p, k);
      var q := p[..k + 1];
      assert OnPath(f, q, |q| - 1, y);
      if y !in f.params {
        var m :| 0 <= m < |q| - 1 && DefinedIn(f, q[m], y);
        assert p[m] == q[m];
      }
    }
  }

  /** The operand of a one-operand PHI is available on entry to the PHI's block. */
  lemma SinglePhiOperand(f: Func, b: Label, i: nat)
    requires Strict(f) && f.Has(b, i) && f.At(b, i).op.Phi? && |f.At(b, i).op.args| == 1
    ensures Avail(f, f.At(b, i).op.args[0].src, b)
  {
    var args := f.At(b, i).op.args;
    var y := args[0].src;
    assert UsesOk(f, b, i, f.At(b, i).op);
    forall p | PathTo(f, p, b) ensures OnPath(f, p, |p| - 1, y) {
      var c := p[|p| - 2];
      assert Edge(f, p[|p| - 2], p[|p| - 1]);
      assert args[0].pred == c;
      assert AvailOut(f, y, c);
      OnPathAt(f, y, c, |f.blocks[c]|, p, |p| - 2);
    }
  }

  // ---- Fewer edges, same definitions ----

  /** `g` has the definitions of `f`, position by position, and no other edges. */
  ghost predicate Thins(f: Func, g: Func) {
    && SameShape(f, g)
    && (forall b, i :: f.Has(b, i) ==> g.At(b, i).dst == f.At(b, i).dst)
    && (forall b, t :: Edge(g, b, t) ==> Edge(f, b, t))
  }

  lemma ThinsDefinedIn(f: Func, g: Func, b: Label, v: VReg)
    requires Thins(f, g) && DefinedIn(f, b, v)
    ensures DefinedIn(g, b, v)
  {
    var i :| f.Has(b, i) && f.At(b, i).dst == Some(v);
    assert g.Has(b, i) && g.At(b, i).dst == Some(v);
  }

  lemma ThinsAvail(f: Func, g: Func, v: VReg, b: Label)
    requires Thins(f, g) && Avail(f, v, b)
    ensures Avail(g, v, b)
  {
    forall p | PathTo(g, p, b) ensures OnPath(g, p, |p| - 1, v) {
      assert PathTo(f, p, b);
      assert OnPath(f, p, |p| - 1, v);
      if v !in f.params {
        var k :| 0 <= k < |p| - 1 && DefinedIn(f, p[k], v);
        ThinsDefinedIn(f, g, p[k], v);
      }
    }
  }

  lemma ThinsAvailAt(f: Func, g: Func, v: VReg, b: Label, i: nat)
    requires Thins(f, g) && AvailAt(f, v, b, i)
    ensures AvailAt(g, v, b, i)
  {
    if DefinedBefore(f, v, b, i) {
      var j :| 0 <= j < i && f.Has(b, j) && f.At(b, j).dst == Some(v);
      assert g.Has(b, j) && g.At(b, j).dst == Some(v);
    } else {
      ThinsAvail(f, g, v, b);
    }
  }

  lemma ThinsSingleDef(f: Func, g: Func)
    requires Thins(f, g) && SingleDef(f)
    requires forall b, i :: g.Has(b, i) && (g.At(b, i).op.IsTerminator() || g.At(b, i).op.Print?) ==> g.At(b, i).dst.None?
    ensures SingleDef(g)
  {
    forall b, i, c, j | g.Has(b, i) && g.Has(c, j) && g.At(b, i).dst.Some? && g.At(b, i).dst == g.At(c, j).dst
      ensures b == c && i == j
    {
      assert f.Has(b, i) && f.Has(c, j) && f.At(b, i).dst == f.At(c, j).dst;
    }
  }

  // ---- Instructions that only got simpler ----

  /** Position by position, `g` has the instruction of `f`, or a constant in place of a
      pure one, or a jump in place of a branch to the same target. */
  ghost predicate Simplifies(f: Func, g: Func) {
    && SameShape(f, g)
    && forall b, i :: f.Has(b, i) ==> SimplerInst(f.At(b, i), g.At(b, i))
  }

  predicate SimplerInst(inst: Inst, inst': Inst) {
    && inst'.dst == inst.dst
    && (|| inst'.op == inst.op
        || (inst.op.IsPure() && inst'.op.Const?)
        || (inst.op.Branch? && inst'.op.Jump? && Targets(inst.op, inst'.op.target)))
  }

  lemma SimplifiesTransitive(f: Func, g: Func, h: Func)
    requires Simplifies(f, g) && Simplifies(g, h)
    ensures Simplifies(f, h)
  {
    forall b, i | f.Has(b, i) ensures SimplerInst(f.At(b, i), h.At(b, i)) {
      assert SimplerInst(f.At(b, i), g.At(b, i)) && SimplerInst(g.At(b, i), h.At(b, i));
    }
  }

  lemma SimplifiesThins(f: Func, g: Func)
    requires Simplifies(f, g)
    ensures Thins(f, g)
  {
    forall b: Label, t: Label | Edge(g, b, t) ensures Edge(f, b, t) {
      var i :| g.Has(b, i) && Targets(g.At(b, i).op, t);
      assert f.Has(b, i) && SimplerInst(f.At(b, i), g.At(b, i));
    }
  }

  lemma SimplifiesStrict(f: Func, g: Func)
    requires Strict(f) && Simplifies(f, g)
    ensures Strict(g)
  {
    SimplifiesThins(f, g);
    forall b: Label, i: nat | g.Has(b, i) ensures UsesOk(g, b, i, g.At(b, i).op) {
      var op, op' := f.At(b, i).op, g.At(b, i).op;
      assert f.Has(b, i) && SimplerInst(f.At(b, i), g.At(b, i)) && UsesOk(f, b, i, op);
      if op' == op {
        if op.Phi? {
          forall k | 0 <= k < |op.args| ensures AvailOut(g, op.args[k].src, op.args[k].pred) {
            ThinsAvailAt(f, g, op.args[k].src, op.args[k].pred, |f.blocks[op.args[k].pred]|);
          }
        } else {
          forall v: VReg | Reads(op, v) ensures AvailAt(g, v, b, i) {
            ThinsAvailAt(f, g, v, b, i);
          }
        }
      }
    }
  }

  lemma SimplifiesReady(f: Func, g: Func)
    requires InBounds(f) && SingleDef(f) && Simplifies(f, g)
    ensures InBounds(g) && SingleDef(g)
  {
    SimplifiesThins(f, g);
    forall b: Label, i: nat | g.Has(b, i)
      ensures g.At(b, i).dst.Some? ==> g.At(b, i).dst.value < g.nextVreg
      ensures forall v: VReg :: Reads(g.At(b, i).op, v) ==> v < g.nextVreg
      ensures g.At(b, i).op.IsTerminator() || g.At(b, i).op.Print? ==> g.At(b, i).dst.None?
    {
      assert f.Has(b, i) && SimplerInst(f.At(b, i), g.At(b, i));
    }
    ThinsSingleDef(f, g);
  }

  lemma SimplifiesAccepts(f: Func, g: Func)
    requires Accepts(f) && Simplifies(f, g)
    ensures Accepts(g)
  {
    forall b | 0 <= b < |g.blocks| ensures BlockOk(g, g.blocks[b]) {
      assert BlockOk(f, f.blocks[b]);
      forall i | 0 <= i < |g.blocks[b]|
        ensures g.blocks[b][i].op.IsTerminator() <==> i == |g.blocks[b]| - 1
        ensures InstOk(g, g.blocks[b][i])
      {
        assert f.Has(b, i) && SimplerInst(f.At(b, i), g.At(b, i)) && InstOk(f, f.blocks[b][i]);
        assert f.blocks[b][i].op.IsTerminator() <==> i == |f.blocks[b]| - 1;
      }
    }
  }

  /** Simplifying keeps everything the passes rely on. */
  lemma SimplifiesSound(f: Func, g: Func)
    requires Sound(f) && Simplifies(f, g)
    ensures Sound(g)
  {
    SimplifiesReady(f, g);
    SimplifiesAccepts(f, g);
    SimplifiesStrict(f, g);
  }

  // ---- Reachability ----

  /** Every block can be reached from the entry. */
  ghost predicate AllReachable(f: Func) {
    forall b: Label :: b < |f.blocks| ==> Reachable(f, b)
  }

  ghost predicate SameGraph(f: Func, g: Func) {
    f.entry == g.entry && |f.blocks| == |g.blocks| && forall b, t :: Edge(f, b, t) <==> Edge(g, b, t)
  }

  lemma SameGraphReachable(f: Func, g: Func)
    requires SameGraph(f, g) && AllReachable(f)
    ensures AllReachable(g)
  {
    forall b: Label | b < |g.blocks| ensures Reachable(g, b) {
      assert Reachable(f, b);
      var p :| PathTo(f, p, b);
      assert PathTo(g, p, b);
    }
  }

  /** Terminators are where they were. */
  ghost predicate SameTerminators(f: Func, g: Func) {
    && SameShape(f, g)
    && forall b, i :: f.Has(b, i) ==> (f.At(b, i).op.IsTerminator() || g.At(b, i).op.IsTerminator() ==> g.At(b, i).op == f.At(b, i).op)
  }

  lemma SameTerminatorsGraph(f: Func, g: Func)
    requires SameTerminators(f, g)
    ensures SameGraph(f, g)
  {
    forall b: Label, t: Label ensures Edge(f, b, t) <==> Edge(g, b, t) {
      if Edge(f, b, t) {
        var i :| f.Has(b, i) && Targets(f.At(b, i).op, t);
        assert g.Has(b, i) && Targets(g.At(b, i).op, t);
      }
      if Edge(g, b, t) {
        var i :| g.Has(b, i) && Targets(g.At(b, i).op, t);
        assert f.Has(b, i) && Targets(f.At(b, i).op, t);
      }
    }
  }
}
