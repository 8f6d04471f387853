/** Copy propagation (src/opt_copyprop.c): a PHI with one operand is a copy of it, and
    every use of the copy is redirected to the end of its chain. */
module CopyProp {
  import opened Wrappers
  import opened Ssa
  import opened SsaVerify
  import opened StrictSsa
  import opened Rename

  type CopyMap = seq<VReg>

  predicate IsSinglePhi(inst: Inst) {
    inst.op.Phi? && |inst.op.args| == 1 && inst.dst.Some?
  }

  /** The table before chains are followed: single-operand PHIs point at their operand,
      everything else at itself. */
  ghost predicate IsCopyTable(f: Func, m: CopyMap) {
    && |m| == f.nextVreg
    && (forall b, i :: f.Has(b, i) && IsSinglePhi(f.At(b, i)) && f.At(b, i).dst.value < |m| ==>
          m[f.At(b, i).dst.value] == f.At(b, i).op.args[0].src)
    && (forall v :: 0 <= v < |m| && m[v] != v ==>
          exists b, i :: f.Has(b, i) && IsSinglePhi(f.At(b, i)) && f.At(b, i).dst == Some(v) && f.At(b, i).op.args[0].src == m[v])
  }

  ghost predicate Closed(m: CopyMap) {
    forall v :: 0 <= v < |m| ==> m[v] < |m|
  }

  ghost predicate IsRoot(m: CopyMap, v: VReg) {
    v < |m| && m[v] == v
  }

  /** The chain from `v` ends within `k` links. */
  ghost predicate EndsWithin(m: CopyMap, v: VReg, k: nat)
    decreases k
  {
    v < |m| && (m[v] == v || (k > 0 && EndsWithin(m, m[v], k - 1)))
  }

  const MAX_DEPTH := 100

  /** No chain is longer than the hundred links that are followed. */
  ghost predicate ShortChains(m: CopyMap) {
    forall v: VReg :: v < |m| ==> EndsWithin(m, v, 100)
  }

  ghost predicate Leads(f: Func, n: nat, v: VReg, z: VReg) {
    z < n && Chain(f, v, z)
  }

  lemma TableLeads(f: Func, m: CopyMap, v: VReg)
    requires InBounds(f) && IsCopyTable(f, m) && v < |m|
    ensures Leads(f, |m|, v, m[v])
  {
    if m[v] == v {
      ChainNone(f, v);
    } else {
      var b: Label, i: nat :| f.Has(b, i) && IsSinglePhi(f.At(b, i)) && f.At(b, i).dst == Some(v) && f.At(b, i).op.args[0].src == m[v];
      assert Repeats(f, v, m[v], b, i);
      assert Reads(f.At(b, i).op, m[v]);
      ChainOne(f, v, m[v]);
    }
  }

  /** In the middle of the in-place resolution: entries below `i` have been followed,
      entries from `i` on are still those of the table. */
  ghost predicate Resolving(f: Func, m0: CopyMap, m: CopyMap, i: nat) {
    && |m| == |m0|
    && (forall v :: 0 <= v < |m| ==> Leads(f, |m|, v, m[v]))
    && (forall v :: i <= v < |m| ==> m[v] == m0[v])
    && (ShortChains(m0) ==> forall v :: 0 <= v < i && v < |m| ==> IsRoot(m0, m[v]))
    && (forall v :: 0 <= v < |m| && IsRoot(m0, v) ==> m[v] == v)
  }

  method CollectCopies(func: SsaFunc) returns (m: array<VReg>)
    requires InBounds(func.Value()) && SingleDef(func.Value())
    ensures fresh(m) && IsCopyTable(func.Value(), m[..])
  {
    ghost var f := func.Value();
    m := new VReg[func.nextVreg](v requires v >= 0 => v);
    for b := 0 to |func.blocks|
      invariant Collected(f, m[..], b, 0)
    {
      for i := 0 to |func.blocks[b]|
        invariant Collected(f, m[..], b, i)
      {
        var inst := func.blocks[b][i];
        ghost var before := m[..];
        if inst.op.Phi? && |inst.op.args| == 1 {
          if inst.dst.Some? && inst.dst.value < func.nextVreg {
            m[inst.dst.value] := inst.op.args[0].src;
            CollectedStep(f, before, b, i);
          }
        }
        assert f.Has(b, i) && f.At(b, i) == inst;
      }
    }
  }

  predicate Earlier(c: int, j: int, b: int, i: int) {
    c < b || (c == b && j < i)
  }

  /** The table with the copies met before (b, i). */
  ghost predicate Collected(f: Func, m: CopyMap, b: int, i: int) {
    && |m| == f.nextVreg
    && (forall c, j :: f.Has(c, j) && Earlier(c, j, b, i) && IsSinglePhi(f.At(c, j)) && f.At(c, j).dst.value < |m| ==>
          m[f.At(c, j).dst.value] == f.At(c, j).op.args[0].src)
    && (forall v :: 0 <= v < |m| && m[v] != v ==>
          exists c, j :: f.Has(c, j) && IsSinglePhi(f.At(c, j)) && f.At(c, j).dst == Some(v) && f.At(c, j).op.args[0].src == m[v])
  }

  lemma CollectedStep(f: Func, m: CopyMap, b: int, i: int)
    requires SingleDef(f) && Collected(f, m, b, i) && f.Has(b, i) && IsSinglePhi(f.At(b, i))
    requires f.At(b, i).dst.value < |m|
    ensures Collected(f, m[f.At(b, i).dst.value := f.At(b, i).op.args[0].src], b, i + 1)
  {
    var d, y := f.At(b, i).dst.value, f.At(b, i).op.args[0].src;
    var m' := m[d := y];
    forall v | 0 <= v < |m'| && m'[v] != v
      ensures exists c, j :: f.Has(c, j) && IsSinglePhi(f.At(c, j)) && f.At(c, j).dst == Some(v) && f.At(c, j).op.args[0].src == m'[v]
    {
      if v == d {
        assert f.At(b, i).dst == Some(v) && f.At(b, i).op.args[0].src == m'[v];
      } else {
        assert m[v] == m'[v];
      }
    }
    forall c, j | f.Has(c, j) && Earlier(c, j, b, i + 1) && IsSinglePhi(f.At(c, j)) && f.At(c, j).dst.value < |m|
      ensures m'[f.At(c, j).dst.value] == f.At(c, j).op.args[0].src
    {
      if c == b && j == i {} else { assert Earlier(c, j, b, i); }
    }
  }

  /** Follow one chain, at most MAX_DEPTH links far. */
  method Walk(ghost f: Func, ghost m0: CopyMap, m: array<VReg>, i: nat) returns (current: VReg)
    requires i < m.Length && Resolving(f, m0, m[..], i)
    ensures current < m.Length && Leads(f, m.Length, i, current)
    ensures ShortChains(m0) ==> m[current] == current || EndsWithin(m0, current, 0)
    ensures IsRoot(m0, i) ==> current == i
  {
    ghost var table := m[..];
    var depth := 0;
    current := i;
    ChainNone(f, i);
    while m[current] != current && depth < MAX_DEPTH
      invariant depth <= MAX_DEPTH && current < m.Length
      invariant Leads(f, m.Length, i, current)
      invariant ShortChains(m0) ==> EndsWithin(m0, current, MAX_DEPTH - depth)
      invariant IsRoot(m0, i) ==> current == i
      decreases MAX_DEPTH - depth
    {
      assert table[current] == m[current];
      WalkStep(f, m0, table, i, current, MAX_DEPTH - depth);
      current := m[current];
      depth := depth + 1;
    }
  }

  method Resolve(ghost f: Func, m: array<VReg>)
    requires InBounds(f) && IsCopyTable(f, m[..])
    modifies m
    ensures Resolving(f, old(m[..]), m[..], m.Length)
  {
    ghost var m0 := m[..];
    TableDone(f, m0);
    for i := 0 to m.Length
      invariant Resolving(f, m0, m[..], i)
    {
      ghost var table := m[..];
      var current := Walk(f, m0, m, i);
      ResolveOne(f, m0, table, i, current);
      m[i] := current;
      assert m[..] == table[i := current];
    }
  }

  lemma TableDone(f: Func, m0: CopyMap)
    requires InBounds(f) && IsCopyTable(f, m0)
    ensures Resolving(f, m0, m0, 0)
  {
    forall v | 0 <= v < |m0| ensures Leads(f, |m0|, v, m0[v]) {
      TableLeads(f, m0, v);
    }
  }

  lemma WalkStep(f: Func, m0: CopyMap, m: CopyMap, i: nat, current: VReg, left: nat)
    requires Resolving(f, m0, m, i) && i < |m| && current < |m| && left > 0 && m[current] != current
    requires Leads(f, |m|, i, current)
    requires ShortChains(m0) ==> EndsWithin(m0, current, left)
    requires IsRoot(m0, i) ==> current == i
    ensures Leads(f, |m|, i, m[current])
    ensures ShortChains(m0) ==> EndsWithin(m0, m[current], left - 1)
    ensures !IsRoot(m0, i)
  {
    assert Leads(f, |m|, current, m[current]);
    ChainAppend(f, i, current, m[current]);
  }

  lemma ResolveOne(f: Func, m0: CopyMap, m: CopyMap, i: nat, current: VReg)
    requires Resolving(f, m0, m, i) && i < |m| && current < |m|
    requires Leads(f, |m|, i, current)
    requires ShortChains(m0) ==> m[current] == current || EndsWithin(m0, current, 0)
    requires IsRoot(m0, i) ==> current == i
    ensures Resolving(f, m0, m[i := current], i + 1)
  {
  }

  // ---- Redirecting the uses ----

  ghost predicate ReadsBelow(op: Op, n: nat) {
    forall v: VReg :: Reads(op, v) ==> v < n
  }

  /** `op'` is `op` with every register it reads looked up in the map. */
  ghost predicate Redirects(op: Op, m: CopyMap, op': Op)
    requires ReadsBelow(op, |m|)
  {
    match op
    case Const(x) => op' == op
    case Jump(t) => op' == op
    case Binop(k, l, r) => assert Reads(op, l) && Reads(op, r); op' == Binop(k, m[l], m[r])
    case Unop(k, x) => assert Reads(op, x); op' == Unop(k, m[x])
    case Cmp(k, l, r) => assert Reads(op, l) && Reads(op, r); op' == Cmp(k, m[l], m[r])
    case Gep(p, off) => assert Reads(op, p); op' == Gep(m[p], off)
    case Phi(args) =>
      op'.Phi? && |op'.args| == |args|
      && forall k :: 0 <= k < |args| ==> assert Reads(op, args[k].src); op'.args[k] == PhiArg(m[args[k].src], args[k].pred)
    case Call(fn, actuals) =>
      op'.Call? && op'.func == fn && |op'.actuals| == |actuals|
      && forall k :: 0 <= k < |actuals| ==> assert Reads(op, actuals[k]); op'.actuals[k] == m[actuals[k]]
    case Print(x) => assert Reads(op, x); op' == Print(m[x])
    case Branch(c, t, e) => assert Reads(op, c); op' == Branch(m[c], t, e)
    case Ret(r) => (r.Some? ==> Reads(op, r.value)) && op' == Ret(if r.Some? then Some(m[r.value]) else None)
  }

  method ReplaceUses(inst: Inst, m: array<VReg>) returns (inst': Inst)
    requires ReadsBelow(inst.op, m.Length)
    ensures inst'.dst == inst.dst && Redirects(inst.op, m[..], inst'.op)
  {
    var op := inst.op;
    match op {
      case Binop(k, l, r) =>
        assert Reads(op, l) && Reads(op, r);
        op := Binop(k, m[l], m[r]);
      case Unop(k, x) =>
        assert Reads(op, x);
        op := Unop(k, m[x]);
      case Cmp(k, l, r) =>
        assert Reads(op, l) && Reads(op, r);
        op := Cmp(k, m[l], m[r]);
      case Gep(p, off) =>
        assert Reads(op, p);
        op := Gep(m[p], off);
      case Branch(c, t, e) =>
        assert Reads(op, c);
        op := Branch(m[c], t, e);
      case Call(fn, actuals) =>
        var redirected := actuals;
        for k := 0 to |actuals|
          invariant |redirected| == |actuals|
          invariant forall j :: k <= j < |actuals| ==> redirected[j] == actuals[j]
          invariant forall j :: 0 <= j < k ==> actuals[j] < m.Length && redirected[j] == m[actuals[j]]
        {
          assert Reads(inst.op, actuals[k]);
          redirected := redirected[k := m[redirected[k]]];
        }
        op := Call(fn, redirected);
      case Phi(args) =>
        var redirected := args;
        for k := 0 to |args|
          invariant |redirected| == |args|
          invariant forall j :: k <= j < |args| ==> redirected[j] == args[j]
          invariant forall j :: 0 <= j < k ==> args[j].src < m.Length && redirected[j] == PhiArg(m[args[j].src], args[j].pred)
        {
          assert Reads(inst.op, args[k].src);
          redirected := redirected[k := PhiArg(m[redirected[k].src], redirected[k].pred)];
        }
        op := Phi(redirected);
      case Ret(r) =>
        if r.Some? {
          assert Reads(op, r.value);
          op := Ret(Some(m[r.value]));
        }
      case Print(x) =>
        assert Reads(op, x);
        op := Print(m[x]);
      case Const(_) =>
      case Jump(_) =>
    }
    inst' := inst.(op := op);
  }

  ghost predicate IsRedirection(f: Func, m: CopyMap, g: Func) {
    && SameShape(f, g)
    && forall b, i :: f.Has(b, i) ==> Redirected(f.At(b, i), m, g.At(b, i))
  }

  ghost predicate Redirected(inst: Inst, m: CopyMap, inst': Inst) {
    ReadsBelow(inst.op, |m|) && inst'.dst == inst.dst && Redirects(inst.op, m, inst'.op)
  }

  method ReplaceAll(func: SsaFunc, m: array<VReg>)
    requires InBounds(func.Value()) && m.Length == func.nextVreg
    modifies func
    ensures IsRedirection(old(func.Value()), m[..], func.Value())
  {
    ghost var f, M := func.Value(), m[..];
    for b := 0 to |func.blocks|
      invariant SameShape(f, func.Value())
      invariant forall c, j :: f.Has(c, j) && c < b ==> Redirected(f.At(c, j), M, func.blocks[c][j])
      invariant forall c :: b <= c < |f.blocks| ==> func.blocks[c] == f.blocks[c]
    {
      for i := 0 to |func.blocks[b]|
        invariant SameShape(f, func.Value())
        invariant forall c, j :: f.Has(c, j) && Earlier(c, j, b, i) ==> Redirected(f.At(c, j), M, func.blocks[c][j])
        invariant forall j :: i <= j < |f.blocks[b]| ==> func.blocks[b][j] == f.blocks[b][j]
        invariant forall c :: b < c < |f.blocks| ==> func.blocks[c] == f.blocks[c]
      {
        assert f.Has(b, i) && f.At(b, i) == func.blocks[b][i];
        var inst := ReplaceUses(func.blocks[b][i], m);
        func.blocks := func.blocks[b := func.blocks[b][i := inst]];
      }
    }
  }

  /** What the pass is for: nothing reads a copy any more. */
  ghost predicate CopiesUnread(f: Func, g: Func) {
    forall b, i, c, j :: f.Has(b, i) && IsSinglePhi(f.At(b, i)) && f.At(b, i).op.args[0].src != f.At(b, i).dst.value && g.Has(c, j) ==>
      !Reads(g.At(c, j).op, f.At(b, i).dst.value)
  }

  /** Every chain of copies ends within the depth the source is willing to follow. */
  ghost predicate ChainsEnd(f: Func) {
    exists m :: IsCopyTable(f, m) && ShortChains(m)
  }

  /** The pass keeps meaning and SSA form, and where chains are short it leaves no reader
      of a copy behind. */
  ghost predicate Propagated(f: Func, g: Func) {
    && InBounds(g) && SingleDef(g) && Renames(f, g, {})
    && (Sound(f) ==> Sound(g) && Refines(f, g))
    && (ChainsEnd(f) ==> CopiesUnread(f, g))
  }

  method HasCopies(m: array<VReg>) returns (found: bool)
    ensures found <==> exists v :: 0 <= v < m.Length && m[v] != v
  {
    found := false;
    for v := 0 to m.Length
      invariant !found && forall u :: 0 <= u < v ==> m[u] == u
    {
      if m[v] != v {
        return true;
      }
    }
  }

  method OptCopyProp(func: SsaFunc)
    requires InBounds(func.Value()) && SingleDef(func.Value())
    modifies func
    ensures Propagated(old(func.Value()), func.Value())
  {
    ghost var f := func.Value();
    if func.nextVreg == 0 {
      NoRegisters(f);
      return;
    }
    var m := CollectCopies(func);
    ghost var m0 := m[..];
    Resolve(f, m);
    assert func.Value() == f;
    var hasCopies := HasCopies(m);
    if !hasCopies {
      NoCopies(f, m0, m[..]);
      return;
    }
    ReplaceAll(func, m);
    RedirectionPropagates(f, m0, m[..], func.Value());
  }

  lemma TableUnique(f: Func, m: CopyMap, m': CopyMap)
    requires InBounds(f) && IsCopyTable(f, m) && IsCopyTable(f, m')
    ensures m == m'
  {
  }

  lemma NoRegisters(f: Func)
    requires InBounds(f) && SingleDef(f) && f.nextVreg == 0
    ensures Propagated(f, f)
  {
    RefinesReflexive(f);
    RenamesSelf(f);
    forall b, i | f.Has(b, i) ensures f.At(b, i).dst.None? {
    }
  }

  lemma NoCopies(f: Func, m0: CopyMap, m: CopyMap)
    requires InBounds(f) && SingleDef(f) && IsCopyTable(f, m0) && Resolving(f, m0, m, |m|)
    requires forall v :: 0 <= v < |m| ==> m[v] == v
    ensures Propagated(f, f)
  {
    RefinesReflexive(f);
    RenamesSelf(f);
    if ChainsEnd(f) {
      var m1 :| IsCopyTable(f, m1) && ShortChains(m1);
      TableUnique(f, m0, m1);
      forall b, i | f.Has(b, i) && IsSinglePhi(f.At(b, i))
        ensures f.At(b, i).op.args[0].src == f.At(b, i).dst.value
      {
        assert IsRoot(m0, m[f.At(b, i).dst.value]);
      }
    }
  }

  lemma RedirectedReads(op: Op, m: CopyMap, op': Op, z: VReg) returns (v: VReg)
    requires ReadsBelow(op, |m|) && Redirects(op, m, op') && Reads(op', z)
    ensures Reads(op, v) && z == m[v]
  {
    match op
    case Binop(_, l, r) => v := if op'.lhs == z then l else r;
    case Unop(_, x) => v := x;
    case Cmp(_, l, r) => v := if op'.clhs == z then l else r;
    case Gep(p, _) => v := p;
    case Phi(args) =>
      var k :| 0 <= k < |op'.args| && op'.args[k].src == z;
      v := args[k].src;
      assert Reads(op, args[k].src);
    case Call(_, actuals) =>
      var k :| 0 <= k < |op'.actuals| && op'.actuals[k] == z;
      v := actuals[k];
    case Print(x) => v := x;
    case Branch(c, _, _) => v := c;
    case Ret(r) => v := r.value;
  }

  lemma RedirectedIsRenamed(f: Func, op: Op, m0: CopyMap, m: CopyMap, op': Op)
    requires ReadsBelow(op, |m|) && Redirects(op, m, op') && Resolving(f, m0, m, |m|)
    ensures Renamed(f, op, op')
  {
    forall v: VReg | v < |m| ensures Chain(f, v, m[v]) {
      assert Leads(f, |m|, v, m[v]);
    }
    match op
    case Phi(args) =>
      forall k | 0 <= k < |args| ensures Chain(f, args[k].src, op'.args[k].src) {
        assert Reads(op, args[k].src);
      }
    case Call(_, actuals) =>
      forall k | 0 <= k < |actuals| ensures Chain(f, actuals[k], op'.actuals[k]) {
        assert Reads(op, actuals[k]);
      }
    case Binop(_, l, r) => assert Reads(op, l) && Reads(op, r);
    case Cmp(_, l, r) => assert Reads(op, l) && Reads(op, r);
    case Unop(_, x) => assert Reads(op, x);
    case Gep(p, _) => assert Reads(op, p);
    case Print(x) => assert Reads(op, x);
    case Branch(c, _, _) => assert Reads(op, c);
    case _ =>
  }

  lemma RedirectionRenames(f: Func, m0: CopyMap, m: CopyMap, g: Func)
    requires Resolving(f, m0, m, |m|) && IsRedirection(f, m, g)
    ensures Renames(f, g, {})
  {
    forall b, i | f.Has(b, i) ensures g.At(b, i).dst == f.At(b, i).dst && Renamed(f, f.At(b, i).op, g.At(b, i).op) {
      assert Redirected(f.At(b, i), m, g.At(b, i));
      RedirectedIsRenamed(f, f.At(b, i).op, m0, m, g.At(b, i).op);
    }
  }

  lemma RedirectionReads(f: Func, m0: CopyMap, m: CopyMap, g: Func, b: nat, i: nat, z: VReg)
    requires Resolving(f, m0, m, |m|) && IsRedirection(f, m, g) && |m| == f.nextVreg
    requires g.Has(b, i) && Reads(g.At(b, i).op, z)
    ensures z < g.nextVreg
    ensures ShortChains(m0) ==> IsRoot(m0, z)
  {
    assert f.Has(b, i) && Redirected(f.At(b, i), m, g.At(b, i));
    var v := RedirectedReads(f.At(b, i).op, m, g.At(b, i).op, z);
    assert Leads(f, |m|, v, m[v]);
  }

  lemma RedirectionUnread(f: Func, m0: CopyMap, m: CopyMap, g: Func)
    requires InBounds(f) && IsCopyTable(f, m0) && Resolving(f, m0, m, |m|) && IsRedirection(f, m, g)
    ensures ChainsEnd(f) ==> CopiesUnread(f, g)
  {
    if ChainsEnd(f) {
      var m1 :| IsCopyTable(f, m1) && ShortChains(m1);
      TableUnique(f, m0, m1);
      forall b, i, c, j | f.Has(b, i) && IsSinglePhi(f.At(b, i)) && f.At(b, i).op.args[0].src != f.At(b, i).dst.value && g.Has(c, j)
        ensures !Reads(g.At(c, j).op, f.At(b, i).dst.value)
      {
        if Reads(g.At(c, j).op, f.At(b, i).dst.value) {
          RedirectionReads(f, m0, m, g, c, j, f.At(b, i).dst.value);
        }
      }
    }
  }

  lemma RedirectionCorrect(f: Func, m0: CopyMap, m: CopyMap, g: Func)
    requires InBounds(f) && SingleDef(f) && IsCopyTable(f, m0) && Resolving(f, m0, m, |m|) && IsRedirection(f, m, g)
    ensures InBounds(g) && SingleDef(g)
    ensures Sound(f) ==> Sound(g) && Refines(f, g)
  {
    RedirectionRenames(f, m0, m, g);
    forall b, i, z: VReg | g.Has(b, i) && Reads(g.At(b, i).op, z)
      ensures z < g.nextVreg
    {
      RedirectionReads(f, m0, m, g, b, i, z);
    }
    RenamesKeeps(f, g, {});
    if Sound(f) {
      RenamesPreserves(f, g, {});
      RenamesSound(f, g, {});
    }
  }

  lemma RedirectionPropagates(f: Func, m0: CopyMap, m: CopyMap, g: Func)
    requires InBounds(f) && SingleDef(f) && IsCopyTable(f, m0) && Resolving(f, m0, m, |m|) && IsRedirection(f, m, g)
    ensures Propagated(f, g)
  {
    RedirectionCorrect(f, m0, m, g);
    RedirectionRenames(f, m0, m, g);
    RedirectionUnread(f, m0, m, g);
  }
}
