/** Block-local common-subexpression elimination (src/opt_cse.c): a hash table of the
    expressions met in a block, and whole-function replacement of the later result by
    the earlier one. */
module Cse {
  import opened Wrappers
  import opened Word64
  import opened Ssa
  import opened StrictSsa
  import opened Rename

  // ---- What the pass computes ----

  predicate Candidate(inst: Inst) {
    inst.dst.Some? && (inst.op.Binop? || inst.op.Unop? || inst.op.Cmp?)
  }

  function Swap(v: VReg, x: VReg, y: VReg): VReg {
    if v == x then y else v
  }

  function SwapArgs(args: seq<PhiArg>, x: VReg, y: VReg): seq<PhiArg> {
    seq(|args|, k requires 0 <= k < |args| => args[k].(src := Swap(args[k].src, x, y)))
  }

  function SwapAll(vs: seq<VReg>, x: VReg, y: VReg): seq<VReg> {
    seq(|vs|, k requires 0 <= k < |vs| => Swap(vs[k], x, y))
  }

  /** Replacement in one operation; the switch of src/opt_cse.c:116-156 has no case for GEP. */
  function SwapOp(op: Op, x: VReg, y: VReg): Op {
    match op
    case Binop(k, l, r) => Binop(k, Swap(l, x, y), Swap(r, x, y))
    case Unop(k, o) => Unop(k, Swap(o, x, y))
    case Cmp(k, l, r) => Cmp(k, Swap(l, x, y), Swap(r, x, y))
    case Phi(args) => Phi(SwapArgs(args, x, y))
    case Call(f, actuals) => Call(f, SwapAll(actuals, x, y))
    case Print(v) => Print(Swap(v, x, y))
    case Branch(c, t, e) => Branch(Swap(c, x, y), t, e)
    case Ret(r) => Ret(if r.Some? then Some(Swap(r.value, x, y)) else None)
    case _ => op
  }

  function SwapBlock(b: Block, x: VReg, y: VReg): Block {
    seq(|b|, i requires 0 <= i < |b| => b[i].(op := SwapOp(b[i].op, x, y)))
  }

  function SwapFunc(f: Func, x: VReg, y: VReg): Func {
    f.(blocks := seq(|f.blocks|, b requires 0 <= b < |f.blocks| => SwapBlock(f.blocks[b], x, y)))
  }

  /** The first candidate before position `i` that computes `op`. */
  function FindSame(b: Block, i: nat, op: Op): (j: Option<nat>)
    requires i <= |b|
    ensures j.Some? ==> j.value < i && Candidate(b[j.value]) && b[j.value].op == op
    ensures j.None? ==> forall k :: 0 <= k < i ==> !(Candidate(b[k]) && b[k].op == op)
  {
    if i == 0 then None
    else match FindSame(b, i - 1, op)
      case Some(j) => Some(j)
      case None => if Candidate(b[i - 1]) && b[i - 1].op == op then Some(i - 1) else None
  }

  /** The effect of the pass on one instruction. */
  function CseStep(f: Func, b: nat, i: nat): (g: Func)
    requires f.Has(b, i)
    ensures |g.blocks| == |f.blocks| && forall c :: 0 <= c < |f.blocks| ==> |g.blocks[c]| == |f.blocks[c]|
  {
    var inst := f.At(b, i);
    if !Candidate(inst) then f
    else match FindSame(f.blocks[b], i, inst.op)
      case None => f
      case Some(j) =>
        var g := SwapFunc(f, inst.dst.value, f.At(b, j).dst.value);
        g.(blocks := g.blocks[b := g.blocks[b][i := Inst(inst.dst, Const(0))]])
  }

  function CseBlock(f: Func, b: nat, i: nat): (g: Func)
    requires b < |f.blocks| && i <= |f.blocks[b]|
    ensures |g.blocks| == |f.blocks| && forall c :: 0 <= c < |f.blocks| ==> |g.blocks[c]| == |f.blocks[c]|
  {
    if i == 0 then f else CseStep(CseBlock(f, b, i - 1), b, i - 1)
  }

  function CseUpTo(f: Func, b: nat): (g: Func)
    requires b <= |f.blocks|
    ensures |g.blocks| == |f.blocks| && forall c :: 0 <= c < |f.blocks| ==> |g.blocks[c]| == |f.blocks[c]|
  {
    if b == 0 then f else var g := CseUpTo(f, b - 1); CseBlock(g, b - 1, |g.blocks[b - 1]|)
  }

  function CseFunc(f: Func): Func {
    CseUpTo(f, |f.blocks|)
  }

  // ---- Why it is right ----

  /** No instruction but a PHI reads a register that its own block defines there or later. */
  ghost predicate LocalOrder(f: Func) {
    forall b, i, j :: f.Has(b, i) && f.Has(b, j) && i <= j && !f.At(b, i).op.Phi? && f.At(b, j).dst.Some? ==>
      !Reads(f.At(b, i).op, f.At(b, j).dst.value)
  }

  /** Strict SSA gives that order in every block that can be reached. */
  lemma StrictGivesLocalOrder(f: Func)
    requires SingleDef(f) && Strict(f)
    requires forall b: Label :: b < |f.blocks| ==> Reachable(f, b)
    ensures LocalOrder(f)
  {
    forall b, i, j | f.Has(b, i) && f.Has(b, j) && i <= j && !f.At(b, i).op.Phi? && f.At(b, j).dst.Some?
      ensures !Reads(f.At(b, i).op, f.At(b, j).dst.value)
    {
      var v := f.At(b, j).dst.value;
      assert UsesOk(f, b, i, f.At(b, i).op);
      if Reads(f.At(b, i).op, v) {
        NotDefinedLater(f, v, b, i, j);
      }
    }
  }

  lemma SwapRenamed(f: Func, op: Op, x: VReg, y: VReg)
    requires CopyOf(f, x, y) && !(op.Gep? && op.ptr == x)
    ensures Renamed(f, op, SwapOp(op, x, y))
  {
    forall v: VReg, z: VReg | z == Swap(v, x, y) ensures Chain(f, v, z) {
      ChainNone(f, v);
      ChainOne(f, x, y);
    }
    match op
    case Ret(r) => if r.Some? { assert Chain(f, r.value, Swap(r.value, x, y)); }
    case _ =>
  }

  lemma SwapReads(op: Op, x: VReg, y: VReg, v: VReg)
    requires x != y && !(op.Gep? && op.ptr == x) && Reads(SwapOp(op, x, y), v)
    ensures v != x && (v == y || Reads(op, v))
  {
    match op
    case Phi(args) =>
      var k :| 0 <= k < |args| && SwapArgs(args, x, y)[k].src == v;
      assert v == Swap(args[k].src, x, y);
    case Call(_, actuals) =>
      var k :| 0 <= k < |actuals| && SwapAll(actuals, x, y)[k] == v;
      assert v == Swap(actuals[k], x, y);
    case _ =>
  }

  /** What one step does where it finds an earlier result. */
  lemma StepShape(f: Func, b: nat, i: nat, j: nat, c: nat, k: nat)
    requires f.Has(b, i) && Candidate(f.At(b, i)) && FindSame(f.blocks[b], i, f.At(b, i).op) == Some(j)
    requires f.Has(c, k)
    ensures var x, y := f.At(b, i).dst.value, f.At(b, j).dst.value;
            CseStep(f, b, i).At(c, k) ==
              if c == b && k == i then Inst(f.At(b, i).dst, Const(0)) else f.At(c, k).(op := SwapOp(f.At(c, k).op, x, y))
  {
  }

  /** No GEP takes its pointer from instruction (b, i). */
  ghost predicate GepsAvoid(f: Func, b: nat, i: nat)
    requires f.Has(b, i)
  {
    forall c, k :: f.Has(c, k) && f.At(c, k).op.Gep? ==> f.At(b, i).dst != Some(f.At(c, k).op.ptr)
  }

  lemma StepRenames(f: Func, b: nat, i: nat, j: nat)
    requires Sound(f) && f.Has(b, i) && GepsAvoid(f, b, i) && Candidate(f.At(b, i)) && FindSame(f.blocks[b], i, f.At(b, i).op) == Some(j)
    ensures Renames(f, CseStep(f, b, i), {f.At(b, i).dst.value})
  {
    var g := CseStep(f, b, i);
    var x, y := f.At(b, i).dst.value, f.At(b, j).dst.value;
    assert f.Has(b, j) && x != y;
    assert Repeats(f, x, y, b, i);
    forall c, k | f.Has(c, k)
      ensures g.At(c, k).dst == f.At(c, k).dst
      ensures c == b && k == i ==> g.At(c, k).op.Const?
      ensures !(c == b && k == i) ==> Renamed(f, f.At(c, k).op, g.At(c, k).op)
      ensures !Reads(g.At(c, k).op, x)
    {
      StepShape(f, b, i, j, c, k);
      assert f.At(c, k).op.Gep? ==> f.At(c, k).op.ptr != x;
      SwapRenamed(f, f.At(c, k).op, x, y);
      if Reads(SwapOp(f.At(c, k).op, x, y), x) {
        SwapReads(f.At(c, k).op, x, y, x);
      }
    }
  }

  /** One step keeps meaning and everything the next step needs, unless a GEP is left reading
      what it eliminates. */
  lemma StepCorrect(f: Func, b: nat, i: nat)
    requires Sound(f) && LocalOrder(f) && f.Has(b, i) && (CseStep(f, b, i) == f || GepsAvoid(f, b, i))
    ensures Sound(CseStep(f, b, i)) && LocalOrder(CseStep(f, b, i)) && Refines(f, CseStep(f, b, i))
  {
    var g := CseStep(f, b, i);
    if g == f {
      RefinesReflexive(f);
    } else {
      var j := FindSame(f.blocks[b], i, f.At(b, i).op).value;
      var x, y := f.At(b, i).dst.value, f.At(b, j).dst.value;
      StepRenames(f, b, i, j);
      assert f.Has(b, j);
      forall c, k, v: VReg | g.Has(c, k) && Reads(g.At(c, k).op, v) ensures v < g.nextVreg {
        StepShape(f, b, i, j, c, k);
        SwapReads(f.At(c, k).op, x, y, v);
      }
      RenamesPreserves(f, g, {x});
      RenamesKeeps(f, g, {x});
      RenamesSound(f, g, {x});
      StepOrder(f, b, i, j);
    }
  }

  lemma StepOrder(f: Func, b: nat, i: nat, j: nat)
    requires SingleDef(f) && LocalOrder(f) && f.Has(b, i) && Candidate(f.At(b, i)) && FindSame(f.blocks[b], i, f.At(b, i).op) == Some(j)
    ensures LocalOrder(CseStep(f, b, i))
  {
    var g := CseStep(f, b, i);
    var x, y := f.At(b, i).dst.value, f.At(b, j).dst.value;
    assert f.Has(b, j);
    forall c, k, m | g.Has(c, k) && g.Has(c, m) && k <= m && !g.At(c, k).op.Phi? && g.At(c, m).dst.Some?
      ensures !Reads(g.At(c, k).op, g.At(c, m).dst.value)
    {
      StepShape(f, b, i, j, c, k);
      StepShape(f, b, i, j, c, m);
      var v := g.At(c, m).dst.value;
      assert f.Has(c, k) && f.Has(c, m) && f.At(c, m).dst == Some(v);
      assert !f.At(c, k).op.Phi? ==> !Reads(f.At(c, k).op, v);
      if v == y {
        assert c == b && m == j;
        assert f.Has(b, k) && k <= i && (!f.At(b, k).op.Phi? ==> !Reads(f.At(b, k).op, x));
      }
      SwapIntroduces(f.At(c, k).op, x, y, v);
    }
  }

  lemma SwapIntroduces(op: Op, x: VReg, y: VReg, v: VReg)
    ensures Reads(SwapOp(op, x, y), v) ==> Reads(op, v) || (v == y && Reads(op, x))
  {
    if Reads(SwapOp(op, x, y), v) {
      match op
      case Phi(args) =>
        var k :| 0 <= k < |args| && SwapArgs(args, x, y)[k].src == v;
        assert args[k].src == v || args[k].src == x;
      case Call(_, actuals) =>
        var k :| 0 <= k < |actuals| && SwapAll(actuals, x, y)[k] == v;
        assert actuals[k] == v || actuals[k] == x;
      case _ =>
    }
  }

  // ---- The hash table ----

  /** The key of src/opt_cse.c:14-21: unused fields are zero. */
  datatype CseKey = CseKey(op: nat, binop: BinOpKind, unop: UnOpKind, cmp: CmpKind, operand1: VReg, operand2: VReg)

  datatype CseEntry = CseEntry(key: CseKey, vreg: VReg)

  const TABLE_SIZE := 1024
  const OP_BINOP := 1
  const OP_UNOP := 2
  const OP_CMP := 6

  function KeyOf(inst: Inst): CseKey
    requires Candidate(inst)
  {
    match inst.op
    case Binop(k, l, r) => CseKey(OP_BINOP, k, Neg, Eq, l, r)
    case Unop(k, o) => CseKey(OP_UNOP, Add, k, Eq, o, 0)
    case Cmp(k, l, r) => CseKey(OP_CMP, Add, Neg, k, l, r)
  }

  function BinopCode(k: BinOpKind): nat {
    match k
    case Add => 0 case Sub => 1 case Mul => 2 case Div => 3 case Mod => 4
    case And => 5 case Or => 6 case Xor => 7 case LShift => 8 case RShift => 9
  }

  function UnopCode(k: UnOpKind): nat {
    match k case Neg => 0 case Not => 1 case BNot => 2
  }

  function CmpCode(k: CmpKind): nat {
    match k case Eq => 0 case Neq => 1 case Lt => 2 case Gt => 3 case Leq => 4 case Geq => 5
  }

  const UINT32: nat := 0x1_0000_0000

  function Mix(h: nat, x: nat): nat {
    Bitwise((p, q) => p != q, h, x % UINT32, 32)
  }

  function Hash(key: CseKey): (h: nat)
    ensures h < TABLE_SIZE
  {
    Mix(Mix(Mix(Mix(Mix(key.op * 31, BinopCode(key.binop) * 37), UnopCode(key.unop) * 41),
                CmpCode(key.cmp) * 43), key.operand1 * 53), key.operand2 * 59) % TABLE_SIZE
  }

  type Table = seq<seq<CseEntry>>

  ghost predicate EntryFor(g: Func, b: nat, j: nat, e: CseEntry) {
    g.Has(b, j) && Candidate(g.At(b, j)) && KeyOf(g.At(b, j)) == e.key && g.At(b, j).dst == Some(e.vreg)
  }

  ghost predicate Recorded(g: Func, b: nat, i: nat, e: CseEntry) {
    exists j :: 0 <= j < i && EntryFor(g, b, j, e)
  }

  /** The table holds exactly the candidates met in block `b` before `i`, which are all
      different. */
  ghost predicate TableOk(g: Func, b: nat, i: nat, T: Table) {
    |T| == TABLE_SIZE && TableSound(g, b, i, T) && TableComplete(g, b, i, T) && AllDifferent(g, b, i)
  }

  ghost predicate TableSound(g: Func, b: nat, i: nat, T: Table) {
    forall h, k :: 0 <= h < |T| && 0 <= k < |T[h]| ==> Recorded(g, b, i, T[h][k])
  }

  ghost predicate TableComplete(g: Func, b: nat, i: nat, T: Table)
    requires |T| == TABLE_SIZE
  {
    forall j :: 0 <= j < i && g.Has(b, j) && Candidate(g.At(b, j)) ==>
      CseEntry(KeyOf(g.At(b, j)), g.At(b, j).dst.value) in T[Hash(KeyOf(g.At(b, j)))]
  }

  ghost predicate AllDifferent(g: Func, b: nat, i: nat) {
    forall j, k :: 0 <= j < k < i && g.Has(b, j) && g.Has(b, k) && Candidate(g.At(b, j)) && Candidate(g.At(b, k)) ==>
      g.At(b, j).op != g.At(b, k).op
  }

  /** `k` is the first place of the key in the chain, or the chain's length. */
  predicate Finds(chain: seq<CseEntry>, key: CseKey, k: nat) {
    && k <= |chain|
    && (forall m :: 0 <= m < k ==> chain[m].key != key)
    && (k < |chain| ==> chain[k].key == key)
  }

  /** Looking the key up in its chain is looking for the expression in the block. */
  lemma LookupFinds(g: Func, b: nat, i: nat, T: Table, k: nat)
    requires g.Has(b, i) && Candidate(g.At(b, i)) && TableOk(g, b, i, T)
    requires Finds(T[Hash(KeyOf(g.At(b, i)))], KeyOf(g.At(b, i)), k)
    ensures var chain := T[Hash(KeyOf(g.At(b, i)))];
            var found := FindSame(g.blocks[b], i, g.At(b, i).op);
            if k < |chain| then found.Some? && g.At(b, found.value).dst == Some(chain[k].vreg) else found.None?
  {
    var key := KeyOf(g.At(b, i));
    var h := Hash(key);
    hide Hash;
    var found := FindSame(g.blocks[b], i, g.At(b, i).op);
    if k < |T[h]| {
      var j :| 0 <= j < i && EntryFor(g, b, j, T[h][k]);
      assert g.At(b, j).op == g.At(b, i).op && g.Has(b, found.value);
    } else {
      forall j | 0 <= j < i && g.Has(b, j) && Candidate(g.At(b, j)) ensures KeyOf(g.At(b, j)) != key {
        var e := CseEntry(KeyOf(g.At(b, j)), g.At(b, j).dst.value);
        assert e in T[Hash(e.key)];
      }
      assert found.None?;
    }
  }

  function Insert(T: Table, e: CseEntry): Table
    requires |T| == TABLE_SIZE
  {
    T[Hash(e.key) := [e] + T[Hash(e.key)]]
  }

  lemma InsertContains(T: Table, e: CseEntry, h: nat, e': CseEntry)
    requires |T| == TABLE_SIZE && h < TABLE_SIZE
    ensures e' in Insert(T, e)[h] <==> e' in T[h] || (e' == e && h == Hash(e.key))
  {
    hide Hash;
    if h == Hash(e.key) {
      assert Insert(T, e)[h][0] == e;
      assert Insert(T, e)[h][1..] == T[h];
      assert forall k :: 0 <= k < |T[h]| ==> Insert(T, e)[h][k + 1] == T[h][k];
    }
  }

  lemma InsertSound(g: Func, b: nat, i: nat, T: Table, e: CseEntry)
    requires |T| == TABLE_SIZE && TableSound(g, b, i, T) && EntryFor(g, b, i, e)
    ensures TableSound(g, b, i + 1, Insert(T, e))
  {
    hide Hash, Insert, EntryFor;
    var T' := Insert(T, e);
    InsertSize(T, e);
    forall h, k | 0 <= h < |T'| && 0 <= k < |T'[h]| ensures Recorded(g, b, i + 1, T'[h][k]) {
      InsertContains(T, e, h, T'[h][k]);
      if T'[h][k] != e {
        var k' :| 0 <= k' < |T[h]| && T[h][k'] == T'[h][k];
        assert Recorded(g, b, i, T[h][k']);
      }
    }
  }

  lemma InsertComplete(g: Func, b: nat, i: nat, T: Table, e: CseEntry)
    requires |T| == TABLE_SIZE && |Insert(T, e)| == TABLE_SIZE && TableComplete(g, b, i, T) && EntryFor(g, b, i, e)
    ensures TableComplete(g, b, i + 1, Insert(T, e))
  {
    hide Hash, Insert;
    var T' := Insert(T, e);
    forall j | 0 <= j < i + 1 && g.Has(b, j) && Candidate(g.At(b, j))
      ensures CseEntry(KeyOf(g.At(b, j)), g.At(b, j).dst.value) in T'[Hash(KeyOf(g.At(b, j)))]
    {
      var e' := CseEntry(KeyOf(g.At(b, j)), g.At(b, j).dst.value);
      InsertContains(T, e, Hash(e'.key), e');
    }
  }

  lemma InsertKeeps(g: Func, b: nat, i: nat, T: Table)
    requires g.Has(b, i) && Candidate(g.At(b, i)) && TableOk(g, b, i, T)
    requires FindSame(g.blocks[b], i, g.At(b, i).op).None?
    ensures TableOk(g, b, i + 1, Insert(T, CseEntry(KeyOf(g.At(b, i)), g.At(b, i).dst.value)))
  {
    hide Hash, Insert, TableSound, TableComplete;
    var e := CseEntry(KeyOf(g.At(b, i)), g.At(b, i).dst.value);
    InsertSize(T, e);
    assert EntryFor(g, b, i, e);
    InsertSound(g, b, i, T, e);
    InsertComplete(g, b, i, T, e);
    assert AllDifferent(g, b, i + 1);
  }

  lemma InsertSize(T: Table, e: CseEntry)
    requires |T| == TABLE_SIZE
    ensures |Insert(T, e)| == TABLE_SIZE
  {
  }

  lemma ReplaceKeeps(g: Func, b: nat, i: nat, T: Table)
    requires SingleDef(g) && LocalOrder(g) && g.Has(b, i) && TableOk(g, b, i, T)
    requires Candidate(g.At(b, i)) && FindSame(g.blocks[b], i, g.At(b, i).op).Some?
    ensures TableOk(CseStep(g, b, i), b, i + 1, T)
  {
    var g' := CseStep(g, b, i);
    var j := FindSame(g.blocks[b], i, g.At(b, i).op).value;
    var x, y := g.At(b, i).dst.value, g.At(b, j).dst.value;
    forall k | 0 <= k <= i
      ensures g'.Has(b, k) && (k < i ==> (Candidate(g'.At(b, k)) <==> Candidate(g.At(b, k))))
      ensures k < i && Candidate(g.At(b, k)) ==> g'.At(b, k) == g.At(b, k)
      ensures k == i ==> !Candidate(g'.At(b, k))
    {
      assert g.Has(b, k);
      StepShape(g, b, i, j, b, k);
      assert !g.At(b, k).op.Phi? ==> !Reads(g.At(b, k).op, x);
    }
    forall h, k | 0 <= h < |T| && 0 <= k < |T[h]| ensures Recorded(g', b, i + 1, T[h][k]) {
      assert Recorded(g, b, i, T[h][k]);
      var m :| 0 <= m < i && EntryFor(g, b, m, T[h][k]);
      assert EntryFor(g', b, m, T[h][k]);
    }
  }

  lemma StepSingleDef(g: Func, b: nat, i: nat)
    requires SingleDef(g) && g.Has(b, i)
    ensures SingleDef(CseStep(g, b, i))
  {
    var g' := CseStep(g, b, i);
    if g' != g {
      var j := FindSame(g.blocks[b], i, g.At(b, i).op).value;
      forall c, k | g'.Has(c, k)
        ensures g.Has(c, k) && g'.At(c, k).dst == g.At(c, k).dst
        ensures g'.At(c, k).op.IsTerminator() || g'.At(c, k).op.Print? ==> g'.At(c, k).dst.None?
      {
        StepShape(g, b, i, j, c, k);
      }
      forall c, k, d, m | g'.Has(c, k) && g'.Has(d, m) && g'.At(c, k).dst.Some? && g'.At(c, k).dst == g'.At(d, m).dst
        ensures c == d && k == m
      {
        assert g.Has(c, k) && g.Has(d, m) && g.At(c, k).dst == g.At(d, m).dst;
      }
    }
  }

  // ---- The pass ----

  method SwapUses(op: Op, x: VReg, y: VReg) returns (op': Op)
    ensures op' == SwapOp(op, x, y)
  {
    op' := op;
    match op {
      case Binop(k, l, r) =>
        if l == x { op' := op'.(lhs := y); }
        if r == x { op' := op'.(rhs := y); }
      case Unop(k, o) =>
        if o == x { op' := op'.(operand := y); }
      case Cmp(k, l, r) =>
        if l == x { op' := op'.(clhs := y); }
        if r == x { op' := op'.(crhs := y); }
      case Branch(c, t, e) =>
        if c == x { op' := op'.(cond := y); }
      case Call(fn, actuals) =>
        var vs := actuals;
        for k := 0 to |vs|
          invariant |vs| == |actuals|
          invariant forall j :: k <= j < |vs| ==> vs[j] == actuals[j]
          invariant forall j :: 0 <= j < k ==> vs[j] == Swap(actuals[j], x, y)
        {
          if vs[k] == x { vs := vs[k := y]; }
        }
        assert vs == SwapAll(actuals, x, y);
        op' := Call(fn, vs);
      case Ret(r) =>
        if r == Some(x) { op' := Ret(Some(y)); }
      case Phi(args) =>
        var vs := args;
        for k := 0 to |vs|
          invariant |vs| == |args|
          invariant forall j :: k <= j < |vs| ==> vs[j] == args[j]
          invariant forall j :: 0 <= j < k ==> vs[j] == args[j].(src := Swap(args[j].src, x, y))
        {
          if vs[k].src == x { vs := vs[k := vs[k].(src := y)]; }
        }
        assert vs == SwapArgs(args, x, y);
        op' := Phi(vs);
      case Print(v) =>
        if v == x { op' := Print(y); }
      case Const(_) =>
      case Jump(_) =>
      case Gep(_, _) =>
    }
  }

  method ReplaceUses(func: SsaFunc, x: VReg, y: VReg)
    modifies func
    ensures func.Value() == SwapFunc(old(func.Value()), x, y)
  {
    ghost var f := func.Value();
    for b := 0 to |func.blocks|
      invariant |func.blocks| == |f.blocks|
      invariant forall c :: 0 <= c < b ==> func.blocks[c] == SwapBlock(f.blocks[c], x, y)
      invariant forall c :: b <= c < |f.blocks| ==> func.blocks[c] == f.blocks[c]
    {
      for i := 0 to |func.blocks[b]|
        invariant |func.blocks| == |f.blocks| && |func.blocks[b]| == |f.blocks[b]|
        invariant forall c :: 0 <= c < b ==> func.blocks[c] == SwapBlock(f.blocks[c], x, y)
        invariant forall j :: 0 <= j < i ==> func.blocks[b][j] == f.blocks[b][j].(op := SwapOp(f.blocks[b][j].op, x, y))
        invariant forall j :: i <= j < |f.blocks[b]| ==> func.blocks[b][j] == f.blocks[b][j]
        invariant forall c :: b < c < |f.blocks| ==> func.blocks[c] == f.blocks[c]
      {
        var op := SwapUses(func.blocks[b][i].op, x, y);
        func.blocks := func.blocks[b := func.blocks[b][i := func.blocks[b][i].(op := op)]];
      }
      assert func.blocks[b] == SwapBlock(f.blocks[b], x, y);
    }
    assert func.blocks == SwapFunc(f, x, y).blocks;
  }

  /** Walk one chain for the key. */
  method Lookup(chain: seq<CseEntry>, key: CseKey) returns (k: nat)
    ensures Finds(chain, key, k)
  {
    k := 0;
    while k < |chain| && chain[k].key != key
      invariant k <= |chain| && forall m :: 0 <= m < k ==> chain[m].key != key
    {
      k := k + 1;
    }
  }

  method VisitInst(func: SsaFunc, b: nat, i: nat, table: array<seq<CseEntry>>)
    requires func.Value().Has(b, i) && TableOk(func.Value(), b, i, table[..])
    requires SingleDef(func.Value()) && LocalOrder(func.Value())
    modifies func, table
    ensures func.Value() == CseStep(old(func.Value()), b, i)
    ensures TableOk(func.Value(), b, i + 1, table[..])
    ensures SingleDef(func.Value()) && LocalOrder(func.Value())
  {
    ghost var g, T := func.Value(), table[..];
    var inst := func.blocks[b][i];
    if inst.dst.None? || !(inst.op.Binop? || inst.op.Unop? || inst.op.Cmp?) {
      return;
    }
    var key := KeyOf(inst);
    var h := Hash(key);
    var k := Lookup(table[h], key);
    LookupFinds(g, b, i, T, k);
    if k < |table[h]| {
      ReplaceKeeps(g, b, i, T);
      StepSingleDef(g, b, i);
      StepOrder(g, b, i, FindSame(g.blocks[b], i, inst.op).value);
      ReplaceUses(func, inst.dst.value, table[h][k].vreg);
      func.blocks := func.blocks[b := func.blocks[b][i := func.blocks[b][i].(op := Const(0))]];
      assert func.Value() == CseStep(g, b, i);
    } else {
      InsertKeeps(g, b, i, T);
      table[h] := [CseEntry(key, inst.dst.value)] + table[h];
      assert table[..] == Insert(T, CseEntry(key, inst.dst.value));
    }
  }

  method OptCse(func: SsaFunc)
    requires SingleDef(func.Value()) && LocalOrder(func.Value())
    modifies func
    ensures func.Value() == CseFunc(old(func.Value()))
  {
    ghost var f := func.Value();
    var table := new seq<CseEntry>[TABLE_SIZE](_ => []);
    for b := 0 to |func.blocks|
      invariant func.Value() == CseUpTo(f, b)
      invariant SingleDef(func.Value()) && LocalOrder(func.Value())
    {
      ghost var g := func.Value();
      for h := 0 to TABLE_SIZE
        invariant func.Value() == g
        invariant forall m :: 0 <= m < h ==> table[m] == []
      {
        table[h] := [];
      }
      for i := 0 to |func.blocks[b]|
        invariant |func.blocks| == |g.blocks| && |func.blocks[b]| == |g.blocks[b]|
        invariant func.Value() == CseBlock(g, b, i)
        invariant SingleDef(func.Value()) && LocalOrder(func.Value())
        invariant TableOk(func.Value(), b, i, table[..])
      {
        VisitInst(func, b, i, table);
      }
    }
  }
}
