/** The verifier run before and after the optimiser (src/ssa_verify.c). */
module SsaVerify {
  import opened Wrappers
  import opened Ssa

  /** Operands, targets and PHI predecessors name registers and blocks that exist.
      The pointer of a GEP is not looked at: src/ssa_verify.c:42-160 has no case for it. */
  ghost predicate OperandsInRange(f: Func, op: Op) {
    && (forall v: VReg :: Reads(op, v) && !op.Gep? ==> v < f.nextVreg)
    && (op.Branch? ==> op.trueBb < |f.blocks| && op.falseBb < |f.blocks|)
    && (op.Jump? ==> op.target < |f.blocks|)
    && (op.Phi? ==> forall k :: 0 <= k < |op.args| ==> op.args[k].pred < |f.blocks|)
  }

  ghost predicate InstOk(f: Func, inst: Inst) {
    OperandsInRange(f, inst.op) && (inst.dst.Some? ==> inst.dst.value < f.nextVreg)
  }

  /** A block is empty, or its last instruction is its only terminator and everything it
      mentions is in range. */
  ghost predicate BlockOk(f: Func, b: Block) {
    b != [] ==>
      && (forall i :: 0 <= i < |b| ==> (b[i].op.IsTerminator() <==> i == |b| - 1))
      && (forall i :: 0 <= i < |b| ==> InstOk(f, b[i]))
  }

  ghost predicate Accepts(f: Func) {
    && f.entry < |f.blocks|
    && forall b :: 0 <= b < |f.blocks| ==> BlockOk(f, f.blocks[b])
  }

  method VerifyInst(func: SsaFunc, inst: Inst) returns (ok: bool)
    ensures ok <==> InstOk(func.Value(), inst)
  {
    ok := true;
    var nregs, nblocks := func.nextVreg, |func.blocks|;
    match inst.op {
      case Binop(_, l, r) =>
        if l >= nregs { ok := false; }
        if r >= nregs { ok := false; }
        assert ok <==> (Reads(inst.op, l) ==> l < nregs) && (Reads(inst.op, r) ==> r < nregs);
      case Unop(_, x) =>
        if x >= nregs { ok := false; }
        assert Reads(inst.op, x);
      case Cmp(_, l, r) =>
        if l >= nregs { ok := false; }
        if r >= nregs { ok := false; }
        assert Reads(inst.op, l) && Reads(inst.op, r);
      case Branch(c, t, e) =>
        if t >= nblocks { ok := false; }
        if e >= nblocks { ok := false; }
        if c >= nregs { ok := false; }
        assert Reads(inst.op, c);
      case Jump(t) =>
        if t >= nblocks { ok := false; }
      case Ret(x) =>
        if x.Some? && x.value >= nregs { ok := false; }
        assert x.Some? ==> Reads(inst.op, x.value);
      case Call(_, actuals) =>
        for j := 0 to |actuals|
          invariant ok <==> forall k :: 0 <= k < j ==> actuals[k] < nregs
        {
          if actuals[j] >= nregs { ok := false; }
        }
        assert forall k :: 0 <= k < |actuals| ==> Reads(inst.op, actuals[k]);
      case Phi(args) =>
        for j := 0 to |args|
          invariant ok <==> forall k :: 0 <= k < j ==> args[k].src < nregs && args[k].pred < nblocks
        {
          if args[j].src >= nregs { ok := false; }
          if args[j].pred >= nblocks { ok := false; }
        }
        assert forall k :: 0 <= k < |args| ==> Reads(inst.op, args[k].src);
      case Print(x) =>
        if x >= nregs { ok := false; }
        assert Reads(inst.op, x);
      case Const(_) =>
      case Gep(_, _) =>
    }
    if inst.dst.Some? && inst.dst.value >= nregs { ok := false; }
  }

  method VerifyBlock(func: SsaFunc, b: Block) returns (ok: bool)
    ensures ok <==> BlockOk(func.Value(), b)
  {
    ok := true;
    if |b| == 0 { return; }
    if !b[|b| - 1].op.IsTerminator() { ok := false; }
    for i := 0 to |b| - 1
      invariant ok <==> b[|b| - 1].op.IsTerminator() && forall k :: 0 <= k < i ==> !b[k].op.IsTerminator()
    {
      if b[i].op.IsTerminator() { ok := false; }
    }
    assert ok <==> forall i :: 0 <= i < |b| ==> (b[i].op.IsTerminator() <==> i == |b| - 1);
    ghost var placed := ok;
    for i := 0 to |b|
      invariant ok <==> placed && forall k :: 0 <= k < i ==> InstOk(func.Value(), b[k])
    {
      var fine := VerifyInst(func, b[i]);
      if !fine { ok := false; }
    }
  }

  method VerifyFunc(func: SsaFunc) returns (ok: bool)
    ensures ok <==> Accepts(func.Value())
  {
    ok := true;
    for b := 0 to |func.blocks|
      invariant ok <==> forall k :: 0 <= k < b ==> BlockOk(func.Value(), func.blocks[k])
    {
      var fine := VerifyBlock(func, func.blocks[b]);
      if !fine { ok := false; }
    }
    if func.entry >= |func.blocks| { ok := false; }
  }

  /** What the passes need to index their per-register tables. */
  ghost predicate InBounds(f: Func) {
    && (forall b, i, v: VReg :: f.Has(b, i) && Reads(f.At(b, i).op, v) ==> v < f.nextVreg)
    && (forall b, i :: f.Has(b, i) && f.At(b, i).dst.Some? ==> f.At(b, i).dst.value < f.nextVreg)
    && (forall v :: v in f.params ==> v < f.nextVreg)
  }

  /** The verifier guarantees that, GEP pointers and parameters apart. */
  lemma AcceptedIsInBounds(f: Func)
    requires Accepts(f)
    requires forall v :: v in f.params ==> v < f.nextVreg
    requires forall b, i :: f.Has(b, i) && f.At(b, i).op.Gep? ==> f.At(b, i).op.ptr < f.nextVreg
    ensures InBounds(f)
  {
    forall b, i, v: VReg | f.Has(b, i) && Reads(f.At(b, i).op, v)
      ensures v < f.nextVreg
    {
      assert BlockOk(f, f.blocks[b]) && InstOk(f, f.blocks[b][i]);
    }
    forall b, i | f.Has(b, i) && f.At(b, i).dst.Some?
      ensures f.At(b, i).dst.value < f.nextVreg
    {
      assert BlockOk(f, f.blocks[b]) && InstOk(f, f.blocks[b][i]);
    }
  }
}
