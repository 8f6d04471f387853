/** Instruction selection (src/isel.c): lowering, and PHI elimination by copies on the
    incoming edges, splitting the taken edge of a conditional branch. */
module Isel {
  import opened Wrappers
  import opened Word64
  import opened Ssa
  import opened Mach

  // ---- Lowering ----

  function Dst(inst: Inst): nat {
    match inst.dst case Some(d) => d case None => INVALID_VREG
  }

  function AluOp(k: BinOpKind): (op: MachOp)
    ensures op.IsAlu()
  {
    match k
    case Add => ADD case Sub => SUB case Mul => MUL case Div => DIV case Mod => MOD
    case And => AND case Or => OR case Xor => XOR case LShift => SHL case RShift => SHR
  }

  /** What one SSA instruction becomes; a PRINT is a call whose destination field stays 0,
      and a PHI becomes nothing. */
  function LowerInst(inst: Inst): seq<MachInst> {
    match inst.op
    case Const(x) => if inst.dst.None? then [] else [Make(MOV_IMM, Dst(inst), 0, 0, x)]
    case Binop(k, l, r) => [Make(AluOp(k), Dst(inst), l, r, 0)]
    case Unop(k, x) =>
      (match k
       case Neg => [Make(NEG, Dst(inst), x, 0, 0)]
       case Not => [Make(TEST, 0, x, x, 0), Make(SET(Eq), Dst(inst), 0, 0, 0)]
       case BNot => [Make(NOT, Dst(inst), x, 0, 0)])
    case Cmp(k, l, r) => [Make(CMP, 0, l, r, 0), Make(SET(k), Dst(inst), 0, 0, 0)]
    case Gep(p, off) => [Make(LEA, Dst(inst), p, 0, off)]
    case Phi(_) => []
    case Call(f, actuals) => [MachInst(CALL, Dst(inst), 0, 0, 0, 0, f, actuals)]
    case Print(v) => [MachInst(CALL, 0, 0, 0, 0, 0, "__vortech_print_i64", [v])]
    case Branch(c, t, f) => [Make(TEST, 0, c, c, 0), Mach.Jump(JNE, t), Mach.Jump(JMP, f)]
    case Jump(t) => [Mach.Jump(JMP, t)]
    case Ret(r) => [Make(RET, 0, match r case Some(v) => v case None => INVALID_VREG, 0, 0)]
  }

  /** The label and the first `n` instructions of a block. */
  function LowerUpTo(b: Block, n: nat): (mb: MachBlock)
    requires n <= |b|
    ensures |mb| >= 1
  {
    if n == 0 then [Make(LABEL, 0, 0, 0, 0)] else LowerUpTo(b, n - 1) + LowerInst(b[n - 1])
  }

  // ---- The copies an edge needs ----

  datatype PhiCopy = PhiCopy(dst: nat, src: nat)

  datatype EdgeCopies = EdgeCopies(pred: Label, phi: Label, copies: seq<PhiCopy>)

  function CopiesOfArgs(d: nat, args: seq<PhiArg>, k: nat, p: Label): seq<PhiCopy>
    requires k <= |args|
  {
    if k == 0 then []
    else CopiesOfArgs(d, args, k - 1, p) +
         if args[k - 1].pred == p && args[k - 1].src != d then [PhiCopy(d, args[k - 1].src)] else []
  }

  function CopiesOfInst(inst: Inst, p: Label): seq<PhiCopy> {
    if inst.op.Phi? then CopiesOfArgs(Dst(inst), inst.op.args, |inst.op.args|, p) else []
  }

  /** The copies for the edge from `p`, from the first `i` instructions of a block. */
  function CopiesUpTo(b: Block, i: nat, p: Label): seq<PhiCopy>
    requires i <= |b|
  {
    if i == 0 then [] else CopiesUpTo(b, i - 1, p) + CopiesOfInst(b[i - 1], p)
  }

  function CopiesFor(f: Func, p: Label, t: Label): seq<PhiCopy> {
    if t < |f.blocks| then CopiesUpTo(f.blocks[t], |f.blocks[t]|, p) else []
  }

  /** The part of an edge's copies that come from before operand `k` of instruction (b, i). */
  function SoFar(f: Func, p: Label, t: Label, b: nat, i: nat, k: nat): seq<PhiCopy> {
    if t < b then CopiesFor(f, p, t)
    else if t == b && t < |f.blocks| && i <= |f.blocks[t]| then
      CopiesUpTo(f.blocks[t], i, p) +
      if i < |f.blocks[t]| && f.blocks[t][i].op.Phi? && k <= |f.blocks[t][i].op.args|
      then CopiesOfArgs(Dst(f.blocks[t][i]), f.blocks[t][i].op.args, k, p) else []
    else []
  }

  ghost predicate HasEdge(edges: seq<EdgeCopies>, p: Label, t: Label) {
    exists e :: 0 <= e < |edges| && edges[e].pred == p && edges[e].phi == t
  }

  /** Each edge once, in the order of their targets. */
  ghost predicate Ordered(edges: seq<EdgeCopies>) {
    forall d, e :: 0 <= d < e < |edges| ==> edges[d].phi <= edges[e].phi && (edges[d].phi == edges[e].phi ==> edges[d].pred != edges[e].pred)
  }

  ghost predicate EntryOk(f: Func, e: EdgeCopies, b: nat, i: nat, k: nat) {
    e.pred < |f.blocks| && e.phi < |f.blocks| && e.phi <= b && e.copies != [] && e.copies == SoFar(f, e.pred, e.phi, b, i, k)
  }

  ghost predicate Complete(f: Func, edges: seq<EdgeCopies>, b: nat, i: nat, k: nat) {
    forall p, t :: 0 <= p < |f.blocks| && 0 <= t < |f.blocks| && SoFar(f, p, t, b, i, k) != [] ==> HasEdge(edges, p, t)
  }

  /** The edges found so far, with the copies found so far. */
  ghost predicate Collected(f: Func, edges: seq<EdgeCopies>, b: nat, i: nat, k: nat) {
    && (forall e :: 0 <= e < |edges| ==> EntryOk(f, edges[e], b, i, k))
    && Ordered(edges) && Complete(f, edges, b, i, k)
  }

  ghost predicate AllCollected(f: Func, edges: seq<EdgeCopies>) {
    && (forall e :: 0 <= e < |edges| ==>
          && edges[e].pred < |f.blocks| && edges[e].phi < |f.blocks|
          && edges[e].copies != [] && edges[e].copies == CopiesFor(f, edges[e].pred, edges[e].phi))
    && Ordered(edges)
    && (forall p, t :: 0 <= p < |f.blocks| && 0 <= t < |f.blocks| && CopiesFor(f, p, t) != [] ==> HasEdge(edges, p, t))
  }

  method FindEdge(edges: seq<EdgeCopies>, p: Label, t: Label) returns (e: nat)
    ensures e <= |edges|
    ensures e < |edges| ==> edges[e].pred == p && edges[e].phi == t
    ensures e == |edges| ==> !HasEdge(edges, p, t)
  {
    for d := 0 to |edges|
      invariant forall c :: 0 <= c < d ==> !(edges[c].pred == p && edges[c].phi == t)
    {
      if edges[d].pred == p && edges[d].phi == t {
        return d;
      }
    }
    e := |edges|;
  }

  /** The edge list with one more copy: appended to its edge, or to a new one at the end. */
  function AddCopy(edges: seq<EdgeCopies>, e: nat, p: Label, t: Label, copy: PhiCopy): seq<EdgeCopies> {
    if e < |edges| then edges[e := edges[e].(copies := edges[e].copies + [copy])]
    else edges + [EdgeCopies(p, t, [copy])]
  }

  predicate PhiAt(f: Func, b: nat, i: nat) {
    b < |f.blocks| && i < |f.blocks[b]| && f.blocks[b][i].op.Phi?
  }

  lemma SoFarStep(f: Func, p: Label, t: Label, b: nat, i: nat, k: nat)
    requires PhiAt(f, b, i) && k < |f.blocks[b][i].op.args|
    ensures var arg := f.blocks[b][i].op.args[k];
            SoFar(f, p, t, b, i, k + 1) == SoFar(f, p, t, b, i, k) +
              if t == b && p == arg.pred && arg.src != Dst(f.blocks[b][i]) then [PhiCopy(Dst(f.blocks[b][i]), arg.src)] else []
  {
  }

  lemma CollectStep(f: Func, edges: seq<EdgeCopies>, b: nat, i: nat, k: nat, e: nat)
    requires PhiAt(f, b, i) && k < |f.blocks[b][i].op.args|
    requires Collected(f, edges, b, i, k)
    requires var arg := f.blocks[b][i].op.args[k];
             && arg.src != Dst(f.blocks[b][i]) && arg.pred < |f.blocks|
             && e <= |edges|
             && (e < |edges| ==> edges[e].pred == arg.pred && edges[e].phi == b)
             && (e == |edges| ==> !HasEdge(edges, arg.pred, b))
    ensures var arg := f.blocks[b][i].op.args[k];
            Collected(f, AddCopy(edges, e, arg.pred, b, PhiCopy(Dst(f.blocks[b][i]), arg.src)), b, i, k + 1)
  {
    hide SoFar;
    var arg := f.blocks[b][i].op.args[k];
    var edges' := AddCopy(edges, e, arg.pred, b, PhiCopy(Dst(f.blocks[b][i]), arg.src));
    forall d | 0 <= d < |edges'| ensures EntryOk(f, edges'[d], b, i, k + 1) {
      SoFarStep(f, edges'[d].pred, edges'[d].phi, b, i, k);
      if d < |edges| {
        assert EntryOk(f, edges[d], b, i, k);
        assert d != e ==> !(edges[d].pred == arg.pred && edges[d].phi == b);
      } else {
        assert SoFar(f, arg.pred, b, b, i, k) == [];
      }
    }
    CollectStepComplete(f, edges, b, i, k, e);
    forall d, c | 0 <= d < c < |edges'|
      ensures edges'[d].phi <= edges'[c].phi && (edges'[d].phi == edges'[c].phi ==> edges'[d].pred != edges'[c].pred)
    {
      if c == |edges| {
        assert EntryOk(f, edges[d], b, i, k);
      }
    }
  }

  lemma CollectStepComplete(f: Func, edges: seq<EdgeCopies>, b: nat, i: nat, k: nat, e: nat)
    requires PhiAt(f, b, i) && k < |f.blocks[b][i].op.args|
    requires Complete(f, edges, b, i, k)
    requires var arg := f.blocks[b][i].op.args[k];
             e <= |edges| && (e < |edges| ==> edges[e].pred == arg.pred && edges[e].phi == b)
    ensures var arg := f.blocks[b][i].op.args[k];
            Complete(f, AddCopy(edges, e, arg.pred, b, PhiCopy(Dst(f.blocks[b][i]), arg.src)), b, i, k + 1)
  {
    var arg := f.blocks[b][i].op.args[k];
    var edges' := AddCopy(edges, e, arg.pred, b, PhiCopy(Dst(f.blocks[b][i]), arg.src));
    var k' := k + 1;
    hide SoFar;
    forall p, t | 0 <= p < |f.blocks| && 0 <= t < |f.blocks| && SoFar(f, p, t, b, i, k') != [] ensures HasEdge(edges', p, t) {
      SoFarStep(f, p, t, b, i, k);
      if p == arg.pred && t == b {
        assert edges'[e].pred == p && edges'[e].phi == t;
      } else {
        assert HasEdge(edges, p, t);
        var d :| 0 <= d < |edges| && edges[d].pred == p && edges[d].phi == t;
        assert edges'[d].pred == p && edges'[d].phi == t;
      }
    }
  }

  /** An operand that needs no copy. */
  lemma CollectSkip(f: Func, edges: seq<EdgeCopies>, b: nat, i: nat, k: nat)
    requires PhiAt(f, b, i) && k < |f.blocks[b][i].op.args| && Collected(f, edges, b, i, k)
    requires f.blocks[b][i].op.args[k].src == Dst(f.blocks[b][i]) || f.blocks[b][i].op.args[k].pred >= |f.blocks|
    ensures Collected(f, edges, b, i, k + 1)
  {
    hide SoFar;
    forall e | 0 <= e < |edges| ensures EntryOk(f, edges[e], b, i, k + 1) {
      assert EntryOk(f, edges[e], b, i, k);
      SoFarStep(f, edges[e].pred, edges[e].phi, b, i, k);
    }
    var k' := k + 1;
    forall p, t | 0 <= p < |f.blocks| && 0 <= t < |f.blocks| && SoFar(f, p, t, b, i, k') != [] ensures HasEdge(edges, p, t) {
      SoFarStep(f, p, t, b, i, k);
    }
  }

  ghost predicate SameSoFar(f: Func, b: nat, i: nat, k: nat, c: nat, j: nat) {
    forall p, t :: 0 <= p < |f.blocks| && 0 <= t < |f.blocks| ==> SoFar(f, p, t, c, j, 0) == SoFar(f, p, t, b, i, k)
  }

  function Operands(inst: Inst): nat {
    if inst.op.Phi? then |inst.op.args| else 0
  }

  lemma NextInst(f: Func, b: nat, i: nat)
    requires b < |f.blocks| && i < |f.blocks[b]|
    ensures SameSoFar(f, b, i, Operands(f.blocks[b][i]), b, i + 1)
  {
  }

  lemma NextBlock(f: Func, b: nat)
    requires b < |f.blocks|
    ensures SameSoFar(f, b, |f.blocks[b]|, 0, b + 1, 0)
  {
  }

  /** On to the next instruction, or the next block. */
  lemma CollectNext(f: Func, edges: seq<EdgeCopies>, b: nat, i: nat, k: nat, c: nat, j: nat)
    requires Collected(f, edges, b, i, k) && b <= c && SameSoFar(f, b, i, k, c, j)
    ensures Collected(f, edges, c, j, 0)
  {
    hide SoFar;
    forall e | 0 <= e < |edges| ensures EntryOk(f, edges[e], c, j, 0) {
      assert EntryOk(f, edges[e], b, i, k);
    }
  }

  lemma CollectDone(f: Func, edges: seq<EdgeCopies>)
    requires Collected(f, edges, |f.blocks|, 0, 0)
    ensures AllCollected(f, edges)
  {
    forall e | 0 <= e < |edges|
      ensures edges[e].pred < |f.blocks| && edges[e].phi < |f.blocks|
      ensures edges[e].copies != [] && edges[e].copies == CopiesFor(f, edges[e].pred, edges[e].phi)
    {
      assert EntryOk(f, edges[e], |f.blocks|, 0, 0);
    }
    forall p, t | 0 <= p < |f.blocks| && 0 <= t < |f.blocks| && CopiesFor(f, p, t) != [] ensures HasEdge(edges, p, t) {
      assert SoFar(f, p, t, |f.blocks|, 0, 0) == CopiesFor(f, p, t);
    }
  }

  method CollectInst(f: Func, edges: seq<EdgeCopies>, b: nat, i: nat) returns (edges': seq<EdgeCopies>)
    requires b < |f.blocks| && i < |f.blocks[b]| && Collected(f, edges, b, i, 0)
    ensures Collected(f, edges', b, i, Operands(f.blocks[b][i]))
  {
    hide Collected;
    edges' := edges;
    var inst := f.blocks[b][i];
    if inst.op.Phi? {
      for k := 0 to |inst.op.args|
        invariant Collected(f, edges', b, i, k)
      {
        var arg := inst.op.args[k];
        if arg.src == Dst(inst) || arg.pred >= |f.blocks| {
          CollectSkip(f, edges', b, i, k);
        } else {
          var e := FindEdge(edges', arg.pred, b);
          CollectStep(f, edges', b, i, k, e);
          ghost var before := edges';
          if e == |edges'| {
            edges' := edges' + [EdgeCopies(arg.pred, b, [])];
          }
          assert e == |before| ==> edges'[e].copies + [PhiCopy(Dst(inst), arg.src)] == [PhiCopy(Dst(inst), arg.src)];
          edges' := edges'[e := edges'[e].(copies := edges'[e].copies + [PhiCopy(Dst(inst), arg.src)])];
          assert edges' == AddCopy(before, e, arg.pred, b, PhiCopy(Dst(inst), arg.src));
        }
      }
    }
  }

  method CollectEdges(f: Func) returns (edges: seq<EdgeCopies>)
    ensures AllCollected(f, edges)
  {
    edges := [];
    assert Collected(f, edges, 0, 0, 0);
    hide Collected;
    for b := 0 to |f.blocks|
      invariant Collected(f, edges, b, 0, 0)
    {
      for i := 0 to |f.blocks[b]|
        invariant Collected(f, edges, b, i, 0)
      {
        edges := CollectInst(f, edges, b, i);
        NextInst(f, b, i);
        CollectNext(f, edges, b, i, Operands(f.blocks[b][i]), b, i + 1);
      }
      NextBlock(f, b);
      CollectNext(f, edges, b, |f.blocks[b]|, 0, b + 1, 0);
    }
    CollectDone(f, edges);
  }

  // ---- Placing the copies ----

  function Moves(copies: seq<PhiCopy>): seq<MachInst> {
    seq(|copies|, i requires 0 <= i < |copies| => Make(MOV, copies[i].dst, copies[i].src, 0, 0))
  }

  /** A block of its own for an edge: the copies, then the jump. */
  function EdgeBlock(copies: seq<PhiCopy>, t: Label): MachBlock {
    Moves(copies) + [Mach.Jump(JMP, t)]
  }

  /** What src/isel.c:389-499 does for one edge.  It looks at the last instruction of the
      predecessor, and at the one before it only when the last is an unconditional jump. */
  function PlaceEdge(blocks: seq<MachBlock>, e: EdgeCopies): seq<MachBlock>
    requires e.pred < |blocks|
  {
    var pb := blocks[e.pred];
    var n := |pb|;
    if n == 0 then blocks[e.pred := Moves(e.copies)]
    else if pb[n - 1].op.JMP? then
      if n >= 2 && (pb[n - 2].op.JNE? || pb[n - 2].op.JE?) && pb[n - 2].target == e.phi then
        blocks[e.pred := pb[n - 2 := pb[n - 2].(target := |blocks|)]] + [EdgeBlock(e.copies, e.phi)]
      else if pb[n - 1].target == e.phi then
        blocks[e.pred := pb[..n - 1] + Moves(e.copies) + [pb[n - 1]]]
      else blocks
    else if (pb[n - 1].op.JNE? || pb[n - 1].op.JE?) && pb[n - 1].target == e.phi then
      blocks[e.pred := pb[n - 1 := pb[n - 1].(target := |blocks|)]] + [EdgeBlock(e.copies, e.phi)]
    else blocks
  }

  function PlaceUpTo(blocks: seq<MachBlock>, edges: seq<EdgeCopies>, n: nat): (bs: seq<MachBlock>)
    requires n <= |edges| && forall e :: 0 <= e < n ==> edges[e].pred < |blocks|
    ensures |bs| >= |blocks|
  {
    if n == 0 then blocks else PlaceEdge(PlaceUpTo(blocks, edges, n - 1), edges[n - 1])
  }

  function LowerAll(f: Func): seq<MachBlock> {
    seq(|f.blocks|, b requires 0 <= b < |f.blocks| => LowerUpTo(f.blocks[b], |f.blocks[b]|))
  }

  /** The object the selector fills. */
  class MachFunc {
    var blocks: seq<MachBlock>
    const nextVreg: nat
    const params: seq<nat>

    constructor (nextVreg: nat, params: seq<nat>)
      ensures blocks == [] && this.nextVreg == nextVreg && this.params == params
    {
      blocks := [];
      this.nextVreg := nextVreg;
      this.params := params;
    }

    function Value(): MFunc
      reads this
    {
      MFunc(blocks, nextVreg, params)
    }

    /** Lower every block, PHIs aside. */
    method LowerBlocks(f: Func)
      requires blocks == []
      modifies this
      ensures blocks == LowerAll(f)
    {
      for b := 0 to |f.blocks|
        invariant blocks == LowerAll(f)[..b]
      {
        var insts := [Make(LABEL, 0, 0, 0, 0)];
        for i := 0 to |f.blocks[b]|
          invariant insts == LowerUpTo(f.blocks[b], i)
        {
          insts := insts + LowerInst(f.blocks[b][i]);
        }
        blocks := blocks + [insts];
      }
    }

    /** Append a block holding the copies of an edge; returns its label. */
    method AddEdgeBlock(copies: seq<PhiCopy>, t: Label) returns (edgeBb: Label)
      modifies this
      ensures edgeBb == |old(blocks)| && blocks == old(blocks) + [EdgeBlock(copies, t)]
    {
      edgeBb := |blocks|;
      var insts: MachBlock := [];
      for c := 0 to |copies|
        invariant insts == Moves(copies)[..c]
      {
        insts := insts + [Make(MOV, copies[c].dst, copies[c].src, 0, 0)];
      }
      assert insts == Moves(copies);
      insts := insts + [Mach.Jump(JMP, t)];
      blocks := blocks + [insts];
    }

    /** Put the copies of one edge where the edge is taken. */
    method Place(e: EdgeCopies)
      requires e.pred < |blocks|
      modifies this
      ensures blocks == PlaceEdge(old(blocks), e)
    {
      var pb := blocks[e.pred];
      var n := |pb|;
      if n == 0 {
        blocks := blocks[e.pred := Moves(e.copies)];
        return;
      }
      var last := pb[n - 1];
      if last.op.JMP? {
        if n >= 2 && (pb[n - 2].op.JNE? || pb[n - 2].op.JE?) && pb[n - 2].target == e.phi {
          var edgeBb := AddEdgeBlock(e.copies, e.phi);
          blocks := blocks[e.pred := pb[n - 2 := pb[n - 2].(target := edgeBb)]];
        } else if last.target == e.phi {
          var insts := pb[..n - 1];
          for c := 0 to |e.copies|
            invariant insts == pb[..n - 1] + Moves(e.copies)[..c]
          {
            insts := insts + [Make(MOV, e.copies[c].dst, e.copies[c].src, 0, 0)];
          }
          assert insts == pb[..n - 1] + Moves(e.copies);
          blocks := blocks[e.pred := insts + [last]];
        }
      } else if last.op.JNE? || last.op.JE? {
        if last.target == e.phi {
          var edgeBb := AddEdgeBlock(e.copies, e.phi);
          blocks := blocks[e.pred := pb[n - 1 := pb[n - 1].(target := edgeBb)]];
        }
      }
    }
  }

  /** The selected function: lowered blocks, then the copies of every edge in turn. */
  ghost predicate IsSelection(f: Func, m: MFunc) {
    exists edges :: AllCollected(f, edges)
      && m == MFunc(PlaceUpTo(LowerAll(f), edges, |edges|), f.nextVreg, f.params)
  }

  method IselSelect(f: Func) returns (mf: MachFunc)
    ensures fresh(mf) && IsSelection(f, mf.Value())
  {
    hide AllCollected, LowerAll, PlaceEdge, PlaceUpTo, IsSelection;
    mf := new MachFunc(f.nextVreg, f.params);
    mf.LowerBlocks(f);
    var edges := CollectEdges(f);
    PlaceFirst(f, edges);
    PlaceEdges(f, edges, mf);
    SelectionIs(f, edges, mf.Value());
  }

  /** Put the copies of every edge where they belong. */
  method PlaceEdges(ghost f: Func, edges: seq<EdgeCopies>, mf: MachFunc)
    requires mf.blocks == LowerAll(f) && forall e :: 0 <= e < |edges| ==> edges[e].pred < |LowerAll(f)|
    modifies mf
    ensures mf.blocks == PlaceUpTo(LowerAll(f), edges, |edges|)
  {
    hide *;
    PlaceStart(f, edges);
    for n := 0 to |edges|
      invariant mf.blocks == PlaceUpTo(LowerAll(f), edges, n)
    {
      PlaceNext(f, edges, n);
      mf.Place(edges[n]);
    }
  }

  lemma PlaceStart(f: Func, edges: seq<EdgeCopies>)
    requires forall e :: 0 <= e < |edges| ==> edges[e].pred < |LowerAll(f)|
    ensures PlaceUpTo(LowerAll(f), edges, 0) == LowerAll(f)
  {
    hide LowerAll;
  }

  lemma PlaceFirst(f: Func, edges: seq<EdgeCopies>)
    requires AllCollected(f, edges)
    ensures forall e :: 0 <= e < |edges| ==> edges[e].pred < |LowerAll(f)|
  {
    assert |LowerAll(f)| == |f.blocks|;
    hide LowerAll;
  }

  lemma PlaceNext(f: Func, edges: seq<EdgeCopies>, n: nat)
    requires n < |edges| && forall e :: 0 <= e < |edges| ==> edges[e].pred < |LowerAll(f)|
    ensures edges[n].pred < |PlaceUpTo(LowerAll(f), edges, n)|
    ensures PlaceUpTo(LowerAll(f), edges, n + 1) == PlaceEdge(PlaceUpTo(LowerAll(f), edges, n), edges[n])
  {
    hide LowerAll, PlaceEdge;
  }

  lemma SelectionIs(f: Func, edges: seq<EdgeCopies>, m: MFunc)
    requires AllCollected(f, edges) && forall e :: 0 <= e < |edges| ==> edges[e].pred < |LowerAll(f)|
    requires m.blocks == PlaceUpTo(LowerAll(f), edges, |edges|) && m.nextVreg == f.nextVreg && m.params == f.params
    ensures IsSelection(f, m)
  {
    hide LowerAll, PlaceEdge;
    assert m == MFunc(PlaceUpTo(LowerAll(f), edges, |edges|), f.nextVreg, f.params);
  }
}
