/** Where PHI elimination puts the copies of each edge, and exactly when it gets them right. */
module IselShape {
  import opened Wrappers
  import opened Ssa
  import opened Mach
  import opened Isel

  // ---- The expected code of a block ----

  /** Everything before the terminator. */
  function Body(b: Block): MachBlock
    requires b != []
  {
    LowerUpTo(b, |b| - 1)
  }

  /** A block whose only terminator is its last instruction. */
  ghost predicate Closed(b: Block) {
    b != [] && forall i :: 0 <= i < |b| ==> (b[i].op.IsTerminator() <==> i == |b| - 1)
  }

  /** The taken edge: straight to the target, or through a block of copies. */
  ghost predicate Routed(bs: seq<MachBlock>, nb: nat, via: Label, t: Label, copies: seq<PhiCopy>) {
    if copies == [] then via == t
    else nb <= via < |bs| && bs[via] == EdgeBlock(copies, t)
  }

  ghost predicate JumpShape(bs: seq<MachBlock>, p: Label, body: MachBlock, t: Label, copies: seq<PhiCopy>) {
    p < |bs| && bs[p] == body + Moves(copies) + [Mach.Jump(JMP, t)]
  }

  /** Where the conditional jump of a selected branch block goes. */
  function TakenTarget(mb: MachBlock, body: MachBlock): Label {
    if |body| + 1 < |mb| then mb[|body| + 1].target else 0
  }

  ghost predicate BranchShape(bs: seq<MachBlock>, nb: nat, p: Label, body: MachBlock, c: VReg, t: Label, e: Label,
                              taken: seq<PhiCopy>, fallen: seq<PhiCopy>) {
    && p < |bs|
    && var via := TakenTarget(bs[p], body);
       && bs[p] == body + [Make(TEST, 0, c, c, 0), Mach.Jump(JNE, via)] + Moves(fallen) + [Mach.Jump(JMP, e)]
       && Routed(bs, nb, via, t, taken)
  }

  ghost predicate RetShape(bs: seq<MachBlock>, p: Label, body: MachBlock, r: Option<VReg>) {
    p < |bs| && bs[p] == body + [Make(RET, 0, match r case Some(v) => v case None => INVALID_VREG, 0, 0)]
  }

  /** The copies already placed for an edge after `n` entries of the list. */
  ghost function Placed(f: Func, edges: seq<EdgeCopies>, n: nat, p: Label, t: Label): seq<PhiCopy>
    requires n <= |edges|
  {
    if HasEdge(edges[..n], p, t) then CopiesFor(f, p, t) else []
  }

  ghost predicate Shaped(f: Func, bs: seq<MachBlock>, edges: seq<EdgeCopies>, n: nat, p: Label)
    requires n <= |edges| && p < |f.blocks| && f.blocks[p] != []
  {
    var b := f.blocks[p];
    match b[|b| - 1].op
    case Jump(t) => JumpShape(bs, p, Body(b), t, Placed(f, edges, n, p, t))
    case Branch(c, t, e) => BranchShape(bs, |f.blocks|, p, Body(b), c, t, e, Placed(f, edges, n, p, t), Placed(f, edges, n, p, e))
    case Ret(r) => RetShape(bs, p, Body(b), r)
    case _ => true
  }

  /** The branches the selector gets right: two different targets, or no copies; and if both
      targets need copies, the taken one comes first. */
  ghost predicate BranchOk(f: Func, p: Label) {
    p < |f.blocks| && f.blocks[p] != [] && f.blocks[p][|f.blocks[p]| - 1].op.Branch? ==>
      var op := f.blocks[p][|f.blocks[p]| - 1].op;
      CopiesFor(f, p, op.trueBb) == []
      || (op.trueBb != op.falseBb && (CopiesFor(f, p, op.falseBb) == [] || op.trueBb < op.falseBb))
  }

  lemma {:induction false} BodyHasNoJumps(b: Block, n: nat)
    requires n <= |b| && forall i :: 0 <= i < n ==> !b[i].op.IsTerminator()
    ensures forall k :: 0 <= k < |LowerUpTo(b, n)| ==> !LowerUpTo(b, n)[k].op.IsJump() && !LowerUpTo(b, n)[k].op.RET?
  {
    if n > 0 {
      BodyHasNoJumps(b, n - 1);
      var now := LowerInst(b[n - 1]);
      assert forall k :: 0 <= k < |now| ==> !now[k].op.IsJump() && !now[k].op.RET?;
    }
  }

  // ---- Before any edge is placed ----

  lemma ShapedStart(f: Func, edges: seq<EdgeCopies>, p: Label)
    requires p < |f.blocks| && Closed(f.blocks[p])
    ensures Shaped(f, LowerAll(f), edges, 0, p)
  {
    var b := f.blocks[p];
    var mb := LowerAll(f)[p];
    assert mb == Body(b) + LowerInst(b[|b| - 1]);
    assert edges[..0] == [];
    assert Moves([]) == [];
    match b[|b| - 1].op
    case Jump(t) => assert mb == Body(b) + Moves([]) + [Mach.Jump(JMP, t)];
    case Branch(c, t, e) =>
      assert mb == Body(b) + [Make(TEST, 0, c, c, 0), Mach.Jump(JNE, t)] + Moves([]) + [Mach.Jump(JMP, e)];
    case Ret(r) =>
  }

  // ---- One edge ----

  lemma PlacedNext(f: Func, edges: seq<EdgeCopies>, n: nat, p: Label, t: Label)
    requires n < |edges|
    ensures Placed(f, edges, n + 1, p, t) == if edges[n].pred == p && edges[n].phi == t then CopiesFor(f, p, t) else Placed(f, edges, n, p, t)
  {
    var now, next := edges[..n], edges[..n + 1];
    assert next == now + [edges[n]];
    if HasEdge(now, p, t) {
      var e :| 0 <= e < |now| && now[e].pred == p && now[e].phi == t;
      assert next[e] == now[e];
    }
    if edges[n].pred == p && edges[n].phi == t {
      assert next[n].pred == p && next[n].phi == t;
    }
  }

  /** An edge whose target comes later, or not at all, has not been placed. */
  lemma NotYetPlaced(f: Func, edges: seq<EdgeCopies>, n: nat, p: Label, t: Label)
    requires AllCollected(f, edges) && n < |edges|
    requires CopiesFor(f, p, t) == [] || t > edges[n].phi || (p == edges[n].pred && t == edges[n].phi)
    ensures Placed(f, edges, n, p, t) == []
  {
    forall e | 0 <= e < n && edges[e].pred == p && edges[e].phi == t ensures CopiesFor(f, p, t) == [] {
    }
  }

  /** Other blocks are left alone. */
  lemma OtherBlock(f: Func, bs: seq<MachBlock>, edges: seq<EdgeCopies>, n: nat, p: Label)
    requires n < |edges| && |bs| >= |f.blocks| && edges[n].pred < |f.blocks|
    requires p < |f.blocks| && f.blocks[p] != [] && p != edges[n].pred && Shaped(f, bs, edges, n, p)
    ensures Shaped(f, PlaceEdge(bs, edges[n]), edges, n + 1, p)
  {
    var bs' := PlaceEdge(bs, edges[n]);
    assert forall q :: 0 <= q < |bs| && q != edges[n].pred ==> bs'[q] == bs[q];
    match f.blocks[p][|f.blocks[p]| - 1].op
    case Jump(t) => PlacedNext(f, edges, n, p, t);
    case Branch(c, t, e) =>
      PlacedNext(f, edges, n, p, t);
      PlacedNext(f, edges, n, p, e);
    case _ =>
  }

  predicate IsConditionalTo(inst: MachInst, t: Label) {
    (inst.op.JNE? || inst.op.JE?) && inst.target == t
  }

  /** A predecessor that ends in a jump to the PHI's block gets its copies before the jump. */
  lemma PlaceBeforeJump(bs: seq<MachBlock>, e: EdgeCopies, head: MachBlock)
    requires e.pred < |bs| && bs[e.pred] == head + [Mach.Jump(JMP, e.phi)]
    requires head == [] || !IsConditionalTo(head[|head| - 1], e.phi)
    ensures PlaceEdge(bs, e) == bs[e.pred := head + Moves(e.copies) + [Mach.Jump(JMP, e.phi)]]
  {
    var pb := bs[e.pred];
    assert pb[..|pb| - 1] == head && pb[|pb| - 1] == Mach.Jump(JMP, e.phi);
    assert head != [] ==> pb[|pb| - 2] == head[|head| - 1];
  }

  /** A conditional jump to the PHI's block is sent through a new block. */
  lemma PlaceOnTaken(bs: seq<MachBlock>, e: EdgeCopies, head: MachBlock, other: Label)
    requires e.pred < |bs| && bs[e.pred] == head + [Mach.Jump(JNE, e.phi), Mach.Jump(JMP, other)]
    ensures PlaceEdge(bs, e) == bs[e.pred := head + [Mach.Jump(JNE, |bs|), Mach.Jump(JMP, other)]] + [EdgeBlock(e.copies, e.phi)]
  {
    var pb := bs[e.pred];
    assert pb[|pb| - 2] == Mach.Jump(JNE, e.phi) && pb[|pb| - 1] == Mach.Jump(JMP, other);
    assert pb[|pb| - 2 := Mach.Jump(JNE, |bs|)] == head + [Mach.Jump(JNE, |bs|), Mach.Jump(JMP, other)];
  }

  /** A predecessor whose last two instructions name other blocks is left alone. */
  lemma PlaceNowhere(bs: seq<MachBlock>, e: EdgeCopies, head: MachBlock, other: Label)
    requires e.pred < |bs| && bs[e.pred] == head + [Mach.Jump(JMP, other)] && other != e.phi
    requires head == [] || !IsConditionalTo(head[|head| - 1], e.phi)
    ensures PlaceEdge(bs, e) == bs
  {
    var pb := bs[e.pred];
    assert pb[|pb| - 1] == Mach.Jump(JMP, other);
    assert head != [] ==> pb[|pb| - 2] == head[|head| - 1];
  }

  /** The last instruction before the final jump. */
  lemma HeadEnds(body: MachBlock, copies: seq<PhiCopy>, t: Label)
    requires body != [] && !body[|body| - 1].op.IsJump()
    ensures var head := body + Moves(copies); head != [] && !IsConditionalTo(head[|head| - 1], t)
  {
    var head := body + Moves(copies);
    assert copies != [] ==> head[|head| - 1] == Moves(copies)[|copies| - 1];
  }

  lemma BranchHeadEnds(body: MachBlock, c: VReg, via: Label, fallen: seq<PhiCopy>, t: Label)
    requires via != t || fallen != []
    ensures var head := body + [Make(TEST, 0, c, c, 0), Mach.Jump(JNE, via)] + Moves(fallen);
            head != [] && !IsConditionalTo(head[|head| - 1], t)
  {
    var head := body + [Make(TEST, 0, c, c, 0), Mach.Jump(JNE, via)] + Moves(fallen);
    assert fallen != [] ==> head[|head| - 1] == Moves(fallen)[|fallen| - 1];
  }

  lemma JumpBlock(f: Func, bs: seq<MachBlock>, edges: seq<EdgeCopies>, n: nat, p: Label, t: Label)
    requires AllCollected(f, edges) && n < |edges| && |bs| >= |f.blocks| && p == edges[n].pred
    requires Closed(f.blocks[p]) && f.blocks[p][|f.blocks[p]| - 1].op == Ssa.Jump(t)
    requires Shaped(f, bs, edges, n, p)
    ensures Shaped(f, PlaceEdge(bs, edges[n]), edges, n + 1, p)
  {
    hide *;
    var ed := edges[n];
    JumpFacts(f, edges, n, p, t);
    EndsInJump(f, p);
    var body := Body(f.blocks[p]);
    PlacedNext(f, edges, n, p, t);
    PlaceGrows(bs, ed);
    ShapedJump(f, bs, edges, n, p, t);
    ShapedJump(f, PlaceEdge(bs, ed), edges, n + 1, p, t);
    var copies := Placed(f, edges, n, p, t);
    JumpShapeIs(bs, p, body, t, copies);
    if ed.phi == t {
      assert body + Moves([]) + [Mach.Jump(JMP, t)] == body + [Mach.Jump(JMP, t)];
      PlaceBeforeJump(bs, ed, body);
      JumpShapeIs(PlaceEdge(bs, ed), p, body, t, ed.copies);
    } else {
      PlaceNowhere(bs, ed, body + Moves(copies), t);
    }
  }

  lemma EndsInJump(f: Func, p: Label)
    requires p < |f.blocks| && Closed(f.blocks[p])
    ensures f.blocks[p] != []
  {
  }

  lemma PlaceGrows(bs: seq<MachBlock>, e: EdgeCopies)
    requires e.pred < |bs|
    ensures |PlaceEdge(bs, e)| >= |bs|
  {
    hide Moves, EdgeBlock;
  }

  lemma ShapedJump(f: Func, bs: seq<MachBlock>, edges: seq<EdgeCopies>, n: nat, p: Label, t: Label)
    requires n <= |edges| && p < |f.blocks| && f.blocks[p] != [] && f.blocks[p][|f.blocks[p]| - 1].op == Ssa.Jump(t)
    ensures Shaped(f, bs, edges, n, p) <==> JumpShape(bs, p, Body(f.blocks[p]), t, Placed(f, edges, n, p, t))
  {
    hide JumpShape, Body, Placed;
  }

  lemma JumpShapeIs(bs: seq<MachBlock>, p: Label, body: MachBlock, t: Label, copies: seq<PhiCopy>)
    ensures JumpShape(bs, p, body, t, copies) <==> p < |bs| && bs[p] == body + Moves(copies) + [Mach.Jump(JMP, t)]
  {
    hide Moves;
  }

  /** What is known of a block that ends in a jump when an edge out of it is placed. */
  lemma JumpFacts(f: Func, edges: seq<EdgeCopies>, n: nat, p: Label, t: Label)
    requires AllCollected(f, edges) && n < |edges| && p == edges[n].pred
    requires Closed(f.blocks[p]) && f.blocks[p][|f.blocks[p]| - 1].op == Ssa.Jump(t)
    ensures var ed, body, copies := edges[n], Body(f.blocks[p]), Placed(f, edges, n, p, t);
            && ed.pred < |f.blocks|
            && (ed.phi == t ==> ed.copies == CopiesFor(f, p, t) && copies == [])
            && body + Moves([]) == body
            && body != [] && !IsConditionalTo(body[|body| - 1], ed.phi)
            && body + Moves(copies) != [] && !IsConditionalTo((body + Moves(copies))[|body + Moves(copies)| - 1], ed.phi)
  {
    BodyHasNoJumps(f.blocks[p], |f.blocks[p]| - 1);
    HeadEnds(Body(f.blocks[p]), Placed(f, edges, n, p, t), edges[n].phi);
    if edges[n].phi == t {
      NotYetPlaced(f, edges, n, p, t);
    }
    hide Placed, LowerUpTo, CopiesFor, HasEdge, Ordered;
  }

  lemma TargetFound(mb: MachBlock, body: MachBlock, c: VReg, via: Label, rest: MachBlock)
    requires mb == body + [Make(TEST, 0, c, c, 0), Mach.Jump(JNE, via)] + rest
    ensures TakenTarget(mb, body) == via
  {
    assert mb[|body| + 1] == Mach.Jump(JNE, via);
  }

  /** The taken edge gets a block of its own. */
  lemma TakenEdge(f: Func, bs: seq<MachBlock>, edges: seq<EdgeCopies>, n: nat, p: Label, c: VReg, t: Label, e: Label)
    requires AllCollected(f, edges) && n < |edges| && |bs| >= |f.blocks| && p == edges[n].pred && BranchOk(f, p)
    requires Closed(f.blocks[p]) && f.blocks[p][|f.blocks[p]| - 1].op == Ssa.Branch(c, t, e)
    requires Shaped(f, bs, edges, n, p) && edges[n].phi == t
    ensures Shaped(f, PlaceEdge(bs, edges[n]), edges, n + 1, p)
  {
    var ed := edges[n];
    var body := Body(f.blocks[p]);
    PlacedNext(f, edges, n, p, t);
    PlacedNext(f, edges, n, p, e);
    NotYetPlaced(f, edges, n, p, t);
    NotYetPlaced(f, edges, n, p, e);
    hide PlaceEdge, Placed, Body;
    TakenShape(bs, |f.blocks|, ed, body, c, e);
  }

  lemma TakenShape(bs: seq<MachBlock>, nb: nat, ed: EdgeCopies, body: MachBlock, c: VReg, e: Label)
    requires nb <= |bs| && ed.pred < |bs| && ed.copies != []
    requires BranchShape(bs, nb, ed.pred, body, c, ed.phi, e, [], [])
    ensures BranchShape(PlaceEdge(bs, ed), nb, ed.pred, body, c, ed.phi, e, ed.copies, [])
  {
    var test := Make(TEST, 0, c, c, 0);
    var head := body + [test];
    assert bs[ed.pred] == head + [Mach.Jump(JNE, ed.phi), Mach.Jump(JMP, e)];
    PlaceOnTaken(bs, ed, head, e);
    hide PlaceEdge;
    var mb := PlaceEdge(bs, ed)[ed.pred];
    assert mb == body + [test, Mach.Jump(JNE, |bs|)] + Moves([]) + [Mach.Jump(JMP, e)];
    TargetFound(mb, body, c, |bs|, Moves([]) + [Mach.Jump(JMP, e)]);
    assert PlaceEdge(bs, ed)[|bs|] == EdgeBlock(ed.copies, ed.phi);
  }

  /** The other edge gets its copies after the conditional jump. */
  lemma FallenShape(bs: seq<MachBlock>, nb: nat, ed: EdgeCopies, body: MachBlock, c: VReg, t: Label, taken: seq<PhiCopy>)
    requires ed.pred < nb <= |bs| && ed.phi < nb && t != ed.phi
    requires BranchShape(bs, nb, ed.pred, body, c, t, ed.phi, taken, [])
    ensures BranchShape(PlaceEdge(bs, ed), nb, ed.pred, body, c, t, ed.phi, taken, ed.copies)
  {
    var via := TakenTarget(bs[ed.pred], body);
    var head := body + [Make(TEST, 0, c, c, 0), Mach.Jump(JNE, via)];
    BranchHeadEnds(body, c, via, [], ed.phi);
    assert head + Moves([]) == head;
    PlaceBeforeJump(bs, ed, head);
    hide PlaceEdge;
    var mb := PlaceEdge(bs, ed)[ed.pred];
    assert mb == head + (Moves(ed.copies) + [Mach.Jump(JMP, ed.phi)]);
    TargetFound(mb, body, c, via, Moves(ed.copies) + [Mach.Jump(JMP, ed.phi)]);
  }

  lemma FallenEdge(f: Func, bs: seq<MachBlock>, edges: seq<EdgeCopies>, n: nat, p: Label, c: VReg, t: Label, e: Label)
    requires AllCollected(f, edges) && n < |edges| && |bs| >= |f.blocks| && p == edges[n].pred
    requires Closed(f.blocks[p]) && f.blocks[p][|f.blocks[p]| - 1].op == Ssa.Branch(c, t, e)
    requires Shaped(f, bs, edges, n, p) && edges[n].phi == e && t != e
    ensures Shaped(f, PlaceEdge(bs, edges[n]), edges, n + 1, p)
  {
    PlacedNext(f, edges, n, p, t);
    PlacedNext(f, edges, n, p, e);
    NotYetPlaced(f, edges, n, p, e);
    hide PlaceEdge, Placed, Body;
    FallenShape(bs, |f.blocks|, edges[n], Body(f.blocks[p]), c, t, Placed(f, edges, n, p, t));
  }

  /** An edge the branch does not take changes nothing. */
  lemma NoSuchEdge(f: Func, bs: seq<MachBlock>, edges: seq<EdgeCopies>, n: nat, p: Label, c: VReg, t: Label, e: Label)
    requires AllCollected(f, edges) && n < |edges| && |bs| >= |f.blocks| && p == edges[n].pred
    requires Closed(f.blocks[p]) && f.blocks[p][|f.blocks[p]| - 1].op == Ssa.Branch(c, t, e)
    requires Shaped(f, bs, edges, n, p) && edges[n].phi != t && edges[n].phi != e
    ensures Shaped(f, PlaceEdge(bs, edges[n]), edges, n + 1, p)
  {
    var body := Body(f.blocks[p]);
    var via := TakenTarget(bs[p], body);
    var fallen := Placed(f, edges, n, p, e);
    PlacedNext(f, edges, n, p, t);
    PlacedNext(f, edges, n, p, e);
    hide Placed, Body, PlaceEdge;
    BranchHeadEnds(body, c, via, fallen, edges[n].phi);
    PlaceNowhere(bs, edges[n], body + [Make(TEST, 0, c, c, 0), Mach.Jump(JNE, via)] + Moves(fallen), e);
  }

  lemma RetBlock(f: Func, bs: seq<MachBlock>, edges: seq<EdgeCopies>, n: nat, p: Label, r: Option<VReg>)
    requires n < |edges| && |bs| >= |f.blocks| && p == edges[n].pred < |f.blocks|
    requires Closed(f.blocks[p]) && f.blocks[p][|f.blocks[p]| - 1].op == Ssa.Ret(r)
    requires Shaped(f, bs, edges, n, p)
    ensures Shaped(f, PlaceEdge(bs, edges[n]), edges, n + 1, p)
  {
    hide Body, Placed, EdgeBlock, Moves;
    assert bs[p][|bs[p]| - 1].op.RET?;
  }

  lemma ShapedStep(f: Func, bs: seq<MachBlock>, edges: seq<EdgeCopies>, n: nat, p: Label)
    requires AllCollected(f, edges) && n < |edges| && |bs| >= |f.blocks|
    requires p < |f.blocks| && Closed(f.blocks[p]) && BranchOk(f, p) && Shaped(f, bs, edges, n, p)
    ensures Shaped(f, PlaceEdge(bs, edges[n]), edges, n + 1, p)
  {
    hide Shaped, PlaceEdge;
    if p != edges[n].pred {
      OtherBlock(f, bs, edges, n, p);
    } else {
      match f.blocks[p][|f.blocks[p]| - 1].op {
        case Jump(t) => JumpBlock(f, bs, edges, n, p, t);
        case Branch(c, t, e) =>
          if edges[n].phi == t {
            TakenEdge(f, bs, edges, n, p, c, t, e);
          } else if edges[n].phi == e {
            FallenEdge(f, bs, edges, n, p, c, t, e);
          } else {
            NoSuchEdge(f, bs, edges, n, p, c, t, e);
          }
        case Ret(r) => RetBlock(f, bs, edges, n, p, r);
        case _ => assert false;
      }
    }
  }

  lemma {:induction false} ShapedUpTo(f: Func, edges: seq<EdgeCopies>, n: nat, p: Label)
    requires AllCollected(f, edges) && n <= |edges|
    requires p < |f.blocks| && Closed(f.blocks[p]) && BranchOk(f, p)
    ensures Shaped(f, PlaceUpTo(LowerAll(f), edges, n), edges, n, p)
  {
    hide *;
    PlacedMore(f, edges, n);
    if n == 0 {
      ShapedStart(f, edges, p);
    } else {
      ShapedUpTo(f, edges, n - 1, p);
      ShapedStep(f, PlaceUpTo(LowerAll(f), edges, n - 1), edges, n - 1, p);
    }
  }

  lemma PlacedMore(f: Func, edges: seq<EdgeCopies>, n: nat)
    requires AllCollected(f, edges) && n <= |edges|
    ensures forall e :: 0 <= e < |edges| ==> edges[e].pred < |LowerAll(f)| == |f.blocks|
    ensures PlaceUpTo(LowerAll(f), edges, 0) == LowerAll(f)
    ensures n > 0 ==> PlaceUpTo(LowerAll(f), edges, n) == PlaceEdge(PlaceUpTo(LowerAll(f), edges, n - 1), edges[n - 1])
                      && |PlaceUpTo(LowerAll(f), edges, n - 1)| >= |f.blocks|
  {
    LowerAllSize(f);
    hide PlaceEdge, LowerAll;
  }

  // ---- The result, and exactly when it is right ----

  /** The code of block `p` does each edge's copies on that edge and on no other. */
  ghost predicate EdgesRight(f: Func, bs: seq<MachBlock>, p: Label)
    requires p < |f.blocks| && f.blocks[p] != []
  {
    var b := f.blocks[p];
    match b[|b| - 1].op
    case Jump(t) => JumpShape(bs, p, Body(b), t, CopiesFor(f, p, t))
    case Branch(c, t, e) => BranchShape(bs, |f.blocks|, p, Body(b), c, t, e, CopiesFor(f, p, t), CopiesFor(f, p, e))
    case Ret(r) => RetShape(bs, p, Body(b), r)
    case _ => true
  }

  lemma AllPlaced(f: Func, edges: seq<EdgeCopies>, p: Label, t: Label)
    requires AllCollected(f, edges) && p < |f.blocks|
    ensures Placed(f, edges, |edges|, p, t) == CopiesFor(f, p, t)
  {
    assert edges[..|edges|] == edges;
    if t < |f.blocks| && CopiesFor(f, p, t) != [] {
      assert HasEdge(edges, p, t);
    }
  }

  /** What becomes of a branch the selector cannot handle: with one target for both edges
      only the taken edge gets its copies, and with the targets the wrong way round only the
      other edge does. */
  ghost predicate HalfShaped(f: Func, bs: seq<MachBlock>, edges: seq<EdgeCopies>, n: nat, p: Label, c: VReg, t: Label, e: Label)
    requires n <= |edges| && p < |f.blocks| && f.blocks[p] != []
  {
    if t == e then BranchShape(bs, |f.blocks|, p, Body(f.blocks[p]), c, t, e, Placed(f, edges, n, p, t), [])
    else BranchShape(bs, |f.blocks|, p, Body(f.blocks[p]), c, t, e, [], Placed(f, edges, n, p, e))
  }

  ghost predicate BadBranch(f: Func, p: Label, c: VReg, t: Label, e: Label) {
    && p < |f.blocks| && Closed(f.blocks[p]) && f.blocks[p][|f.blocks[p]| - 1].op == Ssa.Branch(c, t, e)
    && !BranchOk(f, p)
  }

  lemma HalfOther(f: Func, bs: seq<MachBlock>, edges: seq<EdgeCopies>, n: nat, p: Label, c: VReg, t: Label, e: Label)
    requires n < |edges| && |bs| >= |f.blocks| && edges[n].pred < |f.blocks|
    requires BadBranch(f, p, c, t, e) && p != edges[n].pred && HalfShaped(f, bs, edges, n, p, c, t, e)
    ensures HalfShaped(f, PlaceEdge(bs, edges[n]), edges, n + 1, p, c, t, e)
  {
    var bs' := PlaceEdge(bs, edges[n]);
    assert forall q :: 0 <= q < |bs| && q != edges[n].pred ==> bs'[q] == bs[q];
    PlacedNext(f, edges, n, p, t);
    PlacedNext(f, edges, n, p, e);
  }

  lemma HalfSame(f: Func, bs: seq<MachBlock>, edges: seq<EdgeCopies>, n: nat, p: Label, c: VReg, t: Label, e: Label)
    requires AllCollected(f, edges) && n < |edges| && |bs| >= |f.blocks| && p == edges[n].pred
    requires BadBranch(f, p, c, t, e) && t == e && HalfShaped(f, bs, edges, n, p, c, t, e)
    ensures HalfShaped(f, PlaceEdge(bs, edges[n]), edges, n + 1, p, c, t, e)
  {
    var body := Body(f.blocks[p]);
    var via := TakenTarget(bs[p], body);
    PlacedNext(f, edges, n, p, t);
    hide PlaceEdge, Body;
    if edges[n].phi == t {
      NotYetPlaced(f, edges, n, p, t);
      TakenShape(bs, |f.blocks|, edges[n], body, c, e);
    } else {
      BranchHeadEnds(body, c, via, [], edges[n].phi);
      PlaceNowhere(bs, edges[n], body + [Make(TEST, 0, c, c, 0), Mach.Jump(JNE, via)] + Moves([]), e);
    }
  }

  lemma HalfCrossed(f: Func, bs: seq<MachBlock>, edges: seq<EdgeCopies>, n: nat, p: Label, c: VReg, t: Label, e: Label)
    requires AllCollected(f, edges) && n < |edges| && |bs| >= |f.blocks| && p == edges[n].pred
    requires BadBranch(f, p, c, t, e) && t != e && HalfShaped(f, bs, edges, n, p, c, t, e)
    ensures HalfShaped(f, PlaceEdge(bs, edges[n]), edges, n + 1, p, c, t, e)
  {
    var body := Body(f.blocks[p]);
    var fallen := Placed(f, edges, n, p, e);
    PlacedNext(f, edges, n, p, e);
    CrossedOrder(f, edges, n, p, c, t, e);
    hide PlaceEdge, Body;
    if edges[n].phi == e {
      NotYetPlaced(f, edges, n, p, e);
      FallenShape(bs, |f.blocks|, edges[n], body, c, t, []);
    } else {
      BranchHeadEnds(body, c, t, fallen, edges[n].phi);
      PlaceNowhere(bs, edges[n], body + [Make(TEST, 0, c, c, 0), Mach.Jump(JNE, t)] + Moves(fallen), e);
    }
  }

  /** By the time the taken edge comes up, the other edge's copies are in the way. */
  lemma CrossedOrder(f: Func, edges: seq<EdgeCopies>, n: nat, p: Label, c: VReg, t: Label, e: Label)
    requires AllCollected(f, edges) && n < |edges| && p == edges[n].pred
    requires BadBranch(f, p, c, t, e) && t != e
    ensures edges[n].phi == t ==> Placed(f, edges, n, p, e) != []
  {
    hide CopiesFor, Body, EdgeBlock, Moves;
    if edges[n].phi == t {
      assert CopiesFor(f, p, e) != [] && e < t && e < |f.blocks|;
      assert HasEdge(edges, p, e);
      var d :| 0 <= d < |edges| && edges[d].pred == p && edges[d].phi == e;
      assert d < n;
      assert edges[..n][d] == edges[d];
    }
  }

  lemma HalfStart(f: Func, edges: seq<EdgeCopies>, p: Label, c: VReg, t: Label, e: Label)
    requires BadBranch(f, p, c, t, e)
    ensures HalfShaped(f, LowerAll(f), edges, 0, p, c, t, e)
  {
    ShapedStart(f, edges, p);
    assert edges[..0] == [];
    hide LowerAll, Body, CopiesFor, Moves;
  }

  lemma LowerAllSize(f: Func)
    ensures |LowerAll(f)| == |f.blocks|
  {
  }

  lemma {:induction false} HalfUpTo(f: Func, edges: seq<EdgeCopies>, n: nat, p: Label, c: VReg, t: Label, e: Label)
    requires AllCollected(f, edges) && n <= |edges| && BadBranch(f, p, c, t, e) && |LowerAll(f)| == |f.blocks|
    requires forall d :: 0 <= d < |edges| ==> edges[d].pred < |f.blocks|
    ensures HalfShaped(f, PlaceUpTo(LowerAll(f), edges, n), edges, n, p, c, t, e)
  {
    hide PlaceEdge, HalfShaped, BadBranch, LowerAll, AllCollected;
    if n == 0 {
      HalfStart(f, edges, p, c, t, e);
    } else {
      HalfUpTo(f, edges, n - 1, p, c, t, e);
      var bs := PlaceUpTo(LowerAll(f), edges, n - 1);
      if p != edges[n - 1].pred {
        HalfOther(f, bs, edges, n - 1, p, c, t, e);
      } else if t == e {
        HalfSame(f, bs, edges, n - 1, p, c, t, e);
      } else {
        HalfCrossed(f, bs, edges, n - 1, p, c, t, e);
      }
    }
  }

  lemma HalfIsWrong(f: Func, bs: seq<MachBlock>, edges: seq<EdgeCopies>, p: Label, c: VReg, t: Label, e: Label)
    requires AllCollected(f, edges) && BadBranch(f, p, c, t, e) && t < |f.blocks| && e < |f.blocks|
    requires HalfShaped(f, bs, edges, |edges|, p, c, t, e)
    ensures !EdgesRight(f, bs, p)
  {
    AllPlaced(f, edges, p, t);
    AllPlaced(f, edges, p, e);
    var body := Body(f.blocks[p]);
    hide Body;
    if t == e {
      var x := body + [Make(TEST, 0, c, c, 0), Mach.Jump(JNE, TakenTarget(bs[p], body))] + Moves([]) + [Mach.Jump(JMP, e)];
      var y := body + [Make(TEST, 0, c, c, 0), Mach.Jump(JNE, TakenTarget(bs[p], body))] + Moves(CopiesFor(f, p, e)) + [Mach.Jump(JMP, e)];
      assert |x| == |body| + 3 && |y| == |body| + 3 + |CopiesFor(f, p, e)|;
    }
  }

  lemma SelectionRight(f: Func, edges: seq<EdgeCopies>, p: Label)
    requires AllCollected(f, edges) && p < |f.blocks| && Closed(f.blocks[p]) && BranchOk(f, p)
    ensures EdgesRight(f, PlaceUpTo(LowerAll(f), edges, |edges|), p)
  {
    ShapedUpTo(f, edges, |edges|, p);
    match f.blocks[p][|f.blocks[p]| - 1].op {
      case Jump(t) => AllPlaced(f, edges, p, t);
      case Branch(c, t, e) => AllPlaced(f, edges, p, t); AllPlaced(f, edges, p, e);
      case _ =>
    }
  }

  ghost predicate TargetsExist(f: Func, op: Op) {
    op.Branch? ==> op.trueBb < |f.blocks| && op.falseBb < |f.blocks|
  }

  lemma SelectionWrong(f: Func, edges: seq<EdgeCopies>, p: Label)
    requires AllCollected(f, edges) && p < |f.blocks| && Closed(f.blocks[p]) && !BranchOk(f, p)
    requires TargetsExist(f, f.blocks[p][|f.blocks[p]| - 1].op)
    ensures !EdgesRight(f, PlaceUpTo(LowerAll(f), edges, |edges|), p)
  {
    var op := f.blocks[p][|f.blocks[p]| - 1].op;
    LowerAllSize(f);
    HalfUpTo(f, edges, |edges|, p, op.cond, op.trueBb, op.falseBb);
    HalfIsWrong(f, PlaceUpTo(LowerAll(f), edges, |edges|), edges, p, op.cond, op.trueBb, op.falseBb);
  }

  /** For every block with a proper terminator: after PHI elimination its edges carry their
      copies correctly if and only if its branch is one the selector can handle. */
  lemma SelectionExact(f: Func, edges: seq<EdgeCopies>, p: Label)
    requires AllCollected(f, edges) && p < |f.blocks| && Closed(f.blocks[p])
    requires TargetsExist(f, f.blocks[p][|f.blocks[p]| - 1].op)
    ensures EdgesRight(f, PlaceUpTo(LowerAll(f), edges, |edges|), p) <==> BranchOk(f, p)
  {
    hide EdgesRight, BranchOk, Closed;
    if BranchOk(f, p) {
      SelectionRight(f, edges, p);
    } else {
      SelectionWrong(f, edges, p);
    }
  }
}
