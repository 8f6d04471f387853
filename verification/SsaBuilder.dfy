/** The on-the-fly SSA builder (src/ssa_build.c:113-461), after Braun et al.: one definition
    table per block, PHIs on demand, and sealing of blocks once their predecessors are known.

    The builder is modelled as coded.  Three things can go wrong with it: a variable may be
    undefined on some path, which it reports; it may take back the number of a PHI although
    reading the predecessors numbered more (src/ssa_build.c:290-294), so that the next
    register collides with another; and completing the first incomplete PHI of its list may
    lose the ones pushed meanwhile (src/ssa_build.c:431).  While none of this has happened the
    draft is good. */
module SsaBuilder {
  import opened Wrappers
  import opened Ssa
  import opened Mach
  import opened Draft
  import opened DraftRead
  import opened DraftSeal
  import opened DraftScript
  import opened BuilderShapes
  import BuilderTables

  /** The instructions of a script. */
  function Emitted(es: seq<Act>): seq<Inst> {
    if es == [] then []
    else Emitted(es[..|es| - 1]) + if es[|es| - 1].Emit? then [es[|es| - 1].inst] else []
  }

  lemma {:induction false} EmittedSome(es: seq<Act>)
    requires es != [] && es[0].Emit?
    ensures Emitted(es) != []
  {
    var n := |es| - 1;
    if n > 0 {
      assert es[..n][0] == es[0];
      EmittedSome(es[..n]);
    }
  }

  lemma BodyFills(d: Draft, b: Label)
    requires Good(d) && 0 < b < |d.heads| && b < |d.script| && b < |d.sealed| && !d.sealed[b] && d.open == {}
    requires d.script[b] != [] && !d.script[b][0].Wrote?
    ensures |InstsOf(d, b)| > 0
  {
    assert Scripts(d) && Sizes(d) && Entries(d) && Waits(d);
    hide Good, Homes, Heads, Defs, Sealing;
    var es := d.script[b];
    if es[0].Emit? {
      EmittedSome(es);
    } else {
      assert ActOk(d, b, 0);
      assert es[..0] == [];
      var p := Incomplete(es[0].name, es[0].got, b);
      assert EntryOk(d, b, p.name, p.phi);
      assert p in d.pending;
      var i :| 0 <= i < |d.pending| && d.pending[i] == p;
      assert Parked(d, d.pending[i]);
    }
  }

  lemma {:induction false} LastEmitted(es: seq<Act>) returns (j: nat)
    requires Emitted(es) != []
    ensures j < |es| && es[j].Emit? && es[j].inst == Emitted(es)[|Emitted(es)| - 1]
  {
    var n := |es| - 1;
    if es[n].Emit? {
      j := n;
    } else {
      j := LastEmitted(es[..n]);
    }
  }

  function InstsOf(d: Draft, b: Label): Block
    requires b < |d.heads| && b < |d.script|
  {
    d.heads[b] + Emitted(d.script[b])
  }

  /** The function built. */
  function Built(d: Draft): Func
    requires |d.heads| == |d.script|
  {
    Func(seq(|d.heads|, b requires 0 <= b < |d.heads| => InstsOf(d, b)), 0, d.nextVreg, seq(|d.params|, i => i))
  }

  // ---- What a lookup amounts to ----

  ghost predicate Quietly(d0: Draft, d1: Draft, x: Name, found: set<VReg>) {
    d1.nextVreg == d0.nextVreg ==> Quiet(d0, d1, x, found)
  }

  /** Looking `x` up at the end of block `b` led from `d0` to `d1` and found `v`. */
  ghost predicate Found(d0: Draft, d1: Draft, b: Label, x: Name, v: VReg) {
    && Good(d1) && Steps(d0, d1, x) && Quietly(d0, d1, x, {v})
    && b < |d1.defs| && x in d1.defs[b] && d1.defs[b][x] == v
  }

  /** Looking `x` up at the ends of the first predecessors of block `b`. */
  ghost predicate FoundAll(d0: Draft, d1: Draft, b: Label, x: Name, srcs: seq<VReg>) {
    && Good(d1) && Steps(d0, d1, x) && Quietly(d0, d1, x, set v | v in srcs)
    && b < |d1.preds| && |srcs| <= |d1.preds[b]| && forall j :: 0 <= j < |srcs| ==> EndIs(d1, d1.preds[b][j], x, srcs[j])
  }

  lemma FoundHere(d: Draft, b: Label, x: Name)
    requires Good(d) && b < |d.defs| && x in d.defs[b]
    ensures Found(d, d, b, x, d.defs[b][x])
  {
    StepsRefl(d, x);
  }

  lemma NothingYet(d: Draft, b: Label, x: Name)
    requires Good(d) && b < |d.preds|
    ensures FoundAll(d, d, b, x, [])
  {
    StepsRefl(d, x);
  }

  lemma FoundNext(d0: Draft, d1: Draft, d2: Draft, b: Label, x: Name, srcs: seq<VReg>, v: VReg)
    requires FoundAll(d0, d1, b, x, srcs) && |srcs| < |d1.preds[b]| && Found(d1, d2, d1.preds[b][|srcs|], x, v)
    ensures FoundAll(d0, d2, b, x, srcs + [v])
  {
    StepsTrans(d0, d1, d2, x);
    var all := srcs + [v];
    assert Wider(d1, d2) && d2.preds == d1.preds && Defs(d2);
    forall j | 0 <= j < |all| ensures EndIs(d2, d2.preds[b][j], x, all[j]) {
      if j < |srcs| {
        WiderEnd(d1, d2, d1.preds[b][j], x, srcs[j]);
      }
    }
    hide Good, Steps, EndIs;
    QuietNext(d0, d1, d2, x, srcs, v);
  }

  lemma QuietNext(d0: Draft, d1: Draft, d2: Draft, x: Name, srcs: seq<VReg>, v: VReg)
    requires d0.nextVreg <= d1.nextVreg <= d2.nextVreg && |d1.entry| == |d0.entry| == |d2.entry|
    requires Quietly(d0, d1, x, set u | u in srcs) && Quietly(d1, d2, x, {v})
    ensures Quietly(d0, d2, x, set u | u in srcs + [v])
  {
    if d2.nextVreg == d0.nextVreg {
      forall c, y, u | 0 <= c < |d2.entry| && (y, u) in d2.entry[c] ensures (y, u) in d0.entry[c] || (y == x && u in (set u | u in srcs + [v])) {
        assert (y, u) in d1.entry[c] || (y == x && u == v);
      }
    }
  }

  lemma ParkFound(d: Draft, b: Label, x: Name)
    requires Good(d) && b < |d.heads| && !d.sealed[b] && x !in d.defs[b]
    ensures Found(d, Park(d, b, x), b, x, d.nextVreg)
  {
    ParkGood(d, b, x);
    assert Park(d, b, x).nextVreg > d.nextVreg;
  }

  /** The blocks hold the PHIs and instructions of the draft. */
  ghost predicate Holds(d: Draft, blocks: seq<Block>) {
    |blocks| == |d.heads| == |d.script| && forall b :: 0 <= b < |blocks| ==> blocks[b] == InstsOf(d, b)
  }

  lemma ParkHolds(d: Draft, b: Label, x: Name, blocks: seq<Block>)
    requires b < |d.defs| && b < |d.entry| && Holds(d, blocks) && b < |blocks|
    ensures Holds(Park(d, b, x), blocks[b := [EmptyPhi(d.nextVreg)] + blocks[b]])
  {
    assert InstsOf(Park(d, b, x), b) == [EmptyPhi(d.nextVreg)] + InstsOf(d, b);
  }

  /** With one predecessor, what holds at its end holds on entry. */
  lemma PassedOn(d0: Draft, d1: Draft, b: Label, x: Name, v: VReg)
    requires Good(d0) && b < |d0.heads| && d0.sealed[b] && x !in d0.defs[b] && |d0.preds[b]| == 1
    requires Found(d0, d1, d0.preds[b][0], x, v)
    ensures b < |d1.defs| && b < |d1.entry| && Found(d0, Note(d1, b, x, v), b, x, v)
  {
    assert LastWrite(d0.script[b], x).None? by { assert Defs(d0); }
    assert EndIs(d1, d1.preds[b][0], x, v) by { assert Defs(d1); }
    assert PassThrough(d1, b, x, v);
    NotePass(d1, b, x, v);
    NoteSteps(d0, d1, b, x, v);
  }

  lemma NoteSteps(d0: Draft, d1: Draft, b: Label, x: Name, v: VReg)
    requires Steps(d0, d1, x) && b < |d0.defs| && b < |d0.entry| && x !in d0.defs[b]
    ensures Steps(d0, Note(d1, b, x, v), x)
    ensures Quietly(d0, d1, x, {v}) ==> Quietly(d0, Note(d1, b, x, v), x, {v})
  {
  }

  /** All predecessors gave the same register, and nothing was numbered meanwhile. */
  lemma Withdrawn(d0: Draft, d1: Draft, b: Label, x: Name, srcs: seq<VReg>)
    requires Good(d0) && b < |d0.heads| && d0.sealed[b] && x !in d0.defs[b]
    requires FoundAll(Open(d0, b, x), d1, b, x, srcs) && b < |d1.preds| && |srcs| == |d1.preds[b]| > 0 && AllSame(srcs)
    requires d1.nextVreg == d0.nextVreg + 1 && srcs[0] != d0.nextVreg
    ensures b < |d1.defs| && b < |d1.entry| && Found(d0, Cancel(d0, d1, b, x, srcs[0]), b, x, srcs[0])
    ensures d1.heads == d0.heads && d1.script == d0.script
  {
    var s := srcs[0];
    assert LastWrite(d0.script[b], x).None? by { assert Defs(d0); }
    assert (set v | v in srcs) == {s};
    assert PassThrough(d1, b, x, s);
    assert Cancels(d0, d1, b, x, s);
    CancelGood(d0, d1, b, x, s);
    CancelQuiet(d0, d1, b, x, s);
  }

  /** Taking the number back is safe exactly if nothing was numbered meanwhile: otherwise the
      next register to be handed out already belongs to another instruction. */
  lemma TakeBackExact(d0: Draft, d1: Draft, b: Label, x: Name)
    requires Good(d0) && Good(d1) && b < |d0.defs| && b < |d0.entry| && Steps(Open(d0, b, x), d1, x)
    ensures d1.nextVreg >= d0.nextVreg + 1
    ensures d1.nextVreg == d0.nextVreg + 1 <==> d1.nextVreg - 1 !in d1.home - {d0.nextVreg}
  {
    assert Homes(d0) && Homes(d1);
    var last: VReg := d1.nextVreg - 1;
    assert last in d1.home;
  }

  lemma CancelQuiet(d0: Draft, d1: Draft, b: Label, x: Name, s: VReg)
    requires Cancels(d0, d1, b, x, s)
    ensures Quiet(d0, Cancel(d0, d1, b, x, s), x, {s})
  {
    CancelFacts(d0, d1, b, x, s);
  }

  /** The predecessors disagree: the PHI is emitted. */
  lemma Kept(d0: Draft, d1: Draft, b: Label, x: Name, srcs: seq<VReg>)
    requires Good(d0) && b < |d0.heads| && d0.sealed[b] && x !in d0.defs[b]
    requires FoundAll(Open(d0, b, x), d1, b, x, srcs) && b < |d1.preds| && |srcs| == |d1.preds[b]| > 0
    ensures b < |d1.heads| && Found(d0, Close(d1, Incomplete(x, d0.nextVreg, b), PhiArgs(srcs, d1.preds[b])), b, x, d0.nextVreg)
  {
    var p, args := Incomplete(x, d0.nextVreg, b), PhiArgs(srcs, d1.preds[b]);
    assert FromPreds(d1, b, x, args);
    assert p in d1.open;
    CloseGood(d1, p, args);
    CloseSteps(d0, d1, b, x, args);
  }

  lemma CloseSteps(d0: Draft, d1: Draft, b: Label, x: Name, args: seq<PhiArg>)
    requires Good(d0) && b < |d0.heads| && x !in d0.defs[b] && Steps(Open(d0, b, x), d1, x)
    ensures b < |d1.heads| && Steps(d0, Close(d1, Incomplete(x, d0.nextVreg, b), args), x)
    ensures b < |d1.defs| && x in d1.defs[b] && d1.defs[b][x] == d0.nextVreg
  {
    var d2 := Close(d1, Incomplete(x, d0.nextVreg, b), args);
    forall c | 0 <= c < |d0.defs| ensures TableStep(d0.defs[c], d2.defs[c], x) {
      assert TableStep(Open(d0, b, x).defs[c], d1.defs[c], x);
    }
    assert !IsOpen(d0, d0.nextVreg) by { assert Waits(d0) && Homes(d0); }
    assert d2.open == d0.open;
  }

  lemma CloseHolds(d: Draft, p: Incomplete, args: seq<PhiArg>, blocks: seq<Block>)
    requires Holds(d, blocks) && p.block < |blocks|
    ensures Holds(Close(d, p, args), blocks[p.block := [Inst(Some(p.phi), Phi(args))] + blocks[p.block]])
  {
    assert InstsOf(Close(d, p, args), p.block) == [Inst(Some(p.phi), Phi(args))] + InstsOf(d, p.block);
  }

  /** Only PHIs and scripts matter. */
  lemma SameHolds(d: Draft, d': Draft, blocks: seq<Block>)
    requires Holds(d, blocks) && d'.heads == d.heads && d'.script == d.script
    ensures Holds(d', blocks)
  {
    forall b | 0 <= b < |blocks| ensures blocks[b] == InstsOf(d', b) {
    }
  }

  /** A PHI for (b, x) may be opened in `d`. */
  ghost predicate Opened(d: Draft, b: Label, x: Name) {
    Good(d) && b < |d.heads| && d.sealed[b] && x !in d.defs[b]
  }

  lemma NotWritten(d: Draft, b: Label, x: Name)
    requires Good(d) && b < |d.heads| && x !in d.defs[b]
    ensures LastWrite(d.script[b], x).None?
  {
    assert Defs(d);
  }

  // ---- Completing an incomplete PHI ----

  /** Entry `k` of the list is for a PHI at position `pos` of the block. */
  ghost predicate StandsAt(d: Draft, k: nat, pos: nat) {
    && Good(d) && k < |d.pending|
    && var p := d.pending[k];
       p.block < |d.heads| && d.sealed[p.block] && pos < |d.heads[p.block]| && d.heads[p.block][pos] == EmptyPhi(p.phi)
  }

  /** The first PHI of the block with the register of entry `k` is the empty one. */
  lemma FirstIsParked(d: Draft, blocks: seq<Block>, k: nat, pos: nat)
    requires Good(d) && Holds(d, blocks) && k < |d.pending| && d.pending[k].block < |d.heads| && d.sealed[d.pending[k].block]
    requires var b := blocks[d.pending[k].block];
             && pos <= |b| && (pos < |b| ==> IsPhiOf(b[pos], d.pending[k].phi))
             && forall j :: 0 <= j < pos ==> !IsPhiOf(b[j], d.pending[k].phi)
    ensures StandsAt(d, k, pos)
  {
    var p := d.pending[k];
    assert Waits(d) && Homes(d) && Parked(d, p);
    var phi := EmptyPhi(p.phi);
    assert IsPhiOf(phi, p.phi);
    var j :| 0 <= j < |d.heads[p.block]| && d.heads[p.block][j] == phi;
    assert blocks[p.block] == InstsOf(d, p.block);
    assert blocks[p.block][j] == phi;
    assert pos <= j;
    assert blocks[p.block][pos] == d.heads[p.block][pos];
    OnlyHead(d, p.block, pos, j);
  }

  /** After its operands were looked up, the PHI can be completed where it stands. */
  lemma ReadyToFill(d0: Draft, d1: Draft, k: nat, pos: nat, srcs: seq<VReg>)
    requires StandsAt(d0, k, pos) && var p := d0.pending[k]; FoundAll(d0, d1, p.block, p.name, srcs) && |srcs| == |d1.preds[p.block]|
    ensures |d0.pending| <= |d1.pending|
    ensures Fills(d1, |d1.pending| - |d0.pending| + k, pos, PhiArgs(srcs, d1.preds[d0.pending[k].block]))
    ensures d1.pending[|d1.pending| - |d0.pending| + k] == d0.pending[k]
    ensures d1.heads[d0.pending[k].block] == d0.heads[d0.pending[k].block]
  {
    var p := d0.pending[k];
    assert Waits(d0) && Parked(d0, p);
    var m := |d1.pending| - |d0.pending|;
    assert d1.pending[m + k] == d1.pending[m..][k];
    assert FromPreds(d1, p.block, p.name, PhiArgs(srcs, d1.preds[p.block]));
  }

  lemma FillHolds(d: Draft, i: nat, k: nat, args: seq<PhiArg>, blocks: seq<Block>)
    requires Fills(d, i, k, args) && Holds(d, blocks)
    ensures var b := d.pending[i].block;
            b < |blocks| && k < |blocks[b]| && Holds(Fill(d, i, k, args), blocks[b := blocks[b][k := Inst(Some(d.pending[i].phi), Phi(args))]])
  {
    var b := d.pending[i].block;
    assert InstsOf(Fill(d, i, k, args), b) == InstsOf(d, b)[k := Inst(Some(d.pending[i].phi), Phi(args))];
  }

  /** The completed PHI turned out trivial, and the table still named it. */
  lemma TrivialNoted(d: Draft, i: nat, k: nat, srcs: seq<VReg>)
    requires i < |d.pending| && d.pending[i].block < |d.preds| && |srcs| == |d.preds[d.pending[i].block]| > 0 && AllSame(srcs)
    requires Fills(d, i, k, PhiArgs(srcs, d.preds[d.pending[i].block]))
    requires var p := d.pending[i]; p.block < |d.defs| && p.name in d.defs[p.block] && d.defs[p.block][p.name] == p.phi
    ensures var p := d.pending[i];
            Good(Note(Fill(d, i, k, PhiArgs(srcs, d.preds[p.block])), p.block, p.name, srcs[0]))
  {
    var p := d.pending[i];
    var args := PhiArgs(srcs, d.preds[p.block]);
    var d2 := Fill(d, i, k, args);
    FillGood(d, i, k, args);
    assert Waits(d) && Parked(d, p) && p.block < |d2.heads| && d2.sealed[p.block] && d2.entry == d.entry && d2.script == d.script;
    NoLonger(d.pending, i);
    assert NotPinned(d2, p.block, p.name, srcs[0]);
    WiderFrom(d, d2, p.block, p.name, args);
    SamePass(d2, p.block, p.name, srcs);
    hide Good, Fills, Fill, AllSame, Homes, Entries, Heads, Waits, Defs, Scripts, Sealing, PassThrough, NotPinned;
    NotePass(d2, p.block, p.name, srcs[0]);
  }

  lemma SamePass(d: Draft, b: Label, x: Name, srcs: seq<VReg>)
    requires b < |d.preds| && |srcs| == |d.preds[b]| > 0 && AllSame(srcs) && FromPreds(d, b, x, PhiArgs(srcs, d.preds[b]))
    ensures PassThrough(d, b, x, srcs[0])
  {
    var args := PhiArgs(srcs, d.preds[b]);
    forall j | 0 <= j < |d.preds[b]| ensures EndIs(d, d.preds[b][j], x, srcs[0]) {
      assert args[j].src == srcs[j];
    }
  }

  /** A variable has one incomplete PHI in a block. */
  lemma NoLonger(ps: seq<Incomplete>, i: nat)
    requires i < |ps| && forall j, k :: 0 <= j < k < |ps| ==> ps[j].name != ps[k].name || ps[j].block != ps[k].block
    ensures forall j :: 0 <= j < |Without(ps, i)| ==> Without(ps, i)[j].name != ps[i].name || Without(ps, i)[j].block != ps[i].block
  {
  }

  /** What storing the operands of an incomplete PHI makes of a good draft. */
  lemma StoreProof(d: Draft, i: nat, k: nat, srcs: seq<VReg>, blocks: seq<Block>, rename: bool)
    requires Holds(d, blocks) && i < |d.pending| && d.pending[i].block < |d.preds| && |srcs| == |d.preds[d.pending[i].block]|
    requires Fills(d, i, k, PhiArgs(srcs, d.preds[d.pending[i].block]))
    requires rename ==> AllSame(srcs) && |srcs| > 0
    requires rename ==> var p := d.pending[i]; p.block < |d.defs| && p.name in d.defs[p.block] && d.defs[p.block][p.name] == p.phi
    ensures var p := d.pending[i];
            var d2 := Fill(d, i, k, PhiArgs(srcs, d.preds[p.block]));
            var d3 := if rename then Note(d2, p.block, p.name, srcs[0]) else d2;
            && p.block < |blocks| && k < |blocks[p.block]| && k < |d.heads[p.block]|
            && Good(d3) && Holds(d3, blocks[p.block := blocks[p.block][k := Inst(Some(p.phi), Phi(PhiArgs(srcs, d.preds[p.block])))]])
  {
    var p := d.pending[i];
    var args := PhiArgs(srcs, d.preds[p.block]);
    FillGood(d, i, k, args);
    FillHolds(d, i, k, args, blocks);
    if rename {
      TrivialNoted(d, i, k, srcs);
      hide Holds;
      SameHolds(Fill(d, i, k, args), Note(Fill(d, i, k, args), p.block, p.name, srcs[0]), blocks[p.block := blocks[p.block][k := Inst(Some(p.phi), Phi(args))]]);
    }
  }

  /** The draft afterwards, right if nothing has gone wrong. */
  ghost function Stored(d: Draft, clean: bool, i: nat, k: nat, args: seq<PhiArg>, left: seq<Incomplete>, p: Incomplete, rename: bool, s: VReg): Draft
    requires p.block < |d.defs| && p.block < |d.entry| && |d.defs| == |d.heads|
    requires clean ==> i < |d.pending| && d.pending[i].block < |d.heads| && k < |d.heads[d.pending[i].block]|
  {
    var d2 := if clean then Fill(d, i, k, args) else d.(pending := left);
    if rename then Note(d2, p.block, p.name, s) else d2
  }

  lemma StoredIs(d: Draft, clean: bool, i: nat, k: nat, args: seq<PhiArg>, left: seq<Incomplete>, p: Incomplete, rename: bool, s: VReg)
    requires p.block < |d.defs| && p.block < |d.entry| && |d.defs| == |d.heads|
    requires clean ==> i < |d.pending| && d.pending[i].block < |d.heads| && k < |d.heads[d.pending[i].block]| && left == Without(d.pending, i)
    ensures var d' := Stored(d, clean, i, k, args, left, p, rename, s);
            && d'.params == d.params && d'.preds == d.preds && d'.sealed == d.sealed && d'.script == d.script
            && d'.nextVreg == d.nextVreg && d'.home == d.home && d'.open == d.open && d'.pending == left
            && |d'.heads| == |d.heads| && |d'.entry| == |d.entry|
            && d'.defs == (if rename then d.defs[p.block := Define(d.defs[p.block], p.name, s)] else d.defs)
            && (clean && rename ==> d' == Note(Fill(d, i, k, args), p.block, p.name, s))
            && (clean && !rename ==> d' == Fill(d, i, k, args))
  {
  }

  lemma StandsInside(d: Draft, blocks: seq<Block>, k: nat, pos: nat)
    requires StandsAt(d, k, pos) && Holds(d, blocks)
    ensures d.pending[k].block < |blocks| && pos < |blocks[d.pending[k].block]|
  {
    assert blocks[d.pending[k].block] == InstsOf(d, d.pending[k].block);
  }

  lemma HomesStay(d0: Draft, d1: Draft, d2: Draft)
    requires HomesKept(d0, d1) && d2.home == d1.home
    ensures HomesKept(d0, d2)
  {
  }

  lemma StillPushed(d0: Draft, d1: Draft, b: Label, x: Name, srcs: seq<VReg>)
    requires FoundAll(d0, d1, b, x, srcs)
    ensures Pushed(d0, d1) && d1.open == d0.open && HomesKept(d0, d1)
  {
  }

  /** Entry `k` of a list of incomplete PHIs is gone; those in front of the next one were there
      before or belong to blocks that are not sealed. */
  ghost predicate Replaced(was: seq<Incomplete>, k: nat, now: seq<Incomplete>, next: nat, sealed: seq<bool>) {
    && k < |was| && next <= |now| && now[next..] == was[k + 1..]
    && forall j :: 0 <= j < next ==> now[j] in was[..k] || (now[j].block < |sealed| && !sealed[now[j].block])
  }

  lemma ReplacedBy(d0: Draft, d1: Draft, k: nat)
    requires Pushed(d0, d1) && k < |d0.pending|
    ensures var m := |d1.pending| - |d0.pending|; Replaced(d0.pending, k, Without(d1.pending, m + k), m + k, d0.sealed)
  {
    var m := |d1.pending| - |d0.pending|;
    var now := Without(d1.pending, m + k);
    assert d1.pending[m..] == d0.pending;
    forall j | 0 <= j < m + k ensures now[j] in d0.pending[..k] || (now[j].block < |d0.sealed| && !d0.sealed[now[j].block]) {
      if j >= m {
        assert now[j] == d1.pending[m..][j - m] == d0.pending[..k][j - m];
      }
    }
    assert now[m + k..] == d1.pending[m..][k + 1..];
  }

  ghost predicate NoneSealed(list: seq<Incomplete>, sealed: seq<bool>) {
    forall j :: 0 <= j < |list| ==> list[j].block < |sealed| && !sealed[list[j].block]
  }

  lemma AllDone(list: seq<Incomplete>, sealed: seq<bool>)
    requires NoneSealed(list, sealed)
    ensures (forall b :: 0 <= b < |sealed| ==> sealed[b]) ==> list == []
  {
    var first := if |list| > 0 then list[0].block else 0;
  }

  /** Only entries of one sealed block are left. */
  ghost predicate SealedIs(list: seq<Incomplete>, sealed: seq<bool>, block: Label) {
    forall j :: 0 <= j < |list| ==> list[j].block < |sealed| && (sealed[list[j].block] ==> list[j].block == block)
  }

  lemma SealProgress(was: seq<Incomplete>, k: nat, now: seq<Incomplete>, next: nat, sealed: seq<bool>, block: Label)
    requires Replaced(was, k, now, next, sealed) && NoneSealed(was[..k], sealed) && SealedIs(was, sealed, block)
    ensures NoneSealed(now[..next], sealed) && SealedIs(now, sealed, block)
  {
    forall j | 0 <= j < |now| ensures now[j].block < |sealed| && (j < next ==> !sealed[now[j].block]) && (sealed[now[j].block] ==> now[j].block == block) {
      if j < next {
        if now[j] in was[..k] {
          var l :| 0 <= l < k && was[..k][l] == now[j];
        }
      } else {
        assert now[j] == now[next..][j - next] == was[k + 1..][j - next];
      }
    }
  }

  method IsTrivial(srcs: seq<VReg>) returns (allSame: bool)
    ensures allSame <==> AllSame(srcs)
  {
    var i := 1;
    while i < |srcs|
      invariant 1 <= i
      invariant forall j :: 0 <= j < i && j < |srcs| ==> srcs[j] == srcs[0]
    {
      if srcs[i] != srcs[0] {
        return false;
      }
      i := i + 1;
    }
    allSame := true;
  }

  // ---- What the client's calls make of a good draft ----

  lemma {:induction false} TableIs(params: seq<Name>, x: Name, e: VReg)
    ensures x in ParamTable(params) && ParamTable(params)[x] == e <==> ParamIs(params, x, e)
  {
    if params != [] {
      var n := |params| - 1;
      TableIs(params[..n], x, e);
    }
  }

  function HomeOfParam(v: VReg): Home {
    Param
  }

  ghost function Start(params: seq<Name>): Draft {
    Draft(params, [[]], [[]], [[]], [true], [ParamTable(params)], [], |params|,
          [set x | x in ParamTable(params) :: (x, ParamTable(params)[x])], map v: VReg | v < |params| :: HomeOfParam(v), {})
  }

  lemma StartGood(params: seq<Name>)
    ensures Good(Start(params)) && Holds(Start(params), [[]])
  {
    var d := Start(params);
    forall b: Label, x, e | b < |d.entry| && (x, e) in d.entry[b] ensures EntryOk(d, b, x, e) {
      TableIs(params, x, e);
    }
    forall b, x | 0 <= b < |d.defs| && x in d.defs[b] ensures EndIs(d, b, x, d.defs[b][x]) {
      assert (x, d.defs[b][x]) in d.entry[b];
    }
  }

  lemma NewHolds(d: Draft, blocks: seq<Block>)
    requires Holds(d, blocks)
    ensures Holds(NewBlock(d), blocks + [[]])
  {
    var d' := NewBlock(d);
    forall b | 0 <= b < |d'.heads| ensures (blocks + [[]])[b] == InstsOf(d', b) {
    }
  }

  lemma EmittedMore(es: seq<Act>, ev: Act)
    ensures Emitted(es + [ev]) == Emitted(es) + if ev.Emit? then [ev.inst] else []
  {
    assert (es + [ev])[..|es|] == es;
  }

  lemma WriteHolds(d: Draft, b: Label, x: Name, v: VReg, blocks: seq<Block>)
    requires Holds(d, blocks) && b < |blocks| && b < |d.defs|
    ensures Holds(WriteTo(d, b, x, v), blocks)
  {
    EmittedMore(d.script[b], Wrote(x, v));
    hide Emitted;
  }

  lemma ReadHolds(d: Draft, b: Label, x: Name, v: VReg, blocks: seq<Block>)
    requires Holds(d, blocks) && b < |blocks|
    ensures Holds(Append(d, b, Read(x, v)), blocks)
  {
    EmittedMore(d.script[b], Read(x, v));
    hide Emitted;
  }

  lemma EmitHolds(d: Draft, b: Label, inst: Inst, blocks: seq<Block>)
    requires Holds(d, blocks) && b < |blocks|
    ensures Holds(EmitTo(d, b, inst), blocks[b := blocks[b] + [inst]])
  {
    EmittedMore(d.script[b], Emit(inst));
    var d' := EmitTo(d, b, inst);
    assert InstsOf(d', b) == InstsOf(d, b) + [inst];
    hide Emitted;
  }

  /** The current block looked `x` up and got `v`. */
  ghost predicate Got(d0: Draft, d2: Draft, b: Label, x: Name, v: VReg) {
    exists d1 :: Found(d0, d1, b, x, v) && b < |d1.script| && d2 == Append(d1, b, Read(x, v))
  }

  lemma GotHere(d0: Draft, d1: Draft, b: Label, x: Name, v: VReg)
    requires Found(d0, d1, b, x, v) && b < |d1.heads| && b < |d1.script| && !Ended(d0.script[b]) && NoneSealed(d0.pending, d0.sealed)
    ensures Got(d0, Append(d1, b, Read(x, v)), b, x, v) && Good(Append(d1, b, Read(x, v)))
    ensures d1.open == d0.open && NoneSealed(d1.pending, d1.sealed)
  {
    assert EndIs(d1, b, x, v) by { assert Defs(d1); }
    ReadGood(d1, b, x, v);
    var m := |d1.pending| - |d0.pending|;
    forall j | 0 <= j < |d1.pending| ensures d1.pending[j].block < |d1.sealed| && !d1.sealed[d1.pending[j].block] {
      if j >= m {
        assert d1.pending[j] == d1.pending[m..][j - m];
      }
    }
  }

  class Builder {
    const params: seq<Name>
    const guarded: bool
    var curBlock: Label
    var nextVreg: nat
    var blocks: seq<Block>
    var preds: seq<seq<Label>>
    var sealed: seq<bool>
    var blockDefs: seq<map<Name, VReg>>
    var incomplete: seq<Incomplete>
    var undefined: bool

    ghost var draft: Draft
    ghost var flawed: bool

    function Tables(): BuilderTables.Tables
      reads this
    {
      BuilderTables.Tables(blocks, preds, sealed, blockDefs, incomplete, nextVreg, undefined)
    }

    /** Nothing has gone wrong. */
    ghost predicate Clean()
      reads this
    {
      !undefined && !flawed
    }

    ghost predicate Agrees()
      reads this
    {
      && draft.params == params && draft.preds == preds && draft.sealed == sealed && draft.defs == blockDefs
      && draft.pending == incomplete && draft.nextVreg == nextVreg
      && |draft.heads| == |blocks| && |draft.script| == |blocks| && |draft.entry| == |blocks|
    }

    ghost predicate Shape()
      reads this
    {
      var n := |blocks|;
      && n > 0 && curBlock < n && |preds| == n && |sealed| == n && |blockDefs| == n && Linked(preds, sealed)
    }

    ghost predicate Valid()
      reads this
    {
      Shape() && Agrees() && (guarded ==> !flawed) && (Clean() ==> Good(draft) && Holds(draft, blocks))
    }

    /** What a lookup leaves alone. */
    twostate predicate SameGraph()
      reads this
    {
      && preds == old(preds) && sealed == old(sealed) && draft.script == old(draft.script) && curBlock == old(curBlock)
      && |blocks| == |old(blocks)| && |old(incomplete)| <= |incomplete|
      && forall c :: 0 <= c < |blocks| ==> |old(blocks)[c]| <= |blocks[c]|
    }

    // ---- Looking a variable up ----

    /** The register that carries `name` at the end of `block`. */
    method ReadVar(block: Label, name: Name) returns (v: VReg)
      requires Valid() && block < |blocks|
      modifies this
      ensures Valid() && SameGraph() && old(nextVreg) <= nextVreg
      ensures Missing(blockDefs, name) <= old(Missing(blockDefs, name))
      ensures Clean() ==> old(Clean()) && Found(old(draft), draft, block, name, v)
      ensures var r := old(BuilderTables.Lookup(guarded, Tables(), block, name)); Tables() == r.t && v == r.v
      decreases Missing(blockDefs, name), block, 1
    {
      hide BuilderTables.LookupAll, BuilderTables.Settle, Good, Found;
      if name in blockDefs[block] {
        v := blockDefs[block][name];
        if Clean() {
          FoundHere(draft, block, name);
        }
      } else if sealed[block] {
        if |preds[block]| == 0 {
          undefined := true;
          v := INVALID_VREG;
        } else if |preds[block]| == 1 {
          v := ReadSingle(block, name);
        } else {
          v := ReadMany(block, name);
        }
      } else {
        v := ReadUnsealed(block, name);
      }
    }

    method ReadUnsealed(block: Label, name: Name) returns (phi: VReg)
      requires Valid() && block < |blocks| && name !in blockDefs[block] && !sealed[block]
      modifies this
      ensures Valid() && SameGraph() && old(nextVreg) <= nextVreg
      ensures Missing(blockDefs, name) <= old(Missing(blockDefs, name))
      ensures Clean() ==> old(Clean()) && Found(old(draft), draft, block, name, phi)
      ensures var r := old(BuilderTables.Park(Tables(), block, name)); Tables() == r.t && phi == r.v
    {
      hide Good, Found, Holds, Missing, Emitted;
      if Clean() {
        ParkFound(draft, block, name);
        ParkHolds(draft, block, name, blocks);
      }
      phi := nextVreg;
      nextVreg := nextVreg + 1;
      blockDefs := blockDefs[block := Define(blockDefs[block], name, phi)];
      incomplete := [Incomplete(name, phi, block)] + incomplete;
      blocks := blocks[block := [EmptyPhi(phi)] + blocks[block]];
      draft := Park(draft, block, name);
      MissingLess(old(blockDefs), blockDefs, name);
    }

    method ReadSingle(block: Label, name: Name) returns (v: VReg)
      requires Valid() && block < |blocks| && name !in blockDefs[block] && sealed[block] && |preds[block]| == 1
      modifies this
      ensures Valid() && SameGraph() && old(nextVreg) <= nextVreg
      ensures Missing(blockDefs, name) <= old(Missing(blockDefs, name))
      ensures Clean() ==> old(Clean()) && Found(old(draft), draft, block, name, v)
      ensures var r := old(BuilderTables.Lookup(guarded, Tables(), preds[block][0], name)); Tables() == BuilderTables.Note(r.t, block, name, r.v) && v == r.v
      decreases Missing(blockDefs, name), block, 0
    {
      hide Good, Found, Holds, Missing, Emitted, BuilderTables.Lookup;
      v := ReadVar(preds[block][0], name);
      if Clean() {
        PassedOn(old(draft), draft, block, name, v);
        SameHolds(draft, Note(draft, block, name, v), blocks);
      }
      ghost var before := blockDefs;
      blockDefs := blockDefs[block := Define(blockDefs[block], name, v)];
      draft := Note(draft, block, name, v);
      MissingLess(before, blockDefs, name);
    }

    method ReadMany(block: Label, name: Name) returns (v: VReg)
      requires Valid() && block < |blocks| && name !in blockDefs[block] && sealed[block] && |preds[block]| > 1
      modifies this
      ensures Valid() && SameGraph() && old(nextVreg) <= nextVreg
      ensures Missing(blockDefs, name) <= old(Missing(blockDefs, name))
      ensures Clean() ==> old(Clean()) && Found(old(draft), draft, block, name, v)
      ensures var t := old(BuilderTables.Open(Tables(), block, name));
              var r := BuilderTables.LookupAll(guarded, t, block, name, |preds[block]|);
              var h := BuilderTables.Settle(guarded, r.t, block, name, old(nextVreg), r.vs);
              Tables() == h.t && v == h.v
      decreases Missing(blockDefs, name), block, 0
    {
      hide Good, Found, FoundAll, AllSame, Holds, Missing, Emitted, BuilderTables.LookupAll;
      var phi := OpenPhi(block, name);
      var srcs := ReadPreds(block, name);
      var allSame := IsTrivial(srcs);
      if allSame && (!guarded || (nextVreg == phi + 1 && srcs[0] != phi)) {
        v := srcs[0];
        Withdraw(old(draft), block, name, phi, srcs);
      } else {
        v := phi;
        InsertPhi(old(draft), block, name, phi, srcs);
      }
    }

    /** Number a PHI and record it before the predecessors are read. */
    method OpenPhi(block: Label, name: Name) returns (phi: VReg)
      requires Valid() && block < |blocks| && name !in blockDefs[block]
      modifies this
      ensures Valid() && SameGraph() && phi == old(nextVreg) && nextVreg == phi + 1
      ensures Missing(blockDefs, name) < old(Missing(blockDefs, name))
      ensures Clean() ==> old(Clean()) && draft == Open(old(draft), block, name)
      ensures Tables() == old(BuilderTables.Open(Tables(), block, name))
    {
      hide Good, Holds, Missing, Emitted;
      if Clean() {
        NotWritten(draft, block, name);
        OpenGood(draft, block, name);
        SameHolds(draft, Open(draft, block, name), blocks);
      }
      phi := nextVreg;
      nextVreg := nextVreg + 1;
      blockDefs := blockDefs[block := Define(blockDefs[block], name, phi)];
      draft := Open(draft, block, name);
      MissingLess(old(blockDefs), blockDefs, name);
    }

    /** A trivial PHI: record its one source instead and take its number back, whatever has
        been numbered since. */
    method Withdraw(ghost d0: Draft, block: Label, name: Name, phi: VReg, srcs: seq<VReg>)
      requires Valid() && block < |blocks| && |srcs| == |preds[block]| > 0 && AllSame(srcs) && nextVreg > phi
      requires guarded ==> nextVreg == phi + 1 && srcs[0] != phi
      requires Clean() ==> Opened(d0, block, name) && phi == d0.nextVreg && FoundAll(Open(d0, block, name), draft, block, name, srcs)
      modifies this
      ensures Valid() && SameGraph() && nextVreg == old(nextVreg) - 1
      ensures Missing(blockDefs, name) <= old(Missing(blockDefs, name))
      ensures Clean() ==> old(Clean()) && Found(d0, draft, block, name, srcs[0])
      ensures flawed <==> old(flawed) || old(nextVreg) != phi + 1 || srcs[0] == phi
      ensures Tables() == old(BuilderTables.Note(Tables(), block, name, srcs[0])).(nextVreg := old(nextVreg) - 1)
    {
      hide Good, Found, FoundAll, AllSame, Holds, Missing, Emitted;
      var v := srcs[0];
      if nextVreg != phi + 1 || v == phi {
        flawed := true;
      }
      if Clean() {
        Withdrawn(d0, draft, block, name, srcs);
        SameHolds(draft, Cancel(d0, draft, block, name, v), blocks);
        draft := Cancel(d0, draft, block, name, v);
      } else {
        draft := draft.(nextVreg := draft.nextVreg - 1, defs := draft.defs[block := Define(draft.defs[block], name, v)]);
      }
      blockDefs := blockDefs[block := Define(blockDefs[block], name, v)];
      nextVreg := nextVreg - 1;
      MissingLess(old(blockDefs), blockDefs, name);
    }

    /** Put a PHI in front of its block. */
    method InsertPhi(ghost d0: Draft, block: Label, name: Name, phi: VReg, srcs: seq<VReg>)
      requires Valid() && block < |blocks| && |srcs| == |preds[block]| > 0
      requires Clean() ==> Opened(d0, block, name) && phi == d0.nextVreg && FoundAll(Open(d0, block, name), draft, block, name, srcs)
      modifies this
      ensures Valid() && SameGraph() && nextVreg == old(nextVreg) && blockDefs == old(blockDefs)
      ensures Clean() ==> old(Clean()) && Found(d0, draft, block, name, phi)
      ensures Tables() == old(Tables()).(blocks := old(blocks)[block := [Inst(Some(phi), Phi(PhiArgs(srcs, preds[block])))] + old(blocks)[block]])
    {
      hide Good, Found, FoundAll, AllSame, Holds, Missing, Emitted;
      ghost var p := Incomplete(name, phi, block);
      var args := PhiArgs(srcs, preds[block]);
      if Clean() {
        Kept(d0, draft, block, name, srcs);
        CloseHolds(draft, p, args, blocks);
      }
      blocks := blocks[block := [Inst(Some(phi), Phi(args))] + blocks[block]];
      draft := Close(draft, p, args);
    }

    /** Look `name` up at the end of every predecessor of `block`. */
    method ReadPreds(block: Label, name: Name) returns (srcs: seq<VReg>)
      requires Valid() && block < |blocks|
      modifies this
      ensures Valid() && SameGraph() && old(nextVreg) <= nextVreg && |srcs| == |preds[block]|
      ensures Missing(blockDefs, name) <= old(Missing(blockDefs, name))
      ensures Clean() ==> old(Clean()) && FoundAll(old(draft), draft, block, name, srcs)
      ensures var r := old(BuilderTables.LookupAll(guarded, Tables(), block, name, |preds[block]|)); Tables() == r.t && srcs == r.vs
      decreases Missing(blockDefs, name), |blocks|, 0
    {
      hide Good, Found, Holds, Missing, Emitted, EndIs, BuilderTables.Lookup, BuilderTables.LookupAll, FoundAll;
      ghost var t0 := Tables();
      BuilderTables.NoPreds(guarded, t0, block, name);
      srcs := [];
      if Clean() {
        NothingYet(draft, block, name);
      }
      for i := 0 to |preds[block]|
        invariant Valid() && SameGraph() && old(nextVreg) <= nextVreg && |srcs| == i
        invariant Missing(blockDefs, name) <= old(Missing(blockDefs, name))
        invariant Clean() ==> old(Clean()) && FoundAll(old(draft), draft, block, name, srcs)
        invariant var r := BuilderTables.LookupAll(guarded, t0, block, name, i); Tables() == r.t && srcs == r.vs
      {
        ghost var d := draft;
        BuilderTables.OnePredMore(guarded, t0, block, name, i);
        var v := ReadVar(preds[block][i], name);
        if Clean() {
          FoundNext(old(draft), d, draft, block, name, srcs, v);
        }
        srcs := srcs + [v];
      }
    }

    // ---- Sealing ----

    twostate predicate SameCfg()
      reads this
    {
      && preds == old(preds) && sealed == old(sealed) && draft.script == old(draft.script) && curBlock == old(curBlock)
      && |blocks| == |old(blocks)| && forall c :: 0 <= c < |blocks| ==> |old(blocks)[c]| <= |blocks[c]|
    }

    method FindPhi(block: Label, phi: VReg) returns (pos: nat)
      requires block < |blocks|
      ensures pos <= |blocks[block]| && (pos < |blocks[block]| ==> IsPhiOf(blocks[block][pos], phi))
      ensures forall j :: 0 <= j < pos ==> !IsPhiOf(blocks[block][j], phi)
      ensures pos == BuilderTables.PhiPlace(blocks[block], phi)
    {
      hide BuilderTables.PhiPlace;
      for i := 0 to |blocks[block]|
        invariant forall j :: 0 <= j < i ==> !IsPhiOf(blocks[block][j], phi)
      {
        if IsPhiOf(blocks[block][i], phi) {
          return i;
        }
      }
      pos := |blocks[block]|;
    }

    /** The list without its entry `k`, to which `pushed` entries have been put in front since
        the entry was reached.  At the head of the list those are dropped with it. */
    method Unlink(k: nat, pushed: nat) returns (next: nat)
      requires pushed + k < |incomplete|
      modifies this`incomplete, this`flawed, this`draft
      ensures next <= |incomplete| && |incomplete| - next < old(|incomplete|) - pushed - k
      ensures flawed <==> old(flawed) || (!guarded && k == 0 && pushed > 0)
      ensures !flawed ==> incomplete == Without(old(incomplete), pushed + k) && next == pushed + k
      ensures draft == old(draft).(pending := incomplete)
      ensures var r := old(BuilderTables.Unlink(guarded, Tables(), k, pushed)); Tables() == r.t && next == r.next
    {
      if k == 0 && !guarded {
        if pushed > 0 {
          flawed := true;
        }
        incomplete := incomplete[pushed + 1..];
        next := 0;
      } else {
        incomplete := Without(incomplete, pushed + k);
        next := pushed + k;
      }
      draft := draft.(pending := incomplete);
    }

    /** Write the operands into the PHI; if they are all the same and the table still names
        the PHI, name the source instead.  Entry `k` leaves the list. */
    method StorePhi(p: Incomplete, k: nat, pos: nat, srcs: seq<VReg>, pushed: nat) returns (next: nat)
      requires Valid() && pushed + k < |incomplete|
      requires p.block < |blocks| && sealed[p.block] && pos < |blocks[p.block]| && |srcs| == |preds[p.block]|
      requires Clean() ==> incomplete[pushed + k] == p && Fills(draft, pushed + k, pos, PhiArgs(srcs, preds[p.block]))
      modifies this
      ensures Valid() && SameCfg() && nextVreg == old(nextVreg) && next <= |incomplete| && |incomplete| - next < old(|incomplete|) - pushed - k
      ensures Clean() ==> old(Clean()) && incomplete == Without(old(incomplete), pushed + k) && next == pushed + k && draft.open == old(draft.open)
      ensures Clean() ==> draft.home == old(draft.home)
      ensures var r := old(BuilderTables.Fulfil(guarded, Tables(), p, pos, srcs, k, pushed)); Tables() == r.t && next == r.next
    {
      hide Good, Fills, Holds, AllSame, Emitted, Linked, Without, Stored, PhiArgs, BuilderTables.Store, BuilderTables.Unlink;
      ghost var d := draft;
      ghost var rename := AllSame(srcs) && |srcs| > 0 && p.name in blockDefs[p.block] && blockDefs[p.block][p.name] == p.phi;
      if Clean() {
        StoreProof(d, pushed + k, pos, srcs, blocks, rename);
      }
      PutPhi(p, pos, srcs);
      next := Unlink(k, pushed);
      StoredIs(d, Clean(), pushed + k, pos, PhiArgs(srcs, preds[p.block]), incomplete, p, rename, if rename then srcs[0] else 0);
      draft := Stored(d, Clean(), pushed + k, pos, PhiArgs(srcs, preds[p.block]), incomplete, p, rename, if rename then srcs[0] else 0);
    }

    /** Write the operands, and name the source instead of a trivial PHI. */
    method PutPhi(p: Incomplete, pos: nat, srcs: seq<VReg>)
      requires p.block < |blocks| && p.block < |preds| && p.block < |blockDefs| && pos < |blocks[p.block]| && |srcs| == |preds[p.block]|
      modifies this`blocks, this`blockDefs
      ensures blocks == old(blocks)[p.block := old(blocks)[p.block][pos := Inst(Some(p.phi), Phi(PhiArgs(srcs, preds[p.block])))]]
      ensures blockDefs ==
                if AllSame(srcs) && |srcs| > 0 && p.name in old(blockDefs)[p.block] && old(blockDefs)[p.block][p.name] == p.phi
                then old(blockDefs)[p.block := Define(old(blockDefs)[p.block], p.name, srcs[0])] else old(blockDefs)
      ensures Tables() == old(BuilderTables.Store(Tables(), p, pos, srcs))
    {
      hide AllSame, PhiArgs;
      var args := PhiArgs(srcs, preds[p.block]);
      blocks := blocks[p.block := blocks[p.block][pos := Inst(Some(p.phi), Phi(args))]];
      var allSame := IsTrivial(srcs);
      if allSame && |srcs| > 0 && p.name in blockDefs[p.block] && blockDefs[p.block][p.name] == p.phi {
        blockDefs := blockDefs[p.block := Define(blockDefs[p.block], p.name, srcs[0])];
      }
    }

    /** Complete entry `k`, which is for a block just sealed; `next` is the entry to look at
        afterwards. */
    method CompletePhi(k: nat) returns (next: nat)
      requires Valid() && k < |incomplete| && incomplete[k].block < |blocks| && sealed[incomplete[k].block]
      modifies this
      ensures Valid() && SameCfg() && old(nextVreg) <= nextVreg && next <= |incomplete| && |incomplete| - next < old(|incomplete|) - k
      ensures Clean() ==> old(Clean()) && draft.open == old(draft.open) && Replaced(old(incomplete), k, incomplete, next, sealed)
      ensures Clean() ==> HomesKept(old(draft), draft)
      ensures var r := old(BuilderTables.Complete(guarded, Tables(), k)); Tables() == r.t && next == r.next
    {
      hide Good, Holds, StandsAt, Missing, Emitted, Linked, Replaced, HomesKept, BuilderTables.CompleteAt, BuilderTables.Unlink;
      var p := incomplete[k];
      var pos := FindPhi(p.block, p.phi);
      if Clean() {
        FirstIsParked(draft, blocks, k, pos);
        StandsInside(draft, blocks, k, pos);
      }
      if pos < |blocks[p.block]| {
        next := CompleteAt(k, pos);
      } else {
        next := Unlink(k, 0);
      }
    }

    /** The PHI of entry `k` stands at position `pos` of its block. */
    method CompleteAt(k: nat, pos: nat) returns (next: nat)
      requires Valid() && k < |incomplete| && incomplete[k].block < |blocks| && sealed[incomplete[k].block]
      requires pos < |blocks[incomplete[k].block]| && (Clean() ==> StandsAt(draft, k, pos))
      modifies this
      ensures Valid() && SameCfg() && old(nextVreg) <= nextVreg && next <= |incomplete| && |incomplete| - next < old(|incomplete|) - k
      ensures Clean() ==> old(Clean()) && draft.open == old(draft.open) && Replaced(old(incomplete), k, incomplete, next, sealed)
      ensures Clean() ==> HomesKept(old(draft), draft)
      ensures var u := old(BuilderTables.CompleteAt(guarded, Tables(), k, pos)); Tables() == u.t && next == u.next
    {
      hide Good, Fills, Holds, FoundAll, StandsAt, Missing, Emitted, Linked, Pushed, Replaced, HomesKept;
      hide BuilderTables.LookupAll, BuilderTables.Fulfil;
      ghost var d := draft;
      var p := incomplete[k];
      var size := |incomplete|;
      var srcs := ReadPreds(p.block, p.name);
      var pushed := |incomplete| - size;
      if Clean() {
        ReadyToFill(d, draft, k, pos, srcs);
        StillPushed(d, draft, p.block, p.name, srcs);
        ReplacedBy(d, draft, k);
      }
      ghost var d1 := draft;
      next := StorePhi(p, k, pos, srcs, pushed);
      if Clean() {
        HomesStay(d, d1, draft);
      }
    }

    method MarkSealed(block: Label)
      requires Valid() && block < |blocks|
      requires Clean() ==> forall i :: 0 <= i < |preds[block]| ==> Ended(draft.script[preds[block][i]])
      requires |preds[block]| == 1 ==> preds[block][0] < block
      modifies this`sealed, this`draft
      ensures Valid() && sealed == old(sealed)[block := true] && draft == Seal(old(draft), block)
    {
      hide Good, Holds, Emitted;
      if Clean() {
        SealGood(draft, block);
        SameHolds(draft, Seal(draft, block), blocks);
      }
      sealed := sealed[block := true];
      draft := Seal(draft, block);
    }

    /** All predecessors of `block` are known: complete its incomplete PHIs. */
    method SealBlock(block: Label)
      requires Valid() && block < |blocks|
      requires Clean() ==> forall i :: 0 <= i < |preds[block]| ==> Ended(draft.script[preds[block][i]])
      requires |preds[block]| == 1 ==> preds[block][0] < block
      modifies this
      ensures Valid() && preds == old(preds) && draft.script == old(draft.script) && curBlock == old(curBlock)
      ensures |blocks| == |old(blocks)| && forall c :: 0 <= c < |blocks| ==> |old(blocks)[c]| <= |blocks[c]|
      ensures sealed == old(sealed)[block := true] && old(nextVreg) <= nextVreg
      ensures Clean() ==> old(Clean()) && draft.open == old(draft.open) && HomesKept(old(draft), draft)
      ensures Clean() && old(NoneSealed(incomplete, sealed)) ==> NoneSealed(incomplete, sealed)
      ensures Tables() == old(BuilderTables.Seal(guarded, Tables(), block))
    {
      hide Good, Holds, Missing, Emitted, Linked, Replaced, BuilderTables.Complete;
      if sealed[block] {
        SealedAlready(block);
        return;
      }
      MarkSealed(block);
      CompleteAll(block);
    }

    /** A block that is sealed stays as it is. */
    lemma SealedAlready(block: Label)
      requires Valid() && block < |blocks| && sealed[block] && (|preds[block]| == 1 ==> preds[block][0] < block)
      ensures sealed[block := true] == sealed && HomesKept(draft, draft)
      ensures BuilderTables.Seal(guarded, Tables(), block) == Tables()
    {
      hide Good, Holds;
    }

    lemma TablesFit()
      requires Valid()
      ensures BuilderTables.Fit(Tables())
    {
      hide Good, Holds, Linked;
    }

    lemma KeptSelf()
      ensures HomesKept(draft, draft)
    {
    }

    lemma KeptOn(d: Draft, d1: Draft, d2: Draft)
      ensures HomesKept(d, d1) && HomesKept(d1, d2) ==> HomesKept(d, d2)
    {
    }

    /** The pending PHIs of a block that has just been sealed, in list order. */
    method CompleteAll(block: Label)
      requires Valid() && block < |blocks| && sealed[block]
      modifies this
      ensures Valid() && preds == old(preds) && draft.script == old(draft.script) && curBlock == old(curBlock)
      ensures |blocks| == |old(blocks)| && forall c :: 0 <= c < |blocks| ==> |old(blocks)[c]| <= |blocks[c]|
      ensures sealed == old(sealed) && old(nextVreg) <= nextVreg
      ensures Clean() ==> old(Clean()) && draft.open == old(draft.open) && HomesKept(old(draft), draft)
      ensures Clean() && old(SealedIs(incomplete, sealed, block)) ==> NoneSealed(incomplete, sealed)
      ensures Tables() == old(BuilderTables.SealFrom(guarded, Tables(), block, 0))
    {
      hide Good, Holds, Missing, Emitted, Linked, Replaced, BuilderTables.Complete, Builder.Valid, HomesKept;
      TablesFit();
      KeptSelf();
      var k: nat := 0;
      ghost var all := BuilderTables.SealFrom(guarded, Tables(), block, 0);
      while k < |incomplete|
        invariant k <= |incomplete|
        invariant Valid() && BuilderTables.Fit(Tables())
        invariant preds == old(preds) && draft.script == old(draft.script) && curBlock == old(curBlock)
        invariant |blocks| == |old(blocks)| && forall c :: 0 <= c < |blocks| ==> |old(blocks)[c]| <= |blocks[c]|
        invariant sealed == old(sealed) && old(nextVreg) <= nextVreg
        invariant Clean() ==> old(Clean()) && draft.open == old(draft.open) && HomesKept(old(draft), draft)
        invariant Clean() && old(SealedIs(incomplete, sealed, block)) ==> NoneSealed(incomplete[..k], sealed) && SealedIs(incomplete, sealed, block)
        invariant BuilderTables.SealFrom(guarded, Tables(), block, k) == all
        decreases |incomplete| - k
      {
        if incomplete[k].block == block {
          ghost var list := incomplete;
          ghost var at := k;
          ghost var d := draft;
          k := CompletePhi(k);
          TablesFit();
          KeptOn(old(draft), d, draft);
          if Clean() && old(SealedIs(incomplete, sealed, block)) {
            SealProgress(list, at, incomplete, k, sealed, block);
          }
        } else {
          k := k + 1;
        }
      }
    }

    // ---- The client's interface ----

    /** Between calls no PHI is half done. */
    ghost predicate Ready()
      reads this
    {
      Valid() && (Clean() ==> draft.open == {} && NoneSealed(incomplete, sealed))
    }

    /** The current block takes more instructions. */
    ghost predicate Filling()
      reads this
      requires Shape() && Agrees()
    {
      Clean() ==> !Ended(draft.script[curBlock])
    }

    ghost predicate Takes()
      reads this
    {
      Ready() && Filling()
    }

    lemma Facts()
      requires Ready()
      ensures Shape() && Agrees() && draft.params == params
      ensures |blocks| == |draft.script| == |draft.preds| == |draft.sealed| == |draft.defs| && curBlock < |blocks|
      ensures preds == draft.preds && sealed == draft.sealed && nextVreg == draft.nextVreg && blockDefs == draft.defs
      ensures Clean() ==> Good(draft) && draft.open == {}
    {
    }

    /** A block that takes more instructions does not end with a terminator. */
    lemma OpenEnd()
      requires Takes() && Clean() && |blocks[curBlock]| > 0
      ensures !blocks[curBlock][|blocks[curBlock]| - 1].op.IsTerminator()
    {
      assert blocks[curBlock] == InstsOf(draft, curBlock);
      assert Heads(draft) && Scripts(draft) && Sizes(draft);
      hide Good, Holds, Homes, Entries, Waits, Defs, Sealing;
      var es := draft.script[curBlock];
      if |Emitted(es)| == 0 {
        assert HeadOk(draft, curBlock, |draft.heads[curBlock]| - 1);
      } else {
        var j := LastEmitted(es);
        assert ActOk(draft, curBlock, j);
      }
    }

    /** A block with code in it holds an instruction, if only the PHI its first lookup put there. */
    lemma FilledBody()
      requires Takes() && Clean() && curBlock != 0 && !sealed[curBlock]
      requires draft.script[curBlock] != [] && !draft.script[curBlock][0].Wrote?
      ensures |blocks[curBlock]| > 0
    {
      assert blocks[curBlock] == InstsOf(draft, curBlock);
      BodyFills(draft, curBlock);
    }

    /** The guarded builder fails only where a variable is undefined. */
    lemma OnlyUndefined()
      requires Valid() && guarded
      ensures Clean() <==> !undefined
    {
    }

    /** An entry block that holds the parameters. */
    constructor (params: seq<Name>, guarded: bool)
      ensures Ready() && Clean() && draft == Start(params) && curBlock == 0 && this.guarded == guarded
      ensures Tables() == BuilderTables.Start(params)
    {
      hide Good, Holds, ParamTable, HomeOfParam, Missing, Emitted;
      this.params := params;
      this.guarded := guarded;
      curBlock := 0;
      nextVreg := |params|;
      blocks := [[]];
      preds := [[]];
      sealed := [true];
      blockDefs := [ParamTable(params)];
      incomplete := [];
      undefined := false;
      draft := Start(params);
      flawed := false;
      new;
      StartGood(params);
    }

    method NewVreg() returns (v: VReg)
      requires Ready()
      modifies this
      ensures Ready() && v == old(nextVreg) && draft == Reserve(old(draft)) && curBlock == old(curBlock) && blocks == old(blocks)
      ensures Tables() == old(BuilderTables.Number(Tables()))
      ensures Clean() <==> old(Clean())
    {
      hide Good, Holds, Emitted, Linked;
      if Clean() {
        ReserveGood(draft);
        SameHolds(draft, Reserve(draft), blocks);
      }
      v := nextVreg;
      nextVreg := nextVreg + 1;
      draft := Reserve(draft);
    }

    method AddBlock() returns (idx: Label)
      requires Ready()
      modifies this
      ensures Ready() && idx == old(|blocks|) && draft == NewBlock(old(draft)) && curBlock == old(curBlock) && blocks == old(blocks) + [[]]
      ensures Tables() == old(BuilderTables.AddBlock(Tables()))
      ensures Clean() <==> old(Clean())
    {
      hide Good, Emitted;
      if Clean() {
        NewBlockGood(draft);
        NewHolds(draft, blocks);
      }
      idx := |blocks|;
      blocks := blocks + [[]];
      preds := preds + [[]];
      sealed := sealed + [false];
      blockDefs := blockDefs + [map[]];
      draft := NewBlock(draft);
    }

    method SetCurBlock(block: Label)
      requires Ready() && block < |blocks|
      modifies this`curBlock
      ensures Ready() && curBlock == block && (Clean() <==> old(Clean()))
    {
      curBlock := block;
    }

    method AddPred(block: Label, pred: Label)
      requires Ready() && 0 < block < |blocks| && pred < |blocks| && !sealed[block]
      modifies this
      ensures Ready() && draft == WithPred(old(draft), block, pred) && curBlock == old(curBlock) && blocks == old(blocks)
      ensures Tables() == old(BuilderTables.AddPred(Tables(), block, pred))
      ensures Clean() <==> old(Clean())
    {
      hide Good, Holds, Emitted;
      if Clean() {
        WithPredGood(draft, block, pred);
        SameHolds(draft, WithPred(draft, block, pred), blocks);
      }
      preds := preds[block := preds[block] + [pred]];
      draft := WithPred(draft, block, pred);
    }

    method WriteVar(name: Name, v: VReg)
      requires Ready() && Filling()
      requires Clean() ==> v in draft.home && !draft.home[v].Taken?
      modifies this
      ensures Ready() && draft == WriteTo(old(draft), old(curBlock), name, v) && curBlock == old(curBlock) && blocks == old(blocks)
      ensures Tables() == old(BuilderTables.Note(Tables(), curBlock, name, v))
      ensures Clean() <==> old(Clean())
    {
      hide Good, Holds, Linked;
      if Clean() {
        WriteGood(draft, curBlock, name, v);
        WriteHolds(draft, curBlock, name, v, blocks);
      }
      blockDefs := blockDefs[curBlock := Define(blockDefs[curBlock], name, v)];
      draft := WriteTo(draft, curBlock, name, v);
    }

    /** The register that carries `name` at this point of the current block. */
    method ReadVarCurrent(name: Name) returns (v: VReg)
      requires Ready() && Filling()
      modifies this
      ensures Ready() && curBlock == old(curBlock) && preds == old(preds) && sealed == old(sealed) && |blocks| == |old(blocks)|
      ensures old(nextVreg) <= nextVreg && |old(blocks)[curBlock]| <= |blocks[curBlock]|
      ensures Clean() ==> old(Clean()) && Got(old(draft), draft, curBlock, name, v)
      ensures var r := old(BuilderTables.Lookup(guarded, Tables(), curBlock, name)); Tables() == r.t && v == r.v
    {
      hide Good, Holds, Linked, Found, Missing;
      v := ReadVar(curBlock, name);
      if Clean() {
        GotHere(old(draft), draft, curBlock, name, v);
        ReadHolds(draft, curBlock, name, v, blocks);
      }
      draft := Append(draft, curBlock, Read(name, v));
    }

    /** Append an instruction; its register, if any, is new. */
    method EmitInst(inst: Inst)
      requires Ready() && Filling()
      requires inst.dst.Some? ==> inst.dst.value < nextVreg && (Clean() ==> Reserved(draft, inst.dst.value))
      modifies this
      ensures Ready() && draft == EmitTo(old(draft), old(curBlock), inst) && curBlock == old(curBlock)
      ensures blocks == old(blocks)[curBlock := old(blocks)[curBlock] + [inst]]
      ensures Tables() == old(BuilderTables.Append(Tables(), curBlock, inst))
      ensures Clean() <==> old(Clean())
    {
      hide Good, Holds, Linked;
      if Clean() {
        EmitGood(draft, curBlock, inst);
        EmitHolds(draft, curBlock, inst, blocks);
      }
      blocks := blocks[curBlock := blocks[curBlock] + [inst]];
      draft := EmitTo(draft, curBlock, inst);
    }

    /** The finished function. */
    method Finish() returns (f: Func)
      requires Ready()
      ensures f.blocks == blocks
      ensures Clean() ==> f == Built(draft)
      ensures Clean() && (forall b :: 0 <= b < |sealed| ==> sealed[b]) ==> draft.pending == [] && draft.open == {}
    {
      f := Func(blocks, 0, nextVreg, seq(|params|, i => i));
      if Clean() {
        assert blocks == Built(draft).blocks;
        AllDone(incomplete, sealed);
      }
    }
  }
}
