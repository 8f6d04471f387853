/** The function under construction, as the SSA builder sees it (src/ssa_build.c:113-205).

    Besides the instructions it has emitted, a draft remembers the script of each block:
    the instructions, variable writes and variable reads its client asked for, in order.
    PHIs are not part of the script; they stand in front of it. */
module Draft {
  import opened Wrappers
  import opened Ssa

  type Name = string

  datatype Act = Emit(inst: Inst) | Wrote(name: Name, wrote: VReg) | Read(name: Name, got: VReg)

  /** A PHI of a block whose predecessors are not all known yet. */
  datatype Incomplete = Incomplete(name: Name, phi: VReg, block: Label)

  /** Where a register gets its value; a PHI is counted from the end of its block's PHIs,
      because new ones are put in front. */
  datatype Home = Param | Taken | PhiAt(pb: Label, pj: nat) | BodyAt(bb: Label, bi: nat)

  /** `entry[b]` holds the registers known to carry a variable on entry to block b, `open`
      the PHIs numbered but not emitted yet. */
  datatype Draft = Draft(
    params: seq<Name>,
    heads: seq<seq<Inst>>,
    script: seq<seq<Act>>,
    preds: seq<seq<Label>>,
    sealed: seq<bool>,
    defs: seq<map<Name, VReg>>,
    pending: seq<Incomplete>,
    nextVreg: nat,
    entry: seq<set<(Name, VReg)>>,
    home: map<VReg, Home>,
    open: set<Incomplete>)

  // ---- The current value of a variable ----

  function LastWrite(es: seq<Act>, x: Name): Option<VReg> {
    if es == [] then None
    else
      var e := es[|es| - 1];
      if e.Wrote? && e.name == x then Some(e.wrote) else LastWrite(es[..|es| - 1], x)
  }

  /** Both registers carry the same variable on entry. */
  ghost predicate Alias(en: set<(Name, VReg)>, u: VReg, v: VReg) {
    exists z :: (z, u) in en && (z, v) in en
  }

  /** After the events, `v` carries `x`. */
  ghost predicate Carries(es: seq<Act>, en: set<(Name, VReg)>, x: Name, v: VReg) {
    match LastWrite(es, x)
    case None => (x, v) in en
    case Some(u) => u == v || Alias(en, u, v)
  }

  ghost predicate EndIs(d: Draft, q: Label, x: Name, v: VReg) {
    q < |d.script| && q < |d.entry| && Carries(d.script[q], d.entry[q], x, v)
  }

  lemma CarriesMore(es: seq<Act>, en: set<(Name, VReg)>, en': set<(Name, VReg)>, x: Name, v: VReg)
    requires Carries(es, en, x, v) && en <= en'
    ensures Carries(es, en', x, v)
  {
  }

  // ---- Why a register carries a variable on entry to a block ----

  predicate ParamIs(params: seq<Name>, x: Name, e: VReg) {
    e < |params| && params[e] == x && forall i :: e < i < |params| ==> params[i] != x
  }

  /** One operand per predecessor, each carrying `x` at its end. */
  ghost predicate FromPreds(d: Draft, b: Label, x: Name, args: seq<PhiArg>) {
    && b < |d.preds| && |args| == |d.preds[b]|
    && forall i :: 0 <= i < |args| ==> args[i].pred == d.preds[b][i] && EndIs(d, d.preds[b][i], x, args[i].src)
  }

  ghost predicate PhiDone(d: Draft, b: Label, x: Name, e: VReg) {
    b < |d.heads| && exists k :: 0 <= k < |d.heads[b]| && d.heads[b][k].dst == Some(e) && d.heads[b][k].op.Phi?
                                 && FromPreds(d, b, x, d.heads[b][k].op.args)
  }

  ghost predicate PassThrough(d: Draft, b: Label, x: Name, e: VReg) {
    b < |d.preds| && d.preds[b] != [] && forall i :: 0 <= i < |d.preds[b]| ==> EndIs(d, d.preds[b][i], x, e)
  }

  ghost predicate Waiting(d: Draft, p: Incomplete) {
    p in d.open || p in d.pending
  }

  ghost predicate Justified(d: Draft, b: Label, x: Name, e: VReg) {
    || (b == 0 && ParamIs(d.params, x, e))
    || Waiting(d, Incomplete(x, e, b))
    || (b < |d.sealed| && d.sealed[b] && (PhiDone(d, b, x, e) || PassThrough(d, b, x, e) || Unreached(d, b)))
  }

  /** Nothing leads here. */
  predicate Unreached(d: Draft, b: Label) {
    b != 0 && b < |d.preds| && d.preds[b] == []
  }

  ghost predicate IsOpen(d: Draft, e: VReg) {
    exists p :: p in d.open && p.phi == e
  }

  // ---- The invariant of a draft ----

  ghost predicate Sizes(d: Draft) {
    var n := |d.heads|;
    && n > 0 && |d.script| == n && |d.preds| == n && |d.sealed| == n && |d.defs| == n && |d.entry| == n
    && (forall b, i :: 0 <= b < n && 0 <= i < |d.preds[b]| ==> d.preds[b][i] < n)
    && d.preds[0] == [] && d.sealed[0]
  }

  /** Every register is defined where its home says, hence once. */
  ghost predicate Homes(d: Draft) {
    && (forall v: VReg :: v in d.home <==> v < d.nextVreg)
    && (forall v :: 0 <= v < |d.params| ==> v in d.home && d.home[v] == Param)
    && (forall b, k :: 0 <= b < |d.heads| && 0 <= k < |d.heads[b]| ==> AtHome(d, d.heads[b][k].dst, PhiAt(b, |d.heads[b]| - 1 - k)))
    && (forall b, i :: 0 <= b < |d.script| && 0 <= i < |d.script[b]| && d.script[b][i].Emit? && d.script[b][i].inst.dst.Some? ==>
          AtHome(d, d.script[b][i].inst.dst, BodyAt(b, i)))
    && (forall v :: v in d.home && d.home[v].BodyAt? ==> d.home[v].bb < |d.script| && d.home[v].bi < |d.script[d.home[v].bb]|)
    && (forall v :: v in d.home && d.home[v].PhiAt? ==> d.home[v].pb < |d.heads|)
  }

  ghost predicate AtHome(d: Draft, dst: Option<VReg>, h: Home) {
    dst.Some? && dst.value in d.home && d.home[dst.value] == h
  }

  ghost predicate EntryOk(d: Draft, b: Label, x: Name, e: VReg) {
    e in d.home && (d.home[e].Taken? ==> IsOpen(d, e)) && Justified(d, b, x, e)
  }

  ghost predicate Entries(d: Draft) {
    forall b: Label, x, e :: b < |d.entry| && (x, e) in d.entry[b] ==> EntryOk(d, b, x, e)
  }

  /** A PHI still waits for its operands, or has one per predecessor. */
  ghost predicate HeadIs(d: Draft, b: Label, k: nat, x: Name)
    requires b < |d.heads| && k < |d.heads[b]| && b < |d.entry|
  {
    var inst := d.heads[b][k];
    && b != 0 && inst.op.Phi? && inst.dst.Some? && (x, inst.dst.value) in d.entry[b]
    && ((inst.op.args == [] && Incomplete(x, inst.dst.value, b) in d.pending) || (b < |d.sealed| && d.sealed[b] && FromPreds(d, b, x, inst.op.args)))
  }

  ghost predicate HeadOk(d: Draft, b: Label, k: nat)
    requires b < |d.heads| && k < |d.heads[b]| && b < |d.entry|
  {
    exists x :: HeadIs(d, b, k, x)
  }

  ghost predicate Heads(d: Draft)
    requires |d.entry| == |d.heads|
  {
    forall b: Label, k: nat :: b < |d.heads| && k < |d.heads[b]| ==> HeadOk(d, b, k)
  }

  /** The empty PHI of an incomplete entry stands in its block; if the table still names it,
      the variable was not overwritten since. */
  ghost predicate Parked(d: Draft, p: Incomplete) {
    && p.block < |d.heads| && p.block < |d.entry| && p.block < |d.defs| && p.block < |d.script|
    && (p.name, p.phi) in d.entry[p.block]
    && Inst(Some(p.phi), Phi([])) in d.heads[p.block]
    && p.name in d.defs[p.block]
    && (d.defs[p.block][p.name] == p.phi && LastWrite(d.script[p.block], p.name).Some? ==> LastWrite(d.script[p.block], p.name) == Some(p.phi))
  }

  ghost predicate Waits(d: Draft) {
    && (forall i :: 0 <= i < |d.pending| ==> Parked(d, d.pending[i]))
    && (forall i, j :: 0 <= i < j < |d.pending| ==>
          d.pending[i].phi != d.pending[j].phi && (d.pending[i].name != d.pending[j].name || d.pending[i].block != d.pending[j].block))
    && (forall p :: p in d.open ==> p.block < |d.heads| && p.phi in d.home && d.home[p.phi].Taken?)
    && (forall p, q :: p in d.open && q in d.open && p.phi == q.phi ==> p == q)
  }

  /** What the definition tables say is right at the end of each block. */
  ghost predicate Defs(d: Draft) {
    && (forall b, x :: 0 <= b < |d.defs| && x in d.defs[b] ==> EndIs(d, b, x, d.defs[b][x]))
    && (forall b, x :: 0 <= b < |d.defs| && b < |d.script| && LastWrite(d.script[b], x).Some? ==> x in d.defs[b])
  }

  /** A terminator comes last; a read got a register that carries its variable; a write stored
      a register defined before. */
  ghost predicate ActOk(d: Draft, b: Label, i: nat)
    requires b < |d.script| && i < |d.script[b]| && b < |d.entry|
  {
    match d.script[b][i]
    case Emit(inst) => inst.op.IsTerminator() ==> i == |d.script[b]| - 1
    case Read(x, v) => Carries(d.script[b][..i], d.entry[b], x, v)
    case Wrote(x, v) => v in d.home && !d.home[v].Taken? && (d.home[v].BodyAt? && d.home[v].bb == b ==> d.home[v].bi < i)
  }

  ghost predicate Scripts(d: Draft)
    requires |d.entry| == |d.script|
  {
    forall b: Label, i: nat :: b < |d.script| && i < |d.script[b]| ==> ActOk(d, b, i)
  }

  predicate Ended(es: seq<Act>) {
    es != [] && es[|es| - 1].Emit? && es[|es| - 1].inst.op.IsTerminator()
  }

  /** The predecessors of a sealed block are finished. */
  ghost predicate Sealing(d: Draft) {
    forall b, i :: 0 <= b < |d.sealed| && b < |d.preds| && d.sealed[b] && 0 <= i < |d.preds[b]| ==>
      d.preds[b][i] < |d.script| && Ended(d.script[d.preds[b][i]])
  }

  ghost predicate Good(d: Draft) {
    && Sizes(d) && Homes(d) && Entries(d) && Heads(d) && Waits(d) && Defs(d) && Scripts(d) && Sealing(d)
  }

  // ---- Growing ----

  /** The same scripts and predecessors, more known about entries. */
  ghost predicate Wider(d: Draft, d': Draft) {
    && d'.params == d.params && d'.script == d.script && d'.preds == d.preds && d'.sealed == d.sealed
    && |d'.entry| == |d.entry| && |d'.heads| == |d.heads| && |d'.defs| == |d.defs|
    && forall b :: 0 <= b < |d.entry| ==> d.entry[b] <= d'.entry[b]
  }

  lemma WiderEnd(d: Draft, d': Draft, q: Label, x: Name, v: VReg)
    requires Wider(d, d') && EndIs(d, q, x, v)
    ensures EndIs(d', q, x, v)
  {
    CarriesMore(d.script[q], d.entry[q], d'.entry[q], x, v);
  }

  lemma WiderFrom(d: Draft, d': Draft, b: Label, x: Name, args: seq<PhiArg>)
    requires Wider(d, d') && FromPreds(d, b, x, args)
    ensures FromPreds(d', b, x, args)
  {
    hide EndIs, Wider;
    assert d'.preds == d.preds by { WiderPreds(d, d'); }
    forall i | 0 <= i < |args| ensures args[i].pred == d'.preds[b][i] && EndIs(d', d'.preds[b][i], x, args[i].src) {
      WiderEnd(d, d', d.preds[b][i], x, args[i].src);
    }
  }

  lemma WiderPreds(d: Draft, d': Draft)
    requires Wider(d, d')
    ensures d'.preds == d.preds && d'.sealed == d.sealed && d'.params == d.params
  {
  }

  lemma WiderPass(d: Draft, d': Draft, b: Label, x: Name, e: VReg)
    requires Wider(d, d') && PassThrough(d, b, x, e)
    ensures PassThrough(d', b, x, e)
  {
    hide EndIs, Wider;
    assert d'.preds == d.preds by { WiderPreds(d, d'); }
    forall i | 0 <= i < |d.preds[b]| ensures EndIs(d', d.preds[b][i], x, e) {
      WiderEnd(d, d', d.preds[b][i], x, e);
    }
  }

  /** What was justified stays so while no finished PHI disappears and nobody stops waiting. */
  lemma WiderJustified(d: Draft, d': Draft, b: Label, x: Name, e: VReg)
    requires Wider(d, d') && Justified(d, b, x, e)
    requires Waiting(d, Incomplete(x, e, b)) ==> Waiting(d', Incomplete(x, e, b))
    requires b < |d.heads| && forall k :: 0 <= k < |d.heads[b]| && d.heads[b][k].dst == Some(e) ==> d.heads[b][k] in d'.heads[b]
    ensures Justified(d', b, x, e)
  {
    WiderPreds(d, d');
    hide FromPreds, Wider, PassThrough, Waiting;
    if b < |d.sealed| && d.sealed[b] {
      if PhiDone(d, b, x, e) {
        var k :| 0 <= k < |d.heads[b]| && d.heads[b][k].dst == Some(e) && d.heads[b][k].op.Phi? && FromPreds(d, b, x, d.heads[b][k].op.args);
        WiderFrom(d, d', b, x, d.heads[b][k].op.args);
        var j :| 0 <= j < |d'.heads[b]| && d'.heads[b][j] == d.heads[b][k];
        assert PhiDone(d', b, x, e);
      } else if PassThrough(d, b, x, e) {
        WiderPass(d, d', b, x, e);
      }
    }
  }

  /** What a block's end carries is known. */
  lemma EndKnown(d: Draft, q: Label, x: Name, v: VReg)
    requires Good(d) && EndIs(d, q, x, v)
    ensures v in d.home && (d.home[v].Taken? ==> IsOpen(d, v))
  {
    assert Sizes(d) && Entries(d) && Scripts(d);
    hide Good, Homes, Heads, Waits, Defs, Sealing;
    if LastWrite(d.script[q], x).Some? {
      var u := LastWrite(d.script[q], x).value;
      var i := LastWriteAt(d.script[q], x);
      assert ActOk(d, q, i);
      if u != v {
        var z :| (z, u) in d.entry[q] && (z, v) in d.entry[q];
        assert EntryOk(d, q, z, v);
      }
    } else {
      assert EntryOk(d, q, x, v);
    }
  }

  lemma {:induction false} LastWriteAt(es: seq<Act>, x: Name) returns (i: nat)
    requires LastWrite(es, x).Some?
    ensures i < |es| && es[i] == Wrote(x, LastWrite(es, x).value)
  {
    var n := |es| - 1;
    if es[n].Wrote? && es[n].name == x {
      i := n;
    } else {
      i := LastWriteAt(es[..n], x);
    }
  }
}
