/** What the SSA builder does to its tables when a variable is looked up and when a block is
    sealed (src/ssa_build.c:225-436), as functions on the tables.

    The code as written corresponds to `guarded == false`.  It goes wrong in two ways: it takes
    back the number of a PHI although reading the predecessors numbered more
    (src/ssa_build.c:290-294), and completing the first incomplete PHI of its list loses the
    ones pushed meanwhile (src/ssa_build.c:431).  With `guarded` the PHI is kept in the first
    case, and only the completed entry leaves the list in the second. */
module BuilderTables {
  import opened Wrappers
  import opened Ssa
  import opened Mach
  import opened Draft
  import opened DraftRead
  import opened DraftSeal
  import opened BuilderShapes

  datatype Tables = Tables(
    blocks: seq<Block>,
    preds: seq<seq<Label>>,
    sealed: seq<bool>,
    defs: seq<map<Name, VReg>>,
    incomplete: seq<Incomplete>,
    nextVreg: nat,
    undefined: bool)

  datatype Hit = Hit(t: Tables, v: VReg)
  datatype Hits = Hits(t: Tables, vs: seq<VReg>)
  datatype Cursor = Cursor(t: Tables, next: nat)

  ghost predicate Fit(t: Tables) {
    var n := |t.blocks|;
    n > 0 && |t.preds| == n && |t.sealed| == n && |t.defs| == n && Linked(t.preds, t.sealed)
  }

  /** What a lookup leaves alone, and what only grows. */
  ghost predicate Kin(t: Tables, t': Tables) {
    && t'.preds == t.preds && t'.sealed == t.sealed && |t'.blocks| == |t.blocks| && |t'.defs| == |t.defs|
    && t.nextVreg <= t'.nextVreg && |t.incomplete| <= |t'.incomplete|
    && forall c :: 0 <= c < |t.blocks| ==> |t.blocks[c]| <= |t'.blocks[c]|
  }

  // ---- What the client's calls do ----

  /** An entry block that holds the parameters. */
  function Start(params: seq<Name>): (r: Tables)
    ensures Fit(r)
  {
    Tables([[]], [[]], [true], [ParamTable(params)], [], |params|, false)
  }

  function Number(t: Tables): (r: Tables)
    ensures Fit(t) ==> Fit(r)
  {
    t.(nextVreg := t.nextVreg + 1)
  }

  function AddBlock(t: Tables): (r: Tables)
    ensures Fit(t) ==> Fit(r)
  {
    t.(blocks := t.blocks + [[]], preds := t.preds + [[]], sealed := t.sealed + [false], defs := t.defs + [map[]])
  }

  function AddPred(t: Tables, b: Label, p: Label): (r: Tables)
    requires b < |t.preds|
    ensures Fit(t) && !t.sealed[b] && p < |t.blocks| ==> Fit(r)
  {
    t.(preds := t.preds[b := t.preds[b] + [p]])
  }

  function Append(t: Tables, b: Label, inst: Inst): (r: Tables)
    requires b < |t.blocks|
    ensures Fit(t) ==> Fit(r)
  {
    t.(blocks := t.blocks[b := t.blocks[b] + [inst]])
  }

  // ---- Looking a variable up ----

  function Note(t: Tables, b: Label, x: Name, v: VReg): Tables
    requires b < |t.defs|
  {
    t.(defs := t.defs[b := Define(t.defs[b], x, v)])
  }

  /** A block whose predecessors are not all known gets an empty PHI. */
  function Park(t: Tables, b: Label, x: Name): Hit
    requires b < |t.defs| && b < |t.blocks|
  {
    var phi := t.nextVreg;
    Hit(Note(t, b, x, phi).(nextVreg := phi + 1, incomplete := [Incomplete(x, phi, b)] + t.incomplete,
                            blocks := t.blocks[b := [EmptyPhi(phi)] + t.blocks[b]]), phi)
  }

  /** A PHI is numbered and recorded before the predecessors are read. */
  function Open(t: Tables, b: Label, x: Name): Tables
    requires b < |t.defs|
  {
    Note(t, b, x, t.nextVreg).(nextVreg := t.nextVreg + 1)
  }

  predicate GivesBack(guarded: bool, nextVreg: nat, phi: VReg, vs: seq<VReg>) {
    AllSame(vs) && (guarded ==> nextVreg == phi + 1 && |vs| > 0 && vs[0] != phi)
  }

  /** The predecessors gave `vs`: take the number back, or emit the PHI. */
  function Settle(guarded: bool, t: Tables, b: Label, x: Name, phi: VReg, vs: seq<VReg>): Hit
    requires b < |t.blocks| && b < |t.defs| && b < |t.preds| && |vs| == |t.preds[b]| > 0 && t.nextVreg > phi
  {
    if GivesBack(guarded, t.nextVreg, phi, vs) then Hit(Note(t, b, x, vs[0]).(nextVreg := t.nextVreg - 1), vs[0])
    else Hit(t.(blocks := t.blocks[b := [Inst(Some(phi), Phi(PhiArgs(vs, t.preds[b])))] + t.blocks[b]]), phi)
  }

  lemma NoteFewer(t: Tables, b: Label, x: Name, v: VReg)
    requires b < |t.defs|
    ensures Missing(Note(t, b, x, v).defs, x) <= Missing(t.defs, x)
    ensures x !in t.defs[b] ==> Missing(Note(t, b, x, v).defs, x) < Missing(t.defs, x)
  {
    MissingLess(t.defs, Note(t, b, x, v).defs, x);
  }

  lemma SettleKin(guarded: bool, t0: Tables, t: Tables, b: Label, x: Name, vs: seq<VReg>)
    requires Fit(t0) && b < |t0.blocks| && x !in t0.defs[b] && Fit(t) && Kin(Open(t0, b, x), t)
    requires |vs| == |t.preds[b]| > 0
    requires Missing(t.defs, x) <= Missing(Open(t0, b, x).defs, x)
    ensures var r := Settle(guarded, t, b, x, t0.nextVreg, vs);
            Fit(r.t) && Kin(t0, r.t) && Missing(r.t.defs, x) <= Missing(t0.defs, x)
  {
    NoteFewer(t0, b, x, t0.nextVreg);
    NoteFewer(t, b, x, vs[0]);
  }

  /** The register that carries `x` at the end of block `b`. */
  function Lookup(guarded: bool, t: Tables, b: Label, x: Name): (r: Hit)
    requires Fit(t) && b < |t.blocks|
    ensures Fit(r.t) && Kin(t, r.t) && Missing(r.t.defs, x) <= Missing(t.defs, x)
    decreases Missing(t.defs, x), b, 1
  {
    if x in t.defs[b] then Hit(t, t.defs[b][x])
    else if !t.sealed[b] then
      NoteFewer(t, b, x, t.nextVreg);
      Park(t, b, x)
    else if |t.preds[b]| == 0 then Hit(t.(undefined := true), INVALID_VREG)
    else if |t.preds[b]| == 1 then
      var r := Lookup(guarded, t, t.preds[b][0], x);
      NoteFewer(r.t, b, x, r.v);
      Hit(Note(r.t, b, x, r.v), r.v)
    else
      NoteFewer(t, b, x, t.nextVreg);
      var r := LookupAll(guarded, Open(t, b, x), b, x, |t.preds[b]|);
      SettleKin(guarded, t, r.t, b, x, r.vs);
      Settle(guarded, r.t, b, x, t.nextVreg, r.vs)
  }

  /** The registers that carry `x` at the ends of the first `n` predecessors of `b`. */
  function LookupAll(guarded: bool, t: Tables, b: Label, x: Name, n: nat): (r: Hits)
    requires Fit(t) && b < |t.blocks| && n <= |t.preds[b]|
    ensures Fit(r.t) && Kin(t, r.t) && Missing(r.t.defs, x) <= Missing(t.defs, x) && |r.vs| == n
    decreases Missing(t.defs, x), |t.blocks|, n
  {
    if n == 0 then Hits(t, [])
    else
      var r := LookupAll(guarded, t, b, x, n - 1);
      var h := Lookup(guarded, r.t, t.preds[b][n - 1], x);
      Hits(h.t, r.vs + [h.v])
  }

  lemma OnePredMore(guarded: bool, t: Tables, b: Label, x: Name, n: nat)
    requires Fit(t) && b < |t.blocks| && n < |t.preds[b]|
    ensures var r := LookupAll(guarded, t, b, x, n); var h := Lookup(guarded, r.t, t.preds[b][n], x);
            LookupAll(guarded, t, b, x, n + 1) == Hits(h.t, r.vs + [h.v])
  {
    hide Lookup;
  }

  lemma NoPreds(guarded: bool, t: Tables, b: Label, x: Name)
    requires Fit(t) && b < |t.blocks|
    ensures LookupAll(guarded, t, b, x, 0) == Hits(t, [])
  {
  }

  // ---- Sealing ----

  /** Where the PHI stands in its block, or the block's length. */
  function PhiPlace(b: Block, phi: VReg): (pos: nat)
    ensures pos <= |b| && (pos < |b| ==> IsPhiOf(b[pos], phi)) && forall j :: 0 <= j < pos ==> !IsPhiOf(b[j], phi)
  {
    if b == [] || IsPhiOf(b[0], phi) then 0 else 1 + PhiPlace(b[1..], phi)
  }

  /** Entry `k` leaves the list, to which `pushed` entries have been put in front. */
  function Unlink(guarded: bool, t: Tables, k: nat, pushed: nat): (r: Cursor)
    requires pushed + k < |t.incomplete|
    ensures r.next <= |r.t.incomplete| && |r.t.incomplete| - r.next < |t.incomplete| - pushed - k
  {
    if k == 0 && !guarded then Cursor(t.(incomplete := t.incomplete[pushed + 1..]), 0)
    else Cursor(t.(incomplete := Without(t.incomplete, pushed + k)), pushed + k)
  }

  /** The operands are written into the PHI; if they are all the same and the table still
      names the PHI, it names the source instead. */
  function Store(t: Tables, p: Incomplete, pos: nat, vs: seq<VReg>): Tables
    requires p.block < |t.blocks| && p.block < |t.defs| && p.block < |t.preds| && pos < |t.blocks[p.block]| && |vs| == |t.preds[p.block]|
  {
    var t' := t.(blocks := t.blocks[p.block := t.blocks[p.block][pos := Inst(Some(p.phi), Phi(PhiArgs(vs, t.preds[p.block])))]]);
    if AllSame(vs) && |vs| > 0 && p.name in t.defs[p.block] && t.defs[p.block][p.name] == p.phi then Note(t', p.block, p.name, vs[0]) else t'
  }

  /** The operands `vs` of entry `p` are stored, and the entry leaves the list. */
  function Fulfil(guarded: bool, t: Tables, p: Incomplete, pos: nat, vs: seq<VReg>, k: nat, pushed: nat): (r: Cursor)
    requires p.block < |t.blocks| && p.block < |t.defs| && p.block < |t.preds| && pos < |t.blocks[p.block]| && |vs| == |t.preds[p.block]|
    requires pushed + k < |t.incomplete|
    ensures r.next <= |r.t.incomplete| && |r.t.incomplete| - r.next < |t.incomplete| - pushed - k
  {
    Unlink(guarded, Store(t, p, pos, vs), k, pushed)
  }

  /** Complete entry `k`, whose PHI stands at position `pos` of its block. */
  function CompleteAt(guarded: bool, t: Tables, k: nat, pos: nat): (r: Cursor)
    requires Fit(t) && k < |t.incomplete| && t.incomplete[k].block < |t.blocks| && pos < |t.blocks[t.incomplete[k].block]|
    ensures Fit(r.t) && r.t.preds == t.preds && r.t.sealed == t.sealed && |r.t.blocks| == |t.blocks|
    ensures r.next <= |r.t.incomplete| && |r.t.incomplete| - r.next < |t.incomplete| - k
  {
    var p := t.incomplete[k];
    var r := LookupAll(guarded, t, p.block, p.name, |t.preds[p.block]|);
    Fulfil(guarded, r.t, p, pos, r.vs, k, |r.t.incomplete| - |t.incomplete|)
  }

  /** Complete entry `k`; `next` is the entry to look at afterwards. */
  function Complete(guarded: bool, t: Tables, k: nat): (r: Cursor)
    requires Fit(t) && k < |t.incomplete| && t.incomplete[k].block < |t.blocks|
    ensures Fit(r.t) && r.t.preds == t.preds && r.t.sealed == t.sealed && |r.t.blocks| == |t.blocks|
    ensures r.next <= |r.t.incomplete| && |r.t.incomplete| - r.next < |t.incomplete| - k
  {
    var p := t.incomplete[k];
    var pos := PhiPlace(t.blocks[p.block], p.phi);
    if pos < |t.blocks[p.block]| then CompleteAt(guarded, t, k, pos)
    else Unlink(guarded, t, k, 0)
  }

  /** Complete the PHIs of `b` from entry `k` of the list on. */
  function SealFrom(guarded: bool, t: Tables, b: Label, k: nat): (r: Tables)
    requires Fit(t) && b < |t.blocks| && k <= |t.incomplete|
    ensures Fit(r) && |r.blocks| == |t.blocks| && r.preds == t.preds && r.sealed == t.sealed
    decreases |t.incomplete| - k
  {
    if k == |t.incomplete| then t
    else if t.incomplete[k].block == b then
      var r := Complete(guarded, t, k);
      SealFrom(guarded, r.t, b, r.next)
    else SealFrom(guarded, t, b, k + 1)
  }

  function Seal(guarded: bool, t: Tables, b: Label): (r: Tables)
    requires Fit(t) && b < |t.blocks| && (|t.preds[b]| == 1 ==> t.preds[b][0] < b)
    ensures Fit(r) && |r.blocks| == |t.blocks| && r.preds == t.preds && r.sealed == t.sealed[b := true]
  {
    if t.sealed[b] then t else SealFrom(guarded, t.(sealed := t.sealed[b := true]), b, 0)
  }
}
