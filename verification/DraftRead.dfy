/** What the builder does to a draft when it looks a variable up (src/ssa_build.c:225-360). */
module DraftRead {
  import opened Wrappers
  import opened Ssa
  import opened Draft

  function Define(m: map<Name, VReg>, x: Name, v: VReg): map<Name, VReg> {
    m[x := v]
  }

  /** `v` is found to carry `x` on entry to `b`, and noted there. */
  function Note(d: Draft, b: Label, x: Name, v: VReg): Draft
    requires b < |d.defs| && b < |d.entry|
  {
    d.(defs := d.defs[b := Define(d.defs[b], x, v)], entry := d.entry[b := d.entry[b] + {(x, v)}])
  }

  ghost predicate HomesKept(d: Draft, d': Draft) {
    forall v :: v in d.home ==> v in d'.home && d'.home[v] == d.home[v]
  }

  /** Tables, scripts and sealing when one more entry is noted. */
  lemma NotedRest(d: Draft, d': Draft, b: Label, x: Name, v: VReg)
    requires Good(d) && Wider(d, d') && HomesKept(d, d')
    requires b < |d.defs| && d'.defs == d.defs[b := Define(d.defs[b], x, v)] && EndIs(d', b, x, v)
    ensures Defs(d') && Scripts(d') && Sealing(d')
  {
    hide Homes, Entries, Heads, Waits;
    forall c, y | 0 <= c < |d'.defs| && y in d'.defs[c] ensures EndIs(d', c, y, d'.defs[c][y]) {
      if c != b || y != x {
        WiderEnd(d, d', c, y, d.defs[c][y]);
      }
    }
    forall c: Label, i: nat | c < |d'.script| && i < |d'.script[c]| ensures ActOk(d', c, i) {
      assert ActOk(d, c, i);
    }
  }

  /** PHIs that stay as they were stay right. */
  lemma HeadsStay(d: Draft, d': Draft)
    requires Good(d) && Wider(d, d') && d'.heads == d.heads && d'.pending == d.pending
    ensures Heads(d')
  {
    assert Heads(d) && Sizes(d);
    hide Good, FromPreds;
    forall c: Label, k: nat | c < |d'.heads| && k < |d'.heads[c]| ensures HeadOk(d', c, k) {
      assert HeadOk(d, c, k);
      var y :| HeadIs(d, c, k, y);
      HeadMoves(d, d', c, k, k, y);
    }
  }

  lemma HeadMoves(d: Draft, d': Draft, c: Label, j: nat, k: nat, y: Name)
    requires Sizes(d) && Wider(d, d') && c < |d.heads| && j < |d.heads[c]| && HeadIs(d, c, j, y)
    requires k < |d'.heads[c]| && d'.heads[c][k] == d.heads[c][j]
    requires Incomplete(y, d.heads[c][j].dst.value, c) in d.pending ==> Incomplete(y, d.heads[c][j].dst.value, c) in d'.pending
    ensures HeadIs(d', c, k, y)
  {
    hide FromPreds;
    if d.sealed[c] && FromPreds(d, c, y, d.heads[c][j].op.args) {
      WiderFrom(d, d', c, y, d.heads[c][j].op.args);
    }
  }

  /** No incomplete PHI would take `v` for its own. */
  ghost predicate NotPinned(d: Draft, b: Label, x: Name, v: VReg)
    requires b < |d.script|
  {
    forall i :: 0 <= i < |d.pending| && d.pending[i].name == x && d.pending[i].block == b ==> d.pending[i].phi != v || LastWrite(d.script[b], x) == Some(v)
  }

  /** All predecessors agree: the variable passes through. */
  lemma NotePass(d: Draft, b: Label, x: Name, v: VReg)
    requires Good(d) && b < |d.heads| && d.sealed[b] && PassThrough(d, b, x, v)
    requires LastWrite(d.script[b], x).Some? ==> (x, LastWrite(d.script[b], x).value) in d.entry[b] && NotPinned(d, b, x, v)
    ensures Good(Note(d, b, x, v))
  {
    var d' := Note(d, b, x, v);
    assert EndIs(d', b, x, v);
    assert Sizes(d) && Entries(d) && Waits(d) && Homes(d);
    assert Sizes(d') && Homes(d');
    NotedRest(d, d', b, x, v);
    HeadsStay(d, d');
    EndKnown(d, d.preds[b][0], x, v);
    hide Good, Homes, Justified, PassThrough, EndIs;
    forall c: Label, y, e | c < |d'.entry| && (y, e) in d'.entry[c] ensures EntryOk(d', c, y, e) {
      if (y, e) in d.entry[c] {
        assert EntryOk(d, c, y, e);
        WiderJustified(d, d', c, y, e);
      } else {
        WiderPass(d, d', b, x, v);
        PassIsJust(d', b, x, v);
      }
    }
    NoteWaits(d, b, x, v);
  }

  lemma PassIsJust(d: Draft, b: Label, x: Name, v: VReg)
    requires b < |d.sealed| && d.sealed[b] && PassThrough(d, b, x, v)
    ensures Justified(d, b, x, v)
  {
  }

  lemma NoteWaits(d: Draft, b: Label, x: Name, v: VReg)
    requires Sizes(d) && Waits(d) && b < |d.heads|
    requires LastWrite(d.script[b], x).Some? ==> NotPinned(d, b, x, v)
    ensures Waits(Note(d, b, x, v))
  {
    var d' := Note(d, b, x, v);
    forall i | 0 <= i < |d'.pending| ensures Parked(d', d'.pending[i]) {
      assert Parked(d, d.pending[i]);
    }
  }

  // ---- A PHI at a block whose predecessors are all known ----

  /** Number a PHI and record it, so that reads through a loop find it. */
  function Open(d: Draft, b: Label, x: Name): Draft
    requires b < |d.defs| && b < |d.entry|
  {
    var e := d.nextVreg;
    Note(d, b, x, e).(nextVreg := e + 1, home := d.home[e := Taken], open := d.open + {Incomplete(x, e, b)})
  }

  lemma TakenHomes(d: Draft, d': Draft)
    requires Homes(d) && d'.params == d.params && d'.heads == d.heads && d'.script == d.script
    requires d'.home == d.home[d.nextVreg := Taken] && d'.nextVreg == d.nextVreg + 1
    ensures Homes(d')
  {
    forall v: VReg ensures v in d'.home <==> v < d'.nextVreg {
      assert v in d.home <==> v < d.nextVreg;
    }
    forall v | v in d'.home && d'.home[v].BodyAt? ensures d'.home[v].bb < |d'.script| && d'.home[v].bi < |d'.script[d'.home[v].bb]| {
      assert v in d.home && d.home[v].BodyAt?;
    }
    forall v: VReg | v < |d'.params| ensures v in d'.home && d'.home[v] == Param {
      assert v in d.home && d.home[v] == Param;
    }
    forall c, k | 0 <= c < |d'.heads| && 0 <= k < |d'.heads[c]| ensures AtHome(d', d'.heads[c][k].dst, PhiAt(c, |d'.heads[c]| - 1 - k)) {
      assert AtHome(d, d.heads[c][k].dst, PhiAt(c, |d.heads[c]| - 1 - k));
    }
    forall c, i | 0 <= c < |d'.script| && 0 <= i < |d'.script[c]| && d'.script[c][i].Emit? && d'.script[c][i].inst.dst.Some?
      ensures AtHome(d', d'.script[c][i].inst.dst, BodyAt(c, i))
    {
      assert AtHome(d, d.script[c][i].inst.dst, BodyAt(c, i));
    }
  }

  lemma OpenBasics(d: Draft, b: Label, x: Name)
    requires Good(d) && b < |d.heads| && LastWrite(d.script[b], x).None?
    ensures var d' := Open(d, b, x);
            && EndIs(d', b, x, d.nextVreg) && Sizes(d') && Homes(d') && Waits(d') && Wider(d, d') && HomesKept(d, d')
  {
    var d', e := Open(d, b, x), d.nextVreg;
    hide Heads, Defs, Scripts, Sealing, Entries;
    assert EndIs(d', b, x, e);
    assert Sizes(d') && Wider(d, d') && HomesKept(d, d');
    TakenHomes(d, d');
    NoteWaits(d, b, x, e);
  }

  lemma OpenGood(d: Draft, b: Label, x: Name)
    requires Good(d) && b < |d.heads| && LastWrite(d.script[b], x).None?
    ensures Good(Open(d, b, x))
  {
    var d', e := Open(d, b, x), d.nextVreg;
    OpenBasics(d, b, x);
    assert d'.defs == d.defs[b := Define(d.defs[b], x, e)] && d'.heads == d.heads && d'.pending == d.pending;
    hide Homes, Waits, Open, EndIs, Wider, HomesKept;
    NotedRest(d, d', b, x, e);
    HeadsStay(d, d');
    hide Heads, Defs, Scripts, Sealing;
    OpenEntries(d, b, x);
  }

  lemma OpenEntries(d: Draft, b: Label, x: Name)
    requires Good(d) && b < |d.heads|
    ensures Entries(Open(d, b, x))
  {
    var d', e := Open(d, b, x), d.nextVreg;
    assert Incomplete(x, e, b) in d'.open;
    assert Sizes(d) && Entries(d) && Homes(d);
    hide Good, Justified, EndIs;
    forall c: Label, y, v | c < |d'.entry| && (y, v) in d'.entry[c] ensures EntryOk(d', c, y, v) {
      if (y, v) in d.entry[c] {
        assert EntryOk(d, c, y, v);
        assert v != e;
        if d.home[v].Taken? {
          var p :| p in d.open && p.phi == v;
          assert p in d'.open;
        }
        WiderJustified(d, d', c, y, v);
      } else {
        WaitIsJust(d', Incomplete(x, e, b));
      }
    }
  }

  lemma WaitIsJust(d: Draft, p: Incomplete)
    requires Waiting(d, p)
    ensures Justified(d, p.block, p.name, p.phi)
  {
  }

  /** Emit the PHI in front of its block. */
  function Close(d: Draft, p: Incomplete, args: seq<PhiArg>): Draft
    requires p.block < |d.heads|
  {
    d.(heads := d.heads[p.block := [Inst(Some(p.phi), Phi(args))] + d.heads[p.block]],
       home := d.home[p.phi := PhiAt(p.block, |d.heads[p.block]|)],
       open := d.open - {p})
  }

  lemma ClosedHomes(d: Draft, p: Incomplete, args: seq<PhiArg>)
    requires Good(d) && p in d.open
    ensures Homes(Close(d, p, args)) && Sizes(Close(d, p, args)) && Sealing(Close(d, p, args))
    ensures forall v :: v in d.home && v != p.phi ==> v in Close(d, p, args).home && Close(d, p, args).home[v] == d.home[v]
  {
    var d' := Close(d, p, args);
    hide Entries, Heads, Scripts, Defs;
    forall v: VReg ensures v in d'.home <==> v < d'.nextVreg {
      assert v in d.home <==> v < d.nextVreg;
    }
    forall c, k | 0 <= c < |d'.heads| && 0 <= k < |d'.heads[c]| ensures AtHome(d', d'.heads[c][k].dst, PhiAt(c, |d'.heads[c]| - 1 - k)) {
      if c == p.block {
        if k > 0 {
          assert d'.heads[c][k] == d.heads[c][k - 1];
          assert AtHome(d, d.heads[c][k - 1].dst, PhiAt(c, |d.heads[c]| - 1 - (k - 1)));
        }
      } else {
        assert AtHome(d, d.heads[c][k].dst, PhiAt(c, |d.heads[c]| - 1 - k));
      }
    }
  }

  lemma CloseGood(d: Draft, p: Incomplete, args: seq<PhiArg>)
    requires Good(d) && p in d.open && 0 < p.block < |d.heads| && d.sealed[p.block] && (p.name, p.phi) in d.entry[p.block]
    requires FromPreds(d, p.block, p.name, args)
    ensures Good(Close(d, p, args))
  {
    var d' := Close(d, p, args);
    ClosedHomes(d, p, args);
    WiderFrom(d, d', p.block, p.name, args);
    hide Homes, EndIs, FromPreds;
    CloseScripts(d, p, args);
    CloseHeads(d, p, args);
    CloseWaits(d, p, args);
    CloseEntries(d, p, args);
    forall c, y | 0 <= c < |d'.defs| && y in d'.defs[c] ensures EndIs(d', c, y, d'.defs[c][y]) {
      WiderEnd(d, d', c, y, d.defs[c][y]);
    }
  }

  lemma CloseScripts(d: Draft, p: Incomplete, args: seq<PhiArg>)
    requires Good(d) && p in d.open && p.block < |d.heads|
    ensures Scripts(Close(d, p, args))
  {
    var d' := Close(d, p, args);
    hide Homes, Entries, Heads, Defs;
    forall c: Label, i: nat | c < |d'.script| && i < |d'.script[c]| ensures ActOk(d', c, i) {
      assert ActOk(d, c, i);
    }
  }

  lemma CloseHeads(d: Draft, p: Incomplete, args: seq<PhiArg>)
    requires Good(d) && p in d.open && 0 < p.block < |d.heads| && d.sealed[p.block] && (p.name, p.phi) in d.entry[p.block]
    requires FromPreds(Close(d, p, args), p.block, p.name, args)
    ensures Heads(Close(d, p, args))
  {
    var d' := Close(d, p, args);
    assert Heads(d) && Sizes(d);
    hide Good, FromPreds, Homes;
    forall c: Label, k: nat | c < |d'.heads| && k < |d'.heads[c]| ensures HeadOk(d', c, k) {
      if c == p.block && k == 0 {
        assert HeadIs(d', c, k, p.name);
      } else {
        var j := if c == p.block then k - 1 else k;
        assert d'.heads[c][k] == d.heads[c][j];
        assert HeadOk(d, c, j);
        var y :| HeadIs(d, c, j, y);
        HeadMoves(d, d', c, j, k, y);
      }
    }
  }

  lemma CloseWaits(d: Draft, p: Incomplete, args: seq<PhiArg>)
    requires Good(d) && p in d.open && p.block < |d.heads|
    ensures Waits(Close(d, p, args))
  {
    var d' := Close(d, p, args);
    assert Waits(d) && Sizes(d);
    hide Good, Homes;
    forall i | 0 <= i < |d'.pending| ensures Parked(d', d'.pending[i]) {
      var q := d.pending[i];
      assert Parked(d, q);
      var k :| 0 <= k < |d.heads[q.block]| && d.heads[q.block][k] == Inst(Some(q.phi), Phi([]));
      assert d'.heads[q.block][if q.block == p.block then k + 1 else k] == d.heads[q.block][k];
    }
  }

  lemma CloseEntries(d: Draft, p: Incomplete, args: seq<PhiArg>)
    requires Good(d) && p in d.open && p.block < |d.heads| && d.sealed[p.block]
    requires FromPreds(Close(d, p, args), p.block, p.name, args)
    ensures Entries(Close(d, p, args))
  {
    var d' := Close(d, p, args);
    var phi := Inst(Some(p.phi), Phi(args));
    assert d'.heads[p.block][0] == phi;
    assert Waits(d) && Entries(d) && Sizes(d);
    hide Good, FromPreds, Homes;
    assert PhiDone(d', p.block, p.name, p.phi);
    forall c: Label, y, v | c < |d'.entry| && (y, v) in d'.entry[c] ensures EntryOk(d', c, y, v) {
      assert EntryOk(d, c, y, v);
      if v != p.phi && d.home[v].Taken? {
        var q :| q in d.open && q.phi == v;
        assert q in d'.open;
      }
      CloseJust(d, p, args, c, y, v);
    }
  }

  lemma CloseJust(d: Draft, p: Incomplete, args: seq<PhiArg>, c: Label, y: Name, v: VReg)
    requires Sizes(d) && p in d.open && p.block < |d.heads| && d.sealed[p.block] && c < |d.heads|
    requires PhiDone(Close(d, p, args), p.block, p.name, p.phi)
    requires Justified(d, c, y, v)
    ensures Justified(Close(d, p, args), c, y, v)
  {
    var d' := Close(d, p, args);
    forall k | 0 <= k < |d.heads[c]| ensures d.heads[c][k] in d'.heads[c] {
      assert d'.heads[c][if c == p.block then k + 1 else k] == d.heads[c][k];
    }
    hide PhiDone;
    if p != Incomplete(y, v, c) {
      WiderJustified(d, d', c, y, v);
    }
  }

  // ---- A PHI that turns out not to be needed ----

  /** Reading the predecessors numbered nothing new, and found only registers of `found`. */
  ghost predicate Quiet(d0: Draft, d1: Draft, x: Name, found: set<VReg>) {
    && d1.nextVreg == d0.nextVreg && d1.heads == d0.heads && d1.pending == d0.pending && d1.home == d0.home
    && forall c, y, v :: 0 <= c < |d1.entry| && c < |d0.entry| && (y, v) in d1.entry[c] ==> (y, v) in d0.entry[c] || (y == x && v in found)
  }

  /** What reading variable `x` may change. */
  ghost predicate Steps(d0: Draft, d1: Draft, x: Name) {
    && Wider(d0, d1) && HomesKept(d0, d1) && d1.open == d0.open && d0.nextVreg <= d1.nextVreg
    && (forall c :: 0 <= c < |d0.defs| && c < |d1.defs| ==> TableStep(d0.defs[c], d1.defs[c], x))
    && (forall c :: 0 <= c < |d0.defs| && c < |d0.heads| && c < |d1.heads| && x in d0.defs[c] ==> d1.heads[c] == d0.heads[c])
    && Pushed(d0, d1)
  }

  /** One variable may have become known; everything else is as it was. */
  ghost predicate TableStep(m: map<Name, VReg>, m': map<Name, VReg>, x: Name) {
    && (x in m ==> m' == m)
    && (forall y :: y != x ==> (y in m' <==> y in m))
    && (forall y :: y != x && y in m && y in m' ==> m'[y] == m[y])
  }

  /** Incomplete PHIs were put in front of the list, for blocks that are not sealed. */
  ghost predicate Pushed(d0: Draft, d1: Draft) {
    && |d0.pending| <= |d1.pending|
    && d1.pending[|d1.pending| - |d0.pending|..] == d0.pending
    && forall i :: 0 <= i < |d1.pending| - |d0.pending| ==> d1.pending[i].block < |d0.sealed| && !d0.sealed[d1.pending[i].block]
  }

  lemma StepsRefl(d: Draft, x: Name)
    ensures Steps(d, d, x)
  {
  }

  lemma StepsTrans(d0: Draft, d1: Draft, d2: Draft, x: Name)
    requires Steps(d0, d1, x) && Steps(d1, d2, x)
    ensures Steps(d0, d2, x)
  {
    assert Pushed(d0, d2) by {
      var m, n := |d1.pending| - |d0.pending|, |d2.pending| - |d1.pending|;
      assert d2.pending[n..][m..] == d2.pending[n + m..];
      forall i | 0 <= i < n + m ensures d2.pending[i].block < |d0.sealed| && !d0.sealed[d2.pending[i].block] {
        if i >= n {
          assert d2.pending[i] == d2.pending[n..][i - n];
        }
      }
    }
  }

  /** Take back the number of the PHI and let the variable pass through. */
  function Cancel(d0: Draft, d1: Draft, b: Label, x: Name, s: VReg): Draft
    requires b < |d1.defs| && b < |d1.entry|
  {
    d1.(nextVreg := d0.nextVreg, home := d0.home, open := d0.open,
        entry := d1.entry[b := d1.entry[b] - {(x, d0.nextVreg)} + {(x, s)}],
        defs := d1.defs[b := Define(d1.defs[b], x, s)])
  }

  /** The predecessors were read after the PHI for (b, x) was opened, quietly, and all gave `s`. */
  ghost predicate Cancels(d0: Draft, d1: Draft, b: Label, x: Name, s: VReg) {
    && Good(d0) && Good(d1) && b < |d0.heads| && d0.sealed[b] && LastWrite(d0.script[b], x).None? && x !in d0.defs[b]
    && Steps(Open(d0, b, x), d1, x) && Quiet(Open(d0, b, x), d1, x, {s})
    && PassThrough(d1, b, x, s) && s != d0.nextVreg
  }

  lemma CancelFacts(d0: Draft, d1: Draft, b: Label, x: Name, s: VReg)
    requires Cancels(d0, d1, b, x, s)
    ensures b < |d1.defs| && b < |d1.entry| && Wider(d0, Cancel(d0, d1, b, x, s))
    ensures d0.nextVreg !in d0.home && s in d0.home
    ensures forall c, y, v :: 0 <= c < |d1.entry| && (y, v) in d1.entry[c] && v == d0.nextVreg ==> c == b && y == x
  {
    var e := d0.nextVreg;
    assert e !in d0.home by { assert Homes(d0); }
    EndKnown(d1, d1.preds[b][0], x, s);
    forall c, y, v | 0 <= c < |d1.entry| && (y, v) in d1.entry[c] ensures v == e ==> c == b && y == x {
      if (y, v) in d0.entry[c] {
        assert EntryOk(d0, c, y, v);
      }
    }
  }

  /** Every register but the withdrawn one still carries what it did. */
  lemma CancelEnd(d0: Draft, d1: Draft, b: Label, x: Name, s: VReg, q: Label, y: Name, v: VReg)
    requires Cancels(d0, d1, b, x, s) && EndIs(d1, q, y, v) && v != d0.nextVreg
    ensures EndIs(Cancel(d0, d1, b, x, s), q, y, v)
  {
    CancelFacts(d0, d1, b, x, s);
    var e := d0.nextVreg;
    if LastWrite(d1.script[q], y).Some? {
      var i := LastWriteAt(d1.script[q], y);
      assert Scripts(d1);
      assert ActOk(d1, q, i);
      assert Incomplete(x, e, b) in d1.open;
      assert Waits(d1);
    }
  }

  lemma CancelFrom(d0: Draft, d1: Draft, b: Label, x: Name, s: VReg, c: Label, y: Name, args: seq<PhiArg>)
    requires Cancels(d0, d1, b, x, s) && FromPreds(d1, c, y, args)
    requires forall i :: 0 <= i < |args| ==> args[i].src != d0.nextVreg
    ensures FromPreds(Cancel(d0, d1, b, x, s), c, y, args)
  {
    var d2 := Cancel(d0, d1, b, x, s);
    hide Cancels, EndIs;
    forall i | 0 <= i < |args| ensures EndIs(d2, d1.preds[c][i], y, args[i].src) {
      CancelEnd(d0, d1, b, x, s, d1.preds[c][i], y, args[i].src);
    }
  }

  lemma CancelPass(d0: Draft, d1: Draft, b: Label, x: Name, s: VReg, c: Label, y: Name, v: VReg)
    requires Cancels(d0, d1, b, x, s) && PassThrough(d1, c, y, v) && v != d0.nextVreg
    ensures PassThrough(Cancel(d0, d1, b, x, s), c, y, v)
  {
    var d2 := Cancel(d0, d1, b, x, s);
    hide Cancels, EndIs;
    forall i | 0 <= i < |d1.preds[c]| ensures EndIs(d2, d1.preds[c][i], y, v) {
      CancelEnd(d0, d1, b, x, s, d1.preds[c][i], y, v);
    }
  }

  /** The PHIs emitted before know nothing of the withdrawn number. */
  lemma OldArgs(d0: Draft, c: Label, k: nat)
    requires Good(d0) && c < |d0.heads| && k < |d0.heads[c]|
    ensures d0.heads[c][k].op.Phi?
    ensures forall i :: 0 <= i < |d0.heads[c][k].op.args| ==> d0.heads[c][k].op.args[i].src in d0.home
  {
    assert HeadOk(d0, c, k);
    var y :| HeadIs(d0, c, k, y);
    var args := d0.heads[c][k].op.args;
    forall i | 0 <= i < |args| ensures args[i].src in d0.home {
      EndKnown(d0, d0.preds[c][i], y, args[i].src);
    }
  }

  lemma CancelJust(d0: Draft, d1: Draft, b: Label, x: Name, s: VReg, c: Label, y: Name, v: VReg)
    requires Cancels(d0, d1, b, x, s) && c < |d0.heads| && v != d0.nextVreg && Justified(d1, c, y, v)
    ensures Justified(Cancel(d0, d1, b, x, s), c, y, v)
  {
    var d2 := Cancel(d0, d1, b, x, s);
    CancelFacts(d0, d1, b, x, s);
    assert d2.params == d1.params && d2.sealed == d1.sealed && d2.preds == d1.preds && d2.pending == d1.pending && d2.heads == d1.heads;
    assert d1.open == d0.open + {Incomplete(x, d0.nextVreg, b)} && d1.heads == d0.heads;
    assert Good(d0) && c < |d1.sealed|;
    hide Cancels, FromPreds, PassThrough, Good;
    if d1.sealed[c] {
      if PhiDone(d1, c, y, v) {
        var k :| 0 <= k < |d1.heads[c]| && d1.heads[c][k].dst == Some(v) && d1.heads[c][k].op.Phi? && FromPreds(d1, c, y, d1.heads[c][k].op.args);
        OldArgs(d0, c, k);
        CancelFrom(d0, d1, b, x, s, c, y, d1.heads[c][k].op.args);
        assert PhiDone(d2, c, y, v);
      } else if PassThrough(d1, c, y, v) {
        CancelPass(d0, d1, b, x, s, c, y, v);
      }
    }
  }

  lemma CancelEntries(d0: Draft, d1: Draft, b: Label, x: Name, s: VReg)
    requires Cancels(d0, d1, b, x, s)
    ensures Entries(Cancel(d0, d1, b, x, s))
  {
    var d2, e := Cancel(d0, d1, b, x, s), d0.nextVreg;
    CancelFacts(d0, d1, b, x, s);
    EndKnown(d1, d1.preds[b][0], x, s);
    assert d1.home == d0.home[e := Taken] && d1.open == d0.open + {Incomplete(x, e, b)} && Entries(d1) && Sizes(d1) && Sizes(d0) && PassThrough(d1, b, x, s);
    assert d1.sealed == d0.sealed && |d1.entry| == |d0.heads|;
    hide Cancels, Justified, PassThrough;
    forall c: Label, y, v | c < |d2.entry| && (y, v) in d2.entry[c] ensures EntryOk(d2, c, y, v) {
      assert v != e && v in d0.home;
      if d2.home[v].Taken? {
        assert IsOpen(d1, v) by {
          if (y, v) in d1.entry[c] { assert EntryOk(d1, c, y, v); }
        }
        var q :| q in d1.open && q.phi == v;
        assert q in d2.open;
      }
      if (y, v) in d1.entry[c] {
        assert EntryOk(d1, c, y, v);
        CancelJust(d0, d1, b, x, s, c, y, v);
      } else {
        CancelPass(d0, d1, b, x, s, b, x, s);
        PassIsJust(d2, b, x, s);
      }
    }
  }

  lemma CancelDefs(d0: Draft, d1: Draft, b: Label, x: Name, s: VReg)
    requires Cancels(d0, d1, b, x, s)
    ensures Defs(Cancel(d0, d1, b, x, s))
  {
    var d2, e := Cancel(d0, d1, b, x, s), d0.nextVreg;
    CancelFacts(d0, d1, b, x, s);
    assert Defs(d0) && Defs(d1) && Steps(Open(d0, b, x), d1, x) && Good(d0) && Sizes(d0) && Wider(d0, d1);
    forall c, y | 0 <= c < |d2.defs| && y in d2.defs[c] ensures EndIs(d2, c, y, d2.defs[c][y]) {
      if c == b && y == x {
        assert EndIs(d2, b, x, s);
      } else {
        CancelTable(d0, d1, b, x, s, c, y);
        CancelEnd(d0, d1, b, x, s, c, y, d1.defs[c][y]);
      }
    }
  }

  lemma CancelTable(d0: Draft, d1: Draft, b: Label, x: Name, s: VReg, c: Label, y: Name)
    requires Cancels(d0, d1, b, x, s) && c < |d1.defs| && y in d1.defs[c] && (c != b || y != x)
    ensures d1.defs[c][y] != d0.nextVreg
  {
    CancelFacts(d0, d1, b, x, s);
    assert TableStep(Open(d0, b, x).defs[c], d1.defs[c], x);
    if y in d0.defs[c] {
      assert EndIs(d0, c, y, d0.defs[c][y]);
      EndKnown(d0, c, y, d0.defs[c][y]);
    } else {
      assert LastWrite(d0.script[c], y).None?;
      assert EndIs(d1, c, y, d1.defs[c][y]);
    }
  }

  lemma CancelScripts(d0: Draft, d1: Draft, b: Label, x: Name, s: VReg)
    requires Cancels(d0, d1, b, x, s)
    ensures Scripts(Cancel(d0, d1, b, x, s))
  {
    var d2 := Cancel(d0, d1, b, x, s);
    CancelFacts(d0, d1, b, x, s);
    assert Scripts(d0) && Sizes(d0) && d2.home == d0.home;
    hide Cancels, Cancel;
    forall c: Label, i: nat | c < |d2.script| && i < |d2.script[c]| ensures ActOk(d2, c, i) {
      assert ActOk(d0, c, i);
    }
  }

  lemma CancelSizes(d0: Draft, d1: Draft, b: Label, x: Name, s: VReg)
    requires Cancels(d0, d1, b, x, s) && b < |d1.defs| && b < |d1.entry|
    ensures var d2 := Cancel(d0, d1, b, x, s); Sizes(d2) && Sealing(d2)
  {
    hide Homes, Entries, Heads, Waits, Defs, Scripts;
  }

  lemma CancelHomes(d0: Draft, d1: Draft, b: Label, x: Name, s: VReg)
    requires Cancels(d0, d1, b, x, s) && b < |d1.defs| && b < |d1.entry|
    ensures Homes(Cancel(d0, d1, b, x, s))
  {
    hide Sealing, Entries, Heads, Waits, Defs, Scripts;
  }

  lemma CancelShape(d0: Draft, d1: Draft, b: Label, x: Name, s: VReg)
    requires Cancels(d0, d1, b, x, s)
    ensures b < |d1.defs| && b < |d1.entry|
    ensures var d2 := Cancel(d0, d1, b, x, s); Sizes(d2) && Homes(d2) && Sealing(d2) && Heads(d2)
  {
    var d2 := Cancel(d0, d1, b, x, s);
    CancelFacts(d0, d1, b, x, s);
    CancelSizes(d0, d1, b, x, s);
    CancelHomes(d0, d1, b, x, s);
    hide Sizes, Sealing, Homes;
    HeadsStay(d0, d2);
  }

  lemma CancelGood(d0: Draft, d1: Draft, b: Label, x: Name, s: VReg)
    requires Cancels(d0, d1, b, x, s)
    ensures Good(Cancel(d0, d1, b, x, s))
    ensures Steps(d0, Cancel(d0, d1, b, x, s), x)
  {
    hide Cancels, Cancel, Wider, Sizes, Homes, Sealing, Heads, Entries, Waits, Defs, Scripts, Steps;
    CancelShape(d0, d1, b, x, s);
    CancelEntries(d0, d1, b, x, s);
    CancelDefs(d0, d1, b, x, s);
    CancelScripts(d0, d1, b, x, s);
    CancelWaits(d0, d1, b, x, s);
    CancelSteps(d0, d1, b, x, s);
  }

  lemma CancelWaits(d0: Draft, d1: Draft, b: Label, x: Name, s: VReg)
    requires Cancels(d0, d1, b, x, s)
    ensures Waits(Cancel(d0, d1, b, x, s))
  {
    var d2 := Cancel(d0, d1, b, x, s);
    CancelFacts(d0, d1, b, x, s);
    assert Waits(d0) && Waits(d1) && Entries(d0);
    hide Homes, Heads, Defs, Scripts, Sealing, Wider;
    forall i | 0 <= i < |d2.pending| ensures Parked(d2, d2.pending[i]) {
      assert Parked(d1, d1.pending[i]) && Parked(d0, d0.pending[i]);
      assert EntryOk(d0, d0.pending[i].block, d0.pending[i].name, d0.pending[i].phi);
    }
  }

  lemma CancelSteps(d0: Draft, d1: Draft, b: Label, x: Name, s: VReg)
    requires Cancels(d0, d1, b, x, s)
    ensures Steps(d0, Cancel(d0, d1, b, x, s), x)
  {
    var d2 := Cancel(d0, d1, b, x, s);
    CancelFacts(d0, d1, b, x, s);
    forall c | 0 <= c < |d0.defs| ensures TableStep(d0.defs[c], d2.defs[c], x) {
      assert TableStep(Open(d0, b, x).defs[c], d1.defs[c], x);
    }
  }
}
