/** PHIs of blocks whose predecessors are not all known yet, and what completing them does to
    the draft (src/ssa_build.c:315-436). */
module DraftSeal {
  import opened Wrappers
  import opened Ssa
  import opened Draft
  import opened DraftRead

  // ---- Parking an empty PHI ----

  function EmptyPhi(e: VReg): Inst {
    Inst(Some(e), Phi([]))
  }

  function Park(d: Draft, b: Label, x: Name): Draft
    requires b < |d.defs| && b < |d.entry| && b < |d.heads|
  {
    var e := d.nextVreg;
    Note(d, b, x, e).(nextVreg := e + 1,
                      home := d.home[e := PhiAt(b, |d.heads[b]|)],
                      heads := d.heads[b := [EmptyPhi(e)] + d.heads[b]],
                      pending := [Incomplete(x, e, b)] + d.pending)
  }

  lemma ParkHomes(d: Draft, b: Label, x: Name)
    requires Good(d) && b < |d.heads|
    ensures Homes(Park(d, b, x)) && Sizes(Park(d, b, x)) && Sealing(Park(d, b, x))
    ensures Wider(d, Park(d, b, x)) && HomesKept(d, Park(d, b, x)) && d.nextVreg !in d.home
  {
    assert Homes(d) && Sizes(d);
    assert Sealing(Park(d, b, x)) by { hide Entries, Heads, Scripts, Defs, Homes, Waits; }
    hide Good, Sealing;
    ParkHomesOnly(d, b, x);
  }

  lemma ParkHomesOnly(d: Draft, b: Label, x: Name)
    requires Homes(d) && Sizes(d) && b < |d.heads|
    ensures Homes(Park(d, b, x))
  {
    var d' := Park(d, b, x);
    var e := d.nextVreg;
    assert e !in d.home && d'.home == d.home[e := PhiAt(b, |d.heads[b]|)];
    assert d'.nextVreg == e + 1 && d'.params == d.params && d'.script == d.script && |d'.heads| == |d.heads|;
    assert d'.heads[b] == [EmptyPhi(e)] + d.heads[b];
    assert forall c :: 0 <= c < |d.heads| && c != b ==> d'.heads[c] == d.heads[c];
    hide Park;
    forall v: VReg ensures v in d'.home <==> v < d'.nextVreg {
      assert v in d.home <==> v < d.nextVreg;
    }
    forall c, i | 0 <= c < |d'.script| && 0 <= i < |d'.script[c]| && d'.script[c][i].Emit? && d'.script[c][i].inst.dst.Some?
      ensures AtHome(d', d'.script[c][i].inst.dst, BodyAt(c, i))
    {
      assert AtHome(d, d.script[c][i].inst.dst, BodyAt(c, i));
    }
    forall c, k | 0 <= c < |d'.heads| && 0 <= k < |d'.heads[c]| ensures AtHome(d', d'.heads[c][k].dst, PhiAt(c, |d'.heads[c]| - 1 - k)) {
      if c == b {
        if k > 0 {
          assert d'.heads[c][k] == d.heads[c][k - 1];
          assert AtHome(d, d.heads[c][k - 1].dst, PhiAt(c, |d.heads[c]| - 1 - (k - 1)));
        }
      } else {
        assert AtHome(d, d.heads[c][k].dst, PhiAt(c, |d.heads[c]| - 1 - k));
      }
    }
  }

  lemma ParkedStays(d: Draft, b: Label, x: Name, c: Label, inst: Inst)
    requires b < |d.heads| && c < |d.heads| && b < |d.defs| && b < |d.entry| && inst in d.heads[c]
    ensures inst in Park(d, b, x).heads[c]
  {
    var k :| 0 <= k < |d.heads[c]| && d.heads[c][k] == inst;
    assert Park(d, b, x).heads[c][if c == b then k + 1 else k] == inst;
  }

  lemma PendingStays(d: Draft, b: Label, x: Name, q: Incomplete)
    requires b < |d.heads| && b < |d.defs| && b < |d.entry| && q in d.pending
    ensures q in Park(d, b, x).pending
  {
    var i :| 0 <= i < |d.pending| && d.pending[i] == q;
    assert Park(d, b, x).pending[i + 1] == q;
  }

  /** A PHI that was there before moves up one place in block `b`. */
  lemma ParkHead(d: Draft, b: Label, x: Name, c: Label, j: nat)
    requires Sizes(d) && b < |d.heads| && Wider(d, Park(d, b, x)) && c < |d.heads| && j < |d.heads[c]| && HeadOk(d, c, j)
    ensures HeadOk(Park(d, b, x), c, if c == b then j + 1 else j)
  {
    var y :| HeadIs(d, c, j, y);
    var d' := Park(d, b, x);
    assert d'.heads[c][if c == b then j + 1 else j] == d.heads[c][j];
    var q := Incomplete(y, d.heads[c][j].dst.value, c);
    if q in d.pending {
      PendingStays(d, b, x, q);
    }
    hide FromPreds, Wider, Park;
    HeadMoves(d, d', c, j, if c == b then j + 1 else j, y);
  }

  lemma ParkFresh(d: Draft, b: Label, x: Name)
    requires Sizes(d) && b < |d.heads| && !d.sealed[b]
    ensures Sizes(Park(d, b, x)) && HeadIs(Park(d, b, x), b, 0, x)
  {
    var d' := Park(d, b, x);
    assert d'.pending[0] == Incomplete(x, d.nextVreg, b);
    assert d'.heads[b][0] == EmptyPhi(d.nextVreg);
  }

  lemma ParkHeads(d: Draft, b: Label, x: Name)
    requires Good(d) && b < |d.heads| && !d.sealed[b]
    ensures Heads(Park(d, b, x))
  {
    hide HeadIs, Homes, Entries, Scripts, Defs, Waits, Sealing, Wider, HomesKept;
    var d' := Park(d, b, x);
    ParkHomes(d, b, x);
    ParkFresh(d, b, x);
    assert Heads(d) && Sizes(d);
    assert |d'.heads| == |d.heads| && forall c :: 0 <= c < |d.heads| ==> |d'.heads[c]| == if c == b then |d.heads[c]| + 1 else |d.heads[c]|;
    hide Good, Park;
    forall c: Label, k: nat | c < |d'.heads| && k < |d'.heads[c]| ensures HeadOk(d', c, k) {
      if c == b && k == 0 {
        assert HeadIs(d', c, k, x);
      } else {
        ParkHead(d, b, x, c, if c == b then k - 1 else k);
      }
    }
  }

  lemma ParkParked(d: Draft, b: Label, x: Name, q: Incomplete)
    requires Sizes(d) && b < |d.heads| && x !in d.defs[b] && Parked(d, q)
    ensures Parked(Park(d, b, x), q) && (q.name != x || q.block != b)
  {
    ParkedStays(d, b, x, q.block, EmptyPhi(q.phi));
  }

  lemma ParkWaits(d: Draft, b: Label, x: Name)
    requires Good(d) && b < |d.heads| && x !in d.defs[b] && LastWrite(d.script[b], x).None?
    ensures Waits(Park(d, b, x))
  {
    var d' := Park(d, b, x);
    var e := d.nextVreg;
    ParkHomes(d, b, x);
    assert Waits(d) && Sizes(d) && Entries(d);
    assert d'.heads[b][0] == EmptyPhi(e);
    assert Parked(d', Incomplete(x, e, b));
    assert d'.pending == [Incomplete(x, e, b)] + d.pending && d'.open == d.open && d'.home == d.home[e := PhiAt(b, |d.heads[b]|)] && |d'.heads| == |d.heads|;
    hide Good, Homes, Justified, Park, Sizes, Wider, HomesKept;
    forall i | 0 <= i < |d.pending| ensures Parked(d', d.pending[i]) && (d.pending[i].name != x || d.pending[i].block != b) && d.pending[i].phi != e {
      assert Parked(d, d.pending[i]);
      assert EntryOk(d, d.pending[i].block, d.pending[i].name, d.pending[i].phi);
      ParkParked(d, b, x, d.pending[i]);
    }
    hide Parked, Entries, EntryOk;
    PushedWaits(d, d', Incomplete(x, e, b));
  }

  lemma PushedWaits(d: Draft, d': Draft, p: Incomplete)
    requires Waits(d) && d'.pending == [p] + d.pending && Parked(d', p)
    requires forall i :: 0 <= i < |d.pending| ==> Parked(d', d.pending[i]) && (d.pending[i].name != p.name || d.pending[i].block != p.block) && d.pending[i].phi != p.phi
    requires d'.open == d.open && |d'.heads| == |d.heads| && forall q :: q in d.open ==> q.phi in d'.home && d'.home[q.phi].Taken?
    ensures Waits(d')
  {
    hide Parked;
    forall i | 0 <= i < |d'.pending| ensures Parked(d', d'.pending[i]) {
      if i > 0 {
        assert d'.pending[i] == d.pending[i - 1];
      }
    }
  }

  lemma ParkEntries(d: Draft, b: Label, x: Name)
    requires Good(d) && b < |d.heads|
    ensures Entries(Park(d, b, x))
  {
    var d' := Park(d, b, x);
    var e := d.nextVreg;
    ParkHomes(d, b, x);
    assert Entries(d) && Sizes(d);
    hide Good, Homes, Justified, HomesKept;
    assert d'.pending[0] == Incomplete(x, e, b);
    forall c: Label, y, v | c < |d'.entry| && (y, v) in d'.entry[c] ensures EntryOk(d', c, y, v) {
      if (y, v) in d.entry[c] {
        assert EntryOk(d, c, y, v);
        ParkJust(d, b, x, c, y, v);
      } else {
        WaitIsJust(d', Incomplete(x, e, b));
      }
    }
  }

  lemma ParkJust(d: Draft, b: Label, x: Name, c: Label, y: Name, v: VReg)
    requires Sizes(d) && b < |d.heads| && c < |d.heads| && Justified(d, c, y, v)
    ensures Justified(Park(d, b, x), c, y, v)
  {
    var d' := Park(d, b, x);
    forall k | 0 <= k < |d.heads[c]| ensures d.heads[c][k] in d'.heads[c] {
      assert d'.heads[c][if c == b then k + 1 else k] == d.heads[c][k];
    }
    if Incomplete(y, v, c) in d.pending {
      var i :| 0 <= i < |d.pending| && d.pending[i] == Incomplete(y, v, c);
      assert d'.pending[i + 1] == d.pending[i];
    }
    WiderJustified(d, d', c, y, v);
  }

  lemma ParkGood(d: Draft, b: Label, x: Name)
    requires Good(d) && b < |d.heads| && !d.sealed[b] && x !in d.defs[b]
    ensures Good(Park(d, b, x)) && Steps(d, Park(d, b, x), x) && EndIs(Park(d, b, x), b, x, d.nextVreg)
  {
    var d' := Park(d, b, x);
    assert LastWrite(d.script[b], x).None? by { assert Defs(d); }
    ParkHomes(d, b, x);
    ParkHeads(d, b, x);
    ParkWaits(d, b, x);
    ParkEntries(d, b, x);
    assert d'.pending[1..] == d.pending;
    hide Homes, Entries, Heads, Waits, Sealing;
    NotedRest(d, d', b, x, d.nextVreg);
  }

  // ---- Completing it ----

  function Fill(d: Draft, i: nat, k: nat, args: seq<PhiArg>): Draft
    requires i < |d.pending| && d.pending[i].block < |d.heads| && k < |d.heads[d.pending[i].block]|
  {
    var p := d.pending[i];
    d.(heads := d.heads[p.block := d.heads[p.block][k := Inst(Some(p.phi), Phi(args))]],
       pending := Without(d.pending, i))
  }

  function Without(ps: seq<Incomplete>, i: nat): seq<Incomplete>
    requires i < |ps|
  {
    ps[..i] + ps[i + 1..]
  }

  /** Incomplete PHI `i` stands at position `k` of its block, and its operands are known. */
  ghost predicate Fills(d: Draft, i: nat, k: nat, args: seq<PhiArg>) {
    && Good(d) && i < |d.pending|
    && var p := d.pending[i];
       && p.block < |d.heads| && d.sealed[p.block] && k < |d.heads[p.block]| && d.heads[p.block][k] == EmptyPhi(p.phi)
       && FromPreds(d, p.block, p.name, args)
  }

  /** The other incomplete PHIs still wait. */
  lemma StillIn(ps: seq<Incomplete>, i: nat, q: Incomplete)
    requires i < |ps| && q in ps && q != ps[i]
    ensures q in Without(ps, i)
  {
    var j :| 0 <= j < |ps| && ps[j] == q;
    assert Without(ps, i)[if j < i then j else j - 1] == q;
  }

  /** No other PHI of the block has the same register. */
  lemma OnlyHead(d: Draft, c: Label, j: nat, k: nat)
    requires Homes(d) && c < |d.heads| && j < |d.heads[c]| && k < |d.heads[c]| && d.heads[c][j].dst == d.heads[c][k].dst
    ensures j == k
  {
    assert AtHome(d, d.heads[c][j].dst, PhiAt(c, |d.heads[c]| - 1 - j));
    assert AtHome(d, d.heads[c][k].dst, PhiAt(c, |d.heads[c]| - 1 - k));
  }

  lemma FillHeads(d: Draft, i: nat, k: nat, args: seq<PhiArg>)
    requires Fills(d, i, k, args)
    ensures Heads(Fill(d, i, k, args)) && Homes(Fill(d, i, k, args))
  {
    var d', p := Fill(d, i, k, args), d.pending[i];
    assert Homes(d');
    assert Heads(d) && Homes(d) && Sizes(d) && Waits(d);
    assert Parked(d, p) && HeadOk(d, p.block, k);
    WiderFrom(d, d', p.block, p.name, args);
    hide Good, FromPreds;
    forall c: Label, j: nat | c < |d'.heads| && j < |d'.heads[c]| ensures HeadOk(d', c, j) {
      if c == p.block && j == k {
        assert HeadIs(d', c, j, p.name);
      } else {
        assert HeadOk(d, c, j);
        var y :| HeadIs(d, c, j, y);
        var q := Incomplete(y, d.heads[c][j].dst.value, c);
        if q in d.pending {
          if q == p {
            OnlyHead(d, c, j, k);
          }
          StillIn(d.pending, i, q);
        }
        HeadMoves(d, d', c, j, j, y);
      }
    }
  }

  lemma FillParked(d: Draft, i: nat, k: nat, args: seq<PhiArg>, q: Incomplete)
    requires i < |d.pending| && d.pending[i].block < |d.heads| && k < |d.heads[d.pending[i].block]|
    requires d.heads[d.pending[i].block][k] == EmptyPhi(d.pending[i].phi)
    requires Parked(d, q) && q.phi != d.pending[i].phi
    ensures Parked(Fill(d, i, k, args), q)
  {
    var d', p := Fill(d, i, k, args), d.pending[i];
    var l :| 0 <= l < |d.heads[q.block]| && d.heads[q.block][l] == Inst(Some(q.phi), Phi([]));
    assert d'.heads[q.block][l] == d.heads[q.block][l];
  }

  lemma FewerWaits(d: Draft, d': Draft, i: nat)
    requires Waits(d) && i < |d.pending| && d'.pending == Without(d.pending, i)
    requires forall j :: 0 <= j < |d.pending| && j != i ==> Parked(d', d.pending[j])
    requires d'.open == d.open && d'.home == d.home && |d'.heads| == |d.heads|
    ensures Waits(d')
  {
    hide Parked;
    forall j | 0 <= j < |d'.pending| ensures d'.pending[j] == d.pending[if j < i then j else j + 1] {
    }
  }

  lemma FillWaits(d: Draft, i: nat, k: nat, args: seq<PhiArg>)
    requires Fills(d, i, k, args)
    ensures Waits(Fill(d, i, k, args))
  {
    var d', p := Fill(d, i, k, args), d.pending[i];
    assert Waits(d) && Sizes(d) && d.heads[d.pending[i].block][k] == EmptyPhi(d.pending[i].phi);
    assert d'.pending == Without(d.pending, i) && d'.open == d.open && d'.home == d.home && |d'.heads| == |d.heads|;
    hide Fills, Parked, Fill;
    forall j | 0 <= j < |d.pending| && j != i ensures Parked(d', d.pending[j]) {
      FillParked(d, i, k, args, d.pending[j]);
    }
    FewerWaits(d, d', i);
  }

  lemma FillEntries(d: Draft, i: nat, k: nat, args: seq<PhiArg>)
    requires Fills(d, i, k, args)
    ensures Entries(Fill(d, i, k, args))
  {
    var d', p := Fill(d, i, k, args), d.pending[i];
    assert Entries(d) && Sizes(d);
    assert d'.heads[p.block][k] == Inst(Some(p.phi), Phi(args));
    WiderFrom(d, d', p.block, p.name, args);
    assert PhiDone(d', p.block, p.name, p.phi);
    assert d.sealed[p.block];
    hide Fills, FromPreds, PhiDone, Justified;
    forall c: Label, y, v | c < |d'.entry| && (y, v) in d'.entry[c] ensures EntryOk(d', c, y, v) {
      assert EntryOk(d, c, y, v);
      if c == p.block && y == p.name && v == p.phi {
        DoneIsJust(d', c, y, v);
      } else {
        FillJust(d, i, k, args, c, y, v);
      }
    }
  }

  lemma DoneIsJust(d: Draft, c: Label, y: Name, v: VReg)
    requires c < |d.sealed| && d.sealed[c] && PhiDone(d, c, y, v)
    ensures Justified(d, c, y, v)
  {
  }

  lemma FillJust(d: Draft, i: nat, k: nat, args: seq<PhiArg>, c: Label, y: Name, v: VReg)
    requires Fills(d, i, k, args) && c < |d.heads| && Justified(d, c, y, v) && Incomplete(y, v, c) != d.pending[i]
    ensures Justified(Fill(d, i, k, args), c, y, v)
  {
    var d', p := Fill(d, i, k, args), d.pending[i];
    if Incomplete(y, v, c) in d.pending {
      StillIn(d.pending, i, Incomplete(y, v, c));
    }
    assert d.sealed[p.block];
    if c == p.block && v == p.phi {
      FillSame(d, i, k, args, y);
    } else {
      forall j | 0 <= j < |d.heads[c]| && d.heads[c][j].dst == Some(v) ensures d.heads[c][j] in d'.heads[c] {
        assert d'.heads[c][j] == d.heads[c][j];
      }
      hide Fills;
      WiderJustified(d, d', c, y, v);
    }
  }

  /** The same register under another name in the same block. */
  lemma FillSame(d: Draft, i: nat, k: nat, args: seq<PhiArg>, y: Name)
    requires Fills(d, i, k, args) && Justified(d, d.pending[i].block, y, d.pending[i].phi)
    requires y != d.pending[i].name
    ensures Justified(Fill(d, i, k, args), d.pending[i].block, y, d.pending[i].phi)
  {
    var d', p := Fill(d, i, k, args), d.pending[i];
    var c := p.block;
    if Incomplete(y, p.phi, c) in d.pending {
      StillIn(d.pending, i, Incomplete(y, p.phi, c));
    }
    if PhiDone(d, c, y, p.phi) {
      var j :| 0 <= j < |d.heads[c]| && d.heads[c][j].dst == Some(p.phi) && d.heads[c][j].op.Phi? && FromPreds(d, c, y, d.heads[c][j].op.args);
      assert Homes(d);
      OnlyHead(d, c, j, k);
      assert d.preds[c] == [] && args == [];
      assert d'.heads[c][k] == d.heads[c][k];
      assert FromPreds(d', c, y, []);
    } else if PassThrough(d, c, y, p.phi) {
      WiderPass(d, d', c, y, p.phi);
    }
  }

  lemma FillGood(d: Draft, i: nat, k: nat, args: seq<PhiArg>)
    requires Fills(d, i, k, args)
    ensures Good(Fill(d, i, k, args)) && Wider(d, Fill(d, i, k, args))
  {
    var d' := Fill(d, i, k, args);
    FillHeads(d, i, k, args);
    FillWaits(d, i, k, args);
    FillEntries(d, i, k, args);
    assert Sizes(d) && Defs(d) && Scripts(d) && Sealing(d);
    hide Entries, Heads, Homes, Waits, FromPreds;
    forall c, y | 0 <= c < |d'.defs| && y in d'.defs[c] ensures EndIs(d', c, y, d'.defs[c][y]) {
      WiderEnd(d, d', c, y, d.defs[c][y]);
    }
    forall c: Label, j: nat | c < |d'.script| && j < |d'.script[c]| ensures ActOk(d', c, j) {
      assert ActOk(d, c, j);
    }
  }
}
