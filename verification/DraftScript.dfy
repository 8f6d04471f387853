/** The rest of the builder's interface: emitting, writing and reading variables in the current
    block, and adding and sealing blocks (src/ssa_build.c:170-222, 438-461). */
module DraftScript {
  import opened Wrappers
  import opened Ssa
  import opened Draft
  import opened DraftRead

  // ---- One more event in a block that has not ended ----

  function Append(d: Draft, b: Label, ev: Act): Draft
    requires b < |d.script|
  {
    d.(script := d.script[b := d.script[b] + [ev]])
  }

  /** `d'` has one more event in block `b`; nothing is lost. */
  ghost predicate Longer(d: Draft, d': Draft, b: Label, ev: Act) {
    && b < |d.script| && d'.script == d.script[b := d.script[b] + [ev]]
    && d'.params == d.params && d'.heads == d.heads && d'.preds == d.preds && d'.sealed == d.sealed
    && d'.pending == d.pending && d'.entry == d.entry && d'.open == d.open && |d'.defs| == |d.defs|
    && forall v :: v in d.home ==> v in d'.home && (d'.home[v] == d.home[v] || (Reserved(d, v) && !d'.home[v].Taken?))
  }

  /** Numbered by the client, and not defined yet. */
  ghost predicate Reserved(d: Draft, v: VReg) {
    v in d.home && d.home[v].Taken? && !IsOpen(d, v)
  }

  lemma OtherEnd(d: Draft, d': Draft, b: Label, ev: Act, q: Label, x: Name, v: VReg)
    requires Longer(d, d', b, ev) && q != b && EndIs(d, q, x, v)
    ensures EndIs(d', q, x, v)
  {
  }

  /** A block still open is no predecessor of a sealed one. */
  lemma LongerFrom(d: Draft, d': Draft, b: Label, ev: Act, c: Label, x: Name, args: seq<PhiArg>)
    requires Longer(d, d', b, ev) && Sizes(d) && Sealing(d) && !Ended(d.script[b]) && c < |d.sealed| && d.sealed[c]
    requires FromPreds(d, c, x, args)
    ensures FromPreds(d', c, x, args)
  {
    forall i | 0 <= i < |args| ensures EndIs(d', d.preds[c][i], x, args[i].src) {
      OtherEnd(d, d', b, ev, d.preds[c][i], x, args[i].src);
    }
  }

  lemma LongerJust(d: Draft, d': Draft, b: Label, ev: Act, c: Label, x: Name, v: VReg)
    requires Longer(d, d', b, ev) && Sizes(d) && Sealing(d) && !Ended(d.script[b]) && c < |d.heads|
    requires Justified(d, c, x, v)
    ensures Justified(d', c, x, v)
  {
    hide FromPreds;
    if d.sealed[c] {
      if PhiDone(d, c, x, v) {
        var k :| 0 <= k < |d.heads[c]| && d.heads[c][k].dst == Some(v) && d.heads[c][k].op.Phi? && FromPreds(d, c, x, d.heads[c][k].op.args);
        LongerFrom(d, d', b, ev, c, x, d.heads[c][k].op.args);
      } else if PassThrough(d, c, x, v) {
        forall i | 0 <= i < |d.preds[c]| ensures EndIs(d', d.preds[c][i], x, v) {
          OtherEnd(d, d', b, ev, d.preds[c][i], x, v);
        }
      }
    }
  }

  lemma LongerEntries(d: Draft, d': Draft, b: Label, ev: Act)
    requires Good(d) && Longer(d, d', b, ev) && !Ended(d.script[b])
    ensures Entries(d')
  {
    assert Entries(d) && Sizes(d) && Sealing(d);
    hide Good, Justified;
    forall c: Label, x, v | c < |d'.entry| && (x, v) in d'.entry[c] ensures EntryOk(d', c, x, v) {
      assert EntryOk(d, c, x, v);
      LongerJust(d, d', b, ev, c, x, v);
    }
  }

  lemma LongerHeads(d: Draft, d': Draft, b: Label, ev: Act)
    requires Good(d) && Longer(d, d', b, ev) && !Ended(d.script[b])
    ensures Heads(d')
  {
    assert Heads(d) && Sizes(d) && Sealing(d);
    hide Good, FromPreds;
    forall c: Label, k: nat | c < |d'.heads| && k < |d'.heads[c]| ensures HeadOk(d', c, k) {
      assert HeadOk(d, c, k);
      var y :| HeadIs(d, c, k, y);
      if d.sealed[c] && FromPreds(d, c, y, d.heads[c][k].op.args) {
        LongerFrom(d, d', b, ev, c, y, d.heads[c][k].op.args);
      }
      assert HeadIs(d', c, k, y);
    }
  }

  lemma LongerScripts(d: Draft, d': Draft, b: Label, ev: Act)
    requires Good(d) && Longer(d, d', b, ev) && !Ended(d.script[b]) && ActOk(d', b, |d.script[b]|)
    ensures Scripts(d')
  {
    assert Scripts(d) && Sizes(d);
    hide Good;
    forall c: Label, i: nat | c < |d'.script| && i < |d'.script[c]| ensures ActOk(d', c, i) {
      if c != b || i < |d.script[b]| {
        assert ActOk(d, c, i);
        assert d'.script[c][..i] == d.script[c][..i];
      }
    }
  }

  lemma LastOfAppend(es: seq<Act>, ev: Act, x: Name)
    ensures LastWrite(es + [ev], x) == if ev.Wrote? && ev.name == x then Some(ev.wrote) else LastWrite(es, x)
  {
    assert (es + [ev])[..|es|] == es;
  }

  /** An event that is not a write leaves tables and incomplete PHIs right. */
  lemma LongerQuiet(d: Draft, d': Draft, b: Label, ev: Act)
    requires Good(d) && Longer(d, d', b, ev) && !ev.Wrote? && d'.defs == d.defs
    ensures Defs(d') && Waits(d')
  {
    assert Defs(d) && Waits(d) && Sizes(d) && Homes(d);
    hide Good;
    forall c, y | 0 <= c < |d'.script| ensures LastWrite(d'.script[c], y) == LastWrite(d.script[c], y) {
      LastOfAppend(d.script[b], ev, y);
    }
    forall c, y | 0 <= c < |d'.defs| && y in d'.defs[c] ensures EndIs(d', c, y, d'.defs[c][y]) {
      assert EndIs(d, c, y, d.defs[c][y]);
    }
    forall i | 0 <= i < |d'.pending| ensures Parked(d', d'.pending[i]) {
      assert Parked(d, d.pending[i]);
    }
  }

  lemma LongerSealing(d: Draft, d': Draft, b: Label, ev: Act)
    requires Good(d) && Longer(d, d', b, ev) && !Ended(d.script[b])
    ensures Sealing(d')
  {
  }

  /** A read that got what carries the variable. */
  lemma ReadGood(d: Draft, b: Label, x: Name, v: VReg)
    requires Good(d) && b < |d.heads| && !Ended(d.script[b]) && EndIs(d, b, x, v)
    ensures Good(Append(d, b, Read(x, v)))
  {
    var ev := Read(x, v);
    var d' := Append(d, b, ev);
    assert d'.script[b][..|d.script[b]|] == d.script[b];
    assert ActOk(d', b, |d.script[b]|);
    assert Sizes(d') && Homes(d');
    hide Good, Homes, Sizes;
    LongerEntries(d, d', b, ev);
    LongerHeads(d, d', b, ev);
    LongerScripts(d, d', b, ev);
    LongerQuiet(d, d', b, ev);
    LongerSealing(d, d', b, ev);
    GoodParts(d');
  }

  lemma GoodParts(d: Draft)
    requires Sizes(d) && Homes(d) && Entries(d) && Heads(d) && Waits(d) && Defs(d) && Scripts(d) && Sealing(d)
    ensures Good(d)
  {
  }

  /** A register is reserved for an instruction to come. */
  function Reserve(d: Draft): Draft {
    d.(nextVreg := d.nextVreg + 1, home := d.home[d.nextVreg := Taken])
  }

  lemma ReserveGood(d: Draft)
    requires Good(d)
    ensures Good(Reserve(d)) && Reserved(Reserve(d), d.nextVreg)
  {
    var d' := Reserve(d);
    assert Sizes(d') && Sealing(d');
    TakenHomes(d, d');
    assert Entries(d) && Defs(d) && Scripts(d) && Waits(d) && Sizes(d);
    HeadsStay(d, d');
    hide Good, Homes, Justified;
    forall c: Label, x, v | c < |d'.entry| && (x, v) in d'.entry[c] ensures EntryOk(d', c, x, v) {
      assert EntryOk(d, c, x, v);
      WiderJustified(d, d', c, x, v);
    }
    forall c, y | 0 <= c < |d'.defs| && y in d'.defs[c] ensures EndIs(d', c, y, d'.defs[c][y]) {
      assert EndIs(d, c, y, d.defs[c][y]);
    }
    forall c: Label, i: nat | c < |d'.script| && i < |d'.script[c]| ensures ActOk(d', c, i) {
      assert ActOk(d, c, i);
    }
    forall i | 0 <= i < |d'.pending| ensures Parked(d', d'.pending[i]) {
      assert Parked(d, d.pending[i]);
    }
    GoodParts(d');
  }

  /** An instruction whose register, if any, is fresh. */
  function EmitTo(d: Draft, b: Label, inst: Inst): Draft
    requires b < |d.script|
  {
    var d' := Append(d, b, Emit(inst));
    match inst.dst
    case None => d'
    case Some(v) => d'.(home := d.home[v := BodyAt(b, |d.script[b]|)], nextVreg := if v < d.nextVreg then d.nextVreg else v + 1)
  }

  /** A register no instruction defines yet. */
  ghost predicate Fresh(d: Draft, dst: Option<VReg>) {
    dst.Some? ==> dst.value == d.nextVreg || Reserved(d, dst.value)
  }

  lemma EmitGood(d: Draft, b: Label, inst: Inst)
    requires Good(d) && b < |d.heads| && !Ended(d.script[b]) && Fresh(d, inst.dst)
    ensures Good(EmitTo(d, b, inst))
  {
    var ev := Emit(inst);
    var d' := EmitTo(d, b, inst);
    assert ActOk(d', b, |d.script[b]|);
    assert Sizes(d') && Homes(d') by { EmitHomes(d, b, inst); }
    assert Longer(d, d', b, ev);
    hide Good, Homes, Sizes, Longer;
    LongerEntries(d, d', b, ev);
    LongerHeads(d, d', b, ev);
    LongerScripts(d, d', b, ev);
    LongerQuiet(d, d', b, ev);
    LongerSealing(d, d', b, ev);
    GoodParts(d');
  }

  /** Every emitted register sits at its place, the new one at the end. */
  lemma EmitPlaces(d: Draft, b: Label, inst: Inst, c: Label, i: nat)
    requires Homes(d) && b < |d.script| && Fresh(d, inst.dst)
    requires c < |d.script| && i < |EmitTo(d, b, inst).script[c]|
    requires var e := EmitTo(d, b, inst).script[c][i]; e.Emit? && e.inst.dst.Some?
    ensures AtHome(EmitTo(d, b, inst), EmitTo(d, b, inst).script[c][i].inst.dst, BodyAt(c, i))
  {
    if c != b || i < |d.script[b]| {
      assert AtHome(d, d.script[c][i].inst.dst, BodyAt(c, i));
    }
  }

  lemma EmitHeads(d: Draft, b: Label, inst: Inst, c: Label, k: nat)
    requires Homes(d) && b < |d.script| && Fresh(d, inst.dst) && c < |d.heads| && k < |d.heads[c]|
    ensures AtHome(EmitTo(d, b, inst), d.heads[c][k].dst, PhiAt(c, |d.heads[c]| - 1 - k))
  {
    assert AtHome(d, d.heads[c][k].dst, PhiAt(c, |d.heads[c]| - 1 - k));
  }

  lemma EmitHomes(d: Draft, b: Label, inst: Inst)
    requires Good(d) && b < |d.heads| && Fresh(d, inst.dst)
    ensures Sizes(EmitTo(d, b, inst)) && Homes(EmitTo(d, b, inst))
  {
    var d' := EmitTo(d, b, inst);
    assert Sizes(d) && Homes(d);
    hide Good, AtHome;
    forall v: VReg ensures v in d'.home <==> v < d'.nextVreg {
      assert v in d.home <==> v < d.nextVreg;
    }
    forall v | v in d'.home && d'.home[v].BodyAt? ensures d'.home[v].bb < |d'.script| && d'.home[v].bi < |d'.script[d'.home[v].bb]| {
      if v in d.home && d'.home[v] == d.home[v] {
        assert d.home[v].BodyAt?;
      }
    }
    forall v: VReg | v < |d'.params| ensures v in d'.home && d'.home[v] == Param {
      assert v in d.home && d.home[v] == Param;
    }
    forall c, k | 0 <= c < |d'.heads| && 0 <= k < |d'.heads[c]| ensures AtHome(d', d'.heads[c][k].dst, PhiAt(c, |d'.heads[c]| - 1 - k)) {
      EmitHeads(d, b, inst, c, k);
    }
    forall c, i | 0 <= c < |d'.script| && 0 <= i < |d'.script[c]| && d'.script[c][i].Emit? && d'.script[c][i].inst.dst.Some?
      ensures AtHome(d', d'.script[c][i].inst.dst, BodyAt(c, i))
    {
      EmitPlaces(d, b, inst, c, i);
    }
  }

  /** A write of a register that is already defined. */
  function WriteTo(d: Draft, b: Label, x: Name, v: VReg): Draft
    requires b < |d.script| && b < |d.defs|
  {
    Append(d, b, Wrote(x, v)).(defs := d.defs[b := Define(d.defs[b], x, v)])
  }

  lemma WriteGood(d: Draft, b: Label, x: Name, v: VReg)
    requires Good(d) && b < |d.heads| && !Ended(d.script[b]) && v in d.home && !d.home[v].Taken?
    ensures Good(WriteTo(d, b, x, v))
  {
    var ev := Wrote(x, v);
    var d' := WriteTo(d, b, x, v);
    assert Sizes(d') && Homes(d');
    assert ActOk(d', b, |d.script[b]|) by { WrittenBefore(d, b, v); }
    assert Longer(d, d', b, ev);
    WriteTables(d, b, x, v);
    hide Good, Homes, Sizes, Longer, Defs, Waits;
    LongerEntries(d, d', b, ev);
    LongerHeads(d, d', b, ev);
    LongerScripts(d, d', b, ev);
    LongerSealing(d, d', b, ev);
    GoodParts(d');
  }

  lemma WrittenBefore(d: Draft, b: Label, v: VReg)
    requires Good(d) && v in d.home && b < |d.script|
    ensures d.home[v].BodyAt? && d.home[v].bb == b ==> d.home[v].bi < |d.script[b]|
  {
  }

  lemma WriteTables(d: Draft, b: Label, x: Name, v: VReg)
    requires Good(d) && b < |d.heads|
    ensures Defs(WriteTo(d, b, x, v)) && Waits(WriteTo(d, b, x, v))
  {
    var d' := WriteTo(d, b, x, v);
    assert Defs(d) && Waits(d) && Sizes(d) && Homes(d);
    hide Good;
    forall y ensures LastWrite(d'.script[b], y) == if y == x then Some(v) else LastWrite(d.script[b], y) {
      LastOfAppend(d.script[b], Wrote(x, v), y);
    }
    forall c, y | 0 <= c < |d'.defs| && y in d'.defs[c] ensures EndIs(d', c, y, d'.defs[c][y]) {
      if c != b || y != x {
        assert EndIs(d, c, y, d.defs[c][y]);
      }
    }
    forall i | 0 <= i < |d'.pending| ensures Parked(d', d'.pending[i]) {
      assert Parked(d, d.pending[i]);
    }
  }

  // ---- Blocks ----

  function NewBlock(d: Draft): Draft {
    d.(heads := d.heads + [[]], script := d.script + [[]], preds := d.preds + [[]], sealed := d.sealed + [false],
       defs := d.defs + [map[]], entry := d.entry + [{}])
  }

  /** The blocks of `d` are blocks of `d'`, unchanged. */
  ghost predicate Keeps(d: Draft, d': Draft) {
    && d'.params == d.params && d'.pending == d.pending && d'.home == d.home && d'.open == d.open && d'.nextVreg == d.nextVreg
    && Sizes(d) && Sizes(d')
    && d.heads <= d'.heads && d.script <= d'.script && d.defs <= d'.defs && d.entry <= d'.entry
    && (forall c :: 0 <= c < |d.heads| && d.sealed[c] ==> d'.sealed[c] && d'.preds[c] == d.preds[c])
  }

  lemma KeepsEnd(d: Draft, d': Draft, q: Label, x: Name, v: VReg)
    requires Keeps(d, d') && EndIs(d, q, x, v)
    ensures EndIs(d', q, x, v)
  {
  }

  lemma KeepsFrom(d: Draft, d': Draft, c: Label, x: Name, args: seq<PhiArg>)
    requires Keeps(d, d') && c < |d.heads| && d.sealed[c] && FromPreds(d, c, x, args)
    ensures FromPreds(d', c, x, args)
  {
    hide EndIs;
    forall i | 0 <= i < |args| ensures EndIs(d', d.preds[c][i], x, args[i].src) {
      KeepsEnd(d, d', d.preds[c][i], x, args[i].src);
    }
  }

  lemma KeepsJust(d: Draft, d': Draft, c: Label, x: Name, v: VReg)
    requires Keeps(d, d') && c < |d.heads| && Justified(d, c, x, v)
    ensures Justified(d', c, x, v)
  {
    hide FromPreds, EndIs;
    if d.sealed[c] {
      if PhiDone(d, c, x, v) {
        var k :| 0 <= k < |d.heads[c]| && d.heads[c][k].dst == Some(v) && d.heads[c][k].op.Phi? && FromPreds(d, c, x, d.heads[c][k].op.args);
        KeepsFrom(d, d', c, x, d.heads[c][k].op.args);
        assert d'.heads[c][k] == d.heads[c][k];
      } else if PassThrough(d, c, x, v) {
        forall i | 0 <= i < |d.preds[c]| ensures EndIs(d', d.preds[c][i], x, v) {
          KeepsEnd(d, d', d.preds[c][i], x, v);
        }
      }
    }
  }

  lemma KeepsEntry(d: Draft, d': Draft, c: Label, x: Name, v: VReg)
    requires Keeps(d, d') && c < |d.heads| && EntryOk(d, c, x, v)
    ensures EntryOk(d', c, x, v)
  {
    hide Justified;
    KeepsJust(d, d', c, x, v);
  }

  lemma KeepsHead(d: Draft, d': Draft, c: Label, k: nat)
    requires Keeps(d, d') && c < |d.heads| && k < |d.heads[c]| && HeadOk(d, c, k)
    ensures HeadOk(d', c, k)
  {
    var y :| HeadIs(d, c, k, y);
    hide FromPreds;
    if d.sealed[c] && FromPreds(d, c, y, d.heads[c][k].op.args) {
      KeepsFrom(d, d', c, y, d.heads[c][k].op.args);
    }
    assert HeadIs(d', c, k, y);
  }

  lemma KeepsAct(d: Draft, d': Draft, c: Label, i: nat)
    requires Keeps(d, d') && c < |d.heads| && i < |d.script[c]| && ActOk(d, c, i)
    ensures ActOk(d', c, i)
  {
  }

  /** What is new in `d'` starts empty. */
  lemma KeepsGood(d: Draft, d': Draft)
    requires Good(d) && Keeps(d, d') && Homes(d') && Sealing(d')
    requires forall c :: |d.heads| <= c < |d'.heads| ==> d'.heads[c] == [] && d'.script[c] == [] && d'.defs[c] == map[] && d'.entry[c] == {}
    ensures Good(d')
  {
    assert Entries(d) && Heads(d) && Defs(d) && Scripts(d) && Waits(d);
    hide Good, Homes, Sealing, EntryOk, HeadOk, ActOk;
    forall c: Label, x, v | c < |d'.entry| && (x, v) in d'.entry[c] ensures EntryOk(d', c, x, v) {
      KeepsEntry(d, d', c, x, v);
    }
    forall c: Label, k: nat | c < |d'.heads| && k < |d'.heads[c]| ensures HeadOk(d', c, k) {
      KeepsHead(d, d', c, k);
    }
    forall c: Label, i: nat | c < |d'.script| && i < |d'.script[c]| ensures ActOk(d', c, i) {
      KeepsAct(d, d', c, i);
    }
    forall c, y | 0 <= c < |d'.defs| && y in d'.defs[c] ensures EndIs(d', c, y, d'.defs[c][y]) {
      KeepsEnd(d, d', c, y, d.defs[c][y]);
    }
    forall i | 0 <= i < |d'.pending| ensures Parked(d', d'.pending[i]) {
      assert Parked(d, d.pending[i]);
    }
    GoodParts(d');
  }

  lemma NewBlockGood(d: Draft)
    requires Good(d)
    ensures Good(NewBlock(d))
  {
    var d' := NewBlock(d);
    assert Sizes(d');
    NewBlockHomes(d);
    assert Sealing(d') && Keeps(d, d');
    hide Good, Homes, Sealing, Keeps;
    KeepsGood(d, d');
  }

  lemma NewBlockHomes(d: Draft)
    requires Good(d)
    ensures Homes(NewBlock(d))
  {
    var d' := NewBlock(d);
    assert Sizes(d) && Homes(d);
    hide Good;
    forall c, k | 0 <= c < |d'.heads| && 0 <= k < |d'.heads[c]| ensures AtHome(d', d'.heads[c][k].dst, PhiAt(c, |d'.heads[c]| - 1 - k)) {
      assert AtHome(d, d.heads[c][k].dst, PhiAt(c, |d.heads[c]| - 1 - k));
    }
    forall c, i | 0 <= c < |d'.script| && 0 <= i < |d'.script[c]| && d'.script[c][i].Emit? && d'.script[c][i].inst.dst.Some?
      ensures AtHome(d', d'.script[c][i].inst.dst, BodyAt(c, i))
    {
      assert AtHome(d, d.script[c][i].inst.dst, BodyAt(c, i));
    }
  }

  function WithPred(d: Draft, b: Label, q: Label): Draft
    requires b < |d.preds|
  {
    d.(preds := d.preds[b := d.preds[b] + [q]])
  }

  lemma WithPredGood(d: Draft, b: Label, q: Label)
    requires Good(d) && 0 < b < |d.heads| && q < |d.heads| && !d.sealed[b]
    ensures Good(WithPred(d, b, q))
  {
    var d' := WithPred(d, b, q);
    assert Sizes(d') && Homes(d') && Sealing(d') && Keeps(d, d');
    hide Good, Homes, Sealing, Keeps;
    KeepsGood(d, d');
  }

  function Seal(d: Draft, b: Label): Draft
    requires b < |d.sealed|
  {
    d.(sealed := d.sealed[b := true])
  }

  lemma SealGood(d: Draft, b: Label)
    requires Good(d) && b < |d.heads|
    requires forall i :: 0 <= i < |d.preds[b]| ==> Ended(d.script[d.preds[b][i]])
    ensures Good(Seal(d, b))
  {
    var d' := Seal(d, b);
    assert Sizes(d') && Homes(d') && Sealing(d') && Keeps(d, d');
    hide Good, Homes, Sealing, Keeps;
    KeepsGood(d, d');
  }
}
