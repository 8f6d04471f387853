/** What the finished function does: in every run, a register returned for a variable holds the
    value last written to that variable on the path taken. */
module BuilderRuns {
  import opened Wrappers
  import opened Word64
  import opened Ssa
  import opened Draft
  import opened SsaBuilder

  type Store = map<Name, Int64>

  // ---- Running the script beside the function ----

  /** `right` says that every read so far got the value of its variable. */
  datatype Played = Played(exit: Exit, store: Store, right: bool)

  /** The script of a block from event `i` on: instructions change registers, writes change the
      store, and a read must find in its register what the store holds. */
  function PlayActs(w: World, es: seq<Act>, i: nat, env: Env, snap: Env, prev: Option<Label>, trace: Trace, store: Store): Played
    decreases |es| - i
  {
    if i >= |es| then Played(Fault, store, true)
    else
      match es[i]
      case Read(x, v) =>
        if x in store && v in env && env[v] == store[x] then PlayActs(w, es, i + 1, env, snap, prev, trace, store)
        else Played(Fault, store, false)
      case Wrote(x, v) =>
        if v in env then PlayActs(w, es, i + 1, env, snap, prev, trace, store[x := env[v]])
        else Played(Fault, store, true)
      case Emit(inst) =>
        if inst.op.IsTerminator() then Played(Leave(inst.op, env, trace), store, true)
        else
          match Exec(w, inst, env, snap, prev, trace)
          case Stuck => Played(Fault, store, true)
          case Went(env', trace') => PlayActs(w, es, i + 1, env', snap, prev, trace', store)
  }

  /** The PHIs in front of a block, the first `k` of them. */
  function PlayHeads(heads: seq<Inst>, k: nat, env: Env, prev: Option<Label>): Option<Env>
    requires k <= |heads| && forall j :: 0 <= j < |heads| ==> heads[j].op.Phi?
  {
    if k == 0 then Some(env)
    else
      match PlayHeads(heads, k - 1, env, prev)
      case None => None
      case Some(env') =>
        (match Eval(heads[k - 1].op, env', env, prev)
         case None => None
         case Some(x) => Some(Put(env', heads[k - 1].dst, x)))
  }

  /** A whole block; its PHIs must find their operands. */
  function PlayBlock(w: World, d: Draft, b: Label, env: Env, prev: Option<Label>, trace: Trace, store: Store): Played
    requires b < |d.heads| && b < |d.script| && forall j :: 0 <= j < |d.heads[b]| ==> d.heads[b][j].op.Phi?
  {
    match PlayHeads(d.heads[b], |d.heads[b]|, env, prev)
    case None => Played(Fault, store, false)
    case Some(env') => PlayActs(w, d.script[b], 0, env', env, prev, trace, store)
  }

  ghost predicate OnlyPhis(d: Draft) {
    forall b, j :: 0 <= b < |d.heads| && 0 <= j < |d.heads[b]| ==> d.heads[b][j].op.Phi?
  }

  /** A run of the function with its store; `visited` collects the blocks entered. */
  datatype PRun = PRun(state: State, store: Store, visited: set<Label>, right: bool)

  function StepPlay(w: World, d: Draft, r: PRun): PRun
    requires |d.heads| == |d.script| && OnlyPhis(d)
  {
    match r.state
    case Running(b, prev, env, trace) =>
      if b >= |d.heads| then r.(state := Faulted) else
      var p := PlayBlock(w, d, b, env, prev, trace, r.store);
      var state := (match p.exit
                    case Fault => Faulted
                    case Goto(t, env', trace') => Running(t, Some(b), env', trace')
                    case Return(x, trace') => Finished(x, trace'));
      PRun(state, p.store, r.visited + {b}, r.right && p.right)
    case _ => r
  }

  /** The parameters hold the actual values. */
  ghost function StartStore(d: Draft, actuals: seq<Int64>): Store
    requires |actuals| == |d.params|
  {
    map x, e: VReg | x in d.params && 0 <= e < |d.params| && ParamIs(d.params, x, e) :: x := actuals[e]
  }

  ghost function PlayRun(w: World, d: Draft, actuals: seq<Int64>, n: nat): PRun
    requires |d.heads| == |d.script| && OnlyPhis(d) && |actuals| == |d.params|
  {
    if n == 0 then PRun(Init(Built(d), actuals), StartStore(d, actuals), {}, true)
    else StepPlay(w, d, PlayRun(w, d, actuals, n - 1))
  }

  // ---- A finished draft ----

  /** Every jump is recorded as a predecessor of its target. */
  ghost predicate RealPreds(d: Draft) {
    forall b: Label, i: nat :: b < |d.script| && i < |d.script[b]| && d.script[b][i].Emit? ==> JumpsKnown(d, b, d.script[b][i].inst.op)
  }

  ghost predicate JumpsKnown(d: Draft, b: Label, op: Op) {
    && (op.Jump? ==> KnownPred(d, b, op.target))
    && (op.Branch? ==> KnownPred(d, b, op.trueBb) && KnownPred(d, b, op.falseBb))
  }

  predicate KnownPred(d: Draft, b: Label, t: Label) {
    t < |d.preds| && b in d.preds[t]
  }

  /** A write stores a register that the same block computed or read before. */
  ghost predicate LocalWrites(d: Draft) {
    forall b: Label, i: nat :: b < |d.script| && i < |d.script[b]| && d.script[b][i].Wrote? ==> Produced(d.script[b], i, d.script[b][i].wrote)
  }

  ghost predicate Produced(es: seq<Act>, i: nat, v: VReg)
    requires i <= |es|
  {
    exists j :: 0 <= j < i && Yields(es[j]) == Some(v)
  }

  function Yields(e: Act): Option<VReg> {
    match e
    case Emit(inst) => if inst.op.Print? then None else inst.dst
    case Read(_, v) => Some(v)
    case Wrote(_, _) => None
  }

  /** All blocks are sealed and no PHI waits. */
  ghost predicate Complete(d: Draft) {
    && (forall b :: 0 <= b < |d.sealed| ==> d.sealed[b])
    && d.pending == [] && d.open == {} && RealPreds(d) && LocalWrites(d)
  }

  // ---- What holds inside a block ----

  ghost predicate Agree(env: Env, store: Store, x: Name, v: VReg) {
    x in store && v in env && env[v] == store[x]
  }

  /** Whatever carries a variable holds its value. */
  ghost predicate Carry(es: seq<Act>, en: set<(Name, VReg)>, env: Env, store: Store) {
    forall x, v :: Carries(es, en, x, v) ==> Agree(env, store, x, v)
  }

  /** Registers that carried the same variable on entry are still equal. */
  ghost predicate Twins(en: set<(Name, VReg)>, env: Env) {
    forall z, u, v :: (z, u) in en && (z, v) in en ==> u in env && v in env && env[u] == env[v]
  }

  /** What the block has produced so far is in its registers. */
  ghost predicate Holding(es: seq<Act>, i: nat, env: Env)
    requires i <= |es|
  {
    forall j :: 0 <= j < i && Yields(es[j]).Some? ==> Yields(es[j]).value in env
  }

  /** Nothing a block defines carries a variable on entry to it, PHIs apart. */
  ghost predicate NoOwn(d: Draft, b: Label) {
    b < |d.entry| && forall x, e :: (x, e) in d.entry[b] ==> PhiDone(d, b, x, e) || !DefinedIn(d, b, e)
  }

  ghost predicate DefinedIn(d: Draft, b: Label, e: VReg) {
    e in d.home && ((d.home[e].PhiAt? && d.home[e].pb == b) || (d.home[e].BodyAt? && d.home[e].bb == b))
  }

  /** An instruction of the script redefines nothing that carries a variable. */
  lemma EmitKeeps(d: Draft, b: Label, i: nat, dst: VReg, x: Name, v: VReg)
    requires Good(d) && b < |d.script| && i < |d.script[b]| && NoOwn(d, b)
    requires d.script[b][i].Emit? && d.script[b][i].inst.dst == Some(dst)
    requires Carries(d.script[b][..i], d.entry[b], x, v)
    ensures v != dst
  {
    assert AtHome(d, d.script[b][i].inst.dst, BodyAt(b, i)) by { assert Homes(d); }
    var es := d.script[b][..i];
    if LastWrite(es, x).Some? {
      var j := LastWriteAt(es, x);
      var u := LastWrite(es, x).value;
      assert ActOk(d, b, j) by { assert Scripts(d); }
      assert u != dst;
      if u != v {
        var z :| (z, u) in d.entry[b] && (z, v) in d.entry[b];
        EntryKeeps(d, b, i, dst, z, v);
      }
    } else {
      EntryKeeps(d, b, i, dst, x, v);
    }
  }

  lemma EntryKeeps(d: Draft, b: Label, i: nat, dst: VReg, x: Name, v: VReg)
    requires Good(d) && b < |d.script| && i < |d.script[b]| && NoOwn(d, b)
    requires d.script[b][i].Emit? && d.script[b][i].inst.dst == Some(dst) && (x, v) in d.entry[b]
    ensures v != dst
  {
    assert AtHome(d, Some(dst), BodyAt(b, i)) by { assert Homes(d); }
    if PhiDone(d, b, x, v) {
      var k :| 0 <= k < |d.heads[b]| && d.heads[b][k].dst == Some(v) && d.heads[b][k].op.Phi? && FromPreds(d, b, x, d.heads[b][k].op.args);
      assert AtHome(d, Some(v), PhiAt(b, |d.heads[b]| - 1 - k)) by { assert Homes(d); }
    }
  }

  lemma CarryStep(es: seq<Act>, i: nat, x: Name)
    requires i < |es|
    ensures LastWrite(es[..i + 1], x) == if es[i].Wrote? && es[i].name == x then Some(es[i].wrote) else LastWrite(es[..i], x)
  {
    assert es[..i + 1][..i] == es[..i];
  }

  /** State of a block's run at event `i` of its script. */
  ghost predicate Sound(d: Draft, b: Label, i: nat, env: Env, store: Store)
  {
    && b < |d.script| && b < |d.entry| && i <= |d.script[b]|
    && Carry(d.script[b][..i], d.entry[b], env, store) && Twins(d.entry[b], env) && Holding(d.script[b], i, env)
  }

  /** After an instruction. */
  lemma SoundEmit(w: World, d: Draft, b: Label, i: nat, env: Env, snap: Env, prev: Option<Label>, trace: Trace, store: Store)
    requires Good(d) && NoOwn(d, b) && Sound(d, b, i, env, store) && i < |d.script[b]|
    requires d.script[b][i].Emit? && !d.script[b][i].inst.op.IsTerminator()
    requires Exec(w, d.script[b][i].inst, env, snap, prev, trace).Went?
    ensures Sound(d, b, i + 1, Exec(w, d.script[b][i].inst, env, snap, prev, trace).env, store)
  {
    var inst := d.script[b][i].inst;
    var env' := Exec(w, inst, env, snap, prev, trace).env;
    assert env' == env || (inst.dst.Some? && !inst.op.Print? && inst.dst.value in env' && env' == env[inst.dst.value := env'[inst.dst.value]]);
    assert Yields(d.script[b][i]).Some? ==> Yields(d.script[b][i]).value in env';
    hide Good, NoOwn, Exec, Carries;
    forall x, v | Carries(d.script[b][..i + 1], d.entry[b], x, v) ensures Agree(env', store, x, v) {
      SameCarries(d.script[b], i, d.entry[b], x, v);
      if inst.dst.Some? {
        EmitKeeps(d, b, i, inst.dst.value, x, v);
      }
      assert Agree(env, store, x, v);
    }
    forall z, u, v | (z, u) in d.entry[b] && (z, v) in d.entry[b] ensures u in env' && v in env' && env'[u] == env'[v] {
      if inst.dst.Some? {
        EntryKeeps(d, b, i, inst.dst.value, z, u);
        EntryKeeps(d, b, i, inst.dst.value, z, v);
      }
    }
  }

  lemma SameCarries(es: seq<Act>, i: nat, en: set<(Name, VReg)>, x: Name, v: VReg)
    requires i < |es| && !(es[i].Wrote? && es[i].name == x)
    ensures Carries(es[..i + 1], en, x, v) <==> Carries(es[..i], en, x, v)
  {
    CarryStep(es, i, x);
  }

  lemma SoundRead(d: Draft, b: Label, i: nat, env: Env, store: Store)
    requires Good(d) && Sound(d, b, i, env, store) && i < |d.script[b]| && d.script[b][i].Read?
    ensures Agree(env, store, d.script[b][i].name, d.script[b][i].got) && Sound(d, b, i + 1, env, store)
  {
    assert ActOk(d, b, i) by { assert Scripts(d); }
    hide Good, Carries;
    assert Agree(env, store, d.script[b][i].name, d.script[b][i].got);
    forall x, v | Carries(d.script[b][..i + 1], d.entry[b], x, v) ensures Agree(env, store, x, v) {
      SameCarries(d.script[b], i, d.entry[b], x, v);
    }
  }

  lemma SoundWrite(d: Draft, b: Label, i: nat, env: Env, store: Store)
    requires Good(d) && LocalWrites(d) && Sound(d, b, i, env, store) && i < |d.script[b]| && d.script[b][i].Wrote?
    ensures d.script[b][i].wrote in env
    ensures Sound(d, b, i + 1, env, store[d.script[b][i].name := env[d.script[b][i].wrote]])
  {
    var y, u := d.script[b][i].name, d.script[b][i].wrote;
    assert Produced(d.script[b], i, u);
    var store' := store[y := env[u]];
    hide Good, LocalWrites;
    forall x, v | Carries(d.script[b][..i + 1], d.entry[b], x, v) ensures Agree(env, store', x, v) {
      if x == y {
        CarryStep(d.script[b], i, x);
      } else {
        SameCarries(d.script[b], i, d.entry[b], x, v);
        assert Agree(env, store, x, v);
      }
    }
  }

  /** Where event `i` of a script stands in the block. */
  lemma {:induction false} EmittedAt(es: seq<Act>, i: nat)
    requires i <= |es|
    ensures |Emitted(es[..i])| <= |Emitted(es)| && Emitted(es)[..|Emitted(es[..i])|] == Emitted(es[..i])
    decreases |es| - i
  {
    if i == |es| {
      assert es[..i] == es;
    } else {
      EmittedAt(es, i + 1);
      assert es[..i + 1][..i] == es[..i];
    }
  }

  lemma EmitPlace(d: Draft, b: Label, i: nat)
    requires b < |d.heads| && b < |d.script| && i < |d.script[b]|
    ensures var es, k := d.script[b], |d.heads[b]|;
            && |Emitted(es[..i + 1])| == |Emitted(es[..i])| + (if es[i].Emit? then 1 else 0)
            && |Emitted(es[..i + 1])| <= |Emitted(es)|
            && (es[i].Emit? ==> InstsOf(d, b)[k + |Emitted(es[..i])|] == es[i].inst)
  {
    var es := d.script[b];
    EmittedAt(es, i + 1);
    assert es[..i + 1][..i] == es[..i];
    if es[i].Emit? {
      assert Emitted(es[..i + 1])[|Emitted(es[..i])|] == es[i].inst;
    }
  }

  /** Registers come from parameters and from blocks seen. */
  ghost predicate Sourced(d: Draft, env: Env, seen: set<Label>) {
    forall v :: v in env ==> FromHome(d, v, seen)
  }

  ghost predicate FromHome(d: Draft, v: VReg, seen: set<Label>) {
    v in d.home && (match d.home[v]
                    case Param => true
                    case Taken => false
                    case PhiAt(b, _) => b in seen
                    case BodyAt(b, _) => b in seen)
  }

  lemma FromEmit(w: World, d: Draft, b: Label, i: nat, env: Env, snap: Env, prev: Option<Label>, trace: Trace, seen: set<Label>)
    requires Good(d) && b < |d.script| && i < |d.script[b]| && d.script[b][i].Emit? && !d.script[b][i].inst.op.IsTerminator()
    requires Sourced(d, env, seen) && b in seen && Exec(w, d.script[b][i].inst, env, snap, prev, trace).Went?
    ensures Sourced(d, Exec(w, d.script[b][i].inst, env, snap, prev, trace).env, seen)
  {
    var inst := d.script[b][i].inst;
    if inst.dst.Some? {
      assert AtHome(d, inst.dst, BodyAt(b, i)) by { assert Homes(d); }
    }
  }

  /** A block may be left in this state. */
  ghost predicate Left(d: Draft, b: Label, seen: set<Label>, p: Played) {
    p.exit.Goto? ==>
      && b < |d.script| && b < |d.entry| && Carry(d.script[b], d.entry[b], p.exit.env, p.store)
      && Sourced(d, p.exit.env, seen) && KnownPred(d, b, p.exit.target)
  }

  lemma LeftHere(d: Draft, b: Label, i: nat, env: Env, trace: Trace, store: Store, seen: set<Label>)
    requires Good(d) && Complete(d) && b < |d.heads| && Sound(d, b, i, env, store) && Sourced(d, env, seen)
    requires i < |d.script[b]| && d.script[b][i].Emit? && d.script[b][i].inst.op.IsTerminator()
    ensures Left(d, b, seen, Played(Leave(d.script[b][i].inst.op, env, trace), store, true))
  {
    assert ActOk(d, b, i) by { assert Scripts(d); }
    assert JumpsKnown(d, b, d.script[b][i].inst.op);
    var es := d.script[b];
    forall x, v | Carries(es, d.entry[b], x, v) ensures Agree(env, store, x, v) {
      assert es[..i + 1] == es;
      SameCarries(es, i, d.entry[b], x, v);
    }
  }

  /** How the function's block goes on at event `i` of the script. */
  lemma RunPlace(w: World, d: Draft, b: Label, i: nat, env: Env, snap: Env, prev: Option<Label>, trace: Trace)
    requires b < |d.heads| && b < |d.script| && i < |d.script[b]|
    ensures RunBlock(w, InstsOf(d, b), PlaceOf(d, b, i), env, snap, prev, trace) == RunAct(w, d, b, i, env, snap, prev, trace)
  {
    EmitPlace(d, b, i);
    assert |InstsOf(d, b)| == |d.heads[b]| + |Emitted(d.script[b])|;
    hide InstsOf, Emitted, Exec, Leave;
  }

  function PlaceOf(d: Draft, b: Label, i: nat): nat
    requires b < |d.heads| && b < |d.script| && i <= |d.script[b]|
  {
    |d.heads[b]| + |Emitted(d.script[b][..i])|
  }

  function RunAct(w: World, d: Draft, b: Label, i: nat, env: Env, snap: Env, prev: Option<Label>, trace: Trace): Exit
    requires b < |d.heads| && b < |d.script| && i < |d.script[b]|
  {
    var next := PlaceOf(d, b, i + 1);
    if !d.script[b][i].Emit? then RunBlock(w, InstsOf(d, b), next, env, snap, prev, trace)
    else if d.script[b][i].inst.op.IsTerminator() then Leave(d.script[b][i].inst.op, env, trace)
    else
      var r := Exec(w, d.script[b][i].inst, env, snap, prev, trace);
      if r.Stuck? then Fault else RunBlock(w, InstsOf(d, b), next, r.env, snap, prev, r.trace)
  }

  /** The rest of a block runs as the function does, and its reads are right. */
  lemma {:induction false} ActsRight(w: World, d: Draft, b: Label, i: nat, env: Env, snap: Env, prev: Option<Label>, trace: Trace, store: Store,
                                     seen: set<Label>)
    requires Good(d) && Complete(d) && b < |d.heads| && NoOwn(d, b) && Sound(d, b, i, env, store) && Sourced(d, env, seen) && b in seen
    ensures var p := PlayActs(w, d.script[b], i, env, snap, prev, trace, store);
            && p.right && Left(d, b, seen, p)
            && p.exit == RunBlock(w, InstsOf(d, b), PlaceOf(d, b, i), env, snap, prev, trace)
    decreases |d.script[b]| - i
  {
    var es := d.script[b];
    if i == |es| {
      assert es[..i] == es;
    } else {
      RunPlace(w, d, b, i, env, snap, prev, trace);
      assert LocalWrites(d);
      hide Good, Complete, NoOwn, Sound, InstsOf, PlaceOf, LocalWrites, Sourced, Left, Leave, RunBlock, Exec;
      match es[i] {
        case Read(x, v) =>
          SoundRead(d, b, i, env, store);
          ActsRight(w, d, b, i + 1, env, snap, prev, trace, store, seen);
        case Wrote(x, v) =>
          SoundWrite(d, b, i, env, store);
          ActsRight(w, d, b, i + 1, env, snap, prev, trace, store[x := env[v]], seen);
        case Emit(inst) =>
          if inst.op.IsTerminator() {
            LeftHere(d, b, i, env, trace, store, seen);
          } else if Exec(w, inst, env, snap, prev, trace).Went? {
            var r := Exec(w, inst, env, snap, prev, trace);
            SoundEmit(w, d, b, i, env, snap, prev, trace, store);
            FromEmit(w, d, b, i, env, snap, prev, trace, seen);
            ActsRight(w, d, b, i + 1, r.env, snap, prev, r.trace, store, seen);
          } else {
            LeftNot(d, b, seen, Played(Fault, store, true));
          }
      }
    }
  }

  lemma LeftNot(d: Draft, b: Label, seen: set<Label>, p: Played)
    requires !p.exit.Goto?
    ensures Left(d, b, seen, p)
  {
  }

  // ---- Entering a block ----

  /** The end of predecessor `q`, seen from its successors. */
  ghost predicate EndAgrees(d: Draft, q: Label, env: Env, store: Store) {
    forall x, v :: EndIs(d, q, x, v) ==> Agree(env, store, x, v)
  }

  /** The operand a finished PHI takes for predecessor `q` carries the variable there. */
  lemma SourceCarries(d: Draft, b: Label, x: Name, args: seq<PhiArg>, q: Label)
    requires FromPreds(d, b, x, args) && q in d.preds[b]
    ensures PhiSource(args, q).Some? && EndIs(d, q, x, PhiSource(args, q).value)
  {
    var i :| 0 <= i < |d.preds[b]| && d.preds[b][i] == q;
    assert args[i].pred == q;
    SomeSource(args, i);
    var k := PhiSourceIsArg(args, q);
    assert args[k].pred == d.preds[b][k];
  }

  lemma {:induction false} SomeSource(args: seq<PhiArg>, i: nat)
    requires i < |args|
    ensures PhiSource(args, args[i].pred).Some?
  {
    if i > 0 {
      assert args[i] == args[1..][i - 1];
      SomeSource(args[1..], i - 1);
    }
  }

  /** In a finished draft each PHI finds a value, that of some variable. */
  lemma HeadValue(d: Draft, b: Label, k: nat, q: Label, env: Env, env': Env, store: Store)
    requires Good(d) && Complete(d) && b < |d.heads| && k < |d.heads[b]| && q in d.preds[b] && EndAgrees(d, q, env, store)
    ensures d.heads[b][k].op.Phi? && d.heads[b][k].dst.Some? && Eval(d.heads[b][k].op, env', env, Some(q)).Some?
  {
    assert Heads(d) && HeadOk(d, b, k);
    var x :| HeadIs(d, b, k, x);
    SourceCarries(d, b, x, d.heads[b][k].op.args, q);
    assert Agree(env, store, x, PhiSource(d.heads[b][k].op.args, q).value);
  }

  /** After the first `k` PHIs: their registers hold their values, the others are as before. */
  ghost predicate HeadsRan(heads: seq<Inst>, k: nat, env: Env, prev: Option<Label>, env': Env)
    requires k <= |heads|
  {
    && (forall j :: 0 <= j < k ==> HeadRan(heads[j], env, prev, env'))
    && (forall v :: v in env && !IsDst(heads, k, v) ==> v in env' && env'[v] == env[v])
    && (forall v :: v in env' && v !in env ==> IsDst(heads, k, v))
  }

  /** One of the first `k` PHIs defines `v`. */
  ghost predicate IsDst(heads: seq<Inst>, k: nat, v: VReg)
    requires k <= |heads|
  {
    exists j :: 0 <= j < k && heads[j].dst == Some(v)
  }

  ghost predicate HeadRan(inst: Inst, env: Env, prev: Option<Label>, env': Env) {
    inst.op.Phi? && inst.dst.Some? && inst.dst.value in env' && Some(env'[inst.dst.value]) == Eval(inst.op, env', env, prev)
  }

  /** One PHI more. */
  lemma HeadsNext(w: World, d: Draft, b: Label, k: nat, q: Label, env: Env, trace: Trace, store: Store, before: Env) returns (env': Env)
    requires Good(d) && Complete(d) && OnlyPhis(d) && b < |d.heads| && b < |d.script| && 0 < k <= |d.heads[b]|
    requires q in d.preds[b] && EndAgrees(d, q, env, store)
    requires PlayHeads(d.heads[b], k - 1, env, Some(q)) == Some(before) && HeadsRan(d.heads[b], k - 1, env, Some(q), before)
    ensures PlayHeads(d.heads[b], k, env, Some(q)) == Some(env') && HeadsRan(d.heads[b], k, env, Some(q), env')
    ensures RunBlock(w, InstsOf(d, b), k - 1, before, env, Some(q), trace) == RunBlock(w, InstsOf(d, b), k, env', env, Some(q), trace)
  {
    hide Complete, InstsOf, EndAgrees, RunBlock, HeadsRan, IsDst, Good, Eval;
    var inst := d.heads[b][k - 1];
    HeadValue(d, b, k - 1, q, env, before, store);
    env' := before[inst.dst.value := Eval(inst.op, before, env, Some(q)).value];
    HeadStep(w, d, b, k, q, env, before, trace);
    NewDst(d, b, k);
    NextHead(d.heads[b], k, env, Some(q), before, env');
  }

  lemma PhisOf(d: Draft, b: Label)
    requires OnlyPhis(d) && b < |d.heads|
    ensures forall j :: 0 <= j < |d.heads[b]| ==> d.heads[b][j].op.Phi?
  {
  }

  lemma NoHeads(heads: seq<Inst>, env: Env, prev: Option<Label>)
    requires forall j :: 0 <= j < |heads| ==> heads[j].op.Phi?
    ensures PlayHeads(heads, 0, env, prev) == Some(env) && HeadsRan(heads, 0, env, prev, env)
  {
  }

  lemma {:induction false} HeadsRight(w: World, d: Draft, b: Label, k: nat, q: Label, env: Env, trace: Trace, store: Store) returns (env': Env)
    requires Good(d) && Complete(d) && OnlyPhis(d) && b < |d.heads| && b < |d.script| && k <= |d.heads[b]|
    requires q in d.preds[b] && EndAgrees(d, q, env, store)
    ensures PlayHeads(d.heads[b], k, env, Some(q)) == Some(env') && HeadsRan(d.heads[b], k, env, Some(q), env')
    ensures RunBlock(w, InstsOf(d, b), 0, env, env, Some(q), trace) == RunBlock(w, InstsOf(d, b), k, env', env, Some(q), trace)
  {
    hide *;
    if k == 0 {
      env' := env;
      PhisOf(d, b);
      NoHeads(d.heads[b], env, Some(q));
    } else {
      var before := HeadsRight(w, d, b, k - 1, q, env, trace, store);
      env' := HeadsNext(w, d, b, k, q, env, trace, store, before);
    }
  }

  lemma HeadsDiffer(d: Draft, b: Label, j: nat, k: nat)
    requires Homes(d) && b < |d.heads| && j < k < |d.heads[b]|
    ensures d.heads[b][j].dst != d.heads[b][k].dst
  {
    assert AtHome(d, d.heads[b][j].dst, PhiAt(b, |d.heads[b]| - 1 - j));
    assert AtHome(d, d.heads[b][k].dst, PhiAt(b, |d.heads[b]| - 1 - k));
  }

  lemma NewDst(d: Draft, b: Label, k: nat)
    requires Good(d) && b < |d.heads| && 0 < k <= |d.heads[b]| && d.heads[b][k - 1].dst.Some?
    ensures !IsDst(d.heads[b], k - 1, d.heads[b][k - 1].dst.value)
  {
    assert Homes(d);
    hide Good, Homes;
    forall j: nat | j < k - 1 ensures d.heads[b][j].dst != d.heads[b][k - 1].dst {
      HeadsDiffer(d, b, j, k - 1);
    }
  }

  lemma HeadStep(w: World, d: Draft, b: Label, k: nat, q: Label, env: Env, before: Env, trace: Trace)
    requires b < |d.heads| && b < |d.script| && 0 < k <= |d.heads[b]| && d.heads[b][k - 1].op.Phi? && d.heads[b][k - 1].dst.Some?
    requires Eval(d.heads[b][k - 1].op, before, env, Some(q)).Some?
    ensures var inst := d.heads[b][k - 1];
            var env' := before[inst.dst.value := Eval(inst.op, before, env, Some(q)).value];
            RunBlock(w, InstsOf(d, b), k - 1, before, env, Some(q), trace) == RunBlock(w, InstsOf(d, b), k, env', env, Some(q), trace)
  {
    assert InstsOf(d, b)[k - 1] == d.heads[b][k - 1];
  }

  lemma NextHead(heads: seq<Inst>, k: nat, env: Env, prev: Option<Label>, before: Env, env': Env)
    requires 0 < k <= |heads| && HeadsRan(heads, k - 1, env, prev, before)
    requires heads[k - 1].op.Phi? && heads[k - 1].dst.Some? && Eval(heads[k - 1].op, before, env, prev).Some?
    requires env' == before[heads[k - 1].dst.value := Eval(heads[k - 1].op, before, env, prev).value]
    requires !IsDst(heads, k - 1, heads[k - 1].dst.value)
    ensures HeadsRan(heads, k, env, prev, env')
  {
    var d := heads[k - 1].dst.value;
    forall v: VReg ensures IsDst(heads, k, v) <==> IsDst(heads, k - 1, v) || v == d {
      MoreDsts(heads, k, v);
    }
    forall j | 0 <= j < k - 1 ensures HeadRan(heads[j], env, prev, env') {
      assert HeadRan(heads[j], env, prev, before);
      assert IsDst(heads, k - 1, heads[j].dst.value);
    }
    hide IsDst, Eval;
    assert HeadRan(heads[k - 1], env, prev, env') by { SamePhi(heads[k - 1].op, before, env', env, prev); }
    assert forall j :: 0 <= j < k ==> HeadRan(heads[j], env, prev, env');
  }

  lemma SamePhi(op: Op, env: Env, env': Env, snap: Env, prev: Option<Label>)
    requires op.Phi?
    ensures Eval(op, env, snap, prev) == Eval(op, env', snap, prev)
  {
  }

  lemma MoreDsts(heads: seq<Inst>, k: nat, v: VReg)
    requires 0 < k <= |heads|
    ensures IsDst(heads, k, v) <==> IsDst(heads, k - 1, v) || heads[k - 1].dst == Some(v)
  {
  }

  /** A variable's register on entry: the PHI's, or the one it had before. */
  lemma EntryAgrees(d: Draft, b: Label, q: Label, env: Env, store: Store, env': Env, x: Name, e: VReg)
    requires Good(d) && Complete(d) && b < |d.heads| && NoOwn(d, b) && q in d.preds[b] && EndAgrees(d, q, env, store)
    requires HeadsRan(d.heads[b], |d.heads[b]|, env, Some(q), env') && (x, e) in d.entry[b]
    ensures Agree(env', store, x, e)
  {
    assert EntryOk(d, b, x, e) by { assert Entries(d); }
    assert PhiDone(d, b, x, e) || PassThrough(d, b, x, e) by { assert Sizes(d); }
    assert PhiDone(d, b, x, e) || !DefinedIn(d, b, e);
    hide Good, Complete, NoOwn, PassThrough, PhiDone, Justified, DefinedIn, HeadsRan;
    if PhiDone(d, b, x, e) {
      PhiAgrees(d, b, q, env, store, env', x, e);
    } else {
      PassAgrees(d, b, q, env, store, env', x, e);
    }
  }

  lemma PhiAgrees(d: Draft, b: Label, q: Label, env: Env, store: Store, env': Env, x: Name, e: VReg)
    requires b < |d.heads| && b < |d.preds| && q in d.preds[b] && EndAgrees(d, q, env, store)
    requires HeadsRan(d.heads[b], |d.heads[b]|, env, Some(q), env') && PhiDone(d, b, x, e)
    ensures Agree(env', store, x, e)
  {
    var k :| 0 <= k < |d.heads[b]| && d.heads[b][k].dst == Some(e) && d.heads[b][k].op.Phi? && FromPreds(d, b, x, d.heads[b][k].op.args);
    SourceCarries(d, b, x, d.heads[b][k].op.args, q);
    assert Agree(env, store, x, PhiSource(d.heads[b][k].op.args, q).value);
    assert HeadRan(d.heads[b][k], env, Some(q), env');
  }

  lemma PassAgrees(d: Draft, b: Label, q: Label, env: Env, store: Store, env': Env, x: Name, e: VReg)
    requires Good(d) && b < |d.heads| && b < |d.preds| && q in d.preds[b] && EndAgrees(d, q, env, store)
    requires HeadsRan(d.heads[b], |d.heads[b]|, env, Some(q), env') && PassThrough(d, b, x, e) && !DefinedIn(d, b, e)
    ensures Agree(env', store, x, e)
  {
    NotAHead(d, b, e);
    hide Good;
    var i :| 0 <= i < |d.preds[b]| && d.preds[b][i] == q;
    assert EndIs(d, q, x, e);
    assert Agree(env, store, x, e);
  }

  lemma NotAHead(d: Draft, b: Label, e: VReg)
    requires Good(d) && b < |d.heads| && !DefinedIn(d, b, e)
    ensures !IsDst(d.heads[b], |d.heads[b]|, e)
  {
    forall j | 0 <= j < |d.heads[b]| ensures d.heads[b][j].dst != Some(e) {
      assert AtHome(d, d.heads[b][j].dst, PhiAt(b, |d.heads[b]| - 1 - j)) by { assert Homes(d); }
    }
  }

  lemma SoundStart(d: Draft, b: Label, q: Label, env: Env, store: Store, env': Env)
    requires Good(d) && Complete(d) && b < |d.heads| && NoOwn(d, b) && q in d.preds[b] && EndAgrees(d, q, env, store)
    requires HeadsRan(d.heads[b], |d.heads[b]|, env, Some(q), env')
    ensures Sound(d, b, 0, env', store)
  {
    assert d.script[b][..0] == [] && Sizes(d);
    hide Good, Complete, NoOwn, EndAgrees, HeadsRan;
    forall x, v | (x, v) in d.entry[b] ensures Agree(env', store, x, v) {
      EntryAgrees(d, b, q, env, store, env', x, v);
    }
    forall z, u, v | (z, u) in d.entry[b] && (z, v) in d.entry[b] ensures u in env' && v in env' && env'[u] == env'[v] {
      assert Agree(env', store, z, u) && Agree(env', store, z, v);
    }
  }

  lemma FromHeads(d: Draft, b: Label, env: Env, prev: Option<Label>, env': Env, seen: set<Label>)
    requires Good(d) && b < |d.heads| && HeadsRan(d.heads[b], |d.heads[b]|, env, prev, env') && Sourced(d, env, seen)
    ensures Sourced(d, env', seen + {b})
  {
    forall v | v in env' ensures FromHome(d, v, seen + {b}) {
      if v in env {
        assert FromHome(d, v, seen);
      } else {
        var j :| 0 <= j < |d.heads[b]| && d.heads[b][j].dst == Some(v);
        assert AtHome(d, Some(v), PhiAt(b, |d.heads[b]| - 1 - j)) by { assert Homes(d); }
      }
    }
  }

  /** On the first visit of a block nothing it defines can have a value, so nothing of its own
      passes through it. */
  lemma FirstVisit(d: Draft, b: Label, q: Label, env: Env, store: Store, seen: set<Label>)
    requires Good(d) && Complete(d) && b < |d.heads| && q in d.preds[b] && EndAgrees(d, q, env, store)
    requires Sourced(d, env, seen) && b !in seen
    ensures NoOwn(d, b)
  {
    assert Sizes(d);
    forall x, e | (x, e) in d.entry[b] ensures PhiDone(d, b, x, e) || !DefinedIn(d, b, e) {
      assert EntryOk(d, b, x, e) by { assert Entries(d); }
      if !PhiDone(d, b, x, e) {
        var i :| 0 <= i < |d.preds[b]| && d.preds[b][i] == q;
        assert PassThrough(d, b, x, e);
        assert EndIs(d, q, x, e);
        assert Agree(env, store, x, e);
        assert FromHome(d, e, seen);
      }
    }
  }

  // ---- Whole runs ----

  ghost predicate Settled(d: Draft, seen: set<Label>) {
    forall b: Label :: b in seen ==> NoOwn(d, b)
  }

  ghost predicate Arrived(d: Draft, r: PRun) {
    match r.state
    case Running(b, Some(q), env, trace) => KnownPred(d, q, b) && EndAgrees(d, q, env, r.store) && Sourced(d, env, r.visited)
    case Running(b, None, env, trace) => b == 0 && r.visited == {} && AtStart(d, env, r.store)
    case _ => true
  }

  ghost predicate AtStart(d: Draft, env: Env, store: Store) {
    && (forall v :: v in env ==> v < |d.params|)
    && (forall x, e :: ParamIs(d.params, x, e) ==> Agree(env, store, x, e))
  }

  ghost predicate Going(d: Draft, r: PRun) {
    r.right && Settled(d, r.visited) && Arrived(d, r)
  }

  lemma GoodSizes(d: Draft)
    requires Good(d)
    ensures Sizes(d)
  {
  }

  lemma GoodPhis(d: Draft)
    requires Good(d)
    ensures OnlyPhis(d)
  {
    assert Heads(d);
    forall b, j | 0 <= b < |d.heads| && 0 <= j < |d.heads[b]| ensures d.heads[b][j].op.Phi? {
      assert HeadOk(d, b, j);
    }
  }

  /** A block entered from `q` runs as in the function, with its reads right. */
  lemma BlockRight(w: World, d: Draft, b: Label, q: Label, env: Env, trace: Trace, store: Store, seen: set<Label>)
    requires Good(d) && Complete(d) && OnlyPhis(d) && b < |d.heads| && q in d.preds[b]
    requires EndAgrees(d, q, env, store) && Sourced(d, env, seen) && Settled(d, seen)
    ensures var p := PlayBlock(w, d, b, env, Some(q), trace, store);
            && p.right && NoOwn(d, b) && Left(d, b, seen + {b}, p)
            && p.exit == RunBlock(w, InstsOf(d, b), 0, env, env, Some(q), trace)
  {
    assert b < |d.script| by { assert Sizes(d); }
    hide Good, Complete, OnlyPhis, EndAgrees, Sourced, NoOwn, Left, Sound, InstsOf, RunBlock, HeadsRan, PlayHeads, PlayActs;
    if b !in seen {
      FirstVisit(d, b, q, env, store, seen);
    }
    var env' := HeadsRight(w, d, b, |d.heads[b]|, q, env, trace, store);
    SoundStart(d, b, q, env, store, env');
    FromHeads(d, b, env, Some(q), env', seen);
    ActsRight(w, d, b, 0, env', env, Some(q), trace, store, seen + {b});
    FirstPlace(d, b);
  }

  lemma FirstPlace(d: Draft, b: Label)
    requires b < |d.heads| && b < |d.script|
    ensures PlaceOf(d, b, 0) == |d.heads[b]|
  {
  }

  /** The entry block has no PHIs, and its variables are the parameters. */
  lemma EntryRight(w: World, d: Draft, env: Env, trace: Trace, store: Store)
    requires Good(d) && Complete(d) && OnlyPhis(d) && Sizes(d) && AtStart(d, env, store)
    ensures var p := PlayBlock(w, d, 0, env, None, trace, store);
            && p.right && NoOwn(d, 0) && Left(d, 0, {0}, p)
            && p.exit == RunBlock(w, InstsOf(d, 0), 0, env, env, None, trace)
  {
    EntryFacts(d);
    assert Sound(d, 0, 0, env, store) by {
      assert d.script[0][..0] == [];
      forall z, u, v | (z, u) in d.entry[0] && (z, v) in d.entry[0] ensures u in env && v in env && env[u] == env[v] {
        assert Agree(env, store, z, u) && Agree(env, store, z, v);
      }
    }
    assert Sourced(d, env, {0}) by {
      assert Homes(d);
    }
    assert d.heads[0] == [];
    hide Good, Complete, OnlyPhis, Sourced, NoOwn, Left, Sound, InstsOf, RunBlock, PlayActs;
    ActsRight(w, d, 0, 0, env, env, None, trace, store, {0});
    FirstPlace(d, 0);
  }

  lemma EntryFacts(d: Draft)
    requires Good(d) && Complete(d)
    ensures d.heads[0] == [] && NoOwn(d, 0)
    ensures forall x, e :: (x, e) in d.entry[0] ==> ParamIs(d.params, x, e)
  {
    assert Sizes(d) && Heads(d) && Homes(d);
    forall b: Label | b < |d.heads| && d.heads[b] != [] ensures b != 0 {
      assert HeadOk(d, b, 0);
    }
    forall x, e | (x, e) in d.entry[0] ensures ParamIs(d.params, x, e) && !DefinedIn(d, 0, e) {
      assert EntryOk(d, 0, x, e) by { assert Entries(d); }
      assert !PhiDone(d, 0, x, e) && !PassThrough(d, 0, x, e);
    }
  }

  lemma SettledMore(d: Draft, b: Label, seen: set<Label>)
    requires Settled(d, seen) && NoOwn(d, b)
    ensures Settled(d, seen + {b})
  {
  }

  lemma LeftArrives(d: Draft, b: Label, seen: set<Label>, p: Played)
    requires Sizes(d) && b < |d.heads| && Left(d, b, seen, p) && p.exit.Goto?
    ensures EndAgrees(d, b, p.exit.env, p.store) && Sourced(d, p.exit.env, seen) && KnownPred(d, b, p.exit.target)
  {
  }

  lemma StepRight(w: World, d: Draft, r: PRun)
    requires Good(d) && Complete(d) && OnlyPhis(d) && Sizes(d) && Going(d, r)
    ensures Going(d, StepPlay(w, d, r)) && StepPlay(w, d, r).state == StepBlock(w, Built(d), r.state)
  {
    match r.state {
      case Running(b, prev, env, trace) =>
        hide Good, Complete, OnlyPhis, PlayBlock, EndAgrees, Sourced, NoOwn, Left, InstsOf, AtStart, Settled, RunBlock;
        if b < |d.heads| {
          if prev.Some? {
            BlockRight(w, d, b, prev.value, env, trace, r.store, r.visited);
          } else {
            EntryRight(w, d, env, trace, r.store);
            assert r.visited + {0} == {0};
          }
          SettledMore(d, b, r.visited);
          var p := PlayBlock(w, d, b, env, prev, trace, r.store);
          assert Built(d).blocks[b] == InstsOf(d, b);
          if p.exit.Goto? {
            LeftArrives(d, b, r.visited + {b}, p);
          }
        }
      case _ =>
    }
  }

  lemma {:induction false} BoundParams(params: seq<Name>, actuals: seq<Int64>, k: nat)
    requires |params| == |actuals| && k <= |params|
    ensures var env := Bind(seq(|params| - k, i => i + k), actuals[k..]);
            && (forall v :: v in env <==> k <= v < |params|)
            && (forall v :: k <= v < |params| ==> env[v] == actuals[v])
    decreases |params| - k
  {
    if k < |params| {
      var vs := seq(|params| - k, i => i + k);
      BoundParams(params, actuals, k + 1);
      assert vs[1..] == seq(|params| - (k + 1), i => i + (k + 1));
      assert actuals[k..][1..] == actuals[k + 1..];
    }
  }

  lemma StartRight(d: Draft, actuals: seq<Int64>)
    requires Good(d) && Sizes(d) && |actuals| == |d.params|
    ensures Going(d, PRun(Init(Built(d), actuals), StartStore(d, actuals), {}, true))
  {
    BoundParams(d.params, actuals, 0);
    assert seq(|d.params| - 0, i => i + 0) == Built(d).params;
    assert actuals[0..] == actuals;
    var env, store := Bind(Built(d).params, actuals), StartStore(d, actuals);
    forall x, e | ParamIs(d.params, x, e) ensures Agree(env, store, x, e) {
      assert x in d.params;
    }
  }

  /** In every run of a finished function, as far as it goes: each read of a variable gets the
      value last written to it on the path taken, and the PHIs always find their operands. */
  lemma {:induction false} ReadsAreRight(w: World, d: Draft, actuals: seq<Int64>, n: nat)
    requires Good(d) && Complete(d) && |actuals| == |d.params|
    ensures Sizes(d) && OnlyPhis(d)
    ensures PlayRun(w, d, actuals, n).right
    ensures PlayRun(w, d, actuals, n).state == Run(w, Built(d), actuals, n)
    ensures Going(d, PlayRun(w, d, actuals, n))
  {
    GoodPhis(d);
    GoodSizes(d);
    hide *;
    SameSizes(d);
    PlayUnfolds(w, d, actuals, n);
    if n == 0 {
      StartRight(d, actuals);
    } else {
      ReadsAreRight(w, d, actuals, n - 1);
      StepRight(w, d, PlayRun(w, d, actuals, n - 1));
    }
    GoingIsRight(d, PlayRun(w, d, actuals, n));
  }

  lemma SameSizes(d: Draft)
    requires Sizes(d)
    ensures |d.heads| == |d.script|
  {
  }

  lemma PlayUnfolds(w: World, d: Draft, actuals: seq<Int64>, n: nat)
    requires |d.heads| == |d.script| && OnlyPhis(d) && |actuals| == |d.params|
    ensures n == 0 ==> PlayRun(w, d, actuals, n) == PRun(Init(Built(d), actuals), StartStore(d, actuals), {}, true)
    ensures n == 0 ==> Run(w, Built(d), actuals, n) == Init(Built(d), actuals)
    ensures n > 0 ==> PlayRun(w, d, actuals, n) == StepPlay(w, d, PlayRun(w, d, actuals, n - 1))
    ensures n > 0 ==> Run(w, Built(d), actuals, n) == StepBlock(w, Built(d), Run(w, Built(d), actuals, n - 1))
  {
    hide Built, StartStore, StepPlay, StepBlock, Init;
  }

  lemma GoingIsRight(d: Draft, r: PRun)
    requires Going(d, r)
    ensures r.right
  {
  }

  // ---- Single definitions ----

  /** The script event behind an emitted instruction. */
  lemma {:induction false} EmitOf(es: seq<Act>, i: nat) returns (j: nat)
    requires i < |Emitted(es)|
    ensures j < |es| && es[j].Emit? && es[j].inst == Emitted(es)[i] && |Emitted(es[..j])| == i
  {
    var n := |es| - 1;
    if i < |Emitted(es[..n])| {
      j := EmitOf(es[..n], i);
      assert es[..n][..j] == es[..j];
    } else {
      j := n;
    }
  }

  /** The home of the register an instruction of the finished function defines; it tells where
      the instruction is. */
  lemma InstHome(d: Draft, b: Label, i: nat) returns (h: Home)
    requires Good(d) && Sizes(d) && b < |d.heads| && i < |InstsOf(d, b)| && InstsOf(d, b)[i].dst.Some?
    ensures var v := InstsOf(d, b)[i].dst.value; v in d.home && d.home[v] == h
    ensures h.PhiAt? || h.BodyAt?
    ensures h.PhiAt? ==> h.pb == b && i < |d.heads[b]| && h.pj == |d.heads[b]| - 1 - i
    ensures h.BodyAt? ==> h.bb == b && h.bi < |d.script[b]| && i == PlaceOf(d, b, h.bi)
  {
    assert Homes(d);
    hide Good, Homes;
    if i < |d.heads[b]| {
      h := PhiAt(b, |d.heads[b]| - 1 - i);
      assert AtHome(d, d.heads[b][i].dst, h);
    } else {
      var j := EmitOf(d.script[b], i - |d.heads[b]|);
      h := BodyAt(b, j);
      assert AtHome(d, d.script[b][j].inst.dst, h);
    }
  }

  /** The function built defines every register once, and no parameter again. */
  lemma BuiltOnce(d: Draft, b: Label, i: nat, c: Label, j: nat)
    requires Good(d)
    requires Built(d).Has(b, i) && Built(d).Has(c, j) && Built(d).At(b, i).dst.Some? && Built(d).At(b, i).dst == Built(d).At(c, j).dst
    ensures b == c && i == j
    ensures Built(d).At(b, i).dst.value !in Built(d).params
  {
    var h := InstHome(d, b, i);
    var g := InstHome(d, c, j);
    assert Homes(d);
  }
}
