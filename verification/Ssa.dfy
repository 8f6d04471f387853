/** The SSA intermediate representation (src/ssa.h) and its meaning.

    A function is run block by block.  The observable part of a run is the list of
    events (prints and calls), the sequence of blocks entered, and the returned value.
    Reading a register that was never written, a division the hardware rejects, a PHI
    without an entry for the block just left, or running off the end of a block is a
    fault; the theorems about the passes speak of the runs that do not fault. */
module Ssa {
  import opened Wrappers
  import opened Word64

  type VReg = nat
  type Label = nat

  datatype PhiArg = PhiArg(src: VReg, pred: Label)

  datatype Op =
    | Const(value: Int64)
    | Binop(bkind: BinOpKind, lhs: VReg, rhs: VReg)
    | Unop(ukind: UnOpKind, operand: VReg)
    | Cmp(ckind: CmpKind, clhs: VReg, crhs: VReg)
    | Gep(ptr: VReg, offset: Int64)
    | Phi(args: seq<PhiArg>)
    | Call(func: string, actuals: seq<VReg>)
    | Print(val: VReg)
    | Branch(cond: VReg, trueBb: Label, falseBb: Label)
    | Jump(target: Label)
    | Ret(result: Option<VReg>)
  {
    predicate IsTerminator() {
      Branch? || Jump? || Ret?
    }

    /** The operations that compute a value and do nothing else. */
    predicate IsPure() {
      Const? || Binop? || Unop? || Cmp? || Gep? || Phi?
    }
  }

  /** `dst` is None where the source stores VT_INVALID_VREG. */
  datatype Inst = Inst(dst: Option<VReg>, op: Op)

  type Block = seq<Inst>

  datatype Func = Func(blocks: seq<Block>, entry: Label, nextVreg: nat, params: seq<VReg>)
  {
    predicate Has(b: int, i: int) {
      0 <= b < |blocks| && 0 <= i < |blocks[b]|
    }

    function At(b: int, i: int): Inst
      requires Has(b, i)
    {
      blocks[b][i]
    }
  }

  /** The object the passes update in place. */
  class SsaFunc {
    var blocks: seq<Block>
    const entry: Label
    const nextVreg: nat
    const params: seq<VReg>

    constructor (f: Func)
      ensures Value() == f
    {
      blocks := f.blocks;
      entry := f.entry;
      nextVreg := f.nextVreg;
      params := f.params;
    }

    function Value(): Func
      reads this
    {
      Func(blocks, entry, nextVreg, params)
    }
  }

  /** The registers an instruction reads. */
  predicate Reads(op: Op, v: VReg) {
    match op
    case Const(_) => false
    case Binop(_, l, r) => v == l || v == r
    case Unop(_, x) => v == x
    case Cmp(_, l, r) => v == l || v == r
    case Gep(p, _) => v == p
    case Phi(args) => exists k :: 0 <= k < |args| && args[k].src == v
    case Call(_, actuals) => v in actuals
    case Print(x) => v == x
    case Branch(c, _, _) => v == c
    case Jump(_) => false
    case Ret(r) => r == Some(v)
  }

  // ---- Meaning ----

  datatype Event = Printed(value: Int64) | Called(func: string, actuals: seq<Int64>)

  type Env = map<VReg, Int64>
  type Trace = seq<Event>

  /** The outside world: the reply to the call that ends the given history. */
  type World = Trace -> Int64

  function Put(env: Env, dst: Option<VReg>, x: Int64): Env {
    match dst
    case None => env
    case Some(d) => env[d := x]
  }

  /** The operand of a PHI for the block just left. */
  function PhiSource(args: seq<PhiArg>, prev: Label): Option<VReg> {
    if args == [] then None
    else if args[0].pred == prev then Some(args[0].src)
    else PhiSource(args[1..], prev)
  }

  /** The value of a pure operation.  PHIs read `snap`, the environment on entry to the
      block, so their position among the block's instructions does not matter. */
  function Eval(op: Op, env: Env, snap: Env, prev: Option<Label>): Option<Int64>
    requires op.IsPure()
  {
    match op
    case Const(x) => Some(x)
    case Binop(k, l, r) => if l in env && r in env then EvalBinop(k, env[l], env[r]) else None
    case Unop(k, x) => if x in env then Some(EvalUnop(k, env[x])) else None
    case Cmp(k, l, r) => if l in env && r in env then Some(EvalCmp(k, env[l], env[r])) else None
    case Gep(p, off) => if p in env then Some(Wrap(env[p] + off)) else None
    case Phi(args) =>
      if prev.None? then None else
      match PhiSource(args, prev.value)
      case None => None
      case Some(s) => if s in snap then Some(snap[s]) else None
  }

  predicate AllIn(vs: seq<VReg>, env: Env) {
    forall v :: v in vs ==> v in env
  }

  function Values(vs: seq<VReg>, env: Env): seq<Int64>
    requires AllIn(vs, env)
  {
    seq(|vs|, i requires 0 <= i < |vs| => assert vs[i] in vs; env[vs[i]])
  }

  datatype Step = Stuck | Went(env: Env, trace: Trace)

  /** One instruction that is not a terminator. */
  function Exec(w: World, inst: Inst, env: Env, snap: Env, prev: Option<Label>, trace: Trace): Step
    requires !inst.op.IsTerminator()
  {
    if inst.op.IsPure() then
      match Eval(inst.op, env, snap, prev)
      case None => Stuck
      case Some(x) => Went(Put(env, inst.dst, x), trace)
    else if inst.op.Print? then
      if inst.op.val in env then Went(env, trace + [Printed(env[inst.op.val])]) else Stuck
    else if AllIn(inst.op.actuals, env) then
      var trace' := trace + [Called(inst.op.func, Values(inst.op.actuals, env))];
      Went(Put(env, inst.dst, w(trace')), trace')
    else Stuck
  }

  datatype Exit = Fault | Goto(target: Label, env: Env, trace: Trace) | Return(value: Option<Int64>, trace: Trace)

  /** What a terminator does. */
  function Leave(op: Op, env: Env, trace: Trace): Exit
    requires op.IsTerminator()
  {
    match op
    case Jump(t) => Goto(t, env, trace)
    case Branch(c, t, f) =>
      if c in env then Goto(if env[c] != 0 then t else f, env, trace) else Fault
    case Ret(None) => Return(None, trace)
    case Ret(Some(v)) => if v in env then Return(Some(env[v]), trace) else Fault
  }

  /** Running a block from its instruction `i` on. */
  function RunBlock(w: World, b: Block, i: nat, env: Env, snap: Env, prev: Option<Label>, trace: Trace): Exit
    decreases |b| - i
  {
    if i >= |b| then Fault
    else if b[i].op.IsTerminator() then Leave(b[i].op, env, trace)
    else
      match Exec(w, b[i], env, snap, prev, trace)
      case Stuck => Fault
      case Went(env', trace') => RunBlock(w, b, i + 1, env', snap, prev, trace')
  }

  datatype State =
    | Faulted
    | Running(block: Label, prev: Option<Label>, env: Env, trace: Trace)
    | Finished(value: Option<Int64>, trace: Trace)

  /** One block of a run. */
  function StepBlock(w: World, f: Func, s: State): State {
    match s
    case Running(b, prev, env, trace) =>
      if b >= |f.blocks| then Faulted else
      (match RunBlock(w, f.blocks[b], 0, env, env, prev, trace)
       case Fault => Faulted
       case Goto(t, env', trace') => Running(t, Some(b), env', trace')
       case Return(x, trace') => Finished(x, trace'))
    case _ => s
  }

  /** The registers on entry: one actual per parameter, missing ones absent. */
  function Bind(params: seq<VReg>, actuals: seq<Int64>): Env {
    if params == [] || actuals == [] then map[]
    else Bind(params[1..], actuals[1..])[params[0] := actuals[0]]
  }

  function Init(f: Func, actuals: seq<Int64>): State {
    Running(f.entry, None, Bind(f.params, actuals), [])
  }

  /** The state after `n` blocks. */
  function Run(w: World, f: Func, actuals: seq<Int64>, n: nat): State {
    if n == 0 then Init(f, actuals) else StepBlock(w, f, Run(w, f, actuals, n - 1))
  }

  /** What an observer sees of a state: control, events and result, but no registers. */
  datatype View =
    | Crash
    | At(block: Label, prev: Option<Label>, trace: Trace)
    | Done(value: Option<Int64>, trace: Trace)

  function Observe(s: State): View {
    match s
    case Faulted => Crash
    case Running(b, prev, _, trace) => At(b, prev, trace)
    case Finished(x, trace) => Done(x, trace)
  }

  /** `g` does what `f` does: after any number of blocks of any run in which `f` has not
      faulted, `g` is at the same place with the same events and the same result. */
  ghost predicate Refines(f: Func, g: Func) {
    forall w: World, actuals, n: nat ::
      !Run(w, f, actuals, n).Faulted? ==> Observe(Run(w, g, actuals, n)) == Observe(Run(w, f, actuals, n))
  }

  lemma RefinesReflexive(f: Func)
    ensures Refines(f, f)
  {
  }

  lemma RefinesTransitive(f: Func, g: Func, h: Func)
    requires Refines(f, g) && Refines(g, h)
    ensures Refines(f, h)
  {
    forall w: World, actuals, n: nat | !Run(w, f, actuals, n).Faulted?
      ensures Observe(Run(w, h, actuals, n)) == Observe(Run(w, f, actuals, n))
    {
      assert Observe(Run(w, g, actuals, n)) == Observe(Run(w, f, actuals, n));
    }
  }

  /** A run that faults has faulted for good. */
  lemma FaultPersists(w: World, f: Func, actuals: seq<Int64>, n: nat)
    requires !Run(w, f, actuals, n + 1).Faulted?
    ensures !Run(w, f, actuals, n).Faulted?
  {
  }

  /** Only parameters are bound on entry. */
  lemma {:induction false} BindDomain(params: seq<VReg>, actuals: seq<Int64>, v: VReg)
    requires v in Bind(params, actuals)
    ensures v in params
  {
    if v != params[0] {
      BindDomain(params[1..], actuals[1..], v);
    }
  }

  /** The operand a PHI chooses is one of its arguments, for the block just left. */
  lemma {:induction false} PhiSourceIsArg(args: seq<PhiArg>, prev: Label) returns (k: nat)
    requires PhiSource(args, prev).Some?
    ensures k < |args| && args[k] == PhiArg(PhiSource(args, prev).value, prev)
  {
    if args[0].pred == prev {
      k := 0;
    } else {
      k := PhiSourceIsArg(args[1..], prev);
      k := k + 1;
    }
  }

  // ---- Shape of SSA functions ----

  /** Every register has one definition, parameters are never redefined, and the
      instructions emitted without a destination carry none (src/ssa_build.c:443-445). */
  ghost predicate SingleDef(f: Func) {
    && (forall b, i, c, j ::
          f.Has(b, i) && f.Has(c, j) && f.At(b, i).dst.Some? && f.At(b, i).dst == f.At(c, j).dst ==> b == c && i == j)
    && (forall b, i :: f.Has(b, i) && f.At(b, i).dst.Some? ==> f.At(b, i).dst.value !in f.params)
    && (forall b, i :: f.Has(b, i) && (f.At(b, i).op.IsTerminator() || f.At(b, i).op.Print?) ==> f.At(b, i).dst.None?)
  }

  /** Two functions with the same blocks, sizes, parameters and definitions. */
  ghost predicate SameShape(f: Func, g: Func) {
    && f.entry == g.entry && f.nextVreg == g.nextVreg && f.params == g.params
    && |f.blocks| == |g.blocks|
    && forall b :: 0 <= b < |f.blocks| ==> |f.blocks[b]| == |g.blocks[b]|
  }
}
