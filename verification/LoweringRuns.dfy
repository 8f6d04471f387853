/** The function built from a tree does what the tree means. */
module LoweringRuns {
  import opened Wrappers
  import opened Word64
  import opened Ssa
  import opened Draft
  import opened SsaBuilder
  import opened BuilderRuns
  import opened Hir
  import opened LoweredCode
  import opened LoweringStmts

  // ---- A run in the middle of a block ----

  datatype Config = Config(block: Label, at: nat, env: Env, snap: Env, prev: Option<Label>, trace: Trace, store: Store)

  ghost predicate Finished(d: Draft, actuals: seq<Int64>) {
    Good(d) && BuilderRuns.Complete(d) && Sizes(d) && OnlyPhis(d) && |actuals| == |d.params|
  }

  /** After `n` blocks the run is in `k.block`, and going on from event `k.at` of its script. */
  ghost predicate Reach(w: World, d: Draft, actuals: seq<Int64>, n: nat, k: Config)
    requires Finished(d, actuals)
  {
    var r := PlayRun(w, d, actuals, n);
    && r.state.Running? && r.state.block == k.block && r.state.prev == k.prev && r.state.env == k.snap
    && k.block < |d.heads| && k.at <= |d.script[k.block]|
    && var h := PlayHeads(d.heads[k.block], |d.heads[k.block]|, k.snap, k.prev);
       && h.Some?
       && PlayActs(w, d.script[k.block], 0, h.value, k.snap, k.prev, r.state.trace, r.store)
            == PlayActs(w, d.script[k.block], k.at, k.env, k.snap, k.prev, k.trace, k.store)
  }

  ghost predicate Crashes(w: World, d: Draft, actuals: seq<Int64>)
    requires Finished(d, actuals)
  {
    exists n: nat :: PlayRun(w, d, actuals, n).state.Faulted?
  }

  predicate AtPoint(k: Config, p: Point) {
    k.block == p.block && k.at == p.at
  }

  /** What the rest of the block plays like decides the next state. */
  lemma NextState(w: World, d: Draft, actuals: seq<Int64>, n: nat, k: Config)
    requires Finished(d, actuals) && Reach(w, d, actuals, n, k)
    ensures var p := PlayActs(w, d.script[k.block], k.at, k.env, k.snap, k.prev, k.trace, k.store);
            var r := PlayRun(w, d, actuals, n + 1);
            && p.right && r.store == p.store
            && (p.exit.Fault? ==> r.state == State.Faulted)
            && (p.exit.Goto? ==> r.state == Running(p.exit.target, Some(k.block), p.exit.env, p.exit.trace))
            && (p.exit.Return? ==> r.state == State.Finished(p.exit.value, p.exit.trace))
  {
    hide Good, BuilderRuns.Complete, OnlyPhis, PlayActs, Going, Run, Built;
    ReadsAreRight(w, d, actuals, n + 1);
  }

  lemma ReadStep(w: World, d: Draft, actuals: seq<Int64>, n: nat, k: Config, p: Point, x: Name, v: VReg)
    requires Finished(d, actuals) && Reach(w, d, actuals, n, k) && AtPoint(k, p) && ActAt(d, p, Read(x, v))
    ensures x in k.store && v in k.env && k.env[v] == k.store[x] && Reach(w, d, actuals, n, k.(at := k.at + 1))
  {
    NextState(w, d, actuals, n, k);
    hide Finished, PlayRun, PlayHeads;
  }

  lemma WriteStep(w: World, d: Draft, actuals: seq<Int64>, n: nat, k: Config, p: Point, x: Name, v: VReg)
    requires Finished(d, actuals) && Reach(w, d, actuals, n, k) && AtPoint(k, p) && ActAt(d, p, Wrote(x, v)) && v in k.env
    ensures Reach(w, d, actuals, n, k.(at := k.at + 1, store := k.store[x := k.env[v]]))
  {
    hide Finished, PlayRun, PlayHeads;
  }

  lemma ExecStep(w: World, d: Draft, actuals: seq<Int64>, n: nat, k: Config, p: Point, inst: Inst)
    requires Finished(d, actuals) && Reach(w, d, actuals, n, k) && AtPoint(k, p) && ActAt(d, p, Emit(inst)) && !inst.op.IsTerminator()
    ensures var r := Exec(w, inst, k.env, k.snap, k.prev, k.trace);
            if r.Went? then Reach(w, d, actuals, n, k.(at := k.at + 1, env := r.env, trace := r.trace)) else Crashes(w, d, actuals)
  {
    if Exec(w, inst, k.env, k.snap, k.prev, k.trace).Stuck? {
      NextState(w, d, actuals, n, k);
      hide Finished, PlayHeads, Exec;
      assert PlayRun(w, d, actuals, n + 1).state.Faulted?;
    } else {
      hide Finished, PlayRun, PlayHeads, Exec;
    }
  }

  // ---- What keeps its value ----

  ghost predicate Preserved(d: Draft, p: Point, env: Env, env': Env) {
    forall v :: Held(d, v, p) && v in env ==> v in env' && env'[v] == env[v]
  }

  lemma PreservedTrans(d: Draft, p: Point, q: Point, env: Env, env': Env, env'': Env)
    requires Preserved(d, p, env, env') && Preserved(d, q, env', env'') && Later(p, q)
    ensures Preserved(d, p, env, env'')
  {
    forall v | Held(d, v, p) && v in env ensures v in env'' && env''[v] == env[v] {
      HeldLater(d, v, p, q);
    }
  }

  lemma PreservedSame(d: Draft, p: Point, env: Env)
    ensures Preserved(d, p, env, env)
  {
  }

  /** An instruction's own register is not held before it. */
  lemma DefinesNew(d: Draft, p: Point, v: VReg, op: Op, env: Env, x: Int64)
    requires Good(d) && Computes(d, p, v, op)
    ensures Preserved(d, p, env, env[v := x])
  {
    assert AtHome(d, Some(v), BodyAt(p.block, p.at)) by { assert Homes(d); }
    hide Good;
  }

  lemma {:induction false} HeadsKeep(heads: seq<Inst>, k: nat, env: Env, prev: Option<Label>, v: VReg)
    requires k <= |heads| && (forall j :: 0 <= j < |heads| ==> heads[j].op.Phi?) && PlayHeads(heads, k, env, prev).Some?
    requires v in env && forall j :: 0 <= j < k ==> heads[j].dst != Some(v)
    ensures var env' := PlayHeads(heads, k, env, prev).value; v in env' && env'[v] == env[v]
  {
    if k > 0 {
      HeadsKeep(heads, k - 1, env, prev, v);
    }
  }

  /** The PHIs of a block that was not there yet define nothing held. */
  lemma EntryPreserves(d: Draft, p: Point, t: Label, env: Env, prev: Option<Label>)
    requires Good(d) && OnlyPhis(d) && p.blocks <= t < |d.heads| && PlayHeads(d.heads[t], |d.heads[t]|, env, prev).Some?
    ensures Preserved(d, p, env, PlayHeads(d.heads[t], |d.heads[t]|, env, prev).value)
  {
    assert Homes(d);
    hide Good, Homes, PlayHeads;
    forall v | Held(d, v, p) && v in env ensures var env' := PlayHeads(d.heads[t], |d.heads[t]|, env, prev).value; v in env' && env'[v] == env[v] {
      forall j | 0 <= j < |d.heads[t]| ensures d.heads[t][j].dst != Some(v) {
        HeadHome(d, t, j);
      }
      HeadsKeep(d.heads[t], |d.heads[t]|, env, prev, v);
    }
  }

  lemma HeadHome(d: Draft, t: Label, j: nat)
    requires Homes(d) && t < |d.heads| && j < |d.heads[t]|
    ensures AtHome(d, d.heads[t][j].dst, PhiAt(t, |d.heads[t]| - 1 - j))
  {
  }

  // ---- Steps at a place ----

  /** A pure operation is computed, or the run crashes. */
  lemma ComputeStep(w: World, d: Draft, actuals: seq<Int64>, n: nat, k: Config, p: Point, v: VReg, op: Op) returns (k': Config)
    requires Finished(d, actuals) && Reach(w, d, actuals, n, k) && AtPoint(k, p) && Computes(d, p, v, op) && op.IsPure()
    ensures match Eval(op, k.env, k.snap, k.prev)
            case None => Crashes(w, d, actuals)
            case Some(x) =>
              && k' == k.(at := k.at + 1, env := k.env[v := x]) && Reach(w, d, actuals, n, k') && AtPoint(k', Next(p))
              && Preserved(d, p, k.env, k'.env)
  {
    var inst := Inst(Some(v), op);
    ExecStep(w, d, actuals, n, k, p, inst);
    hide Reach, Crashes, PlayRun, Good;
    if Eval(op, k.env, k.snap, k.prev).Some? {
      var x := Eval(op, k.env, k.snap, k.prev).value;
      k' := k.(at := k.at + 1, env := k.env[v := x]);
      DefinesNew(d, p, v, op, k.env, x);
    } else {
      k' := k;
    }
  }

  function Onward(op: Op, env: Env): Label
    requires op.Jump? || (op.Branch? && op.cond in env)
  {
    if op.Jump? then op.target else if env[op.cond] != 0 then op.trueBb else op.falseBb
  }

  lemma GotoState(w: World, d: Draft, actuals: seq<Int64>, n: nat, k: Config, p: Point, op: Op)
    requires Finished(d, actuals) && Reach(w, d, actuals, n, k) && AtPoint(k, p) && Ends(d, p, op)
    requires op.Jump? || (op.Branch? && op.cond in k.env)
    ensures var r := PlayRun(w, d, actuals, n + 1);
            r.state == Running(Onward(op, k.env), Some(k.block), k.env, k.trace) && r.store == k.store
  {
    NextState(w, d, actuals, n, k);
    hide Finished, PlayRun, Reach;
  }

  /** At the beginning of a block, behind its PHIs. */
  lemma EnterStep(w: World, d: Draft, actuals: seq<Int64>, n: nat) returns (k: Config)
    requires Finished(d, actuals)
    requires var s := PlayRun(w, d, actuals, n).state; s.Running? && s.block < |d.heads|
    ensures var r := PlayRun(w, d, actuals, n);
            k == Config(r.state.block, 0, k.env, r.state.env, r.state.prev, r.state.trace, r.store) && Reach(w, d, actuals, n, k)
    ensures forall q: Point :: q.blocks <= k.block ==> Preserved(d, q, k.snap, k.env)
  {
    var r := PlayRun(w, d, actuals, n);
    EnteredRight(w, d, actuals, n);
    var heads := d.heads[r.state.block];
    k := Config(r.state.block, 0, PlayHeads(heads, |heads|, r.state.env, r.state.prev).value, r.state.env, r.state.prev, r.state.trace, r.store);
    hide PlayRun, PlayHeads, PlayActs, Good, BuilderRuns.Complete, Preserved;
    forall q: Point | q.blocks <= k.block ensures Preserved(d, q, k.snap, k.env) {
      EntryPreserves(d, q, k.block, k.snap, k.prev);
    }
  }

  /** A block is left by a jump or branch to a block that came later. */
  lemma GotoStep(w: World, d: Draft, actuals: seq<Int64>, n: nat, k: Config, p: Point, op: Op) returns (k': Config)
    requires Finished(d, actuals) && Reach(w, d, actuals, n, k) && AtPoint(k, p) && Ends(d, p, op)
    requires op.Jump? || (op.Branch? && op.cond in k.env)
    ensures k' == Config(Onward(op, k.env), 0, k'.env, k.env, Some(k.block), k.trace, k.store) && Reach(w, d, actuals, n + 1, k')
    ensures forall q: Point :: q.blocks <= Onward(op, k.env) ==> Preserved(d, q, k.env, k'.env)
  {
    hide PlayRun, Good, BuilderRuns.Complete, Preserved, Reach, Ends;
    GotoState(w, d, actuals, n, k, p, op);
    TargetExists(d, p, op, Onward(op, k.env));
    k' := EnterStep(w, d, actuals, n + 1);
  }

  lemma TargetExists(d: Draft, p: Point, op: Op, t: Label)
    requires BuilderRuns.Complete(d) && Sizes(d) && Ends(d, p, op)
    requires (op.Jump? && t == op.target) || (op.Branch? && (t == op.trueBb || t == op.falseBb))
    ensures t < |d.heads|
  {
    assert RealPreds(d);
    assert JumpsKnown(d, p.block, op);
  }

  /** A block that is entered finds the operands of its PHIs. */
  lemma EnteredRight(w: World, d: Draft, actuals: seq<Int64>, n: nat)
    requires Finished(d, actuals)
    ensures var s := PlayRun(w, d, actuals, n).state;
            s.Running? && s.block < |d.heads| ==> PlayHeads(d.heads[s.block], |d.heads[s.block]|, s.env, s.prev).Some?
  {
    hide Good, BuilderRuns.Complete, StepPlay, Going, Run;
    ReadsAreRight(w, d, actuals, n + 1);
    assert PlayRun(w, d, actuals, n + 1) == StepPlay(w, d, PlayRun(w, d, actuals, n));
    var s := PlayRun(w, d, actuals, n).state;
    if s.Running? && s.block < |d.heads| {
      StepNeedsHeads(w, d, PlayRun(w, d, actuals, n));
    }
  }

  lemma StepNeedsHeads(w: World, d: Draft, r: PRun)
    requires |d.heads| == |d.script| && OnlyPhis(d) && StepPlay(w, d, r).right && r.state.Running? && r.state.block < |d.heads|
    ensures PlayHeads(d.heads[r.state.block], |d.heads[r.state.block]|, r.state.env, r.state.prev).Some?
  {
    hide PlayHeads, PlayActs;
  }

  // ---- Expressions ----

  /** The evaluation came to `val` and the run went on from `k` to `k'`, behind the code `c`. */
  ghost predicate After(w: World, d: Draft, actuals: seq<Int64>, n: nat, k: Config, c: Code, val: Value, n': nat, k': Config)
    requires Finished(d, actuals)
  {
    match val
    case Fails => Crashes(w, d, actuals)
    case Gives(x, t) =>
      && n <= n' && Reach(w, d, actuals, n', k') && AtPoint(k', To(c)) && k'.store == k.store && k'.trace == t
      && c.reg in k'.env && k'.env[c.reg] == x && Preserved(d, LoweredCode.From(c), k.env, k'.env)
  }

  ghost predicate Poised(w: World, d: Draft, actuals: seq<Int64>, n: nat, k: Config, c: Code)
    requires Finished(d, actuals)
  {
    Reach(w, d, actuals, n, k) && AtPoint(k, LoweredCode.From(c))
  }

  lemma {:induction false} SimExpr(w: World, d: Draft, actuals: seq<Int64>, n: nat, k: Config, e: Expr, c: Code) returns (n': nat, k': Config)
    requires Finished(d, actuals) && CodeOk(d, e, c) && Poised(w, d, actuals, n, k, c)
    ensures After(w, d, actuals, n, k, c, EvalE(w, e, k.store, k.trace), n', k')
    decreases e, 2
  {
    hide Good, BuilderRuns.Complete, Reach, Crashes, Preserved, Held;
    n', k' := n, k;
    match e {
      case IntLit(x) =>
        k' := ComputeStep(w, d, actuals, n, k, c.at, c.reg, Const(x));
      case Ident(x) =>
        ReadStep(w, d, actuals, n, k, c.at, x, c.reg);
        k' := k.(at := k.at + 1);
        PreservedSame(d, c.at, k.env);
      case Unary(uop, a) =>
        n', k' := SimUnary(w, d, actuals, n, k, e, c);
      case Binary(op, l, r) =>
        n', k' := SimBinary(w, d, actuals, n, k, e, c);
      case Compared(cmp, l, r) =>
        n', k' := SimCmp(w, d, actuals, n, k, e, c);
      case CallTo(func, args) =>
        n', k' := SimCall(w, d, actuals, n, k, e, c);
      case AndAlso(l, r) =>
        n', k' := SimAnd(w, d, actuals, n, k, e, c);
      case OrElse(l, r) =>
        n', k' := SimOr(w, d, actuals, n, k, e, c);
    }
  }

  lemma SimUnary(w: World, d: Draft, actuals: seq<Int64>, n: nat, k: Config, e: Expr, c: Code) returns (n': nat, k': Config)
    requires e.Unary? && Finished(d, actuals) && CodeOk(d, e, c) && Poised(w, d, actuals, n, k, c)
    ensures After(w, d, actuals, n, k, c, EvalE(w, e, k.store, k.trace), n', k')
    decreases e, 1
  {
    hide Good, BuilderRuns.Complete, Reach, Crashes, Preserved, Held, Finished;
    n', k' := SimExpr(w, d, actuals, n, k, e.operand, c.arg);
    if EvalE(w, e.operand, k.store, k.trace).Gives? {
      CodeLater(d, e.operand, c.arg);
      ghost var k1 := k';
      k' := ComputeStep(w, d, actuals, n', k1, c.at, c.reg, Unop(e.uop, c.arg.reg));
      PreservedTrans(d, LoweredCode.From(c), c.at, k.env, k1.env, k'.env);
    }
  }

  /** Two operands one after the other. */
  ghost predicate BothAfter(w: World, d: Draft, actuals: seq<Int64>, n: nat, k: Config, l: Expr, r: Expr, c: Code, n': nat, k': Config)
    requires Finished(d, actuals) && c.Two?
  {
    match EvalE(w, l, k.store, k.trace)
    case Fails => Crashes(w, d, actuals)
    case Gives(x, t) =>
      match EvalE(w, r, k.store, t)
      case Fails => Crashes(w, d, actuals)
      case Gives(y, t') =>
        && n <= n' && Reach(w, d, actuals, n', k') && AtPoint(k', c.at) && k'.store == k.store && k'.trace == t'
        && c.left.reg in k'.env && k'.env[c.left.reg] == x && c.right.reg in k'.env && k'.env[c.right.reg] == y
        && Preserved(d, LoweredCode.From(c), k.env, k'.env) && Later(LoweredCode.From(c), c.at)
  }

  lemma SimPair(w: World, d: Draft, actuals: seq<Int64>, n: nat, k: Config, e: Expr, c: Code) returns (n': nat, k': Config)
    requires (e.Binary? || e.Compared?) && c.Two? && Finished(d, actuals) && Poised(w, d, actuals, n, k, c)
    requires CodeOk(d, e.left, c.left) && CodeOk(d, e.right, c.right) && PairOk(c)
    ensures BothAfter(w, d, actuals, n, k, e.left, e.right, c, n', k')
    decreases e, 0
  {
    hide Good, BuilderRuns.Complete, Reach, Crashes, Finished;
    var l, r := e.left, e.right;
    n', k' := SimExpr(w, d, actuals, n, k, l, c.left);
    if EvalE(w, l, k.store, k.trace).Gives? {
      CodeLater(d, l, c.left);
      CodeLater(d, r, c.right);
      LaterTrans(LoweredCode.From(c), To(c.left), c.at);
      assert Held(d, c.left.reg, To(c.left));
      hide CodeOk, Held, Later;
      var n1, k1 := n', k';
      n', k' := SimExpr(w, d, actuals, n1, k1, r, c.right);
      if EvalE(w, r, k1.store, k1.trace).Gives? {
        PreservedTrans(d, LoweredCode.From(c), To(c.left), k.env, k1.env, k'.env);
      }
    }
  }

  lemma SimBinary(w: World, d: Draft, actuals: seq<Int64>, n: nat, k: Config, e: Expr, c: Code) returns (n': nat, k': Config)
    requires e.Binary? && Finished(d, actuals) && CodeOk(d, e, c) && Poised(w, d, actuals, n, k, c)
    ensures After(w, d, actuals, n, k, c, EvalE(w, e, k.store, k.trace), n', k')
    decreases e, 1
  {
    hide Good, BuilderRuns.Complete, Reach, Crashes, Preserved, Held, Finished, Later;
    n', k' := SimPair(w, d, actuals, n, k, e, c);
    if EvalE(w, e.left, k.store, k.trace).Gives? && EvalE(w, e.right, k.store, EvalE(w, e.left, k.store, k.trace).trace).Gives? {
      var k1 := k';
      k' := ComputeStep(w, d, actuals, n', k1, c.at, c.reg, Binop(e.op, c.left.reg, c.right.reg));
      if EvalE(w, e, k.store, k.trace).Gives? {
        PreservedTrans(d, LoweredCode.From(c), c.at, k.env, k1.env, k'.env);
      }
    }
  }

  lemma SimCmp(w: World, d: Draft, actuals: seq<Int64>, n: nat, k: Config, e: Expr, c: Code) returns (n': nat, k': Config)
    requires e.Compared? && Finished(d, actuals) && CodeOk(d, e, c) && Poised(w, d, actuals, n, k, c)
    ensures After(w, d, actuals, n, k, c, EvalE(w, e, k.store, k.trace), n', k')
    decreases e, 1
  {
    hide Good, BuilderRuns.Complete, Reach, Crashes, Preserved, Held, Finished, Later;
    n', k' := SimPair(w, d, actuals, n, k, e, c);
    if EvalE(w, e.left, k.store, k.trace).Gives? && EvalE(w, e.right, k.store, EvalE(w, e.left, k.store, k.trace).trace).Gives? {
      var k1 := k';
      k' := ComputeStep(w, d, actuals, n', k1, c.at, c.reg, Cmp(e.cmp, c.left.reg, c.right.reg));
      PreservedTrans(d, LoweredCode.From(c), c.at, k.env, k1.env, k'.env);
    }
  }

  /** Arguments from left to right; all their registers hold at the end. */
  ghost predicate ArgsAfter(w: World, d: Draft, actuals: seq<Int64>, n: nat, k: Config, cs: seq<Code>, start: Point, val: ArgValues, n': nat, k': Config)
    requires Finished(d, actuals)
  {
    match val
    case NoValues => Crashes(w, d, actuals)
    case Gave(xs, t) =>
      && n <= n' && Reach(w, d, actuals, n', k') && AtPoint(k', EndOf(cs, start)) && k'.store == k.store && k'.trace == t
      && |xs| == |cs| && (forall i :: 0 <= i < |cs| ==> Arrived(d, k'.env, cs[i].reg, xs[i], EndOf(cs, start)))
      && Preserved(d, start, k.env, k'.env)
  }

  ghost predicate Arrived(d: Draft, env: Env, v: VReg, x: Int64, p: Point) {
    v in env && env[v] == x && Held(d, v, p)
  }

  lemma SimArgs(w: World, d: Draft, actuals: seq<Int64>, n: nat, k: Config, args: seq<Expr>, cs: seq<Code>, start: Point) returns (n': nat, k': Config)
    requires Finished(d, actuals) && ArgsOk(d, args, cs, start) && start.block < start.blocks && Reach(w, d, actuals, n, k) && AtPoint(k, start)
    ensures ArgsAfter(w, d, actuals, n, k, cs, start, EvalArgs(w, args, k.store, k.trace), n', k')
    decreases args
  {
    hide Good, BuilderRuns.Complete, Reach, Crashes, Preserved, Finished, Held, Later;
    n', k' := n, k;
    if args == [] {
      PreservedSame(d, start, k.env);
    } else {
      var m := |args| - 1;
      n', k' := SimArgs(w, d, actuals, n, k, args[..m], cs[..m], start);
      if EvalArgs(w, args[..m], k.store, k.trace).Gave? {
        var n1, k1 := n', k';
        n', k' := SimExpr(w, d, actuals, n1, k1, args[m], cs[m]);
        if EvalE(w, args[m], k1.store, k1.trace).Gives? {
          ArgsLater(d, args[..m], cs[..m], start);
          CodeLater(d, args[m], cs[m]);
          PreservedTrans(d, start, EndOf(cs[..m], start), k.env, k1.env, k'.env);
          OneArgMore(d, k1.env, k'.env, cs, EvalArgs(w, args[..m], k.store, k.trace).xs, k'.env[cs[m].reg], EndOf(cs[..m], start), To(cs[m]));
        }
      }
    }
  }

  lemma OneArgMore(d: Draft, env: Env, env': Env, cs: seq<Code>, xs: seq<Int64>, x: Int64, p: Point, q: Point)
    requires |cs| == |xs| + 1 && (forall i :: 0 <= i < |xs| ==> Arrived(d, env, cs[..|xs|][i].reg, xs[i], p))
    requires Preserved(d, p, env, env') && Later(p, q) && Arrived(d, env', cs[|xs|].reg, x, q)
    ensures forall i :: 0 <= i < |cs| ==> Arrived(d, env', cs[i].reg, (xs + [x])[i], q)
  {
    forall i | 0 <= i < |cs| ensures Arrived(d, env', cs[i].reg, (xs + [x])[i], q) {
      if i < |xs| {
        assert Arrived(d, env, cs[..|xs|][i].reg, xs[i], p);
        HeldLater(d, cs[i].reg, p, q);
      }
    }
  }

  lemma SimCall(w: World, d: Draft, actuals: seq<Int64>, n: nat, k: Config, e: Expr, c: Code) returns (n': nat, k': Config)
    requires e.CallTo? && Finished(d, actuals) && CodeOk(d, e, c) && Poised(w, d, actuals, n, k, c)
    ensures After(w, d, actuals, n, k, c, EvalE(w, e, k.store, k.trace), n', k')
    decreases e, 1
  {
    hide Good, BuilderRuns.Complete, Reach, Crashes, Preserved, Held, Finished, Later, ArgsOk;
    n', k' := SimArgs(w, d, actuals, n, k, e.args, c.args, c.start);
    if EvalArgs(w, e.args, k.store, k.trace).Gave? {
      var k1 := k';
      var r := EvalArgs(w, e.args, k.store, k.trace);
      CallStep(w, d, actuals, n', k1, c.at, c.reg, e.func, c.args, r.xs);
      var t := k1.trace + [Called(e.func, r.xs)];
      k' := k1.(at := k1.at + 1, env := k1.env[c.reg := w(t)], trace := t);
      ArgsLater(d, e.args, c.args, c.start);
      PreservedTrans(d, c.start, c.at, k.env, k1.env, k'.env);
    }
  }

  lemma CallStep(w: World, d: Draft, actuals: seq<Int64>, n: nat, k: Config, p: Point, v: VReg, func: string, cs: seq<Code>, xs: seq<Int64>)
    requires Finished(d, actuals) && Reach(w, d, actuals, n, k) && AtPoint(k, p) && Computes(d, p, v, Call(func, Regs(cs)))
    requires |xs| == |cs| && forall i :: 0 <= i < |cs| ==> cs[i].reg in k.env && k.env[cs[i].reg] == xs[i]
    ensures var t := k.trace + [Called(func, xs)]; var k' := k.(at := k.at + 1, env := k.env[v := w(t)], trace := t);
            Reach(w, d, actuals, n, k') && Preserved(d, p, k.env, k'.env)
  {
    var op := Call(func, Regs(cs));
    assert AllIn(op.actuals, k.env) && Ssa.Values(op.actuals, k.env) == xs;
    ExecStep(w, d, actuals, n, k, p, Inst(Some(v), op));
    hide Reach, Good, Regs;
    DefinesNew(d, p, v, op, k.env, w(k.trace + [Called(func, xs)]));
  }

  // ---- Short-circuit operators ----

  /** From the end of either way to the PHI that picks the result. */
  lemma SimMeet(w: World, d: Draft, actuals: seq<Int64>, n: nat, k: Config, at: Point, c: Code, phi: Op, s: VReg) returns (k': Config)
    requires Finished(d, actuals) && Reach(w, d, actuals, n, k) && AtPoint(k, at) && Ends(d, at, Jump(c.at.block)) && c.at.at == 0
    requires Computes(d, c.at, c.reg, phi) && phi.Phi? && PhiSource(phi.args, at.block) == Some(s) && s in k.env
    ensures Reach(w, d, actuals, n + 1, k') && AtPoint(k', To(c)) && k'.store == k.store && k'.trace == k.trace
    ensures c.reg in k'.env && k'.env[c.reg] == k.env[s]
    ensures forall q: Point :: q.blocks <= c.at.block && Later(q, c.at) ==> Preserved(d, q, k.env, k'.env)
  {
    hide Good, BuilderRuns.Complete, Reach, Crashes, Preserved, Finished, Ends, Computes, Later;
    var k1 := GotoStep(w, d, actuals, n, k, at, Jump(c.at.block));
    k' := ComputeStep(w, d, actuals, n + 1, k1, c.at, c.reg, phi);
    forall q: Point | q.blocks <= c.at.block && Later(q, c.at) ensures Preserved(d, q, k.env, k'.env) {
      PreservedTrans(d, q, c.at, k.env, k1.env, k'.env);
    }
  }

  /** The second operand is evaluated. */
  lemma SimRest(w: World, d: Draft, actuals: seq<Int64>, n: nat, k: Config, r: Expr, c: Code, phi: Op) returns (n': nat, k': Config)
    requires c.Fork? && Finished(d, actuals) && CodeOk(d, r, c.rest) && ForkOk(d, c) && Poised(w, d, actuals, n, k, c.rest)
    requires Computes(d, c.at, c.reg, phi) && phi.Phi? && PhiSource(phi.args, To(c.cond).blocks) == Some(c.rest.reg)
    ensures match EvalE(w, r, k.store, k.trace)
            case Fails => Crashes(w, d, actuals)
            case Gives(y, t) =>
              && n <= n' && Reach(w, d, actuals, n', k') && AtPoint(k', To(c)) && k'.store == k.store && k'.trace == t
              && c.reg in k'.env && k'.env[c.reg] == y
              && (forall q: Point :: q.block < q.blocks <= To(c.cond).blocks ==> Preserved(d, q, k.env, k'.env))
    decreases r, 3
  {
    hide Good, BuilderRuns.Complete, Reach, Crashes, Preserved, Finished, Ends, Computes, Held;
    n', k' := SimExpr(w, d, actuals, n, k, r, c.rest);
    if EvalE(w, r, k.store, k.trace).Gives? {
      var n1, k1 := n', k';
      k' := SimMeet(w, d, actuals, n1, k1, To(c.rest), c, phi, c.rest.reg);
      n' := n1 + 1;
      forall q: Point | q.block < q.blocks <= To(c.cond).blocks ensures Preserved(d, q, k.env, k'.env) {
        HeldBefore(d, q, LoweredCode.From(c.rest), k.env, k1.env);
        PreservedTrans(d, q, q, k.env, k1.env, k'.env);
      }
    }
  }

  /** What is preserved from a later point on is preserved from an earlier one. */
  lemma HeldBefore(d: Draft, q: Point, p: Point, env: Env, env': Env)
    requires Preserved(d, p, env, env') && Later(q, p)
    ensures Preserved(d, q, env, env')
  {
    forall v | Held(d, v, q) && v in env ensures v in env' && env'[v] == env[v] {
      HeldLater(d, v, q, p);
    }
  }

  /** The second operand is skipped. */
  lemma SimSkip(w: World, d: Draft, actuals: seq<Int64>, n: nat, k: Config, c: Code, phi: Op, x: Int64) returns (k': Config)
    requires c.Fork? && Finished(d, actuals) && ForkOk(d, c) && Reach(w, d, actuals, n, k) && phi.Phi? && Computes(d, c.at, c.reg, phi)
    requires var b := To(c.cond).blocks;
             && AtPoint(k, Point(b + 2, 0, b + 3)) && Computes(d, Point(b + 2, 0, b + 3), c.other, Const(x))
             && PhiSource(phi.args, b + 2) == Some(c.other)
    ensures Reach(w, d, actuals, n + 1, k') && AtPoint(k', To(c)) && k'.store == k.store && k'.trace == k.trace
    ensures c.reg in k'.env && k'.env[c.reg] == x
    ensures forall q: Point :: q.block < q.blocks <= To(c.cond).blocks ==> Preserved(d, q, k.env, k'.env)
  {
    hide Good, BuilderRuns.Complete, Reach, Crashes, Preserved, Finished, Ends, Computes, Held;
    var b := To(c.cond).blocks;
    var p := Point(b + 2, 0, b + 3);
    var k1 := ComputeStep(w, d, actuals, n, k, p, c.other, Const(x));
    k' := SimMeet(w, d, actuals, n, k1, Next(p), c, phi, c.other);
    forall q: Point | q.block < q.blocks <= b ensures Preserved(d, q, k.env, k'.env) {
      HeldBefore(d, q, p, k.env, k1.env);
      PreservedTrans(d, q, q, k.env, k1.env, k'.env);
    }
  }

  lemma SimAnd(w: World, d: Draft, actuals: seq<Int64>, n: nat, k: Config, e: Expr, c: Code) returns (n': nat, k': Config)
    requires e.AndAlso? && Finished(d, actuals) && CodeOk(d, e, c) && Poised(w, d, actuals, n, k, c)
    ensures After(w, d, actuals, n, k, c, EvalE(w, e, k.store, k.trace), n', k')
    decreases e, 1
  {
    hide Good, BuilderRuns.Complete, Reach, Crashes, Preserved, Held, Finished, Later, ForkOk, Ends;
    n', k' := SimExpr(w, d, actuals, n, k, e.left, c.cond);
    if EvalE(w, e.left, k.store, k.trace).Gives? {
      var m := To(c.cond);
      var b := m.blocks;
      var n1, k1 := n', k';
      CodeLater(d, e.left, c.cond);
      CondBlock(d, e.left, c.cond);
      ForkRest(d, c);
      var phi := Phi([PhiArg(c.rest.reg, b), PhiArg(c.other, b + 2)]);
      TwoSources(c.rest.reg, b, c.other, b + 2);
      var k2 := GotoStep(w, d, actuals, n1, k1, m, Branch(c.cond.reg, b, b + 2));
      n' := n1 + 2;
      if k1.env[c.cond.reg] != 0 {
        n', k' := SimRest(w, d, actuals, n1 + 1, k2, e.right, c, phi);
      } else {
        k' := SimSkip(w, d, actuals, n1 + 1, k2, c, phi, 0);
      }
      if EvalE(w, e, k.store, k.trace).Gives? {
        PreservedTrans(d, m, m, k1.env, k2.env, k'.env);
        PreservedTrans(d, LoweredCode.From(c), m, k.env, k1.env, k'.env);
      }
    }
  }

  lemma SimOr(w: World, d: Draft, actuals: seq<Int64>, n: nat, k: Config, e: Expr, c: Code) returns (n': nat, k': Config)
    requires e.OrElse? && Finished(d, actuals) && CodeOk(d, e, c) && Poised(w, d, actuals, n, k, c)
    ensures After(w, d, actuals, n, k, c, EvalE(w, e, k.store, k.trace), n', k')
    decreases e, 1
  {
    hide Good, BuilderRuns.Complete, Reach, Crashes, Preserved, Held, Finished, Later, ForkOk;
    n', k' := SimExpr(w, d, actuals, n, k, e.left, c.cond);
    if EvalE(w, e.left, k.store, k.trace).Gives? {
      var m := To(c.cond);
      var b := m.blocks;
      var n1, k1 := n', k';
      CodeLater(d, e.left, c.cond);
      CondBlock(d, e.left, c.cond);
      ForkRest(d, c);
      var phi := Phi([PhiArg(c.other, b + 2), PhiArg(c.rest.reg, b)]);
      TwoSources(c.other, b + 2, c.rest.reg, b);
      var k2 := GotoStep(w, d, actuals, n1, k1, m, Branch(c.cond.reg, b + 2, b));
      n' := n1 + 2;
      if k1.env[c.cond.reg] != 0 {
        k' := SimSkip(w, d, actuals, n1 + 1, k2, c, phi, 1);
      } else {
        n', k' := SimRest(w, d, actuals, n1 + 1, k2, e.right, c, phi);
      }
      if EvalE(w, e, k.store, k.trace).Gives? {
        PreservedTrans(d, m, m, k1.env, k2.env, k'.env);
        PreservedTrans(d, LoweredCode.From(c), m, k.env, k1.env, k'.env);
      }
    }
  }

  lemma TwoSources(u: VReg, p: Label, v: VReg, q: Label)
    requires p != q
    ensures PhiSource([PhiArg(u, p), PhiArg(v, q)], p) == Some(u) && PhiSource([PhiArg(u, p), PhiArg(v, q)], q) == Some(v)
  {
    assert [PhiArg(u, p), PhiArg(v, q)][1..] == [PhiArg(v, q)];
  }

  lemma ForkRest(d: Draft, c: Code)
    requires c.Fork? && ForkOk(d, c)
    ensures LoweredCode.From(c.rest) == Point(To(c.cond).blocks, 0, To(c.cond).blocks + 3)
  {
  }

  lemma CondBlock(d: Draft, e: Expr, c: Code)
    requires CodeOk(d, e, c)
    ensures To(c).block < To(c).blocks && Later(To(c), To(c))
  {
    CodeLater(d, e, c);
  }

  // ---- Statements ----

  /** The statements came to `out`: the run crashes, is still going after `fuel` blocks, or went
      on to `to` with the same store and events. */
  ghost predicate Did(w: World, d: Draft, actuals: seq<Int64>, n: nat, to: Point, out: Outcome, fuel: nat, n': nat, k': Config)
    requires Finished(d, actuals)
  {
    match out
    case Broken => Crashes(w, d, actuals)
    case Hungry => n' >= n + fuel && PlayRun(w, d, actuals, n').state.Running?
    case Normal(store, trace) => n <= n' && Reach(w, d, actuals, n', k') && AtPoint(k', to) && k'.store == store && k'.trace == trace
  }

  lemma SimSimple(w: World, d: Draft, actuals: seq<Int64>, n: nat, k: Config, s: Simple, p: Part, fuel: nat) returns (n': nat, k': Config)
    requires Finished(d, actuals) && PartOk(d, s, p) && Poised(w, d, actuals, n, k, p.code)
    ensures Did(w, d, actuals, n, p.to, ExecSimple(w, s, k.store, k.trace), fuel, n', k')
    ensures !ExecSimple(w, s, k.store, k.trace).Hungry?
  {
    hide Good, BuilderRuns.Complete, Reach, Crashes, Finished, CodeOk, PlayRun;
    n', k' := SimExpr(w, d, actuals, n, k, ExprOf(s), p.code);
    if EvalE(w, ExprOf(s), k.store, k.trace).Gives? {
      var m, k1 := To(p.code), k';
      match s {
        case Let(x, _) =>
          WriteStep(w, d, actuals, n', k1, m, x, p.code.reg);
          k' := k1.(at := k1.at + 1, store := k1.store[x := k1.env[p.code.reg]]);
        case Assign(x, _) =>
          WriteStep(w, d, actuals, n', k1, m, x, p.code.reg);
          k' := k1.(at := k1.at + 1, store := k1.store[x := k1.env[p.code.reg]]);
        case Compound(op, x, _) =>
          k' := SimUpdate(w, d, actuals, n', k1, op, x, p, m);
        case Do(_) =>
        case PrintOf(_) =>
          ExecStep(w, d, actuals, n', k1, m, Inst(None, Print(p.code.reg)));
          k' := k1.(at := k1.at + 1, trace := k1.trace + [Printed(k1.env[p.code.reg])]);
      }
    }
  }

  /** The operator a compound assignment is built with computes what the assignment means. */
  lemma OperatorMeans(op: AssignOp, x: Int64, y: Int64)
    ensures EvalBinop(OpOf(op), x, y) == NewValue(op, x, y)
  {
  }

  /** Compound assignment, behind the code of its right-hand side. */
  lemma SimUpdate(w: World, d: Draft, actuals: seq<Int64>, n: nat, k: Config, op: AssignOp, x: Name, p: Part, m: Point) returns (k': Config)
    requires Finished(d, actuals) && Reach(w, d, actuals, n, k) && AtPoint(k, m) && p.code.reg in k.env
    requires ActAt(d, m, Read(x, p.target)) && Computes(d, Next(m), p.result, Binop(OpOf(op), p.target, p.code.reg))
    requires ActAt(d, Next(Next(m)), Wrote(x, p.result))
    ensures x in k.store
    ensures match NewValue(op, k.store[x], k.env[p.code.reg])
            case None => Crashes(w, d, actuals)
            case Some(z) => Reach(w, d, actuals, n, k') && AtPoint(k', Next(Next(Next(m)))) && k'.store == k.store[x := z] && k'.trace == k.trace
  {
    hide Good, BuilderRuns.Complete, Reach, Crashes, Finished, PlayRun, EvalBinop;
    ReadStep(w, d, actuals, n, k, m, x, p.target);
    var k1 := k.(at := k.at + 1);
    k' := ComputeStep(w, d, actuals, n, k1, Next(m), p.result, Binop(OpOf(op), p.target, p.code.reg));
    OperatorMeans(op, k.store[x], k.env[p.code.reg]);
    if EvalBinop(OpOf(op), k.store[x], k.env[p.code.reg]).Some? {
      var k2 := k';
      WriteStep(w, d, actuals, n, k2, Next(Next(m)), x, p.result);
      k' := k2.(at := k2.at + 1, store := k2.store[x := k2.env[p.result]]);
    }
  }

  lemma SimAll(w: World, d: Draft, actuals: seq<Int64>, n: nat, k: Config, ss: seq<Simple>, ps: seq<Part>, start: Point, fuel: nat)
    returns (n': nat, k': Config)
    requires Finished(d, actuals) && PartsOk(d, ss, ps, start) && Reach(w, d, actuals, n, k) && AtPoint(k, start)
    ensures Did(w, d, actuals, n, PartsEnd(ps, start), ExecAll(w, ss, k.store, k.trace), fuel, n', k')
    ensures !ExecAll(w, ss, k.store, k.trace).Hungry?
    decreases |ss|
  {
    hide Good, BuilderRuns.Complete, Reach, Crashes, Finished, PartOk, PlayRun, ExecSimple;
    n', k' := n, k;
    if ss != [] {
      var m := |ss| - 1;
      n', k' := SimAll(w, d, actuals, n, k, ss[..m], ps[..m], start, fuel);
      if ExecAll(w, ss[..m], k.store, k.trace).Normal? {
        n', k' := SimSimple(w, d, actuals, n', k', ss[m], ps[m], fuel);
      }
    }
  }

  /** A body from its block's beginning to the block it jumps to. */
  lemma SimBody(w: World, d: Draft, actuals: seq<Int64>, n: nat, k: Config, ss: seq<Simple>, ps: seq<Part>, b: Label, blocks: nat, t: Label, fuel: nat)
    returns (n': nat, k': Config)
    requires Finished(d, actuals) && BodyOk(d, ss, ps, b, blocks, t) && Reach(w, d, actuals, n, k) && AtPoint(k, Point(b, 0, blocks))
    ensures Did(w, d, actuals, n, Point(t, 0, blocks), ExecAll(w, ss, k.store, k.trace), fuel, n', k')
    ensures !ExecAll(w, ss, k.store, k.trace).Hungry?
    ensures ExecAll(w, ss, k.store, k.trace).Normal? ==> n' > n
  {
    hide Good, BuilderRuns.Complete, Reach, Crashes, Finished, PartsOk, PlayRun, ExecAll;
    n', k' := SimAll(w, d, actuals, n, k, ss, ps, Point(b, 0, blocks), fuel);
    if ExecAll(w, ss, k.store, k.trace).Normal? {
      k' := GotoStep(w, d, actuals, n', k', PartsEnd(ps, Point(b, 0, blocks)), Jump(t));
      n' := n' + 1;
    }
  }

  lemma ReachRuns(w: World, d: Draft, actuals: seq<Int64>, n: nat, k: Config)
    requires Finished(d, actuals) && Reach(w, d, actuals, n, k)
    ensures PlayRun(w, d, actuals, n).state.Running?
  {
  }

  /** From the header of a loop to the block behind it. */
  lemma SimLoop(w: World, d: Draft, actuals: seq<Int64>, n: nat, k: Config, c: Expr, body: seq<Simple>, f: Flow, fuel: nat)
    returns (n': nat, k': Config)
    requires Finished(d, actuals) && WhileOk(d, c, body, f) && Reach(w, d, actuals, n, k) && AtPoint(k, Point(f.start.blocks, 0, f.start.blocks + 3))
    ensures Did(w, d, actuals, n, FlowTo(f), ExecLoop(w, c, body, k.store, k.trace, fuel), fuel, n', k')
    decreases fuel
  {
    hide Good, BuilderRuns.Complete, Reach, Crashes, Finished, PlayRun, ExecAll, EvalE, CodeOk, BodyOk, Preserved;
    n', k' := n, k;
    if fuel == 0 {
      ReachRuns(w, d, actuals, n, k);
    } else {
      var h := f.start.blocks;
      n', k' := SimExpr(w, d, actuals, n, k, c, f.cond);
      if EvalE(w, c, k.store, k.trace).Gives? {
        var n1, k1 := n', k';
        var k2 := GotoStep(w, d, actuals, n1, k1, To(f.cond), Branch(f.cond.reg, h + 1, h + 2));
        n', k' := n1 + 1, k2;
        if k1.env[f.cond.reg] != 0 {
          n', k' := SimBody(w, d, actuals, n1 + 1, k2, body, f.body, h + 1, h + 3, h, fuel);
          if ExecAll(w, body, k2.store, k2.trace).Normal? {
            var n3, k3 := n', k';
            n', k' := SimLoop(w, d, actuals, n3, k3, c, body, f, fuel - 1);
          }
        }
      }
    }
  }

  lemma SimIf(w: World, d: Draft, actuals: seq<Int64>, n: nat, k: Config, c: Expr, thens: seq<Simple>, f: Flow, fuel: nat) returns (n': nat, k': Config)
    requires Finished(d, actuals) && IfOk(d, c, thens, f) && Poised(w, d, actuals, n, k, f.cond)
    ensures Did(w, d, actuals, n, FlowTo(f), ExecStmt(w, If(c, thens, None), k.store, k.trace, fuel), fuel, n', k')
  {
    hide Good, BuilderRuns.Complete, Reach, Crashes, Finished, PlayRun, ExecAll, EvalE, CodeOk, BodyOk, Preserved;
    n', k' := SimExpr(w, d, actuals, n, k, c, f.cond);
    if EvalE(w, c, k.store, k.trace).Gives? {
      var n1, k1 := n', k';
      var m := To(f.cond);
      var k2 := GotoStep(w, d, actuals, n1, k1, m, Branch(f.cond.reg, m.blocks, m.blocks + 1));
      n', k' := n1 + 1, k2;
      if k1.env[f.cond.reg] != 0 {
        n', k' := SimBody(w, d, actuals, n1 + 1, k2, thens, f.thens, m.blocks, m.blocks + 2, m.blocks + 1, fuel);
      }
    }
  }

  lemma SimIfElse(w: World, d: Draft, actuals: seq<Int64>, n: nat, k: Config, c: Expr, thens: seq<Simple>, elses: seq<Simple>, f: Flow, fuel: nat)
    returns (n': nat, k': Config)
    requires Finished(d, actuals) && IfElseOk(d, c, thens, elses, f) && Poised(w, d, actuals, n, k, f.cond)
    ensures Did(w, d, actuals, n, FlowTo(f), ExecStmt(w, If(c, thens, Some(elses)), k.store, k.trace, fuel), fuel, n', k')
  {
    hide Good, BuilderRuns.Complete, Reach, Crashes, Finished, PlayRun, ExecAll, EvalE, CodeOk, BodyOk, Preserved;
    n', k' := SimExpr(w, d, actuals, n, k, c, f.cond);
    if EvalE(w, c, k.store, k.trace).Gives? {
      var n1, k1 := n', k';
      var m := To(f.cond);
      var k2 := GotoStep(w, d, actuals, n1, k1, m, Branch(f.cond.reg, m.blocks, m.blocks + 1));
      if k1.env[f.cond.reg] != 0 {
        n', k' := SimBody(w, d, actuals, n1 + 1, k2, thens, f.thens, m.blocks, m.blocks + 3, m.blocks + 2, fuel);
      } else {
        n', k' := SimBody(w, d, actuals, n1 + 1, k2, elses, f.elses.value, m.blocks + 1, m.blocks + 3, m.blocks + 2, fuel);
      }
    }
  }

  lemma SimStmt(w: World, d: Draft, actuals: seq<Int64>, n: nat, k: Config, s: Stmt, f: Flow, fuel: nat) returns (n': nat, k': Config)
    requires Finished(d, actuals) && FlowOk(d, s, f) && Reach(w, d, actuals, n, k) && AtPoint(k, FlowFrom(f))
    ensures Did(w, d, actuals, n, FlowTo(f), ExecStmt(w, s, k.store, k.trace, fuel), fuel, n', k')
  {
    hide Good, BuilderRuns.Complete, Reach, Crashes, Finished, PlayRun, ExecAll, EvalE, CodeOk, PartOk, BodyOk, ExecSimple, ExecLoop;
    if s.Plain? {
      n', k' := SimSimple(w, d, actuals, n, k, s.simple, f.part, fuel);
    } else if s.While? {
      var h := f.start.blocks;
      var k1 := GotoStep(w, d, actuals, n, k, f.start, Jump(h));
      n', k' := SimLoop(w, d, actuals, n + 1, k1, s.cond, s.body, f, fuel);
    } else if s.elses.None? {
      n', k' := SimIf(w, d, actuals, n, k, s.cond, s.thens, f, fuel);
    } else {
      n', k' := SimIfElse(w, d, actuals, n, k, s.cond, s.thens, s.elses.value, f, fuel);
    }
  }

  lemma SimStmts(w: World, d: Draft, actuals: seq<Int64>, n: nat, k: Config, ss: seq<Stmt>, fs: seq<Flow>, start: Point, fuel: nat)
    returns (n': nat, k': Config)
    requires Finished(d, actuals) && FlowsOk(d, ss, fs, start) && Reach(w, d, actuals, n, k) && AtPoint(k, start)
    ensures Did(w, d, actuals, n, FlowsEnd(fs, start), ExecStmts(w, ss, k.store, k.trace, fuel), fuel, n', k')
    decreases |ss|
  {
    hide Good, BuilderRuns.Complete, Reach, Crashes, Finished, FlowOk, PlayRun, ExecStmt;
    n', k' := n, k;
    if ss != [] {
      var m := |ss| - 1;
      n', k' := SimStmts(w, d, actuals, n, k, ss[..m], fs[..m], start, fuel);
      if ExecStmts(w, ss[..m], k.store, k.trace, fuel).Normal? {
        n', k' := SimStmt(w, d, actuals, n', k', ss[m], fs[m], fuel);
      }
    }
  }

  // ---- Whole functions ----

  /** The parameters' values, by either account. */
  lemma {:induction false} ParamStoreIs(params: seq<Name>, actuals: seq<Int64>, x: Name)
    requires |actuals| == |params|
    ensures x in ParamStore(params, actuals) <==> x in params
    ensures forall e: VReg :: ParamIs(params, x, e) ==> x in ParamStore(params, actuals) && ParamStore(params, actuals)[x] == actuals[e]
  {
    if params != [] {
      var n := |params| - 1;
      ParamStoreIs(params[..n], actuals[..n], x);
      forall e: VReg | ParamIs(params, x, e) ensures x in ParamStore(params, actuals) && ParamStore(params, actuals)[x] == actuals[e] {
        if e < n {
          assert ParamIs(params[..n], x, e) && params[n] != x;
        }
      }
      assert params == params[..n] + [params[n]];
    }
  }

  lemma {:induction false} SomeParam(params: seq<Name>, x: Name) returns (e: VReg)
    requires x in params
    ensures ParamIs(params, x, e)
  {
    var n := |params| - 1;
    if params[n] == x {
      e := n;
    } else {
      assert x in params[..n] by {
        var i :| 0 <= i < |params| && params[i] == x;
        assert params[..n][i] == x;
      }
      e := SomeParam(params[..n], x);
    }
  }

  lemma StoresAgree(d: Draft, actuals: seq<Int64>)
    requires |actuals| == |d.params|
    ensures StartStore(d, actuals) == ParamStore(d.params, actuals)
  {
    var s, t := StartStore(d, actuals), ParamStore(d.params, actuals);
    forall x ensures (x in s <==> x in t) && (x in s ==> s[x] == t[x]) {
      ParamStoreIs(d.params, actuals, x);
      if x in d.params {
        var e := SomeParam(d.params, x);
        assert x in s;
      }
    }
  }

  lemma HeadNotEntry(d: Draft, b: Label, k: nat)
    requires Good(d) && b < |d.heads| && k < |d.heads[b]|
    ensures b != 0
  {
    assert HeadOk(d, b, k);
  }

  /** The entry block has no PHIs. */
  lemma EntryHeads(d: Draft)
    requires Good(d)
    ensures d.heads[0] == []
  {
    assert Sizes(d);
    hide Good;
    if d.heads[0] != [] {
      HeadNotEntry(d, 0, 0);
    }
  }

  lemma StartReach(w: World, d: Draft, actuals: seq<Int64>) returns (k: Config)
    requires Finished(d, actuals)
    ensures Reach(w, d, actuals, 0, k) && AtPoint(k, Point(0, 0, 1)) && k.store == ParamStore(d.params, actuals) && k.trace == []
  {
    StoresAgree(d, actuals);
    EntryHeads(d);
    var s := Init(Built(d), actuals);
    k := Config(0, 0, s.env, s.env, None, [], StartStore(d, actuals));
    hide Good, BuilderRuns.Complete, PlayActs;
  }

  /** A return ends the run. */
  lemma RetStep(w: World, d: Draft, actuals: seq<Int64>, n: nat, k: Config, p: Point, r: Option<VReg>)
    requires Finished(d, actuals) && Reach(w, d, actuals, n, k) && AtPoint(k, p) && Ends(d, p, Ret(r)) && (r.Some? ==> r.value in k.env)
    ensures PlayRun(w, d, actuals, n + 1).state == State.Finished(if r.Some? then Some(k.env[r.value]) else None, k.trace)
  {
    NextState(w, d, actuals, n, k);
    hide Finished, PlayRun, Reach;
  }

  /** The function does what the tree does: it returns the same result with the same events,
      faults if the tree faults, and is still running while the tree is. */
  ghost predicate Agrees(w: World, fn: Fn, f: Func, actuals: seq<Int64>, fuel: nat)
    requires |actuals| == |fn.params|
  {
    match RunFn(w, fn, actuals, fuel)
    case Returned(x, t) => exists n: nat :: Run(w, f, actuals, n) == State.Finished(x, t)
    case Crashed => exists n: nat :: Run(w, f, actuals, n).Faulted?
    case Unfinished => exists n: nat :: n >= fuel && Run(w, f, actuals, n).Running?
  }

  lemma SameRun(w: World, d: Draft, actuals: seq<Int64>, n: nat)
    requires Finished(d, actuals)
    ensures PlayRun(w, d, actuals, n).state == Run(w, Built(d), actuals, n)
  {
    ReadsAreRight(w, d, actuals, n);
  }

  /** Building keeps the meaning, in every run. */
  lemma LoweringAgrees(w: World, fn: Fn, d: Draft, k: FnCode, f: Func, actuals: seq<Int64>, fuel: nat)
    requires LoweredTo(fn, d, k, f) && |actuals| == |fn.params|
    ensures Agrees(w, fn, f, actuals, fuel)
  {
    GoodPhis(d);
    assert Finished(d, actuals);
    var k0 := StartReach(w, d, actuals);
    hide Good, BuilderRuns.Complete, Finished, Reach, PlayRun, FlowsOk, CodeOk, ExecStmts, EvalE, Run;
    var n, k1 := SimStmts(w, d, actuals, 0, k0, fn.body, k.flows, Point(0, 0, 1), fuel);
    match ExecStmts(w, fn.body, k0.store, [], fuel) {
      case Broken => CrashSame(w, d, actuals);
      case Hungry => SameRun(w, d, actuals, n);
      case Normal(_, _) => TailAgrees(w, fn, d, k, f, actuals, fuel, n, k1);
    }
  }

  lemma CrashSame(w: World, d: Draft, actuals: seq<Int64>)
    requires Finished(d, actuals) && Crashes(w, d, actuals)
    ensures exists n: nat :: Run(w, Built(d), actuals, n).Faulted?
  {
    var n: nat :| PlayRun(w, d, actuals, n).state.Faulted?;
    SameRun(w, d, actuals, n);
  }

  lemma TailAgrees(w: World, fn: Fn, d: Draft, k: FnCode, f: Func, actuals: seq<Int64>, fuel: nat, n: nat, k1: Config)
    requires LoweredTo(fn, d, k, f) && |actuals| == |fn.params| && Finished(d, actuals)
    requires Reach(w, d, actuals, n, k1) && AtPoint(k1, FlowsEnd(k.flows, Point(0, 0, 1)))
    requires ExecStmts(w, fn.body, ParamStore(fn.params, actuals), [], fuel) == Normal(k1.store, k1.trace)
    ensures Agrees(w, fn, f, actuals, fuel)
  {
    hide Good, BuilderRuns.Complete, Finished, Reach, PlayRun, FlowsOk, CodeOk, ExecStmts, EvalE, Run, Crashes, Preserved;
    if fn.tail.Returns? && fn.tail.value.Some? {
      var e, c := fn.tail.value.value, k.result.value;
      var n2, k2 := SimExpr(w, d, actuals, n, k1, e, c);
      if EvalE(w, e, k1.store, k1.trace).Gives? {
        RetStep(w, d, actuals, n2, k2, To(c), Some(c.reg));
        SameRun(w, d, actuals, n2 + 1);
      } else {
        CrashSame(w, d, actuals);
      }
    } else {
      RetStep(w, d, actuals, n, k1, FnEnd(k), None);
      SameRun(w, d, actuals, n + 1);
    }
  }

  // ---- And conversely ----

  lemma {:induction false} StaysFinished(w: World, f: Func, actuals: seq<Int64>, n: nat, m: nat)
    requires n <= m && !Run(w, f, actuals, n).Running?
    ensures Run(w, f, actuals, m) == Run(w, f, actuals, n)
    decreases m
  {
    if m > n {
      StaysFinished(w, f, actuals, n, m - 1);
      hide RunBlock;
    }
  }

  lemma SameEnd(w: World, f: Func, actuals: seq<Int64>, n: nat, m: nat)
    requires !Run(w, f, actuals, n).Running? && !Run(w, f, actuals, m).Running?
    ensures Run(w, f, actuals, n) == Run(w, f, actuals, m)
  {
    if n <= m {
      StaysFinished(w, f, actuals, n, m);
    } else {
      StaysFinished(w, f, actuals, m, n);
    }
  }

  /** The function returns `x` with the events `t` exactly if the tree does. */
  lemma LoweringExact(w: World, fn: Fn, d: Draft, k: FnCode, f: Func, actuals: seq<Int64>, x: Option<Int64>, t: Trace)
    requires LoweredTo(fn, d, k, f) && |actuals| == |fn.params|
    ensures (exists n: nat :: Run(w, f, actuals, n) == State.Finished(x, t)) <==> (exists fuel: nat :: RunFn(w, fn, actuals, fuel) == Returned(x, t))
  {
    hide LoweredTo, Run, RunFn;
    if n: nat :| Run(w, f, actuals, n) == State.Finished(x, t) {
      LoweringAgrees(w, fn, d, k, f, actuals, n + 1);
      ReturnedBecause(w, fn, f, actuals, x, t, n);
    }
    if fuel: nat :| RunFn(w, fn, actuals, fuel) == Returned(x, t) {
      LoweringAgrees(w, fn, d, k, f, actuals, fuel);
    }
  }

  lemma ReturnedBecause(w: World, fn: Fn, f: Func, actuals: seq<Int64>, x: Option<Int64>, t: Trace, n: nat)
    requires |actuals| == |fn.params| && Run(w, f, actuals, n) == State.Finished(x, t) && Agrees(w, fn, f, actuals, n + 1)
    ensures RunFn(w, fn, actuals, n + 1) == Returned(x, t)
  {
    hide Run, RunFn;
    match RunFn(w, fn, actuals, n + 1) {
      case Returned(y, u) =>
        var m: nat :| Run(w, f, actuals, m) == State.Finished(y, u);
        SameEnd(w, f, actuals, n, m);
      case Crashed =>
        var m: nat :| Run(w, f, actuals, m).Faulted?;
        SameEnd(w, f, actuals, n, m);
      case Unfinished =>
        var m: nat :| m >= n + 1 && Run(w, f, actuals, m).Running?;
        StaysFinished(w, f, actuals, n, m);
    }
  }

  // ---- Compound assignment ----

  /** The statement, for every store in which the variable is defined. */
  lemma CompoundMeans(w: World, op: AssignOp, v: Name, e: Expr, store: Store, trace: Trace)
    requires v in store
    ensures match EvalE(w, e, store, trace)
            case Fails => ExecSimple(w, Compound(op, v, e), store, trace) == Broken
            case Gives(y, t) =>
              var x := store[v];
              && (op.PlusEq? ==> ExecSimple(w, Compound(op, v, e), store, trace) == Normal(store[v := Wrap(x + y)], t))
              && (op.MinusEq? ==> ExecSimple(w, Compound(op, v, e), store, trace) == Normal(store[v := Wrap(x - y)], t))
              && (op.StarEq? ==> ExecSimple(w, Compound(op, v, e), store, trace) == Normal(store[v := Wrap(x * y)], t))
              && (op.SlashEq? && (y == 0 || (x == MIN_INT64 && y == -1)) ==> ExecSimple(w, Compound(op, v, e), store, trace) == Broken)
              && (op.SlashEq? && y != 0 && !(x == MIN_INT64 && y == -1) ==>
                    ExecSimple(w, Compound(op, v, e), store, trace) == Normal(store[v := Wrap(TruncDiv(x, y))], t))
  {
    hide EvalE, TruncDiv, Wrap;
  }

  /** The built function ends with this value and these events, or with a fault if there is none. */
  ghost predicate EndsWith(w: World, f: Func, actuals: seq<Int64>, x: Option<Int64>, t: Trace) {
    exists n: nat :: Run(w, f, actuals, n) == if x.Some? then State.Finished(x, t) else State.Faulted
  }

  /** A function that ends in a compound assignment and returns the variable, as built: with `x`
      in the variable and `y` the value of the right-hand side it returns their sum, difference,
      product or quotient. */
  lemma CompoundBuilt(w: World, fn: Fn, d: Draft, k: FnCode, f: Func, actuals: seq<Int64>, fuel: nat,
                      front: seq<Stmt>, op: AssignOp, v: Name, e: Expr, store: Store, trace: Trace, y: Int64, t: Trace)
    requires LoweredTo(fn, d, k, f) && |actuals| == |fn.params|
    requires fn.body == front + [Stmt.Plain(Compound(op, v, e))] && fn.tail == Returns(Some(Ident(v)))
    requires ExecStmts(w, front, ParamStore(fn.params, actuals), [], fuel) == Normal(store, trace)
    requires v in store && EvalE(w, e, store, trace) == Gives(y, t)
    ensures var x := store[v];
            && (op.PlusEq? ==> EndsWith(w, f, actuals, Some(Wrap(x + y)), t))
            && (op.MinusEq? ==> EndsWith(w, f, actuals, Some(Wrap(x - y)), t))
            && (op.StarEq? ==> EndsWith(w, f, actuals, Some(Wrap(x * y)), t))
            && (op.SlashEq? ==> EndsWith(w, f, actuals, if y == 0 || (x == MIN_INT64 && y == -1) then None else Some(Wrap(TruncDiv(x, y))), t))
  {
    hide *;
    CompoundMeans(w, op, v, e, store, trace);
    LoweringAgrees(w, fn, d, k, f, actuals, fuel);
    LastStmt(w, fn, actuals, fuel, front, Compound(op, v, e), store, trace);
    var out := ExecSimple(w, Compound(op, v, e), store, trace);
    if out.Normal? {
      BuiltEnds(w, fn, f, actuals, fuel, v, out.store, out.trace);
    } else if out.Broken? {
      BuiltFaults(w, fn, f, actuals, fuel, v, t);
    }
  }

  lemma BuiltEnds(w: World, fn: Fn, f: Func, actuals: seq<Int64>, fuel: nat, v: Name, store: Store, t: Trace)
    requires |actuals| == |fn.params| && Agrees(w, fn, f, actuals, fuel) && fn.tail == Returns(Some(Ident(v)))
    requires ExecStmts(w, fn.body, ParamStore(fn.params, actuals), [], fuel) == Normal(store, t) && v in store
    ensures EndsWith(w, f, actuals, Some(store[v]), t)
  {
    ReturnsVar(w, fn, actuals, fuel, v);
    hide Run, RunFn, ExecStmts, ParamStore;
  }

  lemma BuiltFaults(w: World, fn: Fn, f: Func, actuals: seq<Int64>, fuel: nat, v: Name, t: Trace)
    requires |actuals| == |fn.params| && Agrees(w, fn, f, actuals, fuel) && fn.tail == Returns(Some(Ident(v)))
    requires ExecStmts(w, fn.body, ParamStore(fn.params, actuals), [], fuel) == Broken
    ensures EndsWith(w, f, actuals, None, t)
  {
    ReturnsVar(w, fn, actuals, fuel, v);
    hide Run, RunFn, ExecStmts, ParamStore;
  }

  lemma LastStmt(w: World, fn: Fn, actuals: seq<Int64>, fuel: nat, front: seq<Stmt>, s: Simple, store: Store, trace: Trace)
    requires |actuals| == |fn.params| && fn.body == front + [Stmt.Plain(s)]
    requires ExecStmts(w, front, ParamStore(fn.params, actuals), [], fuel) == Normal(store, trace)
    ensures ExecStmts(w, fn.body, ParamStore(fn.params, actuals), [], fuel) == ExecSimple(w, s, store, trace)
  {
    hide ExecSimple, ParamStore, EvalE;
    assert fn.body[..|fn.body| - 1] == front;
  }

  lemma ReturnsVar(w: World, fn: Fn, actuals: seq<Int64>, fuel: nat, v: Name)
    requires |actuals| == |fn.params| && fn.tail == Returns(Some(Ident(v)))
    ensures match ExecStmts(w, fn.body, ParamStore(fn.params, actuals), [], fuel)
            case Broken => RunFn(w, fn, actuals, fuel) == Crashed
            case Hungry => true
            case Normal(store, trace) => v in store ==> RunFn(w, fn, actuals, fuel) == Returned(Some(store[v]), trace)
  {
    hide ExecStmts, ParamStore;
  }

  /** The whole translation, with the guarded builder: unless it reports an undefined variable,
      or the body ends in an empty block without a return, the function means what the tree
      means. */
  method Translate(fn: Fn) returns (f: Func, undefined: bool, closed: bool)
    requires FnLowerable(fn)
    ensures fn.tail.Returns? ==> closed
    ensures !undefined && closed ==> forall w: World, actuals, fuel: nat :: |actuals| == |fn.params| ==> Agrees(w, fn, f, actuals, fuel)
    ensures !undefined && !closed ==> exists c: Label :: c < |f.blocks| && f.blocks[c] == []
  {
    hide LoweredTo, Agrees, FnLowerable;
    var b;
    ghost var k;
    b, f, closed, k := BuildFn(fn, true);
    undefined := b.undefined;
    b.OnlyUndefined();
    if !undefined && closed {
      forall w: World, actuals, fuel: nat | |actuals| == |fn.params| ensures Agrees(w, fn, f, actuals, fuel) {
        LoweringAgrees(w, fn, b.draft, k, f, actuals, fuel);
      }
    }
  }
}
