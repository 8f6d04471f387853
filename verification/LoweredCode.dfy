/** Where the code of a tree ends up in the scripts of the builder (src/ssa_build.c:476-762,
    858-1137).  A `Code` remembers the places; the predicates say what stands there. */
module LoweredCode {
  import opened Wrappers
  import opened Word64
  import opened Ssa
  import opened Draft
  import opened Hir

  // ---- Places ----

  /** A place in a script, and how many blocks there were when it was reached. */
  datatype Point = Point(block: Label, at: nat, blocks: nat)

  function Next(p: Point): Point {
    p.(at := p.at + 1)
  }

  function Here(d: Draft, b: Label): Point
    requires b < |d.script|
  {
    Point(b, |d.script[b]|, |d.script|)
  }

  ghost predicate ActAt(d: Draft, p: Point, a: Act) {
    p.block < |d.script| && p.at < |d.script[p.block]| && d.script[p.block][p.at] == a
  }

  /** Building went on from `p` to `q`: in the same block, or into a new one. */
  ghost predicate Later(p: Point, q: Point) {
    && p.block < p.blocks && q.block < q.blocks && p.blocks <= q.blocks
    && ((q.block == p.block && p.at <= q.at) || q.block >= p.blocks)
  }

  lemma LaterTrans(p: Point, q: Point, r: Point)
    requires Later(p, q) && Later(q, r)
    ensures Later(p, r)
  {
  }

  /** `v` was defined before `p` was reached, so that nothing built since defines it. */
  ghost predicate Held(d: Draft, v: VReg, p: Point) {
    v in d.home && (match d.home[v]
                    case Param => true
                    case Taken => false
                    case PhiAt(b, _) => b < p.blocks
                    case BodyAt(b, i) => b < p.blocks && (b == p.block ==> i < p.at))
  }

  lemma HeldLater(d: Draft, v: VReg, p: Point, q: Point)
    requires Held(d, v, p) && Later(p, q)
    ensures Held(d, v, q)
  {
  }

  // ---- Expressions ----

  /** The code of an expression; `reg` holds its value behind `at`. */
  datatype Code =
    | Leaf(at: Point, reg: VReg)
    | One(arg: Code, at: Point, reg: VReg)
    | Two(left: Code, right: Code, at: Point, reg: VReg)
    | Many(start: Point, args: seq<Code>, at: Point, reg: VReg)
    | Fork(cond: Code, rest: Code, other: VReg, at: Point, reg: VReg)

  function From(c: Code): Point {
    match c
    case Leaf(at, _) => at
    case One(a, _, _) => From(a)
    case Two(l, _, _, _) => From(l)
    case Many(start, _, _, _) => start
    case Fork(c0, _, _, _, _) => From(c0)
  }

  function To(c: Code): Point {
    Next(c.at)
  }

  ghost predicate Computes(d: Draft, p: Point, v: VReg, op: Op) {
    ActAt(d, p, Emit(Inst(Some(v), op)))
  }

  ghost predicate Ends(d: Draft, p: Point, op: Op) {
    ActAt(d, p, Emit(Inst(None, op)))
  }

  ghost predicate CodeOk(d: Draft, e: Expr, c: Code)
    decreases e
  {
    && Held(d, c.reg, To(c))
    && match e
       case IntLit(x) => c.Leaf? && c.at.block < c.at.blocks && Computes(d, c.at, c.reg, Const(x))
       case Ident(x) => c.Leaf? && c.at.block < c.at.blocks && ActAt(d, c.at, Read(x, c.reg))
       case Binary(op, l, r) => c.Two? && CodeOk(d, l, c.left) && CodeOk(d, r, c.right) && PairOk(c) && Computes(d, c.at, c.reg, Binop(op, c.left.reg, c.right.reg))
       case Compared(cmp, l, r) => c.Two? && CodeOk(d, l, c.left) && CodeOk(d, r, c.right) && PairOk(c) && Computes(d, c.at, c.reg, Cmp(cmp, c.left.reg, c.right.reg))
       case AndAlso(l, r) =>
         c.Fork? && CodeOk(d, l, c.cond) && CodeOk(d, r, c.rest) && ForkOk(d, c)
         && (var m := To(c.cond);
             && Ends(d, m, Branch(c.cond.reg, m.blocks, m.blocks + 2))
             && Computes(d, Point(m.blocks + 2, 0, m.blocks + 3), c.other, Const(0))
             && Computes(d, c.at, c.reg, Phi([PhiArg(c.rest.reg, m.blocks), PhiArg(c.other, m.blocks + 2)])))
       case OrElse(l, r) =>
         c.Fork? && CodeOk(d, l, c.cond) && CodeOk(d, r, c.rest) && ForkOk(d, c)
         && (var m := To(c.cond);
             && Ends(d, m, Branch(c.cond.reg, m.blocks + 2, m.blocks))
             && Computes(d, Point(m.blocks + 2, 0, m.blocks + 3), c.other, Const(1))
             && Computes(d, c.at, c.reg, Phi([PhiArg(c.other, m.blocks + 2), PhiArg(c.rest.reg, m.blocks)])))
       case Unary(uop, a) => c.One? && CodeOk(d, a, c.arg) && c.at == To(c.arg) && Computes(d, c.at, c.reg, Unop(uop, c.arg.reg))
       case CallTo(func, args) =>
         c.Many? && c.start.block < c.start.blocks && ArgsOk(d, args, c.args, c.start) && c.at == EndOf(c.args, c.start)
         && Computes(d, c.at, c.reg, Call(func, Regs(c.args)))
  }

  /** Two operands, the right one after the left. */
  predicate PairOk(c: Code)
    requires c.Two?
  {
    From(c.right) == To(c.left) && c.at == To(c.right)
  }

  /** The right operand has a block of its own, and so has the case in which it is skipped;
      both jump to the block where the result is picked. */
  ghost predicate ForkOk(d: Draft, c: Code)
    requires c.Fork?
  {
    var m := To(c.cond);
    && From(c.rest) == Point(m.blocks, 0, m.blocks + 3)
    && To(c.rest).block == m.blocks && To(c.rest).blocks == m.blocks + 3
    && Ends(d, To(c.rest), Jump(m.blocks + 1))
    && Ends(d, Point(m.blocks + 2, 1, m.blocks + 3), Jump(m.blocks + 1))
    && c.at == Point(m.blocks + 1, 0, m.blocks + 3)
  }

  function EndOf(cs: seq<Code>, start: Point): Point {
    if cs == [] then start else To(cs[|cs| - 1])
  }

  function Regs(cs: seq<Code>): seq<VReg> {
    seq(|cs|, i requires 0 <= i < |cs| => cs[i].reg)
  }

  ghost predicate ArgsOk(d: Draft, args: seq<Expr>, cs: seq<Code>, start: Point)
    decreases args
  {
    && |cs| == |args|
    && (args == [] ||
        var n := |args| - 1;
        ArgsOk(d, args[..n], cs[..n], start) && CodeOk(d, args[n], cs[n]) && From(cs[n]) == EndOf(cs[..n], start))
  }

  lemma {:induction false} CodeLater(d: Draft, e: Expr, c: Code)
    requires CodeOk(d, e, c)
    ensures Later(From(c), To(c))
  {
    hide Held, Computes, Ends, ActAt;
    match e {
      case IntLit(_) =>
      case Ident(_) =>
      case Binary(_, l, r) => CodeLater(d, l, c.left); CodeLater(d, r, c.right);
      case Compared(_, l, r) => CodeLater(d, l, c.left); CodeLater(d, r, c.right);
      case AndAlso(l, r) => CodeLater(d, l, c.cond); ForkLater(d, c);
      case OrElse(l, r) => CodeLater(d, l, c.cond); ForkLater(d, c);
      case Unary(_, a) => CodeLater(d, a, c.arg);
      case CallTo(_, args) => ArgsLater(d, args, c.args, c.start);
    }
  }

  lemma ForkLater(d: Draft, c: Code)
    requires c.Fork? && ForkOk(d, c) && Later(From(c.cond), To(c.cond))
    ensures Later(From(c), To(c))
  {
  }

  lemma {:induction false} ArgsLater(d: Draft, args: seq<Expr>, cs: seq<Code>, start: Point)
    requires ArgsOk(d, args, cs, start) && start.block < start.blocks
    ensures Later(start, EndOf(cs, start))
  {
    if args != [] {
      var n := |args| - 1;
      ArgsLater(d, args[..n], cs[..n], start);
      CodeLater(d, args[n], cs[n]);
    }
  }

  /** Code begins with an instruction or a read. */
  lemma {:induction false} FirstAct(d: Draft, e: Expr, c: Code)
    requires CodeOk(d, e, c)
    ensures var p := From(c); p.block < |d.script| && p.at < |d.script[p.block]| && !d.script[p.block][p.at].Wrote?
  {
    match e {
      case IntLit(_) =>
      case Ident(_) =>
      case Binary(_, l, r) => FirstAct(d, l, c.left);
      case Compared(_, l, r) => FirstAct(d, l, c.left);
      case AndAlso(l, r) => FirstAct(d, l, c.cond);
      case OrElse(l, r) => FirstAct(d, l, c.cond);
      case Unary(_, a) => FirstAct(d, a, c.arg);
      case CallTo(_, args) => FirstOfArgs(d, args, c.args, c.start);
    }
  }

  lemma {:induction false} FirstOfArgs(d: Draft, args: seq<Expr>, cs: seq<Code>, start: Point)
    requires ArgsOk(d, args, cs, start)
    ensures args != [] ==> start.block < |d.script| && start.at < |d.script[start.block]| && !d.script[start.block][start.at].Wrote?
  {
    if |args| == 1 {
      FirstAct(d, args[0], cs[0]);
    } else if |args| > 1 {
      FirstOfArgs(d, args[..|args| - 1], cs[..|args| - 1], start);
    }
  }

  // ---- Putting code together ----

  lemma MakeOne(d: Draft, uop: UnOpKind, a: Expr, c: Code, v: VReg)
    requires CodeOk(d, a, c) && Computes(d, To(c), v, Unop(uop, c.reg)) && Held(d, v, Next(To(c)))
    ensures CodeOk(d, Unary(uop, a), One(c, To(c), v))
  {
    hide Held, Computes;
  }

  lemma MakeBinary(d: Draft, op: BinOpKind, l: Expr, r: Expr, cl: Code, cr: Code, v: VReg)
    requires CodeOk(d, l, cl) && CodeOk(d, r, cr) && From(cr) == To(cl)
    requires Computes(d, To(cr), v, Binop(op, cl.reg, cr.reg)) && Held(d, v, Next(To(cr)))
    ensures CodeOk(d, Hir.Binary(op, l, r), Two(cl, cr, To(cr), v))
  {
    hide Held, Computes;
  }

  lemma MakeCmp(d: Draft, cmp: CmpKind, l: Expr, r: Expr, cl: Code, cr: Code, v: VReg)
    requires CodeOk(d, l, cl) && CodeOk(d, r, cr) && From(cr) == To(cl)
    requires Computes(d, To(cr), v, Cmp(cmp, cl.reg, cr.reg)) && Held(d, v, Next(To(cr)))
    ensures CodeOk(d, Compared(cmp, l, r), Two(cl, cr, To(cr), v))
  {
    hide Held, Computes;
  }

  lemma MakeCall(d: Draft, func: string, args: seq<Expr>, cs: seq<Code>, start: Point, v: VReg)
    requires ArgsOk(d, args, cs, start) && start.block < start.blocks
    requires Computes(d, EndOf(cs, start), v, Call(func, Regs(cs))) && Held(d, v, Next(EndOf(cs, start)))
    ensures CodeOk(d, CallTo(func, args), Many(start, cs, EndOf(cs, start), v))
  {
    hide Held, Computes, ArgsOk;
  }

  lemma MakeAnd(d: Draft, l: Expr, r: Expr, c: Code)
    requires c.Fork? && CodeOk(d, l, c.cond) && CodeOk(d, r, c.rest) && ForkOk(d, c) && Held(d, c.reg, To(c))
    requires var m := To(c.cond);
             && Ends(d, m, Branch(c.cond.reg, m.blocks, m.blocks + 2))
             && Computes(d, Point(m.blocks + 2, 0, m.blocks + 3), c.other, Const(0))
             && Computes(d, c.at, c.reg, Phi([PhiArg(c.rest.reg, m.blocks), PhiArg(c.other, m.blocks + 2)]))
    ensures CodeOk(d, AndAlso(l, r), c)
  {
    hide Held, Computes, Ends, ForkOk;
  }

  lemma MakeOr(d: Draft, l: Expr, r: Expr, c: Code)
    requires c.Fork? && CodeOk(d, l, c.cond) && CodeOk(d, r, c.rest) && ForkOk(d, c) && Held(d, c.reg, To(c))
    requires var m := To(c.cond);
             && Ends(d, m, Branch(c.cond.reg, m.blocks + 2, m.blocks))
             && Computes(d, Point(m.blocks + 2, 0, m.blocks + 3), c.other, Const(1))
             && Computes(d, c.at, c.reg, Phi([PhiArg(c.other, m.blocks + 2), PhiArg(c.rest.reg, m.blocks)]))
    ensures CodeOk(d, OrElse(l, r), c)
  {
    hide Held, Computes, Ends, ForkOk;
  }

  // ---- Statements ----

  /** The code of a simple statement: `target` and `result` are the registers of a compound
      assignment. */
  datatype Part = Part(code: Code, target: VReg, result: VReg, to: Point)

  ghost predicate PartOk(d: Draft, s: Simple, p: Part) {
    && CodeOk(d, ExprOf(s), p.code)
    && var m := To(p.code);
       match s
       case Let(x, _) => ActAt(d, m, Wrote(x, p.code.reg)) && p.to == Next(m)
       case Assign(x, _) => ActAt(d, m, Wrote(x, p.code.reg)) && p.to == Next(m)
       case Compound(op, x, _) =>
         && ActAt(d, m, Read(x, p.target))
         && Computes(d, Next(m), p.result, Binop(OpOf(op), p.target, p.code.reg))
         && ActAt(d, Next(Next(m)), Wrote(x, p.result)) && p.to == Next(Next(Next(m)))
       case Do(_) => p.to == m
       case PrintOf(_) => Ends(d, m, Print(p.code.reg)) && p.to == Next(m)
  }

  function PartsEnd(ps: seq<Part>, start: Point): Point {
    if ps == [] then start else ps[|ps| - 1].to
  }

  ghost predicate PartsOk(d: Draft, ss: seq<Simple>, ps: seq<Part>, start: Point) {
    && |ps| == |ss|
    && (ss == [] ||
        var n := |ss| - 1;
        PartsOk(d, ss[..n], ps[..n], start) && PartOk(d, ss[n], ps[n]) && From(ps[n].code) == PartsEnd(ps[..n], start))
  }

  /** The code of a statement. */
  datatype Flow =
    | Step(part: Part)
    | Split(cond: Code, thens: seq<Part>, elses: Option<seq<Part>>)
    | Loop(start: Point, cond: Code, body: seq<Part>)

  function FlowFrom(f: Flow): Point {
    match f
    case Step(p) => From(p.code)
    case Split(c, _, _) => From(c)
    case Loop(start, _, _) => start
  }

  function FlowTo(f: Flow): Point {
    match f
    case Step(p) => p.to
    case Split(c, _, None) => var n := To(c).blocks; Point(n + 1, 0, n + 2)
    case Split(c, _, Some(_)) => var n := To(c).blocks; Point(n + 2, 0, n + 3)
    case Loop(start, _, _) => Point(start.blocks + 2, 0, start.blocks + 3)
  }

  /** A straight-line body in block `b`, which then jumps to `t`. */
  ghost predicate BodyOk(d: Draft, ss: seq<Simple>, ps: seq<Part>, b: Label, blocks: nat, t: Label) {
    var start := Point(b, 0, blocks);
    && b < blocks && PartsOk(d, ss, ps, start)
    && PartsEnd(ps, start).block == b && PartsEnd(ps, start).blocks == blocks && Ends(d, PartsEnd(ps, start), Jump(t))
  }

  ghost predicate IfOk(d: Draft, c: Expr, thens: seq<Simple>, f: Flow) {
    && f.Split? && f.elses.None? && CodeOk(d, c, f.cond)
    && var m := To(f.cond); var n := m.blocks;
       Ends(d, m, Branch(f.cond.reg, n, n + 1)) && BodyOk(d, thens, f.thens, n, n + 2, n + 1)
  }

  ghost predicate IfElseOk(d: Draft, c: Expr, thens: seq<Simple>, elses: seq<Simple>, f: Flow) {
    && f.Split? && f.elses.Some? && CodeOk(d, c, f.cond)
    && var m := To(f.cond); var n := m.blocks;
       && Ends(d, m, Branch(f.cond.reg, n, n + 1))
       && BodyOk(d, thens, f.thens, n, n + 3, n + 2) && BodyOk(d, elses, f.elses.value, n + 1, n + 3, n + 2)
  }

  ghost predicate WhileOk(d: Draft, c: Expr, body: seq<Simple>, f: Flow) {
    && f.Loop? && f.start.block < f.start.blocks
    && var n := f.start.blocks;
       && Ends(d, f.start, Jump(n)) && CodeOk(d, c, f.cond) && From(f.cond) == Point(n, 0, n + 3) && To(f.cond).block == n
       && Ends(d, To(f.cond), Branch(f.cond.reg, n + 1, n + 2)) && BodyOk(d, body, f.body, n + 1, n + 3, n)
  }

  ghost predicate FlowOk(d: Draft, s: Stmt, f: Flow) {
    match s
    case Plain(x) => f.Step? && PartOk(d, x, f.part)
    case If(c, thens, None) => IfOk(d, c, thens, f)
    case If(c, thens, Some(elses)) => IfElseOk(d, c, thens, elses, f)
    case While(c, body) => WhileOk(d, c, body, f)
  }

  function FlowsEnd(fs: seq<Flow>, start: Point): Point {
    if fs == [] then start else FlowTo(fs[|fs| - 1])
  }

  ghost predicate FlowsOk(d: Draft, ss: seq<Stmt>, fs: seq<Flow>, start: Point) {
    && |fs| == |ss|
    && (ss == [] ||
        var n := |ss| - 1;
        FlowsOk(d, ss[..n], fs[..n], start) && FlowOk(d, ss[n], fs[n]) && FlowFrom(fs[n]) == FlowsEnd(fs[..n], start))
  }

  /** The code of a whole function: its body from the entry block on, then the return. */
  datatype FnCode = FnCode(flows: seq<Flow>, result: Option<Code>)

  function FnEnd(k: FnCode): Point {
    var p := FlowsEnd(k.flows, Point(0, 0, 1));
    match k.result
    case None => p
    case Some(c) => To(c)
  }

  ghost predicate FnOk(d: Draft, fn: Fn, k: FnCode) {
    && FlowsOk(d, fn.body, k.flows, Point(0, 0, 1))
    && (match fn.tail
        case Returns(Some(e)) =>
          && k.result.Some? && CodeOk(d, e, k.result.value) && From(k.result.value) == FlowsEnd(k.flows, Point(0, 0, 1))
          && Ends(d, FnEnd(k), Ret(Some(k.result.value.reg)))
        case _ => k.result.None? && Ends(d, FnEnd(k), Ret(None)))
  }

  // ---- Code stays where it is ----

  /** Scripts only get longer, and registers that are defined stay where they are. */
  ghost predicate Extends(d: Draft, d': Draft) {
    && |d.script| <= |d'.script| && (forall c :: 0 <= c < |d.script| ==> d.script[c] <= d'.script[c])
    && (forall v :: v in d.home && !d.home[v].Taken? ==> v in d'.home && d'.home[v] == d.home[v])
  }

  lemma ActStays(d: Draft, d': Draft, p: Point, a: Act)
    requires Extends(d, d') && ActAt(d, p, a)
    ensures ActAt(d', p, a)
  {
    assert d.script[p.block] <= d'.script[p.block];
  }

  lemma EndsStay(d: Draft, d': Draft, p: Point, op: Op)
    requires Extends(d, d') && Ends(d, p, op)
    ensures Ends(d', p, op)
  {
    ActStays(d, d', p, Emit(Inst(None, op)));
  }

  lemma ComputesStay(d: Draft, d': Draft, p: Point, v: VReg, op: Op)
    requires Extends(d, d') && Computes(d, p, v, op)
    ensures Computes(d', p, v, op)
  {
    ActStays(d, d', p, Emit(Inst(Some(v), op)));
  }

  lemma ActsStay(d: Draft, d': Draft)
    requires Extends(d, d')
    ensures forall p, a :: ActAt(d, p, a) ==> ActAt(d', p, a)
    ensures forall v, p :: Held(d, v, p) ==> Held(d', v, p)
  {
    forall p, a | ActAt(d, p, a) ensures ActAt(d', p, a) {
      ActStays(d, d', p, a);
    }
  }

  lemma {:induction false} CodeStays(d: Draft, d': Draft, e: Expr, c: Code)
    requires Extends(d, d') && CodeOk(d, e, c)
    ensures CodeOk(d', e, c)
  {
    hide *;
    Parts(d, e, c);
    match e {
      case IntLit(_) => LeafStays(d, d', e, c);
      case Ident(_) => LeafStays(d, d', e, c);
      case Binary(_, l, r) => CodeStays(d, d', l, c.left); CodeStays(d, d', r, c.right); TwoStay(d, d', e, c);
      case Compared(_, l, r) => CodeStays(d, d', l, c.left); CodeStays(d, d', r, c.right); TwoStay(d, d', e, c);
      case AndAlso(l, r) => CodeStays(d, d', l, c.cond); CodeStays(d, d', r, c.rest); BothStay(d, d', e, c);
      case OrElse(l, r) => CodeStays(d, d', l, c.cond); CodeStays(d, d', r, c.rest); BothStay(d, d', e, c);
      case Unary(_, a) => CodeStays(d, d', a, c.arg); OneStays(d, d', e, c);
      case CallTo(_, args) => ArgsStay(d, d', args, c.args, c.start); ManyStay(d, d', e, c);
    }
  }

  /** The code of an expression has the code of its operands inside. */
  lemma Parts(d: Draft, e: Expr, c: Code)
    requires CodeOk(d, e, c)
    ensures e.Binary? || e.Compared? ==> c.Two? && CodeOk(d, e.left, c.left) && CodeOk(d, e.right, c.right)
    ensures e.AndAlso? || e.OrElse? ==> c.Fork? && CodeOk(d, e.left, c.cond) && CodeOk(d, e.right, c.rest)
    ensures e.Unary? ==> c.One? && CodeOk(d, e.operand, c.arg)
    ensures e.CallTo? ==> c.Many? && ArgsOk(d, e.args, c.args, c.start)
  {
    hide Held, ActAt, ArgsOk, ForkOk;
  }

  lemma LeafStays(d: Draft, d': Draft, e: Expr, c: Code)
    requires Extends(d, d') && CodeOk(d, e, c) && (e.IntLit? || e.Ident?)
    ensures CodeOk(d', e, c)
  {
    ActsStay(d, d');
    hide Extends, Held, ActAt;
  }

  lemma TwoStay(d: Draft, d': Draft, e: Expr, c: Code)
    requires Extends(d, d') && CodeOk(d, e, c) && c.Two? && (e.Binary? || e.Compared?) && CodeOk(d', e.left, c.left) && CodeOk(d', e.right, c.right)
    ensures CodeOk(d', e, c)
  {
    ActsStay(d, d');
    hide Extends, Held, ActAt;
  }

  lemma BothStay(d: Draft, d': Draft, e: Expr, c: Code)
    requires Extends(d, d') && CodeOk(d, e, c) && c.Fork? && (e.AndAlso? || e.OrElse?) && CodeOk(d', e.left, c.cond) && CodeOk(d', e.right, c.rest)
    ensures CodeOk(d', e, c)
  {
    ActsStay(d, d');
    ForkStays(d, d', c);
    hide Extends, Held, ActAt, ForkOk;
  }

  lemma OneStays(d: Draft, d': Draft, e: Expr, c: Code)
    requires Extends(d, d') && CodeOk(d, e, c) && c.One? && e.Unary? && CodeOk(d', e.operand, c.arg)
    ensures CodeOk(d', e, c)
  {
    ActsStay(d, d');
    hide Extends, Held, ActAt;
  }

  lemma ManyStay(d: Draft, d': Draft, e: Expr, c: Code)
    requires Extends(d, d') && CodeOk(d, e, c) && c.Many? && e.CallTo? && ArgsOk(d', e.args, c.args, c.start)
    ensures CodeOk(d', e, c)
  {
    ActsStay(d, d');
    hide Extends, Held, ActAt, ArgsOk;
  }

  lemma ForkStays(d: Draft, d': Draft, c: Code)
    requires Extends(d, d') && c.Fork? && ForkOk(d, c)
    ensures ForkOk(d', c)
  {
    ActsStay(d, d');
    hide Extends, Held, ActAt, From, To;
  }

  lemma {:induction false} ArgsStay(d: Draft, d': Draft, args: seq<Expr>, cs: seq<Code>, start: Point)
    requires Extends(d, d') && ArgsOk(d, args, cs, start)
    ensures ArgsOk(d', args, cs, start)
  {
    hide Extends;
    if args != [] {
      var n := |args| - 1;
      ArgsStay(d, d', args[..n], cs[..n], start);
      CodeStays(d, d', args[n], cs[n]);
    }
  }

  lemma PartStays(d: Draft, d': Draft, s: Simple, p: Part)
    requires Extends(d, d') && PartOk(d, s, p)
    ensures PartOk(d', s, p)
  {
    ActsStay(d, d');
    hide Extends, Held, ActAt;
    CodeStays(d, d', ExprOf(s), p.code);
  }

  lemma {:induction false} PartsStay(d: Draft, d': Draft, ss: seq<Simple>, ps: seq<Part>, start: Point)
    requires Extends(d, d') && PartsOk(d, ss, ps, start)
    ensures PartsOk(d', ss, ps, start)
  {
    hide Extends, PartOk;
    if ss != [] {
      var n := |ss| - 1;
      PartsStay(d, d', ss[..n], ps[..n], start);
      PartStays(d, d', ss[n], ps[n]);
    }
  }

  lemma BodyStays(d: Draft, d': Draft, ss: seq<Simple>, ps: seq<Part>, b: Label, blocks: nat, t: Label)
    requires Extends(d, d') && BodyOk(d, ss, ps, b, blocks, t)
    ensures BodyOk(d', ss, ps, b, blocks, t)
  {
    ActsStay(d, d');
    hide Extends, ActAt;
    PartsStay(d, d', ss, ps, Point(b, 0, blocks));
  }

  lemma FlowStays(d: Draft, d': Draft, s: Stmt, f: Flow)
    requires Extends(d, d') && FlowOk(d, s, f)
    ensures FlowOk(d', s, f)
  {
    hide Extends, PartOk, IfOk, IfElseOk, WhileOk;
    if s.Plain? {
      PartStays(d, d', s.simple, f.part);
    } else if s.While? {
      WhileStays(d, d', s.cond, s.body, f);
    } else if s.elses.None? {
      IfStays(d, d', s.cond, s.thens, f);
    } else {
      IfElseStays(d, d', s.cond, s.thens, s.elses.value, f);
    }
  }

  lemma IfStays(d: Draft, d': Draft, c: Expr, thens: seq<Simple>, f: Flow)
    requires Extends(d, d') && IfOk(d, c, thens, f)
    ensures IfOk(d', c, thens, f)
  {
    ActsStay(d, d');
    hide Extends, ActAt, BodyOk, CodeOk, Held;
    CodeStays(d, d', c, f.cond);
    var n := To(f.cond).blocks;
    BodyStays(d, d', thens, f.thens, n, n + 2, n + 1);
  }

  lemma IfElseStays(d: Draft, d': Draft, c: Expr, thens: seq<Simple>, elses: seq<Simple>, f: Flow)
    requires Extends(d, d') && IfElseOk(d, c, thens, elses, f)
    ensures IfElseOk(d', c, thens, elses, f)
  {
    hide Extends, Ends, BodyOk, CodeOk, To;
    CodeStays(d, d', c, f.cond);
    var n := To(f.cond).blocks;
    EndsStay(d, d', To(f.cond), Branch(f.cond.reg, n, n + 1));
    BodyStays(d, d', thens, f.thens, n, n + 3, n + 2);
    BodyStays(d, d', elses, f.elses.value, n + 1, n + 3, n + 2);
  }

  lemma WhileStays(d: Draft, d': Draft, c: Expr, body: seq<Simple>, f: Flow)
    requires Extends(d, d') && WhileOk(d, c, body, f)
    ensures WhileOk(d', c, body, f)
  {
    ActsStay(d, d');
    hide Extends, ActAt, BodyOk, CodeOk, Held;
    CodeStays(d, d', c, f.cond);
    var n := f.start.blocks;
    BodyStays(d, d', body, f.body, n + 1, n + 3, n);
  }

  lemma {:induction false} FlowsStay(d: Draft, d': Draft, ss: seq<Stmt>, fs: seq<Flow>, start: Point)
    requires Extends(d, d') && FlowsOk(d, ss, fs, start)
    ensures FlowsOk(d', ss, fs, start)
  {
    hide Extends, FlowOk;
    if ss != [] {
      var n := |ss| - 1;
      FlowsStay(d, d', ss[..n], fs[..n], start);
      FlowStays(d, d', ss[n], fs[n]);
    }
  }
}
