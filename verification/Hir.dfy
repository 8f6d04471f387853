/** The typed tree the SSA is built from (src/hir.h), as far as it is modelled, and what it
    means.  Values are 64-bit words; booleans are 0 and 1.

    The statements inside a branch or a loop are straight-line, because that is all the
    translation gets right: it records the first block of a branch or loop body as the
    predecessor of what follows, whichever block really jumps there
    (src/ssa_build.c:1019-1020, 1062-1063, 1126). */
module Hir {
  import opened Wrappers
  import opened Word64
  import opened Ssa
  import opened Draft

  type Store = map<Name, Int64>

  datatype Expr =
    | IntLit(value: Int64)
    | Ident(name: Name)
    | Binary(op: BinOpKind, left: Expr, right: Expr)
    | Compared(cmp: CmpKind, left: Expr, right: Expr)
    | AndAlso(left: Expr, right: Expr)
    | OrElse(left: Expr, right: Expr)
    | Unary(uop: UnOpKind, operand: Expr)
    | CallTo(func: string, args: seq<Expr>)

  datatype AssignOp = PlusEq | MinusEq | StarEq | SlashEq

  datatype Simple =
    | Let(name: Name, init: Option<Expr>)
    | Assign(name: Name, value: Expr)
    | Compound(aop: AssignOp, name: Name, value: Expr)
    | Do(expr: Expr)
    | PrintOf(expr: Expr)

  datatype Stmt =
    | Plain(simple: Simple)
    | If(cond: Expr, thens: seq<Simple>, elses: Option<seq<Simple>>)
    | While(cond: Expr, body: seq<Simple>)

  /** How the body of a function ends. */
  datatype Tail = FallsOff | Returns(value: Option<Expr>)

  datatype Fn = Fn(params: seq<Name>, body: seq<Stmt>, tail: Tail)

  // ---- What the translation can handle ----

  /** The intrinsic; a call of it is a statement of its own, because it gives no value
      (src/ssa_build.c:771-782). */
  const PRINT_NAME := "print"

  /** No short-circuit operator. */
  predicate Straight(e: Expr) {
    match e
    case IntLit(_) => true
    case Ident(_) => true
    case Binary(_, l, r) => Straight(l) && Straight(r)
    case Compared(_, l, r) => Straight(l) && Straight(r)
    case AndAlso(_, _) => false
    case OrElse(_, _) => false
    case Unary(_, a) => Straight(a)
    case CallTo(func, args) => func != PRINT_NAME && forall i :: 0 <= i < |args| ==> Straight(args[i])
  }

  /** The right operands of short-circuit operators are straight. */
  predicate Lowerable(e: Expr) {
    match e
    case IntLit(_) => true
    case Ident(_) => true
    case Binary(_, l, r) => Lowerable(l) && Lowerable(r)
    case Compared(_, l, r) => Lowerable(l) && Lowerable(r)
    case AndAlso(l, r) => Lowerable(l) && Straight(r)
    case OrElse(l, r) => Lowerable(l) && Straight(r)
    case Unary(_, a) => Lowerable(a)
    case CallTo(func, args) => func != PRINT_NAME && forall i :: 0 <= i < |args| ==> Lowerable(args[i])
  }

  lemma {:induction false} StraightIsLowerable(e: Expr)
    requires Straight(e)
    ensures Lowerable(e)
  {
    match e {
      case IntLit(_) =>
      case Ident(_) =>
      case Binary(_, l, r) => StraightIsLowerable(l); StraightIsLowerable(r);
      case Compared(_, l, r) => StraightIsLowerable(l); StraightIsLowerable(r);
      case AndAlso(_, _) =>
      case OrElse(_, _) =>
      case Unary(_, a) => StraightIsLowerable(a);
      case CallTo(func, args) =>
        forall i | 0 <= i < |args| ensures Lowerable(args[i]) {
          StraightIsLowerable(args[i]);
        }
    }
  }

  function OpOf(op: AssignOp): BinOpKind {
    match op
    case PlusEq => Add
    case MinusEq => Sub
    case StarEq => Mul
    case SlashEq => Div
  }

  function ExprOf(s: Simple): Expr {
    match s
    case Let(_, init) => if init.Some? then init.value else IntLit(0)
    case Assign(_, e) => e
    case Compound(_, _, e) => e
    case Do(e) => e
    case PrintOf(e) => e
  }

  predicate StraightCode(ss: seq<Simple>) {
    forall i :: 0 <= i < |ss| ==> Straight(ExprOf(ss[i]))
  }

  predicate StmtLowerable(s: Stmt) {
    match s
    case Plain(x) => Lowerable(ExprOf(x))
    case If(c, thens, elses) =>
      Lowerable(c) && StraightCode(thens) && (elses.Some? ==> thens != [] && elses.value != [] && StraightCode(elses.value))
    case While(c, body) => Straight(c) && StraightCode(body)
  }

  predicate FnLowerable(fn: Fn) {
    && (forall i :: 0 <= i < |fn.body| ==> StmtLowerable(fn.body[i]))
    && (fn.tail.Returns? && fn.tail.value.Some? ==> Lowerable(fn.tail.value.value))
  }

  // ---- Meaning ----

  /** Evaluation faults on an undefined variable and on a division the hardware rejects. */
  datatype Value = Fails | Gives(x: Int64, trace: Trace)

  datatype ArgValues = NoValues | Gave(xs: seq<Int64>, trace: Trace)

  function EvalE(w: World, e: Expr, store: Store, trace: Trace): Value {
    match e
    case IntLit(x) => Gives(x, trace)
    case Ident(x) => if x in store then Gives(store[x], trace) else Fails
    case Binary(op, l, r) =>
      (match EvalE(w, l, store, trace)
       case Fails => Fails
       case Gives(x, t) =>
         (match EvalE(w, r, store, t)
          case Fails => Fails
          case Gives(y, t') => Apply(op, x, y, t')))
    case Compared(cmp, l, r) =>
      (match EvalE(w, l, store, trace)
       case Fails => Fails
       case Gives(x, t) =>
         (match EvalE(w, r, store, t)
          case Fails => Fails
          case Gives(y, t') => Gives(EvalCmp(cmp, x, y), t')))
    case AndAlso(l, r) =>
      (match EvalE(w, l, store, trace)
       case Fails => Fails
       case Gives(x, t) => if x != 0 then EvalE(w, r, store, t) else Gives(0, t))
    case OrElse(l, r) =>
      (match EvalE(w, l, store, trace)
       case Fails => Fails
       case Gives(x, t) => if x != 0 then Gives(1, t) else EvalE(w, r, store, t))
    case Unary(uop, a) =>
      (match EvalE(w, a, store, trace)
       case Fails => Fails
       case Gives(x, t) => Gives(EvalUnop(uop, x), t))
    case CallTo(func, args) =>
      (match EvalArgs(w, args, store, trace)
       case NoValues => Fails
       case Gave(xs, t) => var t' := t + [Called(func, xs)]; Gives(w(t'), t'))
  }

  /** Arguments are evaluated from left to right. */
  function EvalArgs(w: World, args: seq<Expr>, store: Store, trace: Trace): ArgValues {
    if args == [] then Gave([], trace)
    else
      match EvalArgs(w, args[..|args| - 1], store, trace)
      case NoValues => NoValues
      case Gave(xs, t) =>
        (match EvalE(w, args[|args| - 1], store, t)
         case Fails => NoValues
         case Gives(x, t') => Gave(xs + [x], t'))
  }

  function Apply(op: BinOpKind, x: Int64, y: Int64, trace: Trace): Value {
    match EvalBinop(op, x, y)
    case None => Fails
    case Some(z) => Gives(z, trace)
  }

  /** What statements come to; `Hungry` when the fuel for loops ran out. */
  datatype Outcome = Broken | Hungry | Normal(store: Store, trace: Trace)

  /** The new value of a variable that held `x`, by the operator of the assignment; division
      faults by zero and on the one quotient that does not fit. */
  function NewValue(op: AssignOp, x: Int64, y: Int64): Option<Int64> {
    match op
    case PlusEq => Some(Wrap(x + y))
    case MinusEq => Some(Wrap(x - y))
    case StarEq => Some(Wrap(x * y))
    case SlashEq => if y == 0 || (x == MIN_INT64 && y == -1) then None else Some(Wrap(TruncDiv(x, y)))
  }

  function ExecSimple(w: World, s: Simple, store: Store, trace: Trace): Outcome {
    match s
    case Let(v, None) => Normal(store[v := 0], trace)
    case Let(v, Some(e)) => Stored(v, EvalE(w, e, store, trace), store)
    case Assign(v, e) => Stored(v, EvalE(w, e, store, trace), store)
    case Compound(op, v, e) =>
      (match EvalE(w, e, store, trace)
       case Fails => Broken
       case Gives(y, t) =>
         if v !in store then Broken
         else
           match NewValue(op, store[v], y)
           case None => Broken
           case Some(z) => Normal(store[v := z], t))
    case Do(e) =>
      (match EvalE(w, e, store, trace)
       case Fails => Broken
       case Gives(_, t) => Normal(store, t))
    case PrintOf(e) =>
      (match EvalE(w, e, store, trace)
       case Fails => Broken
       case Gives(x, t) => Normal(store, t + [Printed(x)]))
  }

  function Stored(v: Name, value: Value, store: Store): Outcome {
    match value
    case Fails => Broken
    case Gives(x, t) => Normal(store[v := x], t)
  }

  function ExecAll(w: World, ss: seq<Simple>, store: Store, trace: Trace): Outcome {
    if ss == [] then Normal(store, trace)
    else
      match ExecAll(w, ss[..|ss| - 1], store, trace)
      case Broken => Broken
      case Hungry => Hungry
      case Normal(store', trace') => ExecSimple(w, ss[|ss| - 1], store', trace')
  }

  function ExecLoop(w: World, cond: Expr, body: seq<Simple>, store: Store, trace: Trace, fuel: nat): Outcome
    decreases fuel
  {
    if fuel == 0 then Hungry
    else
      match EvalE(w, cond, store, trace)
      case Fails => Broken
      case Gives(x, t) =>
        if x == 0 then Normal(store, t)
        else
          match ExecAll(w, body, store, t)
          case Broken => Broken
          case Hungry => Hungry
          case Normal(store', trace') => ExecLoop(w, cond, body, store', trace', fuel - 1)
  }

  function ExecStmt(w: World, s: Stmt, store: Store, trace: Trace, fuel: nat): Outcome {
    match s
    case Plain(x) => ExecSimple(w, x, store, trace)
    case If(c, thens, elses) =>
      (match EvalE(w, c, store, trace)
       case Fails => Broken
       case Gives(x, t) =>
         if x != 0 then ExecAll(w, thens, store, t)
         else if elses.Some? then ExecAll(w, elses.value, store, t)
         else Normal(store, t))
    case While(c, body) => ExecLoop(w, c, body, store, trace, fuel)
  }

  function ExecStmts(w: World, ss: seq<Stmt>, store: Store, trace: Trace, fuel: nat): Outcome {
    if ss == [] then Normal(store, trace)
    else
      match ExecStmts(w, ss[..|ss| - 1], store, trace, fuel)
      case Broken => Broken
      case Hungry => Hungry
      case Normal(store', trace') => ExecStmt(w, ss[|ss| - 1], store', trace', fuel)
  }

  datatype Result = Crashed | Unfinished | Returned(value: Option<Int64>, trace: Trace)

  /** The parameters as a store; of two with the same name the later one counts. */
  function ParamStore(params: seq<Name>, actuals: seq<Int64>): Store
    requires |actuals| == |params|
  {
    if params == [] then map[]
    else ParamStore(params[..|params| - 1], actuals[..|params| - 1])[params[|params| - 1] := actuals[|params| - 1]]
  }

  function RunFn(w: World, fn: Fn, actuals: seq<Int64>, fuel: nat): Result
    requires |actuals| == |fn.params|
  {
    match ExecStmts(w, fn.body, ParamStore(fn.params, actuals), [], fuel)
    case Broken => Crashed
    case Hungry => Unfinished
    case Normal(store, trace) =>
      match fn.tail
      case FallsOff => Returned(None, trace)
      case Returns(None) => Returned(None, trace)
      case Returns(Some(e)) =>
        (match EvalE(w, e, store, trace)
         case Fails => Crashed
         case Gives(x, t) => Returned(Some(x), t))
  }
}
