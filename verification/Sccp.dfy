/** Conditional constant propagation (src/opt_sccp.c): an optimistic lattice updated in
    place until nothing changes, then a rewrite of constants and decided branches. */
module Sccp {
  import opened Wrappers
  import opened Word64
  import opened Ssa
  import opened SsaVerify
  import opened StrictSsa
  import opened Folding

  datatype Level = Top | Known | Bottom

  /** As in the source, a cell keeps its value field when it falls to Bottom. */
  datatype Cell = Cell(state: Level, value: Int64)

  type Lattice = seq<Cell>

  // ---- The transfer function ----

  function MeetStep(acc: Cell, src: Cell): Cell {
    if src.state.Bottom? then acc.(state := Bottom)
    else if src.state.Known? then
      if acc.state.Top? then Cell(Known, src.value)
      else if acc.state.Known? && acc.value != src.value then acc.(state := Bottom)
      else acc
    else acc
  }

  predicate ArgsIn(args: seq<PhiArg>, n: nat) {
    forall k :: 0 <= k < |args| ==> args[k].src < n
  }

  function Meet(args: seq<PhiArg>, k: nat, L: Lattice): Cell
    requires k <= |args| && ArgsIn(args, |L|)
  {
    if k == 0 then Cell(Top, 0) else MeetStep(Meet(args, k - 1, L), L[args[k - 1].src])
  }

  predicate OpIn(op: Op, n: nat) {
    match op
    case Binop(_, l, r) => l < n && r < n
    case Cmp(_, l, r) => l < n && r < n
    case Phi(args) => ArgsIn(args, n)
    case Branch(c, _, _) => c < n
    case _ => true
  }

  predicate InstIn(inst: Inst, n: nat) {
    OpIn(inst.op, n) && (inst.dst.Some? ==> inst.dst.value < n)
  }

  /** What an operation tells about its result; `stay` is the answer when it tells nothing. */
  function Transfer(op: Op, L: Lattice, stay: Cell, lower: Cell): Cell
    requires OpIn(op, |L|)
  {
    match op
    case Const(x) => Cell(Known, x)
    case Binop(k, l, r) =>
      if L[l].state.Bottom? || L[r].state.Bottom? then lower
      else if L[l].state.Known? && L[r].state.Known? then
        (match FoldBinop(k, L[l].value, L[r].value)
         case None => stay
         case Some(x) => Cell(Known, x))
      else stay
    case Cmp(k, l, r) =>
      if L[l].state.Bottom? || L[r].state.Bottom? then lower
      else if L[l].state.Known? && L[r].state.Known? then Cell(Known, EvalCmp(k, L[l].value, L[r].value))
      else stay
    case Phi(args) => Meet(args, |args|, L)
    case _ => lower
  }

  /** The cell the source stores for the destination of `inst`. */
  function Update(inst: Inst, L: Lattice): Cell
    requires InstIn(inst, |L|) && inst.dst.Some?
  {
    var old' := L[inst.dst.value];
    if Tracked(inst.op) then Transfer(inst.op, L, old', old'.(state := Bottom))
    else if old'.state.Top? then old'.(state := Bottom)
    else old'
  }

  /** The operations the source does not send to its default case. */
  predicate Tracked(op: Op) {
    op.Const? || op.Binop? || op.Cmp? || op.Phi?
  }

  /** The same information as a function of the operands alone. */
  function Ideal(op: Op, L: Lattice): Cell
    requires OpIn(op, |L|)
  {
    Transfer(op, L, Cell(Top, 0), Cell(Bottom, 0))
  }

  // ---- The order ----

  predicate CellBelow(a: Cell, b: Cell) {
    b.state.Top? || a.state.Bottom? || (a.state.Known? && b.state.Known? && a.value == b.value)
  }

  /** Equal up to the unused value field of Top and Bottom cells. */
  predicate CellEquiv(a: Cell, b: Cell) {
    a.state == b.state && (a.state.Known? ==> a.value == b.value)
  }

  ghost predicate Below(M: Lattice, L: Lattice) {
    |M| == |L| && forall v :: 0 <= v < |L| ==> CellBelow(M[v], L[v])
  }

  ghost predicate Equiv(M: Lattice, L: Lattice) {
    |M| == |L| && forall v :: 0 <= v < |L| ==> CellEquiv(M[v], L[v])
  }

  lemma {:induction false} MeetMonotone(args: seq<PhiArg>, k: nat, M: Lattice, L: Lattice)
    requires k <= |args| && ArgsIn(args, |L|) && Below(M, L)
    ensures CellBelow(Meet(args, k, M), Meet(args, k, L))
  {
    if k > 0 {
      MeetMonotone(args, k - 1, M, L);
      assert CellBelow(M[args[k - 1].src], L[args[k - 1].src]);
    }
  }

  lemma {:induction false} MeetCongruent(args: seq<PhiArg>, k: nat, M: Lattice, L: Lattice)
    requires k <= |args| && ArgsIn(args, |L|) && Equiv(M, L)
    ensures Meet(args, k, M) == Meet(args, k, L)
  {
    if k > 0 {
      MeetCongruent(args, k - 1, M, L);
      assert CellEquiv(M[args[k - 1].src], L[args[k - 1].src]);
    }
  }

  /** A meet lies below every operand that is not Top. */
  lemma {:induction false} MeetBelowOperand(args: seq<PhiArg>, k: nat, L: Lattice, j: nat)
    requires j < k <= |args| && ArgsIn(args, |L|)
    ensures CellBelow(Meet(args, k, L), L[args[j].src])
  {
    if j < k - 1 {
      MeetBelowOperand(args, k - 1, L, j);
    }
  }

  /** A meet is Bottom exactly if an operand is or two constants differ, Top exactly if every
      operand is, and otherwise the constant they share. */
  lemma {:induction false} MeetExact(args: seq<PhiArg>, k: nat, L: Lattice)
    requires k <= |args| && ArgsIn(args, |L|)
    ensures var c := Meet(args, k, L);
            && (c.state.Bottom? <==> SomeBottom(args, k, L) || Conflict(args, k, L))
            && (c.state.Top? <==> forall j :: 0 <= j < k ==> L[args[j].src].state.Top?)
            && (c.state.Known? ==> exists j :: 0 <= j < k && L[args[j].src] == c)
  {
    if k > 0 {
      MeetExact(args, k - 1, L);
      var before, last := Meet(args, k - 1, L), L[args[k - 1].src];
      assert SomeBottom(args, k, L) <==> SomeBottom(args, k - 1, L) || last.state.Bottom?;
      if last.state.Known? {
        if before.state.Known? {
          KnownAgree(args, k - 1, L);
          var j :| 0 <= j < k - 1 && L[args[j].src] == before;
          assert before.value != last.value ==> Differ(L, args, j, k - 1);
        }
        assert Conflict(args, k, L) ==> Conflict(args, k - 1, L) || before.state.Bottom? || (before.state.Known? && before.value != last.value);
      } else {
        assert Conflict(args, k, L) <==> Conflict(args, k - 1, L);
      }
    }
  }

  predicate SomeBottom(args: seq<PhiArg>, k: nat, L: Lattice)
    requires k <= |args| && ArgsIn(args, |L|)
  {
    exists j :: 0 <= j < k && L[args[j].src].state.Bottom?
  }

  predicate Differ(L: Lattice, args: seq<PhiArg>, i: nat, j: nat)
    requires i < |args| && j < |args| && ArgsIn(args, |L|)
  {
    L[args[i].src].state.Known? && L[args[j].src].state.Known? && L[args[i].src].value != L[args[j].src].value
  }

  ghost predicate Conflict(args: seq<PhiArg>, k: nat, L: Lattice)
    requires k <= |args| && ArgsIn(args, |L|)
  {
    exists i: nat, j: nat :: i < k && j < k && Differ(L, args, i, j)
  }

  /** While a meet is a constant, all constants met are that one. */
  lemma {:induction false} KnownAgree(args: seq<PhiArg>, k: nat, L: Lattice)
    requires k <= |args| && ArgsIn(args, |L|) && Meet(args, k, L).state.Known?
    ensures forall j :: 0 <= j < k && L[args[j].src].state.Known? ==> L[args[j].src].value == Meet(args, k, L).value
  {
    forall j | 0 <= j < k && L[args[j].src].state.Known? ensures L[args[j].src].value == Meet(args, k, L).value {
      MeetBelowOperand(args, k, L, j);
    }
  }

  lemma IdealMonotone(op: Op, M: Lattice, L: Lattice)
    requires OpIn(op, |L|) && Below(M, L)
    ensures CellBelow(Ideal(op, M), Ideal(op, L))
  {
    match op
    case Phi(args) => MeetMonotone(args, |args|, M, L);
    case Binop(_, l, r) => assert CellBelow(M[l], L[l]) && CellBelow(M[r], L[r]);
    case Cmp(_, l, r) => assert CellBelow(M[l], L[l]) && CellBelow(M[r], L[r]);
    case _ =>
  }

  lemma UpdateStable(inst: Inst, M: Lattice, L: Lattice)
    requires InstIn(inst, |L|) && inst.dst.Some? && Equiv(M, L)
    requires M[inst.dst.value] == Update(inst, L)
    ensures Update(inst, M) == M[inst.dst.value]
  {
    match inst.op
    case Phi(args) => MeetCongruent(args, |args|, M, L);
    case Binop(_, l, r) => assert CellEquiv(M[l], L[l]) && CellEquiv(M[r], L[r]);
    case Cmp(_, l, r) => assert CellEquiv(M[l], L[l]) && CellEquiv(M[r], L[r]);
    case _ =>
  }

  // ---- The invariant of the iteration ----

  ghost predicate Ready(f: Func) {
    SingleDef(f) && InBounds(f)
  }

  lemma ReadyInst(f: Func, b: nat, i: nat)
    requires Ready(f) && f.Has(b, i)
    ensures InstIn(f.At(b, i), f.nextVreg)
  {
    var op := f.At(b, i).op;
    match op
    case Binop(_, l, r) => assert Reads(op, l) && Reads(op, r);
    case Cmp(_, l, r) => assert Reads(op, l) && Reads(op, r);
    case Branch(c, _, _) => assert Reads(op, c);
    case Phi(args) =>
      forall k | 0 <= k < |args| ensures args[k].src < f.nextVreg {
        assert Reads(op, args[k].src);
      }
    case _ =>
  }

  /** Where the iteration stands with respect to one instruction: its cell has not yet
      fallen below what its operands say, and untracked results are never constants. */
  predicate Pending(inst: Inst, L: Lattice) {
    InstIn(inst, |L|) &&
    (inst.dst.Some? ==>
       && CellBelow(Ideal(inst.op, L), L[inst.dst.value])
       && (!Tracked(inst.op) ==> !L[inst.dst.value].state.Known?))
  }

  ghost predicate Optimistic(f: Func, L: Lattice) {
    && |L| == f.nextVreg
    && (forall v :: v in f.params ==> v < |L| && L[v].state.Bottom?)
    && (forall b, i :: f.Has(b, i) ==> Pending(f.At(b, i), L))
  }

  predicate Settled(inst: Inst, L: Lattice) {
    InstIn(inst, |L|) && (inst.dst.Some? ==> L[inst.dst.value] == Update(inst, L))
  }

  ghost predicate Fixpoint(f: Func, L: Lattice) {
    forall b, i :: f.Has(b, i) ==> Settled(f.At(b, i), L)
  }

  /** One update keeps the iteration optimistic and moves one cell down. */
  lemma UpdateKeepsOptimistic(f: Func, b: nat, i: nat, L: Lattice, M: Lattice)
    requires Ready(f) && Optimistic(f, L) && f.Has(b, i) && f.At(b, i).dst.Some?
    requires InstIn(f.At(b, i), |L|)
    requires M == L[f.At(b, i).dst.value := Update(f.At(b, i), L)]
    ensures Below(M, L) && Optimistic(f, M)
  {
    var inst := f.At(b, i);
    assert Pending(inst, L);
    assert CellBelow(M[inst.dst.value], L[inst.dst.value]);
    assert Below(M, L);
    forall c, j | f.Has(c, j)
      ensures Pending(f.At(c, j), M)
    {
      var other := f.At(c, j);
      assert Pending(other, L);
      IdealMonotone(other.op, M, L);
      if other.dst.Some? && other.dst == inst.dst {
        assert b == c && i == j;
      }
    }
  }

  /** No optimistic fixpoint says more than `L`: every constant any of them finds, `L` has. */
  ghost predicate AboveAll(f: Func, L: Lattice) {
    forall M: Lattice :: Optimistic(f, M) && Fixpoint(f, M) ==> Below(M, L)
  }

  lemma UpdateMonotone(inst: Inst, M: Lattice, L: Lattice)
    requires InstIn(inst, |L|) && inst.dst.Some? && Below(M, L) && Pending(inst, M)
    ensures CellBelow(Update(inst, M), Update(inst, L))
  {
    assert CellBelow(M[inst.dst.value], L[inst.dst.value]);
    match inst.op
    case Phi(args) => MeetMonotone(args, |args|, M, L);
    case Binop(_, l, r) => assert CellBelow(M[l], L[l]) && CellBelow(M[r], L[r]);
    case Cmp(_, l, r) => assert CellBelow(M[l], L[l]) && CellBelow(M[r], L[r]);
    case _ =>
  }

  /** An update never falls below a fixpoint. */
  lemma UpdateKeepsAbove(f: Func, b: nat, i: nat, L: Lattice, L': Lattice)
    requires f.Has(b, i) && InstIn(f.At(b, i), |L|) && |L| == f.nextVreg && AboveAll(f, L)
    requires f.At(b, i).dst.None? ==> L' == L
    requires f.At(b, i).dst.Some? ==> L' == L[f.At(b, i).dst.value := Update(f.At(b, i), L)]
    ensures AboveAll(f, L')
  {
    var inst := f.At(b, i);
    if inst.dst.Some? {
      forall M: Lattice | Optimistic(f, M) && Fixpoint(f, M) ensures Below(M, L') {
        assert Pending(inst, M) && Settled(inst, M) && Below(M, L);
        UpdateMonotone(inst, M, L);
        hide Update, Optimistic, Fixpoint, AboveAll, CellBelow;
      }
    }
  }

  // ---- Counting passes ----

  function Rank(s: Level): nat {
    match s case Top => 0 case Known => 1 case Bottom => 2
  }

  function TotalRank(L: Lattice): (r: nat)
    ensures r <= 2 * |L|
  {
    if L == [] then 0 else Rank(L[0].state) + TotalRank(L[1..])
  }

  /** Falling strictly raises the total rank, which 2n bounds. */
  lemma {:induction false} RankRises(M: Lattice, L: Lattice)
    requires Below(M, L)
    ensures TotalRank(M) >= TotalRank(L)
    ensures !Equiv(M, L) ==> TotalRank(M) > TotalRank(L)
  {
    if L != [] {
      assert CellBelow(M[0], L[0]);
      assert Below(M[1..], L[1..]);
      RankRises(M[1..], L[1..]);
      if CellEquiv(M[0], L[0]) && Equiv(M[1..], L[1..]) {
        forall v | 0 <= v < |L| ensures CellEquiv(M[v], L[v]) {
          if v > 0 { assert M[v] == M[1..][v - 1] && L[v] == L[1..][v - 1]; }
        }
      }
    }
  }

  lemma BelowTransitive(N: Lattice, M: Lattice, L: Lattice)
    requires Below(N, M) && Below(M, L)
    ensures Below(N, L)
  {
    forall v | 0 <= v < |L| ensures CellBelow(N[v], L[v]) {
      assert CellBelow(N[v], M[v]) && CellBelow(M[v], L[v]);
    }
  }

  /** A chain that ends where it began never moved in between. */
  lemma EquivSandwich(N: Lattice, M: Lattice, L: Lattice)
    requires Below(N, M) && Below(M, L) && Equiv(N, L)
    ensures Equiv(N, M) && Equiv(M, L)
  {
    forall v | 0 <= v < |L| ensures CellEquiv(N[v], M[v]) && CellEquiv(M[v], L[v]) {
      assert CellBelow(N[v], M[v]) && CellBelow(M[v], L[v]) && CellEquiv(N[v], L[v]);
    }
  }

  // ---- The iteration ----

  method VisitInst(inst: Inst, lattice: array<Cell>) returns (changed: bool)
    requires InstIn(inst, lattice.Length)
    modifies lattice
    ensures inst.dst.None? ==> lattice[..] == old(lattice[..])
    ensures inst.dst.Some? ==> lattice[..] == old(lattice[..])[inst.dst.value := Update(inst, old(lattice[..]))]
    ensures changed <==> lattice[..] != old(lattice[..])
  {
    changed := false;
    if inst.dst.None? { return; }
    var d := inst.dst.value;
    ghost var L := lattice[..];
    var before := lattice[d];
    assert before == L[d];
    match inst.op {
      case Const(x) =>
        if !lattice[d].state.Known? || lattice[d].value != x {
          lattice[d] := Cell(Known, x);
          changed := true;
        }
      case Binop(k, l, r) =>
        if lattice[l].state.Bottom? || lattice[r].state.Bottom? {
          if !lattice[d].state.Bottom? {
            lattice[d] := lattice[d].(state := Bottom);
            changed := true;
          }
        } else if lattice[l].state.Known? && lattice[r].state.Known? {
          var folded := FoldBinop(k, lattice[l].value, lattice[r].value);
          if folded.Some? && (!lattice[d].state.Known? || lattice[d].value != folded.value) {
            lattice[d] := Cell(Known, folded.value);
            changed := true;
          }
        }
      case Cmp(k, l, r) =>
        if lattice[l].state.Bottom? || lattice[r].state.Bottom? {
          if !lattice[d].state.Bottom? {
            lattice[d] := lattice[d].(state := Bottom);
            changed := true;
          }
        } else if lattice[l].state.Known? && lattice[r].state.Known? {
          var folded := EvalCmp(k, lattice[l].value, lattice[r].value);
          if !lattice[d].state.Known? || lattice[d].value != folded {
            lattice[d] := Cell(Known, folded);
            changed := true;
          }
        }
      case Phi(args) =>
        var result := Cell(Top, 0);
        for k := 0 to |args|
          invariant result == Meet(args, k, L)
        {
          result := MeetStep(result, lattice[args[k].src]);
        }
        if lattice[d] != result {
          lattice[d] := result;
          changed := true;
        }
      case _ =>
        if lattice[d].state.Top? {
          lattice[d] := lattice[d].(state := Bottom);
          changed := true;
        }
    }
    assert lattice[d] == Update(inst, L);
    assert lattice[..] == L[d := Update(inst, L)];
    assert changed <==> lattice[d] != before;
    assert lattice[..][d] == lattice[d];
  }

  predicate Before(c: int, j: int, b: int, i: int) {
    c < b || (c == b && j < i)
  }

  /** Where a pass that started from `L0` stands when it is about to visit (b, i). */
  ghost predicate Progress(f: Func, b: int, i: int, L0: Lattice, L: Lattice, changed: bool) {
    && Optimistic(f, L)
    && Below(L, L0)
    && (!changed ==> L == L0)
    && (Fixpoint(f, L0) ==> !changed)
    && (Equiv(L, L0) ==> forall c, j :: f.Has(c, j) && Before(c, j, b, i) ==> Settled(f.At(c, j), L))
  }

  lemma ProgressStep(f: Func, b: nat, i: nat, L0: Lattice, L: Lattice, M: Lattice, changed: bool)
    requires Ready(f) && f.Has(b, i) && |L0| == f.nextVreg
    requires Progress(f, b, i, L0, L, changed)
    requires InstIn(f.At(b, i), |L|)
    requires f.At(b, i).dst.None? ==> M == L
    requires f.At(b, i).dst.Some? ==> M == L[f.At(b, i).dst.value := Update(f.At(b, i), L)]
    ensures Progress(f, b, i + 1, L0, M, changed || M != L)
  {
    var inst := f.At(b, i);
    if inst.dst.None? {
      assert Settled(inst, M);
      return;
    }
    UpdateKeepsOptimistic(f, b, i, L, M);
    BelowTransitive(M, L, L0);
    if Fixpoint(f, L0) {
      assert Settled(inst, L0);
      assert M == L;
    }
    if Equiv(M, L0) {
      EquivSandwich(M, L, L0);
      forall c, j | f.Has(c, j) && Before(c, j, b, i + 1)
        ensures Settled(f.At(c, j), M)
      {
        var other := f.At(c, j);
        if c == b && j == i {
          UpdateStable(inst, M, L);
        } else {
          assert Settled(other, L);
          if other.dst.Some? {
            assert other.dst != inst.dst;
            UpdateStable(other, M, L);
          }
        }
      }
    }
  }

  /** One sweep over the whole function. */
  method Pass(func: SsaFunc, lattice: array<Cell>) returns (changed: bool)
    requires Ready(func.Value()) && Optimistic(func.Value(), lattice[..])
    modifies lattice
    ensures Optimistic(func.Value(), lattice[..]) && Below(lattice[..], old(lattice[..]))
    ensures !changed ==> lattice[..] == old(lattice[..])
    ensures Equiv(lattice[..], old(lattice[..])) ==> Fixpoint(func.Value(), lattice[..])
    ensures Fixpoint(func.Value(), old(lattice[..])) ==> !changed
    ensures AboveAll(func.Value(), old(lattice[..])) ==> AboveAll(func.Value(), lattice[..])
  {
    hide AboveAll;
    changed := false;
    ghost var f, L0 := func.Value(), lattice[..];
    for b := 0 to |func.blocks|
      invariant Progress(f, b, 0, L0, lattice[..], changed)
      invariant AboveAll(f, L0) ==> AboveAll(f, lattice[..])
    {
      for i := 0 to |func.blocks[b]|
        invariant Progress(f, b, i, L0, lattice[..], changed)
        invariant AboveAll(f, L0) ==> AboveAll(f, lattice[..])
      {
        ghost var L := lattice[..];
        ReadyInst(f, b, i);
        var moved := VisitInst(func.blocks[b][i], lattice);
        if AboveAll(f, L) {
          UpdateKeepsAbove(f, b, i, L, lattice[..]);
        }
        ProgressStep(f, b, i, L0, L, lattice[..], changed);
        changed := changed || moved;
      }
    }
    assert Equiv(lattice[..], L0) ==> Fixpoint(f, lattice[..]);
  }

  const MAX_PASSES := 1000

  /** The fixpoint loop.  The lattice it leaves is a fixpoint unless the cap on passes cut
      the loop short, and with n registers it needs at most 2n + 2 passes: all but two of
      them lower a cell, one may only rewrite the unused value of a Bottom PHI, and the
      last is quiet.  No fixpoint knows more constants. */
  method Solve(func: SsaFunc) returns (lattice: array<Cell>, passes: nat)
    requires Ready(func.Value())
    ensures fresh(lattice) && Optimistic(func.Value(), lattice[..])
    ensures passes <= 2 * func.nextVreg + 2 && passes <= 1000
    ensures passes < 1000 ==> Fixpoint(func.Value(), lattice[..])
    ensures 2 * func.nextVreg + 2 <= 1000 ==> Fixpoint(func.Value(), lattice[..])
    ensures AboveAll(func.Value(), lattice[..])
  {
    hide AboveAll;
    ghost var f := func.Value();
    lattice := new Cell[func.nextVreg](_ => Cell(Top, 0));
    for p := 0 to |func.params|
      invariant forall v :: v in func.params[..p] ==> v < lattice.Length && lattice[v].state.Bottom?
      invariant forall v :: 0 <= v < lattice.Length && v !in func.params[..p] ==> lattice[v] == Cell(Top, 0)
    {
      assert func.params[p] in func.params;
      lattice[func.params[p]] := lattice[func.params[p]].(state := Bottom);
      assert func.params[..p + 1] == func.params[..p] + [func.params[p]];
    }
    assert func.params[..|func.params|] == func.params;
    StartsOptimistic(f, lattice[..]);
    StartsAbove(f, lattice[..]);

    var changed := true;
    passes := 0;
    while changed && passes < MAX_PASSES
      invariant Optimistic(f, lattice[..]) && AboveAll(f, lattice[..])
      invariant passes <= MAX_PASSES
      invariant !changed ==> Fixpoint(f, lattice[..])
      invariant passes <= TotalRank(lattice[..])
                || (passes <= TotalRank(lattice[..]) + 1 && Fixpoint(f, lattice[..]))
                || (!changed && passes <= TotalRank(lattice[..]) + 2)
      decreases MAX_PASSES - passes
    {
      ghost var before := lattice[..];
      changed := Pass(func, lattice);
      RankRises(lattice[..], before);
      passes := passes + 1;
    }
  }

  lemma StartsOptimistic(f: Func, L: Lattice)
    requires Ready(f) && |L| == f.nextVreg
    requires forall v :: v in f.params ==> v < |L| && L[v].state.Bottom?
    requires forall v :: 0 <= v < |L| && v !in f.params ==> L[v] == Cell(Top, 0)
    ensures Optimistic(f, L)
  {
    forall b, i | f.Has(b, i) ensures Pending(f.At(b, i), L) {
      ReadyInst(f, b, i);
    }
  }

  lemma StartsAbove(f: Func, L: Lattice)
    requires |L| == f.nextVreg && forall v :: 0 <= v < |L| && v !in f.params ==> L[v].state.Top?
    ensures AboveAll(f, L)
  {
  }

  // ---- The rewrite ----

  /** The two in-place replacements of src/opt_sccp.c:198-219, in order. */
  function Rewrite(inst: Inst, L: Lattice): Inst
    requires InstIn(inst, |L|)
  {
    if inst.dst.Some? && L[inst.dst.value].state.Known? then
      if inst.op.Const? then inst else inst.(op := Const(L[inst.dst.value].value))
    else if inst.op.Branch? && L[inst.op.cond].state.Known? then
      inst.(op := Jump(if L[inst.op.cond].value != 0 then inst.op.trueBb else inst.op.falseBb))
    else inst
  }

  ghost predicate IsRewrite(f: Func, L: Lattice, g: Func) {
    && SameShape(f, g)
    && forall b, i :: f.Has(b, i) ==> InstIn(f.At(b, i), |L|) && g.At(b, i) == Rewrite(f.At(b, i), L)
  }

  method RewriteAll(func: SsaFunc, lattice: array<Cell>)
    requires Ready(func.Value()) && Optimistic(func.Value(), lattice[..])
    modifies func
    ensures IsRewrite(old(func.Value()), lattice[..], func.Value())
  {
    ghost var f, L := func.Value(), lattice[..];
    for b := 0 to |func.blocks|
      invariant SameShape(f, func.Value())
      invariant forall c, j :: f.Has(c, j) && c < b ==> InstIn(f.At(c, j), |L|) && func.blocks[c][j] == Rewrite(f.At(c, j), L)
      invariant forall c :: b <= c < |f.blocks| ==> func.blocks[c] == f.blocks[c]
    {
      for i := 0 to |func.blocks[b]|
        invariant SameShape(f, func.Value())
        invariant forall c, j :: f.Has(c, j) && Before(c, j, b, i) ==> InstIn(f.At(c, j), |L|) && func.blocks[c][j] == Rewrite(f.At(c, j), L)
        invariant forall j :: i <= j < |f.blocks[b]| ==> func.blocks[b][j] == f.blocks[b][j]
        invariant forall c :: b < c < |f.blocks| ==> func.blocks[c] == f.blocks[c]
      {
        ReadyInst(f, b, i);
        var inst := func.blocks[b][i];
        if inst.dst.Some? && lattice[inst.dst.value].state.Known? {
          if !inst.op.Const? {
            inst := inst.(op := Const(lattice[inst.dst.value].value));
          }
        }
        if inst.op.Branch? && lattice[inst.op.cond].state.Known? {
          inst := inst.(op := Jump(if lattice[inst.op.cond].value != 0 then inst.op.trueBb else inst.op.falseBb));
        }
        func.blocks := func.blocks[b := func.blocks[b][i := inst]];
      }
    }
  }

  // ---- Why the rewrite is right ----

  /** What the lattice claims of an environment: registers still at Top have never been
      written, and registers marked constant hold that constant. */
  ghost predicate Agrees(L: Lattice, env: Env) {
    forall v :: v in env ==>
      v < |L| && !L[v].state.Top? && (L[v].state.Known? ==> env[v] == L[v].value)
  }

  /** At a fixpoint, executing an instruction keeps the lattice's claims. */
  lemma ExecAgrees(w: World, f: Func, L: Lattice, b: nat, i: nat, env: Env, snap: Env, prev: Option<Label>, trace: Trace)
    requires Ready(f) && Optimistic(f, L) && Fixpoint(f, L) && f.Has(b, i)
    requires !f.At(b, i).op.IsTerminator()
    requires Agrees(L, env) && Agrees(L, snap)
    ensures var r := Exec(w, f.At(b, i), env, snap, prev, trace); r.Went? ==> Agrees(L, r.env)
  {
    var inst := f.At(b, i);
    assert Settled(inst, L) && Pending(inst, L);
    if inst.op.IsPure() && Eval(inst.op, env, snap, prev).Some? {
      match inst.op {
        case Binop(k, l, r) => FoldAgrees(k, env[l], env[r]);
        case Phi(args) =>
          var k := PhiSourceIsArg(args, prev.value);
          MeetBelowOperand(args, |args|, L, k);
        case _ =>
      }
    }
  }

  /** A rewritten block runs exactly as the original did. */
  lemma {:induction false} RewriteBlock(w: World, f: Func, L: Lattice, g: Func, b: nat, i: nat,
                                        env: Env, snap: Env, prev: Option<Label>, trace: Trace)
    requires Ready(f) && Optimistic(f, L) && Fixpoint(f, L) && IsRewrite(f, L, g)
    requires b < |f.blocks| && i <= |f.blocks[b]|
    requires Agrees(L, env) && Agrees(L, snap)
    requires !RunBlock(w, f.blocks[b], i, env, snap, prev, trace).Fault?
    ensures RunBlock(w, g.blocks[b], i, env, snap, prev, trace) == RunBlock(w, f.blocks[b], i, env, snap, prev, trace)
    ensures var r := RunBlock(w, f.blocks[b], i, env, snap, prev, trace); r.Goto? ==> Agrees(L, r.env)
    decreases |f.blocks[b]| - i
  {
    assert f.Has(b, i);
    var inst, inst' := f.At(b, i), g.At(b, i);
    assert inst' == Rewrite(inst, L);
    if !inst.op.IsTerminator() {
      ExecAgrees(w, f, L, b, i, env, snap, prev, trace);
      var r := Exec(w, inst, env, snap, prev, trace);
      RewrittenExec(w, f, L, b, i, env, snap, prev, trace);
      RewriteBlock(w, f, L, g, b, i + 1, r.env, snap, prev, r.trace);
    }
  }

  lemma RewrittenExec(w: World, f: Func, L: Lattice, b: nat, i: nat, env: Env, snap: Env, prev: Option<Label>, trace: Trace)
    requires Ready(f) && Optimistic(f, L) && Fixpoint(f, L) && f.Has(b, i)
    requires InstIn(f.At(b, i), |L|)
    requires !f.At(b, i).op.IsTerminator()
    requires Agrees(L, env) && Agrees(L, snap)
    requires Exec(w, f.At(b, i), env, snap, prev, trace).Went?
    ensures !Rewrite(f.At(b, i), L).op.IsTerminator()
    ensures Exec(w, Rewrite(f.At(b, i), L), env, snap, prev, trace) == Exec(w, f.At(b, i), env, snap, prev, trace)
  {
    var inst := f.At(b, i);
    assert Pending(inst, L);
    if inst.dst.Some? && L[inst.dst.value].state.Known? {
      ExecAgrees(w, f, L, b, i, env, snap, prev, trace);
      assert Tracked(inst.op);
      var d := inst.dst.value;
      var r := Exec(w, inst, env, snap, prev, trace);
      assert d in r.env && r.env[d] == L[d].value;
    }
  }

  /** Along every run of the original that has not faulted, the rewritten function is in
      the very same state, and the lattice's claims hold of it. */
  lemma {:induction false} RewriteRun(w: World, f: Func, L: Lattice, g: Func, actuals: seq<Int64>, n: nat)
    requires Ready(f) && Optimistic(f, L) && Fixpoint(f, L) && IsRewrite(f, L, g)
    requires !Run(w, f, actuals, n).Faulted?
    ensures Run(w, g, actuals, n) == Run(w, f, actuals, n)
    ensures Run(w, f, actuals, n).Running? ==> Agrees(L, Run(w, f, actuals, n).env)
  {
    if n == 0 {
      forall v | v in Bind(f.params, actuals) ensures v in f.params {
        BindDomain(f.params, actuals, v);
      }
    } else {
      RewriteRun(w, f, L, g, actuals, n - 1);
      var s := Run(w, f, actuals, n - 1);
      if s.Running? && s.block < |f.blocks| {
        RewriteBlock(w, f, L, g, s.block, 0, s.env, s.env, s.prev, s.trace);
      }
    }
  }

  /** Replacing what the fixpoint calls constant preserves meaning. */
  lemma RewritePreserves(f: Func, L: Lattice, g: Func)
    requires Ready(f) && Optimistic(f, L) && Fixpoint(f, L) && IsRewrite(f, L, g)
    ensures Refines(f, g)
  {
    forall w: World, actuals, n: nat | !Run(w, f, actuals, n).Faulted?
      ensures Observe(Run(w, g, actuals, n)) == Observe(Run(w, f, actuals, n))
    {
      RewriteRun(w, f, L, g, actuals, n);
    }
  }

  /** The fixpoint is a fact about every run: a register marked constant holds exactly
      that constant whenever it holds anything, and one left at Top is never written. */
  lemma FixpointIsSound(w: World, f: Func, L: Lattice, actuals: seq<Int64>, n: nat)
    requires Ready(f) && Optimistic(f, L) && Fixpoint(f, L)
    requires Run(w, f, actuals, n).Running?
    ensures Agrees(L, Run(w, f, actuals, n).env)
  {
    var g := f.(blocks := seq(|f.blocks|, b requires 0 <= b < |f.blocks| =>
      seq(|f.blocks[b]|, i requires 0 <= i < |f.blocks[b]| =>
        if InstIn(f.blocks[b][i], |L|) then Rewrite(f.blocks[b][i], L) else f.blocks[b][i])));
    forall b, i | f.Has(b, i) ensures InstIn(f.At(b, i), |L|) { ReadyInst(f, b, i); }
    RewriteRun(w, f, L, g, actuals, n);
  }

  // ---- The pass ----

  /** Only pure results are ever called constant, so the rewrite only simplifies. */
  lemma RewriteSimplifies(f: Func, L: Lattice, g: Func)
    requires Ready(f) && Optimistic(f, L) && IsRewrite(f, L, g)
    ensures Simplifies(f, g)
  {
    forall b, i | f.Has(b, i) ensures SimplerInst(f.At(b, i), g.At(b, i)) {
      assert Pending(f.At(b, i), L) && g.At(b, i) == Rewrite(f.At(b, i), L);
    }
  }

  /** The optimistic fixpoint that knows the most constants. */
  ghost predicate Greatest(f: Func, L: Lattice) {
    Optimistic(f, L) && Fixpoint(f, L) && AboveAll(f, L)
  }

  /** The fixpoint is reached for up to 499 registers, and then meaning is preserved. */
  method OptSccp(func: SsaFunc)
    requires Ready(func.Value())
    modifies func
    ensures Simplifies(old(func.Value()), func.Value())
    ensures 2 * func.Value().nextVreg + 2 <= 1000 ==> Refines(old(func.Value()), func.Value())
    ensures 2 * func.Value().nextVreg + 2 <= 1000 ==>
              exists L :: Greatest(old(func.Value()), L) && IsRewrite(old(func.Value()), L, func.Value())
  {
    ghost var f := func.Value();
    if func.nextVreg == 0 {
      NoRegisters(f);
      return;
    }
    var lattice, passes := Solve(func);
    RewriteAll(func, lattice);
    RewriteSimplifies(f, lattice[..], func.Value());
    if 2 * func.nextVreg + 2 <= MAX_PASSES {
      RewritePreserves(f, lattice[..], func.Value());
    }
  }

  lemma NoRegisters(f: Func)
    requires Ready(f) && f.nextVreg == 0
    ensures Optimistic(f, []) && Fixpoint(f, []) && IsRewrite(f, [], f) && Refines(f, f)
  {
    forall b, i | f.Has(b, i) ensures InstIn(f.At(b, i), 0) && Rewrite(f.At(b, i), []) == f.At(b, i) {
      ReadyInst(f, b, i);
    }
    RefinesReflexive(f);
  }
}
