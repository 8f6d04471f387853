/** Linear-scan register allocation (src/regalloc.c:93-265) over a sorted list of live
    intervals: expiry, allocation of the lowest free register, and eviction. */
module LinearScan {
  import opened Wrappers

  datatype Interval = Interval(vreg: nat, start: nat, end: nat, isParam: bool)

  // ---- Registers (src/common.h:321-332) ----

  const REG_NONE: nat := 0
  const REG_RAX: nat := 1
  const REG_RBX: nat := 4
  const REG_RSP: nat := 5
  const REG_RBP: nat := 6
  const REG_R12: nat := 13
  const REG_R15: nat := 16
  const REG_COUNT: nat := 25

  /** RDI, RSI, RDX, RCX, R8, R9. */
  const PARAM_REGS: seq<nat> := [8, 7, 3, 2, 9, 10]

  lemma ParamRegsInRange(p: nat)
    requires p < 6
    ensures p < |PARAM_REGS| && PARAM_REGS[p] < REG_COUNT
  {
    assert PARAM_REGS == [8, 7, 3, 2, 9, 10];
  }

  predicate Allocatable(r: nat) {
    REG_RAX <= r <= REG_R15 && r != REG_RSP && r != REG_RBP
  }

  /** RAX, RCX, RDX, RSI, RDI, R8 to R11, RBX, R12 to R15 (src/common.h:399-403). */
  const ALLOC_GPRS: seq<nat> := [1, 2, 3, 7, 8, 9, 10, 11, 12, 4, 13, 14, 15, 16]

  /** Every register but the stack and the base pointer is in the list. */
  lemma AllListed(r: nat)
    ensures Allocatable(r) <==> r in ALLOC_GPRS
  {
    var rs := ALLOC_GPRS;
    assert rs[0] == 1 && rs[1] == 2 && rs[2] == 3 && rs[9] == 4 && rs[3] == 7 && rs[4] == 8 && rs[5] == 9 && rs[6] == 10;
    assert rs[7] == 11 && rs[8] == 12 && rs[10] == 13 && rs[11] == 14 && rs[12] == 15 && rs[13] == 16;
  }

  /** Whose contents a caller finds unchanged (src/common.h:388-392). */
  predicate CalleeSaved(r: nat) {
    r == REG_RBX || r == REG_RBP || REG_R12 <= r <= REG_R15
  }

  /** Registers that carry the parameters in are kept out of the allocation. */
  predicate Reserved(params: seq<nat>, r: nat) {
    exists p :: 0 <= p < |params| && p < 6 && PARAM_REGS[p] == r
  }

  // ---- The problem ----

  datatype Problem = Problem(sorted: seq<Interval>, nvregs: nat, params: seq<nat>)

  ghost predicate WellPosed(pb: Problem) {
    && (forall j :: 0 <= j < |pb.sorted| ==> pb.sorted[j].vreg < pb.nvregs && pb.sorted[j].start <= pb.sorted[j].end)
    && (forall j, k :: 0 <= j < k < |pb.sorted| ==> pb.sorted[j].start <= pb.sorted[k].start && pb.sorted[j].vreg != pb.sorted[k].vreg)
    && (forall j :: 0 <= j < |pb.sorted| ==> (pb.sorted[j].isParam <==> pb.sorted[j].vreg in pb.params))
    && (forall p, q :: 0 <= p < q < |pb.params| ==> pb.params[p] != pb.params[q])
    && (forall v :: v in pb.params ==> v < pb.nvregs)
  }

  /** The calling-convention register of a parameter, or none. */
  ghost function Home(params: seq<nat>, v: nat): (r: nat)
    ensures r != REG_NONE ==> v in params && Reserved(params, r)
  {
    if exists p :: 0 <= p < |params| && p < 6 && params[p] == v then
      var p :| 0 <= p < |params| && p < 6 && params[p] == v; PARAM_REGS[p]
    else REG_NONE
  }

  lemma HomesDiffer(params: seq<nat>, u: nat, v: nat)
    requires forall p, q :: 0 <= p < q < |params| ==> params[p] != params[q]
    requires u != v && Home(params, u) != REG_NONE
    ensures Home(params, u) != Home(params, v)
  {
    if Home(params, v) != REG_NONE {
      var p :| 0 <= p < |params| && p < 6 && params[p] == u && Home(params, u) == PARAM_REGS[p];
      var q :| 0 <= q < |params| && q < 6 && params[q] == v && Home(params, v) == PARAM_REGS[q];
      assert p != q;
    }
  }

  lemma HomeAt(params: seq<nat>, p: nat)
    requires forall p, q :: 0 <= p < q < |params| ==> params[p] != params[q]
    requires p < |params|
    ensures Home(params, params[p]) == if p < 6 then PARAM_REGS[p] else REG_NONE
  {
    forall q | 0 <= q < |params| && params[q] == params[p] ensures q == p {}
  }

  // ---- The state of the scan ----

  /** `phys` and `active` are indexed by and hold positions in the sorted list. */
  datatype Alloc = Alloc(phys: seq<nat>, regOf: seq<nat>, slotOf: seq<int>, slots: nat, available: seq<bool>, active: seq<nat>)

  ghost predicate Sized(pb: Problem, a: Alloc) {
    |a.phys| == |pb.sorted| && |a.regOf| == pb.nvregs && |a.slotOf| == pb.nvregs && |a.available| == REG_COUNT
  }

  /** The active list: positions already met, each with a register, no register twice. */
  ghost predicate ActiveOk(pb: Problem, i: nat, a: Alloc)
    requires Sized(pb, a)
  {
    && (forall x :: 0 <= x < |a.active| ==> a.active[x] < i && a.active[x] < |a.phys| && a.phys[a.active[x]] != REG_NONE)
    && (forall x, y :: 0 <= x < y < |a.active| ==> a.active[x] != a.active[y] && a.phys[a.active[x]] != a.phys[a.active[y]])
  }

  /** Registers handed out are allocatable and never carry parameters; free ones are held
      by nobody active. */
  ghost predicate FreeOk(pb: Problem, a: Alloc)
    requires Sized(pb, a)
  {
    && (forall j :: 0 <= j < |a.phys| && a.phys[j] != REG_NONE ==> Allocatable(a.phys[j]) && !Reserved(pb.params, a.phys[j]))
    && (forall r :: 0 <= r < REG_COUNT && a.available[r] ==> Allocatable(r) && !Reserved(pb.params, r))
    && (forall x :: 0 <= x < |a.active| && a.active[x] < |a.phys| && a.phys[a.active[x]] < REG_COUNT ==> !a.available[a.phys[a.active[x]]])
  }

  /** Holders of a register that are no longer active ended before `now`. */
  ghost predicate PastOk(pb: Problem, i: nat, now: nat, a: Alloc)
    requires Sized(pb, a)
  {
    && (forall j :: i <= j < |a.phys| ==> a.phys[j] == REG_NONE)
    && (forall j :: 0 <= j < |a.phys| && a.phys[j] != REG_NONE && j !in a.active ==> pb.sorted[j].end < now)
  }

  /** Two intervals that share a register do not overlap. */
  ghost predicate Disjoint(pb: Problem, a: Alloc)
    requires Sized(pb, a)
  {
    forall j, k :: 0 <= j < k < |a.phys| && a.phys[j] == a.phys[k] != REG_NONE ==> pb.sorted[j].end < pb.sorted[k].start
  }

  /** What the result maps say. */
  ghost predicate MapsOk(pb: Problem, a: Alloc)
    requires Sized(pb, a)
  {
    && (forall j :: 0 <= j < |a.phys| && pb.sorted[j].vreg < pb.nvregs ==>
          a.regOf[pb.sorted[j].vreg] == if a.phys[j] != REG_NONE then a.phys[j] else Home(pb.params, pb.sorted[j].vreg))
    && (forall v :: 0 <= v < pb.nvregs && (forall j :: 0 <= j < |pb.sorted| ==> pb.sorted[j].vreg != v) ==> a.regOf[v] == Home(pb.params, v))
  }

  /** Spill slots are numbered without repetition, and whoever went without a register has
      one. */
  ghost predicate SlotsOk(pb: Problem, i: nat, a: Alloc)
    requires Sized(pb, a)
  {
    && (forall v :: 0 <= v < pb.nvregs ==> -1 <= a.slotOf[v] < a.slots)
    && (forall u, v :: 0 <= u < v < pb.nvregs && a.slotOf[u] == a.slotOf[v] ==> a.slotOf[u] == -1)
    && (forall j :: 0 <= j < i && j < |a.phys| && pb.sorted[j].vreg < pb.nvregs && a.phys[j] == REG_NONE ==> a.slotOf[pb.sorted[j].vreg] >= 0)
    && (forall j :: i <= j < |a.phys| && pb.sorted[j].vreg < pb.nvregs ==> a.slotOf[pb.sorted[j].vreg] == -1)
  }

  /** Parameters that got a register have kept it. */
  ghost predicate Inv(pb: Problem, i: nat, now: nat, a: Alloc) {
    && WellPosed(pb) && Sized(pb, a) && i <= |pb.sorted|
    && ActiveOk(pb, i, a) && FreeOk(pb, a) && PastOk(pb, i, now, a)
    && Disjoint(pb, a) && MapsOk(pb, a) && SlotsOk(pb, i, a)
  }

  /** The starting point: everything allocatable is free except the parameter registers. */
  ghost predicate Fresh(pb: Problem, a: Alloc) {
    && Sized(pb, a) && a.slots == 0 && a.active == []
    && (forall j :: 0 <= j < |a.phys| ==> a.phys[j] == REG_NONE)
    && (forall v :: 0 <= v < pb.nvregs ==> a.regOf[v] == Home(pb.params, v) && a.slotOf[v] == -1)
    && (forall r :: 0 <= r < REG_COUNT ==> (a.available[r] <==> Allocatable(r) && !Reserved(pb.params, r)))
  }

  lemma FreshInv(pb: Problem, a: Alloc)
    requires WellPosed(pb) && Fresh(pb, a)
    ensures Inv(pb, 0, 0, a)
  {
  }

  // ---- The main result ----

  predicate Apart(x: Interval, y: Interval) {
    x.end < y.start || y.end < x.start
  }

  /** No two intervals mapped to the same register overlap. */
  ghost predicate NoDoubleBooking(pb: Problem, regOf: seq<nat>) {
    |regOf| == pb.nvregs &&
    forall j, k :: 0 <= j < |pb.sorted| && 0 <= k < |pb.sorted| && j != k
                   && pb.sorted[j].vreg < pb.nvregs && pb.sorted[k].vreg < pb.nvregs
                   && regOf[pb.sorted[j].vreg] == regOf[pb.sorted[k].vreg] != REG_NONE ==>
      Apart(pb.sorted[j], pb.sorted[k])
  }

  lemma InvNoDoubleBooking(pb: Problem, i: nat, now: nat, a: Alloc)
    requires Inv(pb, i, now, a)
    ensures NoDoubleBooking(pb, a.regOf)
  {
    forall j, k | 0 <= j < k < |pb.sorted| && a.regOf[pb.sorted[j].vreg] == a.regOf[pb.sorted[k].vreg] != REG_NONE
      ensures Apart(pb.sorted[j], pb.sorted[k])
    {
      if Home(pb.params, pb.sorted[j].vreg) != REG_NONE {
        HomesDiffer(pb.params, pb.sorted[j].vreg, pb.sorted[k].vreg);
      }
      assert a.phys[j] == a.phys[k] != REG_NONE;
    }
    forall j, k | 0 <= k < j < |pb.sorted| && a.regOf[pb.sorted[j].vreg] == a.regOf[pb.sorted[k].vreg] != REG_NONE
      ensures Apart(pb.sorted[j], pb.sorted[k])
    {
      assert Apart(pb.sorted[k], pb.sorted[j]);
    }
  }

  // ---- One interval ----

  /** The state after the active interval at `j`, which has ended, is dropped: its register
      is freed and the last entry takes its place. */
  function Drop(a: Alloc, j: nat): Alloc
    requires j < |a.active| && a.active[j] < |a.phys| && a.phys[a.active[j]] < |a.available|
  {
    a.(available := a.available[a.phys[a.active[j]] := true],
       active := a.active[j := a.active[|a.active| - 1]][..|a.active| - 1])
  }

  lemma DropActive(pb: Problem, i: nat, now: nat, a: Alloc, j: nat)
    requires Inv(pb, i, now, a) && j < |a.active|
    ensures Sized(pb, Drop(a, j)) && ActiveOk(pb, i, Drop(a, j)) && FreeOk(pb, Drop(a, j))
  {
    hide PastOk, Disjoint, MapsOk, SlotsOk, WellPosed;
  }

  lemma DropPast(pb: Problem, i: nat, now: nat, a: Alloc, j: nat)
    requires Inv(pb, i, now, a) && j < |a.active| && pb.sorted[a.active[j]].end < now
    ensures PastOk(pb, i, now, Drop(a, j))
  {
    hide Disjoint, MapsOk, SlotsOk, WellPosed;
    var a' := Drop(a, j);
    forall x | 0 <= x < |a.active| && x != j ensures a.active[x] in a'.active {
      assert a'.active[if x == |a.active| - 1 then j else x] == a.active[x];
    }
  }

  lemma SameMaps(pb: Problem, i: nat, a: Alloc, a': Alloc)
    requires Sized(pb, a) && Disjoint(pb, a) && MapsOk(pb, a) && SlotsOk(pb, i, a)
    requires a'.phys == a.phys && a'.regOf == a.regOf && a'.slotOf == a.slotOf && a'.slots == a.slots && |a'.available| == REG_COUNT
    ensures Disjoint(pb, a') && MapsOk(pb, a') && SlotsOk(pb, i, a')
  {
  }

  lemma InvIs(pb: Problem, i: nat, now: nat, a: Alloc)
    ensures Inv(pb, i, now, a) <==>
              (WellPosed(pb) && Sized(pb, a) && i <= |pb.sorted| && ActiveOk(pb, i, a) && FreeOk(pb, a)
               && PastOk(pb, i, now, a) && Disjoint(pb, a) && MapsOk(pb, a) && SlotsOk(pb, i, a))
  {
    hide WellPosed, ActiveOk, FreeOk, PastOk, Disjoint, MapsOk, SlotsOk;
  }

  lemma DropInv(pb: Problem, i: nat, now: nat, a: Alloc, j: nat)
    requires Inv(pb, i, now, a) && j < |a.active| && pb.sorted[a.active[j]].end < now
    ensures Inv(pb, i, now, Drop(a, j))
  {
    DropActive(pb, i, now, a, j);
    DropPast(pb, i, now, a, j);
    hide Inv, WellPosed, ActiveOk, FreeOk, PastOk, Disjoint, MapsOk, SlotsOk;
    InvIs(pb, i, now, a);
    InvIs(pb, i, now, Drop(a, j));
    SameMaps(pb, i, a, Drop(a, j));
  }

  /** Time moves on to the start of the next interval. */
  lemma Advance(pb: Problem, i: nat, now: nat, later: nat, a: Alloc)
    requires Inv(pb, i, now, a) && now <= later
    ensures Inv(pb, i, later, a)
  {
  }

  /** The state after the current interval takes a register nobody holds. */
  function Take(pb: Problem, i: nat, a: Alloc, r: nat): Alloc
    requires i < |pb.sorted| && i < |a.phys| && pb.sorted[i].vreg < |a.regOf| && r < |a.available|
  {
    a.(phys := a.phys[i := r], regOf := a.regOf[pb.sorted[i].vreg := r],
       available := a.available[r := false], active := a.active + [i])
  }

  /** The state after the current interval is given the next spill slot. */
  function Spill(pb: Problem, a: Alloc, v: nat): Alloc
    requires v < |a.slotOf|
  {
    a.(slotOf := a.slotOf[v := a.slots], slots := a.slots + 1)
  }

  /** The state after it also takes the register of the active interval at `x`, which goes
      to a slot of its own. */
  function Evict(pb: Problem, i: nat, a: Alloc, x: nat): Alloc
    requires i < |pb.sorted| && i < |a.phys| && pb.sorted[i].vreg < |a.regOf|
    requires x < |a.active| && a.active[x] < |a.phys| && |a.phys| == |pb.sorted|
    requires pb.sorted[a.active[x]].vreg < |a.regOf| == |a.slotOf|
    requires a.phys[a.active[x]] < |a.available|
  {
    var e := a.active[x];
    var r := a.phys[e];
    var v := pb.sorted[e].vreg;
    Alloc(a.phys[i := r][e := REG_NONE], a.regOf[pb.sorted[i].vreg := r][v := REG_NONE],
          a.slotOf[v := a.slots], a.slots + 1, a.available[r := false], a.active[x := i])
  }

  ghost predicate Expired(pb: Problem, i: nat, a: Alloc) {
    && i < |pb.sorted| && Inv(pb, i, pb.sorted[i].start, a)
    && forall x :: 0 <= x < |a.active| ==> pb.sorted[a.active[x]].end >= pb.sorted[i].start
  }

  lemma TakeActive(pb: Problem, i: nat, a: Alloc, r: nat)
    requires Expired(pb, i, a) && r < REG_COUNT && a.available[r]
    ensures Sized(pb, Take(pb, i, a, r)) && ActiveOk(pb, i + 1, Take(pb, i, a, r)) && FreeOk(pb, Take(pb, i, a, r))
  {
    hide PastOk, Disjoint, MapsOk, SlotsOk;
  }

  lemma TakePast(pb: Problem, i: nat, a: Alloc, r: nat)
    requires Expired(pb, i, a) && r < REG_COUNT && a.available[r]
    ensures var a' := Take(pb, i, a, r); PastOk(pb, i + 1, pb.sorted[i].start, a') && Disjoint(pb, a')
  {
    hide MapsOk, SlotsOk;
    var a' := Take(pb, i, a, r);
    assert a'.active[|a.active|] == i;
    forall k | 0 <= k < |a'.phys| && a'.phys[k] != REG_NONE && k !in a'.active
      ensures pb.sorted[k].end < pb.sorted[i].start
    {
      assert k !in a.active;
    }
    forall j, k | 0 <= j < k < |a'.phys| && a'.phys[j] == a'.phys[k] != REG_NONE
      ensures pb.sorted[j].end < pb.sorted[k].start
    {
      if k == i {
        assert j !in a.active;
      }
    }
  }

  lemma TakeMaps(pb: Problem, i: nat, a: Alloc, r: nat)
    requires Expired(pb, i, a) && r < REG_COUNT && a.available[r]
    ensures var a' := Take(pb, i, a, r); Sized(pb, a') && MapsOk(pb, a') && SlotsOk(pb, i, a) && SlotsOk(pb, i + 1, Take(pb, i, a, r))
  {
    hide PastOk, Disjoint, ActiveOk;
  }

  lemma TakeInv(pb: Problem, i: nat, a: Alloc, r: nat)
    requires Expired(pb, i, a) && r < REG_COUNT && a.available[r]
    ensures Inv(pb, i + 1, pb.sorted[i].start, Take(pb, i, a, r))
  {
    TakeActive(pb, i, a, r);
    TakePast(pb, i, a, r);
    TakeMaps(pb, i, a, r);
    hide PastOk, Disjoint, ActiveOk, FreeOk, MapsOk, SlotsOk;
  }

  lemma SpillInv(pb: Problem, i: nat, a: Alloc)
    requires Expired(pb, i, a)
    ensures Inv(pb, i + 1, pb.sorted[i].start, Spill(pb, a, pb.sorted[i].vreg))
  {
    SpillSlots(pb, i, a);
    hide SlotsOk, WellPosed, Disjoint, MapsOk;
    assert MapsOk(pb, Spill(pb, a, pb.sorted[i].vreg)) && Disjoint(pb, Spill(pb, a, pb.sorted[i].vreg)) by {
      SpillRest(pb, a, pb.sorted[i].vreg);
    }
  }

  lemma SpillSlots(pb: Problem, i: nat, a: Alloc)
    requires Expired(pb, i, a)
    ensures SlotsOk(pb, i + 1, Spill(pb, a, pb.sorted[i].vreg))
  {
    hide Disjoint, MapsOk, ActiveOk, FreeOk, PastOk;
  }

  lemma SpillRest(pb: Problem, a: Alloc, v: nat)
    requires Sized(pb, a) && v < |a.slotOf| && MapsOk(pb, a) && Disjoint(pb, a)
    ensures MapsOk(pb, Spill(pb, a, v)) && Disjoint(pb, Spill(pb, a, v))
  {
  }

  /** The active interval at `x` may be evicted in favour of interval `i`: it is not a
      parameter and ends strictly later. */
  ghost predicate Evictable(pb: Problem, i: nat, a: Alloc, x: nat) {
    && Expired(pb, i, a) && x < |a.active|
    && !pb.sorted[a.active[x]].isParam && pb.sorted[a.active[x]].end > pb.sorted[i].end
  }

  ghost function SpillEvict(pb: Problem, i: nat, a: Alloc, x: nat): Alloc
    requires Evictable(pb, i, a, x)
  {
    Evict(pb, i, Spill(pb, a, pb.sorted[i].vreg), x)
  }

  lemma EvictActive(pb: Problem, i: nat, a: Alloc, x: nat)
    requires Evictable(pb, i, a, x)
    ensures var a' := SpillEvict(pb, i, a, x); Sized(pb, a') && ActiveOk(pb, i + 1, a') && FreeOk(pb, a')
  {
    hide PastOk, Disjoint, MapsOk, SlotsOk;
  }

  lemma EvictPast(pb: Problem, i: nat, a: Alloc, x: nat)
    requires Evictable(pb, i, a, x)
    ensures var a' := SpillEvict(pb, i, a, x); Sized(pb, a') && PastOk(pb, i + 1, pb.sorted[i].start, a')
  {
    hide MapsOk, SlotsOk, Disjoint;
    var a' := SpillEvict(pb, i, a, x);
    assert a'.active[x] == i;
    forall y | 0 <= y < |a.active| && y != x ensures a.active[y] in a'.active {
      assert a'.active[y] == a.active[y];
    }
  }

  lemma EvictDisjoint(pb: Problem, i: nat, a: Alloc, x: nat)
    requires Evictable(pb, i, a, x)
    ensures var a' := SpillEvict(pb, i, a, x); Sized(pb, a') && Disjoint(pb, a')
  {
    hide MapsOk, SlotsOk;
    var a' := SpillEvict(pb, i, a, x);
    var e := a.active[x];
    forall j | 0 <= j < i && j != e && a.phys[j] == a.phys[e] ensures pb.sorted[j].end < pb.sorted[i].start {
      assert j !in a.active;
    }
  }

  lemma EvictMaps(pb: Problem, i: nat, a: Alloc, x: nat)
    requires Evictable(pb, i, a, x)
    ensures var a' := SpillEvict(pb, i, a, x); Sized(pb, a') && MapsOk(pb, a')
  {
    hide PastOk, Disjoint, SlotsOk;
    var a' := SpillEvict(pb, i, a, x);
    var e := a.active[x];
    assert pb.sorted[e].vreg !in pb.params;
    assert Home(pb.params, pb.sorted[e].vreg) == REG_NONE;
    assert a.phys[e] != REG_NONE && e < i;
  }

  lemma EvictSlots(pb: Problem, i: nat, a: Alloc, x: nat)
    requires Evictable(pb, i, a, x)
    ensures var a' := SpillEvict(pb, i, a, x); Sized(pb, a') && SlotsOk(pb, i + 1, a')
  {
    hide PastOk, Disjoint, MapsOk;
  }

  lemma EvictInv(pb: Problem, i: nat, a: Alloc, x: nat)
    requires Evictable(pb, i, a, x)
    ensures Inv(pb, i + 1, pb.sorted[i].start, SpillEvict(pb, i, a, x))
  {
    hide PastOk, Disjoint, ActiveOk, FreeOk, MapsOk, SlotsOk, SpillEvict;
    EvictActive(pb, i, a, x);
    EvictPast(pb, i, a, x);
    EvictDisjoint(pb, i, a, x);
    EvictMaps(pb, i, a, x);
    EvictSlots(pb, i, a, x);
  }

  // ---- First fit ----

  /** Every register that is not free is held by an active interval. */
  ghost predicate FreeAll(pb: Problem, a: Alloc) {
    && |a.available| == REG_COUNT
    && forall r :: 0 <= r < REG_COUNT && Allocatable(r) && !Reserved(pb.params, r) && !a.available[r] ==> Holds(a, r)
  }

  ghost predicate Holds(a: Alloc, r: nat) {
    exists x :: 0 <= x < |a.active| && a.active[x] < |a.phys| && a.phys[a.active[x]] == r
  }

  /** Every lower register was taken when interval `j` came up. */
  ghost predicate Lowest(pb: Problem, phys: seq<nat>, j: nat) {
    && j < |phys| && |phys| == |pb.sorted| && phys[j] != REG_NONE
    && forall r :: 0 <= r < phys[j] && Allocatable(r) && !Reserved(pb.params, r) ==>
         exists k :: 0 <= k < j && phys[k] == r && pb.sorted[k].end >= pb.sorted[j].start
  }

  /** Until something is spilled, every interval has had the lowest free register; and with no
      more intervals than registers that carry no parameters, nothing ever is. */
  ghost predicate Greedy(pb: Problem, i: nat, a: Alloc) {
    && (a.slots == 0 ==> forall j: nat :: j < i ==> Lowest(pb, a.phys, j))
    && (|pb.sorted| <= NEVER_RESERVED ==> a.slots == 0)
    && (a.slots > 0 ==> SomeSlot(a.slotOf))
  }

  ghost predicate SomeSlot(slotOf: seq<int>) {
    exists v :: 0 <= v < |slotOf| && slotOf[v] >= 0
  }

  const NEVER_RESERVED: nat := 8

  lemma GreedySame(pb: Problem, i: nat, a: Alloc, a': Alloc)
    requires Greedy(pb, i, a) && a'.phys == a.phys && a'.slots == a.slots && a'.slotOf == a.slotOf
    ensures Greedy(pb, i, a')
  {
  }

  lemma ExpiredSizes(pb: Problem, i: nat, a: Alloc)
    requires Expired(pb, i, a)
    ensures i < |pb.sorted| && Sized(pb, a) && pb.sorted[i].vreg < pb.nvregs
    ensures forall x :: 0 <= x < |a.active| ==> a.active[x] < i && a.active[x] < |a.phys| && a.phys[a.active[x]] != REG_NONE
    ensures forall x :: 0 <= x < |a.active| ==> pb.sorted[a.active[x]].end >= pb.sorted[i].start
    ensures a.phys[i] == REG_NONE
  {
  }

  lemma FreshFits(pb: Problem, a: Alloc)
    requires Fresh(pb, a)
    ensures FreeAll(pb, a) && Greedy(pb, 0, a)
  {
  }

  lemma DropHolds(a: Alloc, j: nat, r: nat)
    requires j < |a.active| && a.active[j] < |a.phys| && a.phys[a.active[j]] < |a.available|
    requires Holds(a, r) && r != a.phys[a.active[j]]
    ensures Holds(Drop(a, j), r)
  {
    var last := |a.active| - 1;
    var x :| 0 <= x <= last && a.active[x] < |a.phys| && a.phys[a.active[x]] == r;
    var y := if x == last then j else x;
    var active' := Drop(a, j).active;
    assert y < |active'| && active'[y] == a.active[x];
  }

  lemma DropFits(pb: Problem, i: nat, now: nat, a: Alloc, j: nat)
    requires Inv(pb, i, now, a) && j < |a.active| && FreeAll(pb, a)
    ensures a.active[j] < |a.phys| && a.phys[a.active[j]] < |a.available| && FreeAll(pb, Drop(a, j))
  {
    ActiveBounds(pb, i, now, a, j);
    var a' := Drop(a, j);
    assert a'.available == a.available[a.phys[a.active[j]] := true];
    hide Inv, Allocatable, Reserved, Holds, Drop;
    forall r | 0 <= r < REG_COUNT && Allocatable(r) && !Reserved(pb.params, r) && !a'.available[r] ensures Holds(a', r) {
      assert r != a.phys[a.active[j]] && !a.available[r];
      DropHolds(a, j, r);
    }
  }

  lemma TakeFits(pb: Problem, i: nat, a: Alloc, r: nat)
    requires Expired(pb, i, a) && FreeAll(pb, a) && Greedy(pb, i, a) && REG_RAX <= r < REG_COUNT && a.available[r]
    requires forall q :: REG_RAX <= q < r && q != REG_RSP && q != REG_RBP ==> !a.available[q]
    ensures FreeAll(pb, Take(pb, i, a, r)) && Greedy(pb, i + 1, Take(pb, i, a, r))
  {
    ExpiredBounds(pb, i, a);
    ExpiredSizes(pb, i, a);
    TakeFree(pb, i, a, r);
    hide Inv, Expired, Allocatable, Reserved, Lowest, FreeAll;
    if a.slots == 0 {
      TakeLowest(pb, i, a, r);
    }
  }

  /** The register taken is held now, and the others are as before. */
  lemma TakeFree(pb: Problem, i: nat, a: Alloc, r: nat)
    requires Expired(pb, i, a) && FreeAll(pb, a) && REG_RAX <= r < REG_COUNT && a.available[r]
    ensures i < |a.phys| && pb.sorted[i].vreg < |a.regOf| && FreeAll(pb, Take(pb, i, a, r))
  {
    ExpiredBounds(pb, i, a);
    ExpiredSizes(pb, i, a);
    hide Inv, Expired, Allocatable, Reserved, Lowest;
    var a' := Take(pb, i, a, r);
    assert a'.active[|a.active|] == i;
    forall q | 0 <= q < REG_COUNT && Allocatable(q) && !Reserved(pb.params, q) && !a'.available[q] ensures Holds(a', q) {
      if q != r {
        assert Holds(a, q);
        var x :| 0 <= x < |a.active| && a.active[x] < |a.phys| && a.phys[a.active[x]] == q;
        assert a'.active[x] == a.active[x];
      }
    }
  }

  lemma TakeLowest(pb: Problem, i: nat, a: Alloc, r: nat)
    requires Expired(pb, i, a) && FreeAll(pb, a) && REG_RAX <= r < REG_COUNT && a.available[r]
    requires forall j: nat :: j < i ==> Lowest(pb, a.phys, j)
    requires forall q :: REG_RAX <= q < r && q != REG_RSP && q != REG_RBP ==> !a.available[q]
    ensures Sized(pb, a) && var phys' := a.phys[i := r]; forall j: nat :: j < i + 1 ==> Lowest(pb, phys', j)
  {
    hide PastOk, Disjoint, MapsOk, SlotsOk, WellPosed, FreeOk, Reserved;
    var phys' := a.phys[i := r];
    forall j: nat | j < i ensures Lowest(pb, phys', j) {
      assert Lowest(pb, a.phys, j);
      forall q | 0 <= q < phys'[j] && Allocatable(q) && !Reserved(pb.params, q)
        ensures exists k :: 0 <= k < j && phys'[k] == q && pb.sorted[k].end >= pb.sorted[j].start
      {
        var k :| 0 <= k < j && a.phys[k] == q && pb.sorted[k].end >= pb.sorted[j].start;
        assert phys'[k] == q;
      }
    }
    forall q | 0 <= q < r && Allocatable(q) && !Reserved(pb.params, q)
      ensures exists k :: 0 <= k < i && phys'[k] == q && pb.sorted[k].end >= pb.sorted[i].start
    {
      assert Holds(a, q);
      var x :| 0 <= x < |a.active| && a.active[x] < |a.phys| && a.phys[a.active[x]] == q;
      assert a.active[x] < i && phys'[a.active[x]] == q;
    }
  }

  lemma {:induction false} DistinctBelow(xs: seq<nat>, n: nat)
    requires forall j, k :: 0 <= j < k < |xs| ==> xs[j] != xs[k]
    requires forall k :: 0 <= k < |xs| ==> xs[k] < n
    ensures |xs| <= n
  {
    if xs != [] {
      assert xs[0] < n;
      if k :| 0 <= k < |xs| && xs[k] == n - 1 {
        DistinctBelow(xs[..k] + xs[k + 1..], n - 1);
      } else {
        DistinctBelow(xs[1..], n - 1);
      }
    }
  }

  /** With fewer than eight intervals before it, an interval finds a register free. */
  lemma SomeFree(pb: Problem, i: nat, a: Alloc)
    requires Expired(pb, i, a) && FreeAll(pb, a) && i < NEVER_RESERVED
    ensures exists r :: REG_RAX <= r <= REG_R15 && r != REG_RSP && r != REG_RBP && a.available[r]
  {
    hide PastOk, Disjoint, MapsOk, SlotsOk, WellPosed, FreeOk;
    var regs: seq<nat> := [1, 4, 11, 12, 13, 14, 15, 16];
    assert PARAM_REGS == [8, 7, 3, 2, 9, 10];
    if forall r :: REG_RAX <= r <= REG_R15 && r != REG_RSP && r != REG_RBP ==> !a.available[r] {
      forall k | 0 <= k < 8 ensures exists x: nat :: x < i && x < |a.phys| && a.phys[x] == regs[k] {
        assert Allocatable(regs[k]) && !Reserved(pb.params, regs[k]) && !a.available[regs[k]];
        assert Holds(a, regs[k]);
        var x :| 0 <= x < |a.active| && a.active[x] < |a.phys| && a.phys[a.active[x]] == regs[k];
        assert a.active[x] < i;
      }
      assert regs[0] < regs[1] < regs[2] < regs[3] < regs[4] < regs[5] < regs[6] < regs[7];
      assert forall j, k :: 0 <= j < k < |regs| ==> regs[j] != regs[k];
      TooFew(regs, a.phys, i);
    }
  }

  lemma TooFew(regs: seq<nat>, phys: seq<nat>, n: nat)
    requires forall j, k :: 0 <= j < k < |regs| ==> regs[j] != regs[k]
    requires forall k :: 0 <= k < |regs| ==> exists x: nat :: x < n && x < |phys| && phys[x] == regs[k]
    ensures |regs| <= n
  {
    var xs: seq<nat> := [];
    while |xs| < |regs|
      invariant |xs| <= |regs|
      invariant forall k :: 0 <= k < |xs| ==> xs[k] < n && xs[k] < |phys| && phys[xs[k]] == regs[k]
    {
      var reg := regs[|xs|];
      assert exists x: nat :: x < n && x < |phys| && phys[x] == reg;
      var x: nat :| x < n && x < |phys| && phys[x] == reg;
      xs := xs + [x];
    }
    DistinctBelow(xs, n);
  }

  lemma SpillFits(pb: Problem, i: nat, a: Alloc)
    requires Expired(pb, i, a) && FreeAll(pb, a) && Greedy(pb, i, a)
    requires forall r :: REG_RAX <= r <= REG_R15 && r != REG_RSP && r != REG_RBP ==> !a.available[r]
    ensures var a' := Spill(pb, a, pb.sorted[i].vreg); FreeAll(pb, a') && Greedy(pb, i + 1, a')
  {
    ExpiredSizes(pb, i, a);
    hide Inv, Expired, Allocatable, Reserved, Lowest;
    var a' := Spill(pb, a, pb.sorted[i].vreg);
    assert a'.slotOf[pb.sorted[i].vreg] >= 0;
    if |pb.sorted| <= NEVER_RESERVED {
      SomeFree(pb, i, a);
    }
    forall r | 0 <= r < REG_COUNT && Allocatable(r) && !Reserved(pb.params, r) && !a'.available[r] ensures Holds(a', r) {
      assert Holds(a, r);
    }
  }

  lemma EvictFits(pb: Problem, i: nat, a: Alloc, x: nat)
    requires Evictable(pb, i, a, x) && FreeAll(pb, a) && Greedy(pb, i + 1, Spill(pb, a, pb.sorted[i].vreg))
    ensures FreeAll(pb, SpillEvict(pb, i, a, x)) && Greedy(pb, i + 1, SpillEvict(pb, i, a, x))
  {
    ExpiredSizes(pb, i, a);
    EvictBounds(pb, i, a, x);
    var a' := SpillEvict(pb, i, a, x);
    var e := a.active[x];
    assert a'.slots == a.slots + 2 && SomeSlot(a'.slotOf) by {
      assert a'.slotOf[pb.sorted[e].vreg] == a.slots + 1;
    }
    EvictShape(pb, i, a, x);
    hide Inv, Expired, Evictable, SpillEvict, Allocatable, Reserved, Lowest, Holds, SomeSlot;
    forall r | 0 <= r < REG_COUNT && Allocatable(r) && !Reserved(pb.params, r) && !a'.available[r] ensures Holds(a', r) {
      if r == a.phys[e] || !a.available[r] {
        EvictHolds(pb, i, a, x, r);
      }
    }
  }

  lemma EvictShape(pb: Problem, i: nat, a: Alloc, x: nat)
    requires Evictable(pb, i, a, x)
    ensures Sized(pb, a) && a.active[x] < i < |a.phys| && a.phys[a.active[x]] < REG_COUNT
    ensures var e, a' := a.active[x], SpillEvict(pb, i, a, x);
            && a'.phys == a.phys[i := a.phys[e]][e := REG_NONE] && a'.active == a.active[x := i]
            && a'.available == a.available[a.phys[e] := false]
    ensures forall y :: 0 <= y < |a.active| && y != x ==> a.active[y] != a.active[x]
    ensures forall y :: 0 <= y < |a.active| ==> a.active[y] < i
  {
    EvictBounds(pb, i, a, x);
    ActiveDiffer(pb, i, a, x);
    ExpiredBounds(pb, i, a);
  }

  lemma EvictHolds(pb: Problem, i: nat, a: Alloc, x: nat, r: nat)
    requires Evictable(pb, i, a, x) && Sized(pb, a) && a.active[x] < |a.phys|
    requires r == a.phys[a.active[x]] || Holds(a, r)
    ensures Holds(SpillEvict(pb, i, a, x), r)
  {
    EvictShape(pb, i, a, x);
    var a' := SpillEvict(pb, i, a, x);
    hide Inv, Expired, Evictable, SpillEvict;
    if r == a.phys[a.active[x]] {
      assert a'.active[x] == i && a'.phys[i] == r;
    } else {
      var y :| 0 <= y < |a.active| && a.active[y] < |a.phys| && a.phys[a.active[y]] == r;
      assert a'.active[y] == a.active[y] && a'.phys[a.active[y]] == r;
    }
  }

  lemma ActiveDiffer(pb: Problem, i: nat, a: Alloc, x: nat)
    requires Expired(pb, i, a) && x < |a.active|
    ensures forall y :: 0 <= y < |a.active| && y != x ==> a.active[y] != a.active[x]
  {
  }

  /** The lowest register free of earlier intervals that still run. */
  ghost predicate FirstFree(pb: Problem, regOf: seq<nat>, j: nat) {
    && j < |pb.sorted| && pb.sorted[j].vreg < |regOf| && regOf[pb.sorted[j].vreg] != REG_NONE
    && forall r :: 0 <= r < regOf[pb.sorted[j].vreg] && Allocatable(r) && !Reserved(pb.params, r) ==> Taken(pb, regOf, j, r)
  }

  ghost predicate Taken(pb: Problem, regOf: seq<nat>, j: nat, r: nat) {
    exists k :: 0 <= k < j && j < |pb.sorted| && pb.sorted[k].vreg < |regOf|
                && regOf[pb.sorted[k].vreg] == r && pb.sorted[k].end >= pb.sorted[j].start
  }

  lemma GreedyResult(pb: Problem, now: nat, a: Alloc)
    requires Inv(pb, |pb.sorted|, now, a) && Greedy(pb, |pb.sorted|, a) && a.slots == 0
    ensures forall j: nat :: j < |pb.sorted| ==> FirstFree(pb, a.regOf, j)
  {
    hide PastOk, Disjoint, SlotsOk, FreeOk, ActiveOk, Reserved, Home;
    forall j: nat | j < |pb.sorted| ensures FirstFree(pb, a.regOf, j) {
      assert Lowest(pb, a.phys, j);
      forall r | 0 <= r < a.phys[j] && Allocatable(r) && !Reserved(pb.params, r) ensures Taken(pb, a.regOf, j, r) {
        var k :| 0 <= k < j && a.phys[k] == r && pb.sorted[k].end >= pb.sorted[j].start;
        assert a.regOf[pb.sorted[k].vreg] == r;
      }
    }
  }

  // ---- The scan ----

  /** The allocator's working state, updated in place. */
  class Scanner {
    const pb: Problem
    var phys: seq<nat>
    var regOf: seq<nat>
    var slotOf: seq<int>
    var slots: nat
    var available: seq<bool>
    var active: seq<nat>

    function State(): Alloc
      reads this
    {
      Alloc(phys, regOf, slotOf, slots, available, active)
    }

    constructor (pb: Problem)
      requires WellPosed(pb)
      ensures this.pb == pb && Fresh(pb, State())
    {
      this.pb := pb;
      phys := seq(|pb.sorted|, _ => REG_NONE);
      slotOf := seq(pb.nvregs, _ => -1);
      slots := 0;
      active := [];
      new;
      SetUp();
    }

    /** The allocatable registers, less those the parameters arrive in. */
    method SetUp()
      requires WellPosed(pb) && active == [] && slots == 0
      requires |phys| == |pb.sorted| && (forall j :: 0 <= j < |phys| ==> phys[j] == REG_NONE)
      requires |slotOf| == pb.nvregs && (forall v :: 0 <= v < pb.nvregs ==> slotOf[v] == -1)
      modifies this
      ensures Fresh(pb, State())
    {
      hide *;
      regOf := seq(pb.nvregs, _ => REG_NONE);
      available := AllocatableOnly();
      var p := 0;
      NoHomes(pb);
      while p < |pb.params| && p < 6
        invariant p <= |pb.params| && p <= 6
        invariant active == [] && slots == 0 && |regOf| == pb.nvregs && |available| == REG_COUNT
        invariant phys == old(phys) && slotOf == old(slotOf)
        invariant forall v :: 0 <= v < pb.nvregs ==> regOf[v] == Home(pb.params[..p], v)
        invariant forall r :: 0 <= r < REG_COUNT ==> (available[r] <==> Allocatable(r) && !Reserved(pb.params[..p], r))
      {
        ParamRegsInRange(p);
        ParamInRange(pb, p);
        ghost var before, free := regOf, available;
        regOf := regOf[pb.params[p] := PARAM_REGS[p]];
        available := available[PARAM_REGS[p] := false];
        HomeNext(pb, p, before, free, regOf, available, pb.params[..p + 1]);
        p := p + 1;
      }
      HomeDone(pb, p);
      StartIs();
    }

    lemma StartIs()
      requires |phys| == |pb.sorted| && |regOf| == |slotOf| == pb.nvregs && |available| == REG_COUNT && slots == 0 && active == []
      requires forall j :: 0 <= j < |phys| ==> phys[j] == REG_NONE
      requires forall v :: 0 <= v < pb.nvregs ==> regOf[v] == Home(pb.params, v) && slotOf[v] == -1
      requires forall r :: 0 <= r < REG_COUNT ==> (available[r] <==> Allocatable(r) && !Reserved(pb.params, r))
      ensures Fresh(pb, State())
    {
      hide Home, Reserved, Allocatable;
    }

    method AllocatableOnly() returns (free: seq<bool>)
      ensures |free| == REG_COUNT && forall r :: 0 <= r < REG_COUNT ==> (free[r] <==> Allocatable(r))
    {
      free := seq(REG_COUNT, _ => false);
      for i := 0 to |ALLOC_GPRS|
        invariant |free| == REG_COUNT
        invariant forall r :: 0 <= r < REG_COUNT ==> (free[r] <==> Allocatable(r) && r in ALLOC_GPRS[..i])
      {
        var r := ALLOC_GPRS[i];
        AllListed(r);
        assert ALLOC_GPRS[..i + 1] == ALLOC_GPRS[..i] + [r];
        if r != REG_RSP && r != REG_RBP {
          free := free[r := true];
        }
      }
      forall r: nat | r < REG_COUNT ensures free[r] <==> Allocatable(r) {
        AllListed(r);
        assert ALLOC_GPRS[..|ALLOC_GPRS|] == ALLOC_GPRS;
      }
    }

    /** Free the registers of the intervals that ended before `start`. */
    method Expire(ghost i: nat, start: nat)
      requires i < |pb.sorted| && start == pb.sorted[i].start && Inv(pb, i, start, State()) && FreeAll(pb, State())
      modifies this
      ensures Expired(pb, i, State()) && FreeAll(pb, State())
      ensures phys == old(phys) && regOf == old(regOf) && slotOf == old(slotOf) && slots == old(slots)
    {
      hide Inv, WellPosed, FreeAll;
      var j := 0;
      while j < |active|
        invariant j <= |active|
        invariant Inv(pb, i, start, State()) && FreeAll(pb, State())
        invariant forall x :: 0 <= x < j ==> active[x] < |pb.sorted| && pb.sorted[active[x]].end >= start
        invariant phys == old(phys) && regOf == old(regOf) && slotOf == old(slotOf) && slots == old(slots)
        decreases |active| - j
      {
        ActiveBounds(pb, i, start, State(), j);
        if pb.sorted[active[j]].end < start {
          DropInv(pb, i, start, State(), j);
          DropFits(pb, i, start, State(), j);
          available := available[phys[active[j]] := true];
          active := active[j := active[|active| - 1]][..|active| - 1];
        } else {
          j := j + 1;
        }
      }
    }

    /** The lowest-numbered free register, or none. */
    method FindFree() returns (r: nat)
      requires |available| == REG_COUNT
      ensures r == REG_NONE ==> forall q :: REG_RAX <= q <= REG_R15 && q != REG_RSP && q != REG_RBP ==> !available[q]
      ensures r != REG_NONE ==> REG_RAX <= r <= REG_R15 && available[r]
                                && forall q :: REG_RAX <= q < r && q != REG_RSP && q != REG_RBP ==> !available[q]
    {
      for q := REG_RAX to REG_R15 + 1
        invariant forall k :: REG_RAX <= k < q && k != REG_RSP && k != REG_RBP ==> !available[k]
      {
        if available[q] && q != REG_RSP && q != REG_RBP {
          return q;
        }
      }
      r := REG_NONE;
    }

    /** The active interval, not a parameter, that ends furthest beyond `end`. */
    method FurthestEnd(end: nat) returns (x: Option<nat>)
      requires forall y :: 0 <= y < |active| ==> active[y] < |pb.sorted|
      ensures x.Some? ==> x.value < |active| && !pb.sorted[active[x.value]].isParam && pb.sorted[active[x.value]].end > end
      ensures x.Some? ==> forall y :: 0 <= y < |active| && !pb.sorted[active[y]].isParam ==>
                            pb.sorted[active[y]].end <= pb.sorted[active[x.value]].end
      ensures x.None? ==> forall y :: 0 <= y < |active| && !pb.sorted[active[y]].isParam ==> pb.sorted[active[y]].end <= end
    {
      x := None;
      var furthest := end;
      for j := 0 to |active|
        invariant x.None? ==> furthest == end
        invariant x.Some? ==> x.value < j && !pb.sorted[active[x.value]].isParam && pb.sorted[active[x.value]].end == furthest > end
        invariant forall y :: 0 <= y < j && !pb.sorted[active[y]].isParam ==> pb.sorted[active[y]].end <= furthest
      {
        if pb.sorted[active[j]].end > furthest && !pb.sorted[active[j]].isParam {
          furthest := pb.sorted[active[j]].end;
          x := Some(j);
        }
      }
    }

    /** Give the interval at position `i` a register, a slot, or somebody else's register. */
    method Place(i: nat)
      requires Expired(pb, i, State()) && FreeAll(pb, State()) && Greedy(pb, i, State())
      modifies this
      ensures Inv(pb, i + 1, pb.sorted[i].start, State()) && FreeAll(pb, State()) && Greedy(pb, i + 1, State())
      ensures forall j :: 0 <= j < i && pb.sorted[j].isParam ==> phys[j] == old(phys)[j]
      ensures forall j :: 0 <= j < i && phys[j] != old(phys)[j] ==>
                phys[j] == REG_NONE && phys[i] == old(phys)[j] && pb.sorted[j].end > pb.sorted[i].end
    {
      hide Inv, Expired, WellPosed, FreeAll, Greedy;
      ghost var a := State();
      ExpiredBounds(pb, i, a);
      var current := pb.sorted[i];
      var r := FindFree();
      if r != REG_NONE {
        TakeInv(pb, i, a, r);
        TakeFits(pb, i, a, r);
        phys := phys[i := r];
        available := available[r := false];
        regOf := regOf[current.vreg := r];
        active := active + [i];
        assert State() == Take(pb, i, a, r);
      } else {
        SpillInv(pb, i, a);
        SpillFits(pb, i, a);
        slotOf := slotOf[current.vreg := slots];
        slots := slots + 1;
        assert State() == Spill(pb, a, current.vreg);
        var x := FurthestEnd(current.end);
        if x.Some? {
          assert Evictable(pb, i, a, x.value);
          EvictInv(pb, i, a, x.value);
          EvictFits(pb, i, a, x.value);
          assert a.phys[a.active[x.value]] < REG_COUNT && pb.sorted[a.active[x.value]].vreg < pb.nvregs by {
            EvictBounds(pb, i, a, x.value);
          }
          TakeOver(i, x.value);
          assert State() == SpillEvict(pb, i, a, x.value);
        }
      }
    }

    /** The six assignments of an eviction, in the source's order. */
    method TakeOver(i: nat, x: nat)
      requires Sized(pb, State()) && i < |pb.sorted| && x < |active| && active[x] < i
      requires phys[active[x]] < REG_COUNT && pb.sorted[i].vreg < pb.nvregs && pb.sorted[active[x]].vreg < pb.nvregs
      modifies this
      ensures State() == Evict(pb, i, old(State()), x)
    {
      var e := active[x];
      phys := phys[i := phys[e]];
      regOf := regOf[pb.sorted[i].vreg := phys[i]];
      available := available[phys[i] := false];
      phys := phys[e := REG_NONE];
      regOf := regOf[pb.sorted[e].vreg := REG_NONE];
      slotOf := slotOf[pb.sorted[e].vreg := slots];
      slots := slots + 1;
      active := active[x := i];
    }

    /** The whole scan: no register is booked twice, and spill slots are all different. */
    method Run()
      requires Fresh(pb, State()) && WellPosed(pb)
      modifies this
      ensures NoDoubleBooking(pb, regOf)
      ensures |slotOf| == pb.nvregs && forall u, v :: 0 <= u < v < pb.nvregs && slotOf[u] == slotOf[v] ==> slotOf[u] == -1
      ensures forall v :: 0 <= v < pb.nvregs && regOf[v] != REG_NONE ==> Allocatable(regOf[v]) && regOf[v] in ALLOC_GPRS
      ensures forall v, p :: 0 <= v < pb.nvregs && 0 <= p < |pb.params| && p < 6 && regOf[v] == PARAM_REGS[p] ==> v == pb.params[p]
      ensures forall p :: 0 <= p < |pb.params| && p < 6 ==> pb.params[p] < pb.nvregs && regOf[pb.params[p]] != REG_NONE
      ensures forall j :: 0 <= j < |pb.sorted| && regOf[pb.sorted[j].vreg] == REG_NONE ==> slotOf[pb.sorted[j].vreg] >= 0
      ensures slots == 0 ==> forall j: nat :: j < |pb.sorted| ==> FirstFree(pb, regOf, j)
      ensures |pb.sorted| <= NEVER_RESERVED ==> slots == 0
      ensures slots > 0 ==> SomeSlot(slotOf)
      ensures forall v :: 0 <= v < |slotOf| ==> -1 <= slotOf[v] < slots
    {
      hide Inv, Fresh, WellPosed, NoDoubleBooking, FreeAll, FirstFree;
      ScanAll();
      if slots == 0 {
        GreedyResult(pb, LastStart(pb, |pb.sorted|), State());
      }
      InvNoDoubleBooking(pb, |pb.sorted|, LastStart(pb, |pb.sorted|), State());
      InvResult(pb, |pb.sorted|, LastStart(pb, |pb.sorted|), State());
    }

    /** Every interval in turn. */
    method ScanAll()
      requires Fresh(pb, State()) && WellPosed(pb)
      modifies this
      ensures Inv(pb, |pb.sorted|, LastStart(pb, |pb.sorted|), State()) && Greedy(pb, |pb.sorted|, State())
    {
      hide Inv, Fresh, WellPosed, FreeAll, Greedy, Expired, LastStart;
      FreshInv(pb, State());
      FreshFits(pb, State());
      Beginning(pb);
      for i := 0 to |pb.sorted|
        invariant WellPosed(pb) && Inv(pb, i, LastStart(pb, i), State()) && FreeAll(pb, State()) && Greedy(pb, i, State())
      {
        Following(pb, i);
        Advance(pb, i, LastStart(pb, i), pb.sorted[i].start, State());
        ghost var a := State();
        Expire(i, pb.sorted[i].start);
        GreedySame(pb, i, a, State());
        Place(i);
      }
    }
  }

  /** Where the last interval met so far starts. */
  function LastStart(pb: Problem, i: nat): nat
    requires i <= |pb.sorted|
  {
    if i == 0 then 0 else pb.sorted[i - 1].start
  }

  lemma Beginning(pb: Problem)
    ensures LastStart(pb, 0) == 0
  {
  }

  /** The intervals come in order. */
  lemma Following(pb: Problem, i: nat)
    requires WellPosed(pb) && i < |pb.sorted|
    ensures LastStart(pb, i) <= pb.sorted[i].start == LastStart(pb, i + 1)
  {
  }

  lemma NoHomes(pb: Problem)
    ensures forall v :: Home(pb.params[..0], v) == REG_NONE
    ensures forall r :: !Reserved(pb.params[..0], r)
  {
  }

  lemma ParamInRange(pb: Problem, p: nat)
    requires WellPosed(pb) && p < |pb.params|
    ensures pb.params[p] < pb.nvregs
  {
    assert pb.params[p] in pb.params;
  }

  /** One parameter is put into its register, which nobody else can get. */
  lemma HomeNext(pb: Problem, p: nat, regOf: seq<nat>, available: seq<bool>, regOf': seq<nat>, available': seq<bool>, next: seq<nat>)
    requires WellPosed(pb) && p < |pb.params| && p < 6 && pb.params[p] < |regOf| == pb.nvregs
    requires |available| == REG_COUNT && p < |PARAM_REGS| && PARAM_REGS[p] < REG_COUNT
    requires forall v :: 0 <= v < pb.nvregs ==> regOf[v] == Home(pb.params[..p], v)
    requires forall r :: 0 <= r < REG_COUNT ==> (available[r] <==> Allocatable(r) && !Reserved(pb.params[..p], r))
    requires next == pb.params[..p + 1] && regOf' == regOf[pb.params[p] := PARAM_REGS[p]] && available' == available[PARAM_REGS[p] := false]
    ensures forall v :: 0 <= v < pb.nvregs ==> regOf'[v] == Home(next, v)
    ensures forall r :: 0 <= r < REG_COUNT ==> (available'[r] <==> Allocatable(r) && !Reserved(next, r))
  {
    HomeStep(pb, p);
    hide *;
  }

  lemma HomeStep(pb: Problem, p: nat)
    requires WellPosed(pb) && p < |pb.params| && p < 6
    ensures forall v :: Home(pb.params[..p + 1], v) == if v == pb.params[p] then PARAM_REGS[p] else Home(pb.params[..p], v)
    ensures forall r :: Reserved(pb.params[..p + 1], r) <==> Reserved(pb.params[..p], r) || r == PARAM_REGS[p]
  {
    var now, next := pb.params[..p], pb.params[..p + 1];
    forall v ensures Home(next, v) == if v == pb.params[p] then PARAM_REGS[p] else Home(now, v) {
      if v == pb.params[p] {
        HomeAt(next, p);
      } else if q :| 0 <= q < p && pb.params[q] == v {
        HomeAt(next, q);
        HomeAt(now, q);
      }
    }
    forall r ensures Reserved(next, r) <==> Reserved(now, r) || r == PARAM_REGS[p] {
      if Reserved(now, r) {
        var q :| 0 <= q < |now| && q < 6 && PARAM_REGS[q] == r;
        assert q < |next|;
      }
      if r == PARAM_REGS[p] { assert p < |next|; }
    }
  }

  lemma HomeDone(pb: Problem, p: nat)
    requires WellPosed(pb) && p <= |pb.params| && p <= 6 && (p == |pb.params| || p == 6)
    ensures forall v :: Home(pb.params[..p], v) == Home(pb.params, v)
    ensures forall r :: Reserved(pb.params[..p], r) <==> Reserved(pb.params, r)
  {
    forall v ensures Home(pb.params[..p], v) == Home(pb.params, v) {
      if q :| 0 <= q < p && pb.params[q] == v {
        HomeAt(pb.params[..p], q);
        HomeAt(pb.params, q);
      }
    }
    forall r ensures Reserved(pb.params[..p], r) <==> Reserved(pb.params, r) {
      if Reserved(pb.params, r) {
        var q :| 0 <= q < |pb.params| && q < 6 && PARAM_REGS[q] == r;
        assert q < |pb.params[..p]|;
      }
    }
  }

  lemma ActiveBounds(pb: Problem, i: nat, now: nat, a: Alloc, x: nat)
    requires Inv(pb, i, now, a) && x < |a.active|
    ensures Sized(pb, a) && a.active[x] < i <= |pb.sorted|
    ensures a.phys[a.active[x]] < REG_COUNT && pb.sorted[a.active[x]].vreg < pb.nvregs
  {
  }

  lemma EvictBounds(pb: Problem, i: nat, a: Alloc, x: nat)
    requires Evictable(pb, i, a, x)
    ensures Sized(pb, a) && a.active[x] < i
    ensures a.phys[a.active[x]] < REG_COUNT && pb.sorted[a.active[x]].vreg < pb.nvregs
  {
    ActiveBounds(pb, i, pb.sorted[i].start, a, x);
  }

  lemma ExpiredBounds(pb: Problem, i: nat, a: Alloc)
    requires Expired(pb, i, a)
    ensures i < |pb.sorted| && Sized(pb, a) && pb.sorted[i].vreg < pb.nvregs
    ensures forall y :: 0 <= y < |a.active| ==> a.active[y] < i
  {
  }

  /** The register of a vreg is the one it was given, or that of a parameter. */
  lemma InvRegister(pb: Problem, i: nat, now: nat, a: Alloc, v: nat)
    requires Inv(pb, i, now, a) && v < pb.nvregs
    ensures |a.regOf| == pb.nvregs
    ensures a.regOf[v] == Home(pb.params, v) || (Allocatable(a.regOf[v]) && !Reserved(pb.params, a.regOf[v]))
  {
    if j :| 0 <= j < |pb.sorted| && pb.sorted[j].vreg == v {
      assert a.regOf[v] == a.phys[j] || a.regOf[v] == Home(pb.params, v);
    }
  }

  lemma AllocatableHome(params: seq<nat>, v: nat)
    ensures Home(params, v) != REG_NONE ==> Allocatable(Home(params, v))
  {
    assert PARAM_REGS == [8, 7, 3, 2, 9, 10];
  }

  lemma InvParams(pb: Problem, i: nat, now: nat, a: Alloc, v: nat, p: nat)
    requires Inv(pb, i, now, a) && v < pb.nvregs && p < |pb.params| && p < 6
    ensures |a.regOf| == pb.nvregs && pb.params[p] < pb.nvregs && a.regOf[pb.params[p]] != REG_NONE
    ensures a.regOf[v] == PARAM_REGS[p] ==> v == pb.params[p]
  {
    assert pb.params[p] in pb.params;
    assert forall p, q :: 0 <= p < q < |pb.params| ==> pb.params[p] != pb.params[q];
    assert Reserved(pb.params, PARAM_REGS[p]);
    hide Inv, WellPosed;
    HomeAt(pb.params, p);
    InvRegister(pb, i, now, a, v);
    InvRegister(pb, i, now, a, pb.params[p]);
    assert PARAM_REGS == [8, 7, 3, 2, 9, 10];
    if v != pb.params[p] {
      HomesDiffer(pb.params, pb.params[p], v);
    }
  }

  lemma InvResult(pb: Problem, i: nat, now: nat, a: Alloc)
    requires Inv(pb, i, now, a) && i == |pb.sorted|
    ensures |a.slotOf| == pb.nvregs == |a.regOf|
    ensures forall u, v :: 0 <= u < v < pb.nvregs && a.slotOf[u] == a.slotOf[v] ==> a.slotOf[u] == -1
    ensures forall j :: 0 <= j < |pb.sorted| ==> pb.sorted[j].vreg < pb.nvregs
    ensures forall v :: 0 <= v < pb.nvregs && a.regOf[v] != REG_NONE ==> Allocatable(a.regOf[v])
    ensures forall v, p :: 0 <= v < pb.nvregs && 0 <= p < |pb.params| && p < 6 && a.regOf[v] == PARAM_REGS[p] ==> v == pb.params[p]
    ensures forall p :: 0 <= p < |pb.params| && p < 6 ==> pb.params[p] < pb.nvregs && a.regOf[pb.params[p]] != REG_NONE
    ensures forall j :: 0 <= j < |pb.sorted| && a.regOf[pb.sorted[j].vreg] == REG_NONE ==> a.slotOf[pb.sorted[j].vreg] >= 0
    ensures forall v :: 0 <= v < |a.slotOf| ==> -1 <= a.slotOf[v] < a.slots
    ensures forall v :: 0 <= v < pb.nvregs && a.regOf[v] != REG_NONE ==> a.regOf[v] in ALLOC_GPRS
  {
    hide Home, Reserved, Allocatable;
    forall v, p | 0 <= v < pb.nvregs && 0 <= p < |pb.params| && p < 6 && a.regOf[v] == PARAM_REGS[p] ensures v == pb.params[p] {
      InvParams(pb, i, now, a, v, p);
    }
    forall p | 0 <= p < |pb.params| && p < 6 ensures pb.params[p] < pb.nvregs && a.regOf[pb.params[p]] != REG_NONE {
      assert pb.params[p] in pb.params;
      InvParams(pb, i, now, a, pb.params[p], p);
    }
    forall v | 0 <= v < pb.nvregs && a.regOf[v] != REG_NONE ensures Allocatable(a.regOf[v]) {
      InvRegister(pb, i, now, a, v);
      AllocatableHome(pb.params, v);
    }
    forall v | 0 <= v < pb.nvregs && a.regOf[v] != REG_NONE ensures a.regOf[v] in ALLOC_GPRS {
      AllListed(a.regOf[v]);
    }
  }
}
