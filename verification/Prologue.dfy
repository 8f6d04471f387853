/** The parameter moves of the prologue (src/emit.c:769-779). */
module Prologue {
  import opened Ssa
  import opened Mach
  import opened LinearScan
  import opened Isel
  import opened ParallelCopy
  import opened Expand
  import RegAlloc

  /** The moves for the first `n` parameters: from the register of the calling convention to
      the one assigned, if any and if different. */
  function ParamCopies(params: seq<nat>, regOf: seq<nat>, n: nat): seq<PhiCopy>
    requires n <= |params| && n <= 6
  {
    if n == 0 then []
    else
      ParamRegsInRange(n - 1);
      ParamCopies(params, regOf, n - 1) +
      if params[n - 1] < |regOf| && RegValid(regOf[params[n - 1]]) && regOf[params[n - 1]] != PARAM_REGS[n - 1]
      then [PhiCopy(regOf[params[n - 1]], PARAM_REGS[n - 1])] else []
  }

  /** What the allocator guarantees: calling-convention registers of parameters go to nobody
      else, and different parameters get different registers. */
  ghost predicate ParamsApart(params: seq<nat>, regOf: seq<nat>, n: nat) {
    && n <= |params| && n <= 6
    && (forall p :: 0 <= p < n ==> params[p] < |regOf| && RegValid(regOf[params[p]]))
    && (forall p, q :: 0 <= p < n && 0 <= q < n && q < |PARAM_REGS| && regOf[params[p]] == PARAM_REGS[q] ==> p == q)
    && (forall p, q :: 0 <= p < q < n ==> regOf[params[p]] != regOf[params[q]])
  }

  /** Copy `c` is the one of some parameter. */
  ghost predicate CopyOf(params: seq<nat>, regOf: seq<nat>, n: nat, c: PhiCopy) {
    exists p :: 0 <= p < n && MovesParam(params, regOf, p, c)
  }

  ghost predicate MovesParam(params: seq<nat>, regOf: seq<nat>, p: nat, c: PhiCopy) {
    && p < |params| && p < |PARAM_REGS| && params[p] < |regOf|
    && c == PhiCopy(regOf[params[p]], PARAM_REGS[p]) && c.dst != c.src
  }

  lemma SixRegs()
    ensures |PARAM_REGS| == 6
    ensures forall p, q :: 0 <= p < q < 6 ==> PARAM_REGS[p] != PARAM_REGS[q]
  {
    assert PARAM_REGS == [8, 7, 3, 2, 9, 10];
  }

  lemma {:induction false} CopiesAre(params: seq<nat>, regOf: seq<nat>, n: nat)
    requires ParamsApart(params, regOf, n)
    ensures var cs := ParamCopies(params, regOf, n);
            && (forall k :: 0 <= k < |cs| ==> CopyOf(params, regOf, n, cs[k]))
            && DistinctDsts(cs) && NoConflict(cs)
            && (forall p, c :: 0 <= p < n && MovesParam(params, regOf, p, c) ==> c in cs)
  {
    SixRegs();
    if n > 0 {
      CopiesAre(params, regOf, n - 1);
      var before, cs := ParamCopies(params, regOf, n - 1), ParamCopies(params, regOf, n);
      forall k | 0 <= k < |before| ensures CopyOf(params, regOf, n, before[k]) && before[k].dst != regOf[params[n - 1]] && before[k].dst != PARAM_REGS[n - 1] {
        var p :| 0 <= p < n - 1 && MovesParam(params, regOf, p, before[k]);
      }
      forall k | 0 <= k < |cs| ensures CopyOf(params, regOf, n, cs[k]) {
        if k >= |before| {
          assert MovesParam(params, regOf, n - 1, cs[k]);
        }
      }
      forall p, c | 0 <= p < n && MovesParam(params, regOf, p, c) ensures c in cs {
        if p == n - 1 {
          assert cs[|before|] == c;
        }
      }
    }
  }

  /** After the prologue every parameter is in its register: the moves in sequence are the
      parallel assignment. */
  lemma ParamsArrive(params: seq<nat>, regOf: seq<nat>, n: nat, env: Env, p: nat)
    requires ParamsApart(params, regOf, n) && p < n
    requires forall q :: 0 <= q < n && q < |PARAM_REGS| ==> PARAM_REGS[q] in env
    ensures |PARAM_REGS| == 6
    ensures var env' := InSequence(ParamCopies(params, regOf, n), env);
            regOf[params[p]] in env' && env'[regOf[params[p]]] == env[PARAM_REGS[p]]
  {
    SixRegs();
    CopiesAre(params, regOf, n);
    var cs := ParamCopies(params, regOf, n);
    forall k | 0 <= k < |cs| ensures cs[k].src in env {
      var q :| 0 <= q < n && MovesParam(params, regOf, q, cs[k]);
    }
    SequenceIsParallel(cs, env);
    var c := PhiCopy(regOf[params[p]], PARAM_REGS[p]);
    if c.dst != c.src {
      assert MovesParam(params, regOf, p, c);
      var k :| 0 <= k < |cs| && cs[k] == c;
    } else {
      forall k | 0 <= k < |cs| ensures cs[k].dst != c.dst {
        var q :| 0 <= q < n && MovesParam(params, regOf, q, cs[k]);
      }
    }
  }

  /** The result of a linear scan is such an assignment. */
  lemma ScanKeepsParamsApart(m: MFunc, t: RegAlloc.Table, regOf: seq<nat>, n: nat)
    requires RegAlloc.IsTable(m, t) && RegAlloc.BookedApart(m, t, regOf) && n <= |m.params| && n <= 6
    requires forall p :: 0 <= p < n ==> m.params[p] < m.nextVreg && RegValid(regOf[m.params[p]])
    requires forall p, q :: 0 <= p < q < |m.params| ==> m.params[p] != m.params[q]
    requires forall v, q :: 0 <= v < |regOf| && 0 <= q < n && q < |PARAM_REGS| && regOf[v] == PARAM_REGS[q] ==> v == m.params[q]
    ensures ParamsApart(m.params, regOf, n)
  {
    forall p, q | 0 <= p < q < n ensures regOf[m.params[p]] != regOf[m.params[q]] {
      assert m.params[p] in m.params && m.params[q] in m.params;
    }
  }
}
