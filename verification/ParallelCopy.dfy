/** The copies of an edge mean a parallel assignment, but are emitted one after the other
    (src/isel.c:433-437, 462-466). */
module ParallelCopy {
  import opened Ssa
  import opened Mach
  import opened Isel

  ghost predicate DistinctDsts(cs: seq<PhiCopy>) {
    forall i, j :: 0 <= i < j < |cs| ==> cs[i].dst != cs[j].dst
  }

  ghost predicate SourcesIn(cs: seq<PhiCopy>, env: Env) {
    forall i :: 0 <= i < |cs| ==> cs[i].src in env
  }

  /** No copy reads what an earlier one has overwritten. */
  predicate NoConflict(cs: seq<PhiCopy>) {
    forall i, j :: 0 <= i < j < |cs| ==> cs[i].dst != cs[j].src
  }

  /** The effect of the emitted moves. */
  function InSequence(cs: seq<PhiCopy>, env: Env): Env {
    if cs == [] then env
    else
      var env' := InSequence(cs[..|cs| - 1], env);
      var c := cs[|cs| - 1];
      if c.src in env' then env'[c.dst := env'[c.src]] else env'
  }

  lemma {:induction false} SequenceKeeps(cs: seq<PhiCopy>, env: Env, v: nat)
    requires v in env
    ensures v in InSequence(cs, env)
  {
    if cs != [] {
      SequenceKeeps(cs[..|cs| - 1], env, v);
    }
  }

  /** The assignment the PHIs mean: every destination gets the old value of its source. */
  ghost predicate InParallel(cs: seq<PhiCopy>, env: Env, env': Env)
    requires SourcesIn(cs, env)
  {
    && (forall i :: 0 <= i < |cs| ==> cs[i].dst in env' && env'[cs[i].dst] == env[cs[i].src])
    && (forall v :: v in env && (forall i :: 0 <= i < |cs| ==> cs[i].dst != v) ==> v in env' && env'[v] == env[v])
  }

  lemma {:induction false} SequenceIsParallel(cs: seq<PhiCopy>, env: Env)
    requires SourcesIn(cs, env) && DistinctDsts(cs) && NoConflict(cs)
    ensures InParallel(cs, env, InSequence(cs, env))
  {
    if cs != [] {
      var n := |cs| - 1;
      var rest := cs[..n];
      SequenceIsParallel(rest, env);
      var mid := InSequence(rest, env);
      assert forall i :: 0 <= i < n ==> rest[i] == cs[i];
      assert mid[cs[n].src] == env[cs[n].src];
    }
  }

  /** With a conflict, the values of two registers decide: the moves go wrong. */
  lemma ConflictShows(cs: seq<PhiCopy>, i: nat, j: nat, env: Env)
    requires SourcesIn(cs, env) && DistinctDsts(cs) && i < j < |cs|
    requires cs[i].dst == cs[j].src && NoConflict(cs[..j])
    requires env[cs[i].src] != env[cs[j].src]
    ensures cs[j].dst in InSequence(cs, env) && InSequence(cs, env)[cs[j].dst] != env[cs[j].src]
  {
    var before := cs[..j];
    assert before[i] == cs[i];
    assert InSequence(before, env)[cs[j].src] == env[cs[i].src] && cs[j].src in InSequence(before, env) by {
      assert SourcesIn(before, env) && DistinctDsts(before);
      SequenceIsParallel(before, env);
    }
    var upto := cs[..j + 1];
    assert upto[..j] == before && upto[j] == cs[j];
    LaterKeeps(cs, j + 1, env, cs[j].dst);
  }

  lemma {:induction false} LaterKeeps(cs: seq<PhiCopy>, k: nat, env: Env, v: nat)
    requires SourcesIn(cs, env) && k <= |cs| && forall i :: k <= i < |cs| ==> cs[i].dst != v
    ensures v in InSequence(cs[..k], env) ==> v in InSequence(cs, env) && InSequence(cs, env)[v] == InSequence(cs[..k], env)[v]
    decreases |cs| - k
  {
    if k == |cs| {
      assert cs[..k] == cs;
    } else {
      LaterKeeps(cs, k + 1, env, v);
      var upto := cs[..k + 1];
      assert upto[..k] == cs[..k] && upto[k] == cs[k];
    }
  }

  lemma {:induction false} FirstConflict(cs: seq<PhiCopy>) returns (i: nat, j: nat)
    requires !NoConflict(cs)
    ensures i < j < |cs| && cs[i].dst == cs[j].src && NoConflict(cs[..j])
  {
    var rest := cs[..|cs| - 1];
    if NoConflict(rest) {
      forall x, y | 0 <= x < y < |cs| - 1 ensures cs[x].dst != cs[y].src {
        assert rest[x] == cs[x] && rest[y] == cs[y];
      }
      i, j :| 0 <= i < j < |cs| && cs[i].dst == cs[j].src;
    } else {
      i, j := FirstConflict(rest);
      assert rest[..j] == cs[..j];
    }
  }

  ghost predicate AlwaysParallel(cs: seq<PhiCopy>) {
    forall env: Env :: SourcesIn(cs, env) ==> InParallel(cs, env, InSequence(cs, env))
  }

  /** The sequence of moves is the parallel assignment for all register contents if and only
      if no copy reads what an earlier one wrote. */
  lemma SequenceExact(cs: seq<PhiCopy>)
    requires DistinctDsts(cs) && forall i :: 0 <= i < |cs| ==> cs[i].dst != cs[i].src
    ensures AlwaysParallel(cs) <==> NoConflict(cs)
  {
    if NoConflict(cs) {
      forall env: Env | SourcesIn(cs, env) ensures InParallel(cs, env, InSequence(cs, env)) {
        SequenceIsParallel(cs, env);
      }
    } else {
      var i, j := FirstConflict(cs);
      var dom := set k | 0 <= k < |cs| :: cs[k].src;
      var env: Env := map v | v in dom :: if v == cs[i].src then 1 else 0;
      forall k | 0 <= k < |cs| ensures cs[k].src in env {}
      assert SourcesIn(cs, env);
      assert cs[j].src in env;
      ConflictShows(cs, i, j, env);
      assert !InParallel(cs, env, InSequence(cs, env));
    }
  }

  // ---- Running the moves ----

  /** The moves stand at position `i` of a block. */
  ghost predicate MovesAt(mb: MachBlock, i: nat, cs: seq<PhiCopy>) {
    i + |cs| <= |mb| && forall k :: 0 <= k < |cs| ==> mb[i + k] == Make(MOV, cs[k].dst, cs[k].src, 0, 0)
  }

  lemma {:induction false} RunMoves(w: World, mb: MachBlock, i: nat, cs: seq<PhiCopy>, env: Env, flags: Flags, trace: Trace)
    requires MovesAt(mb, i, cs) && SourcesIn(cs, env)
    ensures RunM(w, mb, i, env, flags, trace) == RunM(w, mb, i + |cs|, InSequence(cs, env), flags, trace)
  {
    if cs != [] {
      var n := |cs| - 1;
      var rest := cs[..n];
      assert MovesAt(mb, i, rest) && SourcesIn(rest, env);
      RunMoves(w, mb, i, rest, env, flags, trace);
      SequenceKeeps(rest, env, cs[n].src);
      assert mb[i + n] == Make(MOV, cs[n].dst, cs[n].src, 0, 0);
    }
  }
}
