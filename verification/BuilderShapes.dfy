/** Notions the SSA builder and the account of its tables share. */
module BuilderShapes {
  import opened Wrappers
  import opened Ssa
  import opened Draft

  /** How many tables lack the variable. */
  function Missing(defs: seq<map<Name, VReg>>, x: Name): nat {
    if defs == [] then 0 else Missing(defs[..|defs| - 1], x) + if x in defs[|defs| - 1] then 0 else 1
  }

  lemma {:induction false} MissingLess(defs: seq<map<Name, VReg>>, defs': seq<map<Name, VReg>>, x: Name)
    requires |defs| == |defs'| && forall c :: 0 <= c < |defs| ==> (x in defs[c] ==> x in defs'[c])
    ensures Missing(defs', x) <= Missing(defs, x)
    ensures (exists c :: 0 <= c < |defs| && x !in defs[c] && x in defs'[c]) ==> Missing(defs', x) < Missing(defs, x)
  {
    if defs != [] {
      var n := |defs| - 1;
      MissingLess(defs[..n], defs'[..n], x);
      if c :| 0 <= c < |defs| && x !in defs[c] && x in defs'[c] {
        if c < n {
          assert x !in defs[..n][c] && x in defs'[..n][c];
        }
      }
    }
  }

  /** The names of the parameters; of two that are the same the later one counts. */
  function ParamTable(params: seq<Name>): map<Name, VReg> {
    if params == [] then map[] else ParamTable(params[..|params| - 1])[params[|params| - 1] := |params| - 1]
  }

  predicate AllSame(srcs: seq<VReg>) {
    forall i :: 0 <= i < |srcs| ==> srcs[i] == srcs[0]
  }

  function PhiArgs(srcs: seq<VReg>, preds: seq<Label>): seq<PhiArg>
    requires |srcs| == |preds|
  {
    seq(|srcs|, i requires 0 <= i < |srcs| => PhiArg(srcs[i], preds[i]))
  }

  predicate IsPhiOf(inst: Inst, v: VReg) {
    inst.op.Phi? && inst.dst == Some(v)
  }

  /** Predecessors exist, and a sealed block with only one comes after it. */
  ghost predicate Linked(preds: seq<seq<Label>>, sealed: seq<bool>) {
    && (forall b, i :: 0 <= b < |preds| && 0 <= i < |preds[b]| ==> preds[b][i] < |preds|)
    && (forall b :: 0 <= b < |preds| && b < |sealed| && sealed[b] && |preds[b]| == 1 ==> preds[b][0] < b)
  }
}
