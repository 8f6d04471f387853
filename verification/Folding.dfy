/** Compile-time arithmetic, shared by the constant folder (src/opt_constfold.c:30-55)
    and SCCP (src/opt_sccp.c:100-115). */
module Folding {
  import opened Wrappers
  import opened Word64

  /** The folded value of `a op b`; None is the division by zero that SCCP declines to
      fold.  A remainder by zero folds to 0. */
  function FoldBinop(kind: BinOpKind, a: Int64, b: Int64): Option<Int64> {
    if kind.Div? then (if b == 0 then None else Some(Wrap(TruncDiv(a, b))))
    else if kind.Mod? then Some(if b == 0 then 0 else Wrap(a - b * TruncDiv(a, b)))
    else EvalBinop(kind, a, b)
  }

  /** Folding agrees with execution wherever execution does not fault. */
  lemma FoldAgrees(kind: BinOpKind, a: Int64, b: Int64)
    requires EvalBinop(kind, a, b).Some?
    ensures FoldBinop(kind, a, b) == EvalBinop(kind, a, b)
  {
  }
}
