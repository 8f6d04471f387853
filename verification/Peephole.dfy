/** The peephole optimiser (src/peephole.c:18-90), run on allocated code. */
module Peephole {
  import opened Wrappers
  import opened Word64
  import opened Ssa
  import opened Mach
  import opened Isel
  import opened LinearScan
  import RegAlloc

  const MAX_ITERATIONS: nat := 5

  // ---- One window ----

  /** `b` only copies back what `a` copied; register 0 is left out, as coded. */
  predicate CopiesBack(a: MachInst, b: MachInst) {
    a.op.MOV? && b.op.MOV? && a.dst == b.src && a.src == b.dst && a.dst != 0 && b.dst != 0
  }

  /** What the single-instruction patterns make of an instruction, one after the other. */
  function Simpler(a: MachInst): MachInst {
    if a.op.ADD_IMM? && a.imm == 0 then a.(op := NOP)
    else if a.op.SUB_IMM? && a.imm == 0 then a.(op := NOP)
    else if a.op.MOV_IMM? && a.imm == 0 && a.dst != 0 then a.(op := XOR, src := a.dst, src2 := a.dst)
    else if a.op.MUL_IMM? && a.imm == 1 then a.(op := NOP)
    else if a.op.MUL_IMM? && a.imm == 2 && a.dst != 0 then a.(op := ADD, src := a.dst, src2 := a.dst, imm := 0)
    else a
  }

  function Window(mb: MachBlock, i: nat): (mb': MachBlock)
    requires i + 1 < |mb|
    ensures |mb'| == |mb|
  {
    var mid := if CopiesBack(mb[i], mb[i + 1]) then mb[i + 1 := mb[i + 1].(op := NOP)] else mb;
    mid[i := Simpler(mid[i])]
  }

  function Scan(mb: MachBlock, n: nat): (mb': MachBlock)
    requires n < |mb| || (n == 0 && mb == [])
    ensures |mb'| == |mb|
  {
    if n == 0 then mb else Window(Scan(mb, n - 1), n - 1)
  }

  function Compact(mb: MachBlock): MachBlock {
    if mb == [] then [] else Compact(mb[..|mb| - 1]) + if mb[|mb| - 1].op.NOP? then [] else [mb[|mb| - 1]]
  }

  function Sweep(mb: MachBlock): MachBlock {
    Compact(Scan(mb, if |mb| == 0 then 0 else |mb| - 1))
  }

  function SweepAll(bs: seq<MachBlock>): (r: seq<MachBlock>)
    ensures |r| == |bs|
  {
    seq(|bs|, b requires 0 <= b < |bs| => Sweep(bs[b]))
  }

  function Sweeps(bs: seq<MachBlock>, n: nat): seq<MachBlock>
    decreases n
  {
    if n == 0 then bs else Sweeps(SweepAll(bs), n - 1)
  }

  // ---- Flags ----

  predicate SetsFlags(inst: MachInst) {
    inst.op.CMP? || inst.op.TEST?
  }

  predicate ReadsFlags(inst: MachInst) {
    inst.op.SET? || inst.op.JE? || inst.op.JNE?
  }

  /** A flag reader stands directly behind the compare or test it reads. */
  ghost predicate Adjacent(mb: MachBlock) {
    forall i :: 0 <= i < |mb| && ReadsFlags(mb[i]) ==> i > 0 && SetsFlags(mb[i - 1])
  }

  /** From position `i` on the flags do not matter. */
  lemma {:induction false} FlagsDead(w: World, mb: MachBlock, i: nat, env: Env, f: Flags, g: Flags, trace: Trace)
    requires Adjacent(mb) && (i < |mb| ==> !ReadsFlags(mb[i]))
    ensures RunM(w, mb, i, env, f, trace) == RunM(w, mb, i, env, g, trace)
    decreases |mb| - i
  {
    if i < |mb| && !mb[i].op.IsJump() && !mb[i].op.RET? {
      match ExecM(w, mb[i], env, f, trace) {
        case MStuck =>
        case MWent(env', f', trace') =>
          if !SetsFlags(mb[i]) {
            FlagsDead(w, mb, i + 1, env', f', FlagsAfter(mb[i], env, g), trace');
          }
      }
    }
  }

  // ---- Running a block after a change ----

  /** The block starts with every machine register holding something. */
  ghost predicate AllRegs(env: Env) {
    forall r :: 0 <= r < REG_COUNT ==> r in env
  }

  ghost predicate Physical(mb: MachBlock) {
    forall i :: 0 <= i < |mb| ==> mb[i].dst < REG_COUNT
  }

  /** From position `i` on both blocks do the same. */
  ghost predicate SameFrom(w: World, mb: MachBlock, mb': MachBlock, i: nat) {
    forall env, flags, trace :: AllRegs(env) ==> RunM(w, mb, i, env, flags, trace) == RunM(w, mb', i, env, flags, trace)
  }

  /** A change further on does not show before. */
  lemma {:induction false} SameBefore(w: World, mb: MachBlock, mb': MachBlock, i: nat, k: nat)
    requires k <= i <= |mb| && |mb'| == |mb| && (forall j :: k <= j < i ==> mb'[j] == mb[j]) && SameFrom(w, mb, mb', i)
    ensures SameFrom(w, mb, mb', k)
    decreases i - k
  {
    if k < i {
      SameBefore(w, mb, mb', i, k + 1);
      forall env, flags, trace | AllRegs(env) ensures RunM(w, mb, k, env, flags, trace) == RunM(w, mb', k, env, flags, trace) {
        assert mb'[k] == mb[k];
        if !mb[k].op.IsJump() && !mb[k].op.RET? {
          match ExecM(w, mb[k], env, flags, trace) {
            case MStuck =>
            case MWent(env', flags', trace') => assert AllRegs(env');
          }
        }
      }
    }
  }

  lemma {:induction false} SameAfter(w: World, mb: MachBlock, mb': MachBlock, i: nat, env: Env, flags: Flags, trace: Trace)
    requires |mb'| == |mb| && (forall j :: i <= j < |mb| ==> mb'[j] == mb[j])
    ensures RunM(w, mb, i, env, flags, trace) == RunM(w, mb', i, env, flags, trace)
    decreases |mb| - i
  {
    if i < |mb| && !mb[i].op.RET? && !mb[i].op.JMP? {
      if mb[i].op.IsJump() {
        SameAfter(w, mb, mb', i + 1, env, flags, trace);
      } else {
        match ExecM(w, mb[i], env, flags, trace) {
          case MStuck =>
          case MWent(env', flags', trace') => SameAfter(w, mb, mb', i + 1, env', flags', trace');
        }
      }
    }
  }

  // ---- The single-instruction patterns ----

  lemma {:induction false} BitwiseZero(op: (bool, bool) -> bool, a: nat, n: nat)
    requires forall x :: !op(x, x)
    ensures Bitwise(op, a, a, n) == 0
  {
    if n > 0 {
      BitwiseZero(op, a / 2, n - 1);
    }
  }

  lemma XorSelf(x: Int64)
    ensures AluValue(XOR, x, x) == Some(0)
  {
    BitwiseZero((p, q) => p != q, Unsigned(x), 64);
  }

  /** The simpler instruction computes the same registers. */
  lemma SimplerSame(w: World, a: MachInst, env: Env, flags: Flags, trace: Trace)
    requires AllRegs(env) && a.dst < REG_COUNT && Simpler(a) != a
    ensures !a.op.IsJump() && !a.op.RET? && !Simpler(a).op.IsJump() && !Simpler(a).op.RET?
    ensures ExecM(w, a, env, flags, trace).MWent? && ExecM(w, Simpler(a), env, flags, trace).MWent?
    ensures var r, s := ExecM(w, a, env, flags, trace), ExecM(w, Simpler(a), env, flags, trace); r.env == s.env && r.trace == s.trace == trace
    ensures AllRegs(ExecM(w, a, env, flags, trace).env)
  {
    assert a.dst in env;
    SimplerValue(a, env[a.dst]);
    if Simpler(a).op.NOP? {
      SimplerGone(w, a, env, flags, trace);
    } else {
      hide AluValue, Wrap;
    }
  }

  /** What becomes a NOP did not change its register. */
  lemma SimplerGone(w: World, a: MachInst, env: Env, flags: Flags, trace: Trace)
    requires AllRegs(env) && a.dst < REG_COUNT && Simpler(a) != a && Simpler(a).op.NOP?
    ensures a.op.IsAluImm() && a.dst in env && ExecM(w, a, env, flags, trace) == MWent(env, None, trace)
    ensures ExecM(w, Simpler(a), env, flags, trace) == MWent(env, flags, trace)
  {
    assert a.dst in env;
    SimplerValue(a, env[a.dst]);
    hide AluValue, Wrap, AllRegs;
    assert env[a.dst := env[a.dst]] == env;
  }

  lemma SimplerValue(a: MachInst, x: Int64)
    ensures a.op.ADD_IMM? && a.imm == 0 ==> Wrap(x + a.imm) == x
    ensures a.op.SUB_IMM? && a.imm == 0 ==> Wrap(x - a.imm) == x
    ensures a.op.MUL_IMM? && a.imm == 1 ==> Wrap(x * a.imm) == x
    ensures a.op.MUL_IMM? && a.imm == 2 ==> AluValue(ADD, x, x) == Some(Wrap(x * a.imm))
    ensures AluValue(XOR, x, x) == Some(0)
  {
    XorSelf(x);
    hide Bitwise, BitwiseWord;
  }

  lemma SimplerHere(w: World, mb: MachBlock, i: nat)
    requires i < |mb| && Adjacent(mb) && Physical(mb)
    ensures SameFrom(w, mb, mb[i := Simpler(mb[i])], i)
  {
    var a, mb' := mb[i], mb[i := Simpler(mb[i])];
    if Simpler(a) != a {
      assert !SetsFlags(a);
      forall env, flags, trace | AllRegs(env) ensures RunM(w, mb, i, env, flags, trace) == RunM(w, mb', i, env, flags, trace) {
        SimplerSame(w, a, env, flags, trace);
        var r, s := ExecM(w, a, env, flags, trace), ExecM(w, Simpler(a), env, flags, trace);
        FlagsDead(w, mb, i + 1, r.env, r.flags, s.flags, trace);
        SameAfter(w, mb, mb', i + 1, s.env, s.flags, trace);
      }
    } else {
      assert mb' == mb;
    }
  }

  lemma CopyBackHere(w: World, mb: MachBlock, i: nat)
    requires i + 1 < |mb| && CopiesBack(mb[i], mb[i + 1])
    ensures SameFrom(w, mb, mb[i + 1 := mb[i + 1].(op := NOP)], i)
  {
    var a, b, mb' := mb[i], mb[i + 1], mb[i + 1 := mb[i + 1].(op := NOP)];
    forall env, flags, trace | AllRegs(env) ensures RunM(w, mb, i, env, flags, trace) == RunM(w, mb', i, env, flags, trace) {
      if a.src in env {
        var env' := env[a.dst := env[a.src]];
        assert env'[b.dst := env'[b.src]] == env';
        assert RunM(w, mb, i, env, flags, trace) == RunM(w, mb, i + 1, env', flags, trace) == RunM(w, mb, i + 2, env', flags, trace);
        assert RunM(w, mb', i, env, flags, trace) == RunM(w, mb', i + 1, env', flags, trace) == RunM(w, mb', i + 2, env', flags, trace);
        SameAfter(w, mb, mb', i + 2, env', flags, trace);
      }
    }
  }

  lemma SimplerKeeps(mb: MachBlock, i: nat)
    requires i < |mb| && Adjacent(mb) && Physical(mb)
    ensures Adjacent(mb[i := Simpler(mb[i])]) && Physical(mb[i := Simpler(mb[i])])
  {
    var mb' := mb[i := Simpler(mb[i])];
    forall j | 0 <= j < |mb'| && ReadsFlags(mb'[j]) ensures j > 0 && SetsFlags(mb'[j - 1]) {
      assert ReadsFlags(mb[j]);
    }
  }

  lemma NopKeeps(mb: MachBlock, i: nat)
    requires i < |mb| && mb[i].op.MOV? && Adjacent(mb) && Physical(mb)
    ensures Adjacent(mb[i := mb[i].(op := NOP)]) && Physical(mb[i := mb[i].(op := NOP)])
  {
    var mb' := mb[i := mb[i].(op := NOP)];
    forall j | 0 <= j < |mb'| && ReadsFlags(mb'[j]) ensures j > 0 && SetsFlags(mb'[j - 1]) {
      assert ReadsFlags(mb[j]);
    }
  }

  ghost predicate SameRuns(w: World, mb: MachBlock, mb': MachBlock) {
    forall env, flags, trace :: AllRegs(env) ==> RunM(w, mb, 0, env, flags, trace) == RunM(w, mb', 0, env, flags, trace)
  }

  lemma WindowSame(w: World, mb: MachBlock, i: nat)
    requires i + 1 < |mb| && Adjacent(mb) && Physical(mb)
    ensures SameRuns(w, mb, Window(mb, i)) && Adjacent(Window(mb, i)) && Physical(Window(mb, i))
  {
    var mid := if CopiesBack(mb[i], mb[i + 1]) then mb[i + 1 := mb[i + 1].(op := NOP)] else mb;
    if CopiesBack(mb[i], mb[i + 1]) {
      CopyBackHere(w, mb, i);
      SameBefore(w, mb, mid, i, 0);
      NopKeeps(mb, i + 1);
    }
    SimplerHere(w, mid, i);
    SimplerKeeps(mid, i);
    SameBefore(w, mid, Window(mb, i), i, 0);
  }

  lemma {:induction false} ScanSame(w: World, mb: MachBlock, n: nat)
    requires (n < |mb| || (n == 0 && mb == [])) && Adjacent(mb) && Physical(mb)
    ensures SameRuns(w, mb, Scan(mb, n)) && Adjacent(Scan(mb, n)) && Physical(Scan(mb, n))
  {
    if n > 0 {
      ScanSame(w, mb, n - 1);
      hide Window, Adjacent, Physical;
      WindowSame(w, Scan(mb, n - 1), n - 1);
    }
  }

  // ---- Compaction ----

  /** What is left of the first `i` instructions stands in front. */
  lemma {:induction false} CompactPrefix(mb: MachBlock, i: nat)
    requires i <= |mb|
    ensures |Compact(mb[..i])| <= |Compact(mb)| && Compact(mb)[..|Compact(mb[..i])|] == Compact(mb[..i])
    decreases |mb| - i
  {
    if i == |mb| {
      assert mb[..i] == mb;
    } else {
      CompactPrefix(mb, i + 1);
      assert mb[..i + 1][..i] == mb[..i];
    }
  }

  lemma CompactAt(mb: MachBlock, i: nat)
    requires i < |mb|
    ensures var k := |Compact(mb[..i])|;
            if mb[i].op.NOP? then |Compact(mb[..i + 1])| == k
            else |Compact(mb[..i + 1])| == k + 1 && k < |Compact(mb)| && Compact(mb)[k] == mb[i]
  {
    CompactPrefix(mb, i + 1);
    assert mb[..i + 1][..i] == mb[..i];
  }

  /** The rest of one block from `i` does what the rest of the other does from `k`. */
  ghost predicate SameRest(w: World, mb: MachBlock, i: nat, c: MachBlock, k: nat) {
    forall env, flags, trace :: RunM(w, mb, i, env, flags, trace) == RunM(w, c, k, env, flags, trace)
  }

  lemma SameInst(w: World, mb: MachBlock, i: nat, c: MachBlock, k: nat)
    requires i < |mb| && k < |c| && mb[i] == c[k] && SameRest(w, mb, i + 1, c, k + 1)
    ensures SameRest(w, mb, i, c, k)
  {
    hide ExecM;
    forall env, flags, trace ensures RunM(w, mb, i, env, flags, trace) == RunM(w, c, k, env, flags, trace) {
      assert RunM(w, mb, i + 1, env, flags, trace) == RunM(w, c, k + 1, env, flags, trace);
    }
  }

  lemma SkipNop(w: World, mb: MachBlock, i: nat, c: MachBlock, k: nat)
    requires i < |mb| && mb[i].op.NOP? && SameRest(w, mb, i + 1, c, k)
    ensures SameRest(w, mb, i, c, k)
  {
    forall env, flags, trace ensures RunM(w, mb, i, env, flags, trace) == RunM(w, c, k, env, flags, trace) {
      assert RunM(w, mb, i, env, flags, trace) == RunM(w, mb, i + 1, env, flags, trace);
    }
  }

  /** Leaving the NOPs out changes nothing. */
  lemma {:induction false} CompactRuns(w: World, mb: MachBlock, i: nat)
    requires i <= |mb|
    ensures SameRest(w, mb, i, Compact(mb), |Compact(mb[..i])|)
    decreases |mb| - i
  {
    if i == |mb| {
      assert mb[..i] == mb;
    } else {
      CompactRuns(w, mb, i + 1);
      CompactAt(mb, i);
      var k := |Compact(mb[..i])|;
      hide Compact, SameRest;
      if mb[i].op.NOP? {
        SkipNop(w, mb, i, Compact(mb), k);
      } else {
        SameInst(w, mb, i, Compact(mb), k);
      }
    }
  }

  /** Where an instruction that is left comes from, and what stood before it. */
  lemma {:induction false} CompactOrigin(mb: MachBlock, k: nat) returns (i: nat)
    requires k < |Compact(mb)|
    ensures i < |mb| && !mb[i].op.NOP? && Compact(mb)[k] == mb[i] && |Compact(mb[..i])| == k
  {
    var n := |mb| - 1;
    if k < |Compact(mb[..n])| {
      i := CompactOrigin(mb[..n], k);
      assert mb[..n][..i] == mb[..i];
    } else {
      i := n;
    }
  }

  lemma CompactKeeps(mb: MachBlock)
    requires Adjacent(mb) && Physical(mb)
    ensures Adjacent(Compact(mb)) && Physical(Compact(mb))
    ensures forall k :: 0 <= k < |Compact(mb)| ==> !Compact(mb)[k].op.NOP?
  {
    var c := Compact(mb);
    hide Compact;
    forall k | 0 <= k < |c| ensures c[k].dst < REG_COUNT && !c[k].op.NOP? {
      var i := CompactOrigin(mb, k);
    }
    forall k | 0 <= k < |c| && ReadsFlags(c[k]) ensures k > 0 && SetsFlags(c[k - 1]) {
      var i := CompactOrigin(mb, k);
      CompactAt(mb, i - 1);
    }
  }

  lemma SweepSame(w: World, mb: MachBlock)
    requires Adjacent(mb) && Physical(mb)
    ensures SameRuns(w, mb, Sweep(mb)) && Adjacent(Sweep(mb)) && Physical(Sweep(mb))
  {
    var s := Scan(mb, if |mb| == 0 then 0 else |mb| - 1);
    ScanSame(w, mb, if |mb| == 0 then 0 else |mb| - 1);
    CompactKeeps(s);
    hide Scan, Adjacent, Physical;
    CompactRuns(w, s, 0);
    assert s[..0] == [];
    forall env, flags, trace | AllRegs(env) ensures RunM(w, mb, 0, env, flags, trace) == RunM(w, Compact(s), 0, env, flags, trace) {
      assert RunM(w, s, 0, env, flags, trace) == RunM(w, Compact(s), 0, env, flags, trace);
    }
  }

  // ---- Whole functions ----

  /** What the peephole pass needs of the code; selected and allocated code is like this. */
  ghost predicate Tidy(bs: seq<MachBlock>) {
    forall b :: 0 <= b < |bs| ==> Adjacent(bs[b]) && Physical(bs[b])
  }

  ghost predicate SameBlocks(w: World, bs: seq<MachBlock>, bs': seq<MachBlock>) {
    |bs'| == |bs| && forall b :: 0 <= b < |bs| ==> SameRuns(w, bs[b], bs'[b])
  }

  lemma {:induction false} SweepsSame(w: World, bs: seq<MachBlock>, n: nat)
    requires Tidy(bs)
    ensures SameBlocks(w, bs, Sweeps(bs, n)) && Tidy(Sweeps(bs, n))
    decreases n
  {
    if n > 0 {
      var next := SweepAll(bs);
      forall b | 0 <= b < |bs| ensures SameRuns(w, bs[b], next[b]) && Adjacent(next[b]) && Physical(next[b]) {
        SweepSame(w, bs[b]);
      }
      hide SweepAll, Adjacent, Physical;
      SweepsSame(w, next, n - 1);
      var last := Sweeps(next, n - 1);
      forall b | 0 <= b < |bs| ensures SameRuns(w, bs[b], last[b]) {
        assert SameRuns(w, bs[b], next[b]) && SameRuns(w, next[b], last[b]);
      }
    }
  }

  /** A run from any contents of the machine registers. */
  function RunFrom(w: World, m: MFunc, env: Env, n: nat): MState
    decreases n
  {
    if n == 0 then MRunning(0, env, []) else StepM(w, m, RunFrom(w, m, env, n - 1))
  }

  lemma {:induction false} RegsStay(w: World, mb: MachBlock, i: nat, env: Env, flags: Flags, trace: Trace)
    requires AllRegs(env)
    ensures var r := RunM(w, mb, i, env, flags, trace); r.Goto? ==> AllRegs(r.env)
    decreases |mb| - i
  {
    if i < |mb| && !mb[i].op.RET? {
      if mb[i].op.IsJump() {
        RegsStay(w, mb, i + 1, env, flags, trace);
      } else {
        match ExecM(w, mb[i], env, flags, trace) {
          case MStuck =>
          case MWent(env', flags', trace') => RegsStay(w, mb, i + 1, env', flags', trace');
        }
      }
    }
  }

  lemma StepSame(w: World, m: MFunc, m': MFunc, s: MState)
    requires SameBlocks(w, m.blocks, m'.blocks) && (s.MRunning? ==> AllRegs(s.env))
    ensures StepM(w, m', s) == StepM(w, m, s)
    ensures StepM(w, m, s).MRunning? ==> AllRegs(StepM(w, m, s).env)
  {
    hide RunM;
    if s.MRunning? && s.block < |m.blocks| {
      RegsStay(w, m.blocks[s.block], 0, s.env, None, s.trace);
      assert SameRuns(w, m.blocks[s.block], m'.blocks[s.block]);
    }
  }

  /** The pass keeps every register, the events and the result, at the end of every block of
      every run. */
  lemma {:induction false} PeepholePreserves(w: World, m: MFunc, env: Env, n: nat)
    requires Tidy(m.blocks) && AllRegs(env)
    ensures RunFrom(w, m.(blocks := Sweeps(m.blocks, MAX_ITERATIONS)), env, n) == RunFrom(w, m, env, n)
    ensures var s := RunFrom(w, m, env, n); s.MRunning? ==> AllRegs(s.env)
    decreases n
  {
    hide Sweeps, Tidy, StepM, SameBlocks;
    if n > 0 {
      PeepholePreserves(w, m, env, n - 1);
      SweepsSame(w, m.blocks, MAX_ITERATIONS);
      StepSame(w, m, m.(blocks := Sweeps(m.blocks, MAX_ITERATIONS)), RunFrom(w, m, env, n - 1));
    }
  }

  /** No NOP is left. */
  lemma NoNops(mb: MachBlock)
    ensures forall k :: 0 <= k < |Sweep(mb)| ==> !Sweep(mb)[k].op.NOP?
  {
    var s := Scan(mb, if |mb| == 0 then 0 else |mb| - 1);
    forall k | 0 <= k < |Compact(s)| ensures !Compact(s)[k].op.NOP? {
      var i := CompactOrigin(s, k);
    }
  }

  // ---- Selected and allocated code qualifies ----

  ghost predicate AllAdjacent(bs: seq<MachBlock>) {
    forall b :: 0 <= b < |bs| ==> Adjacent(bs[b])
  }

  lemma {:induction false} LoweredAdjacent(b: Block, n: nat)
    requires n <= |b|
    ensures Adjacent(LowerUpTo(b, n))
  {
    if n > 0 {
      LoweredAdjacent(b, n - 1);
      var before, code := LowerUpTo(b, n - 1), LowerInst(b[n - 1]);
      InstAdjacent(b[n - 1]);
      hide LowerInst, LowerUpTo;
      AppendAdjacent(before, code);
    }
  }

  lemma InstAdjacent(inst: Inst)
    ensures Adjacent(LowerInst(inst))
  {
  }

  lemma AppendAdjacent(xs: MachBlock, ys: MachBlock)
    requires Adjacent(xs) && Adjacent(ys)
    ensures Adjacent(xs + ys)
  {
    var zs := xs + ys;
    forall i | 0 <= i < |zs| && ReadsFlags(zs[i]) ensures i > 0 && SetsFlags(zs[i - 1]) {
      if i < |xs| {
        assert ReadsFlags(xs[i]);
      } else {
        assert ReadsFlags(ys[i - |xs|]);
      }
    }
  }

  lemma PrefixAdjacent(mb: MachBlock, n: nat)
    requires n <= |mb| && Adjacent(mb)
    ensures Adjacent(mb[..n])
  {
    var front := mb[..n];
    forall i | 0 <= i < |front| && ReadsFlags(front[i]) ensures i > 0 && SetsFlags(front[i - 1]) {
      assert ReadsFlags(mb[i]);
    }
  }

  /** Placing an edge's copies comes between no test and its jump. */
  lemma PlaceAdjacent(bs: seq<MachBlock>, e: EdgeCopies)
    requires e.pred < |bs| && AllAdjacent(bs)
    ensures AllAdjacent(PlaceEdge(bs, e))
  {
    var bs', pb := PlaceEdge(bs, e), bs[e.pred];
    assert Adjacent(Moves(e.copies)) && Adjacent(EdgeBlock(e.copies, e.phi));
    assert Adjacent(bs'[e.pred]) by {
      var n := |pb|;
      if n > 0 && pb[n - 1].op.JMP? && bs'[e.pred] == pb[..n - 1] + Moves(e.copies) + [pb[n - 1]] {
        PrefixAdjacent(pb, n - 1);
        hide PlaceEdge, Adjacent;
        AppendAdjacent(pb[..n - 1], Moves(e.copies));
        AppendAdjacent(pb[..n - 1] + Moves(e.copies), [pb[n - 1]]);
      } else {
        RetargetAdjacent(bs, e);
      }
    }
  }

  lemma RetargetAdjacent(bs: seq<MachBlock>, e: EdgeCopies)
    requires e.pred < |bs| && Adjacent(bs[e.pred])
    requires var pb := bs[e.pred]; !(|pb| > 0 && pb[|pb| - 1].op.JMP? && PlaceEdge(bs, e)[e.pred] == pb[..|pb| - 1] + Moves(e.copies) + [pb[|pb| - 1]])
    ensures Adjacent(PlaceEdge(bs, e)[e.pred])
  {
    var pb, pb' := bs[e.pred], PlaceEdge(bs, e)[e.pred];
    if pb != [] {
      assert |pb'| == |pb|;
      forall i | 0 <= i < |pb'| && ReadsFlags(pb'[i]) ensures i > 0 && SetsFlags(pb'[i - 1]) {
        assert pb'[i].op == pb[i].op && (i > 0 ==> pb'[i - 1].op == pb[i - 1].op);
        assert ReadsFlags(pb[i]);
      }
    }
  }

  lemma {:induction false} PlacedAdjacent(bs: seq<MachBlock>, edges: seq<EdgeCopies>, n: nat)
    requires n <= |edges| && (forall e :: 0 <= e < n ==> edges[e].pred < |bs|) && AllAdjacent(bs)
    ensures AllAdjacent(PlaceUpTo(bs, edges, n))
  {
    if n > 0 {
      PlacedAdjacent(bs, edges, n - 1);
      assert edges[n - 1].pred < |bs|;
      hide PlaceEdge, AllAdjacent;
      PlaceAdjacent(PlaceUpTo(bs, edges, n - 1), edges[n - 1]);
    }
  }

  /** In selected code every flag reader stands directly behind its compare or test. */
  lemma SelectionAdjacent(f: Func, m: MFunc)
    requires IsSelection(f, m)
    ensures AllAdjacent(m.blocks)
  {
    var edges :| AllCollected(f, edges) && m == MFunc(PlaceUpTo(LowerAll(f), edges, |edges|), f.nextVreg, f.params);
    forall b | 0 <= b < |LowerAll(f)| ensures Adjacent(LowerAll(f)[b]) {
      LoweredAdjacent(f.blocks[b], |f.blocks[b]|);
    }
    assert AllAdjacent(LowerAll(f)) && |LowerAll(f)| == |f.blocks|;
    hide LowerAll, AllAdjacent, PlaceEdge, CopiesFor;
    PlacedAdjacent(LowerAll(f), edges, |edges|);
  }

  /** Allocation keeps the opcodes and leaves only machine registers. */
  lemma AllocatedTidy(m: MFunc, regOf: seq<nat>)
    requires AllAdjacent(m.blocks)
    requires forall v :: 0 <= v < |regOf| ==> regOf[v] < REG_COUNT
    requires forall b, i :: m.Has(b, i) ==> (Writes(m.At(b, i)).Some? && m.At(b, i).dst < |regOf| <= INVALID_VREG) || m.At(b, i).dst == 0
    ensures Tidy(RegAlloc.RenameFunc(m, regOf).blocks)
  {
    var m' := RegAlloc.RenameFunc(m, regOf);
    forall b | 0 <= b < |m'.blocks| ensures Adjacent(m'.blocks[b]) && Physical(m'.blocks[b]) {
      var mb, mb' := m.blocks[b], m'.blocks[b];
      forall i | 0 <= i < |mb'| ensures mb'[i].op == mb[i].op && mb'[i].dst < REG_COUNT {
        assert m.Has(b, i) && m.At(b, i) == mb[i];
      }
      forall i | 0 <= i < |mb'| && ReadsFlags(mb'[i]) ensures i > 0 && SetsFlags(mb'[i - 1]) {
        assert ReadsFlags(mb[i]);
      }
    }
  }

  // ---- The pass ----

  /** Once a sweep changes nothing, no later one does. */
  lemma {:induction false} Stable(bs: seq<MachBlock>, n: nat)
    requires SweepAll(bs) == bs
    ensures Sweeps(bs, n) == bs
    decreases n
  {
    if n > 0 {
      hide SweepAll;
      Stable(bs, n - 1);
    }
  }

  method ScanBlock(mb: MachBlock) returns (out: MachBlock, changed: bool)
    ensures out == Scan(mb, if |mb| == 0 then 0 else |mb| - 1)
    ensures !changed ==> out == mb
  {
    out, changed := mb, false;
    var i := 0;
    while i + 1 < |mb|
      invariant i <= |mb| && (mb != [] ==> i < |mb|) && |out| == |mb|
      invariant out == Scan(mb, i) && (!changed ==> out == mb)
    {
      ghost var before := out;
      var a, b := out[i], out[i + 1];
      if a.op.MOV? && b.op.MOV? && a.dst == b.src && a.src == b.dst && a.dst != 0 && b.dst != 0 {
        out := out[i + 1 := out[i + 1].(op := NOP)];
        changed := true;
      }
      if out[i].op.ADD_IMM? && out[i].imm == 0 {
        out := out[i := out[i].(op := NOP)];
        changed := true;
      }
      if out[i].op.SUB_IMM? && out[i].imm == 0 {
        out := out[i := out[i].(op := NOP)];
        changed := true;
      }
      if out[i].op.MOV_IMM? && out[i].imm == 0 && out[i].dst != 0 {
        out := out[i := out[i].(op := XOR, src := out[i].dst, src2 := out[i].dst, imm := 0)];
        changed := true;
      }
      if out[i].op.MUL_IMM? && out[i].imm == 1 {
        out := out[i := out[i].(op := NOP)];
        changed := true;
      }
      if out[i].op.MUL_IMM? && out[i].imm == 2 && out[i].dst != 0 {
        out := out[i := out[i].(op := ADD, src := out[i].dst, src2 := out[i].dst, imm := 0)];
        changed := true;
      }
      assert out == Window(before, i);
      i := i + 1;
    }
  }

  method CompactBlock(mb: MachBlock) returns (out: MachBlock, changed: bool)
    ensures out == Compact(mb)
    ensures !changed ==> out == mb
  {
    var insts := mb;
    changed := false;
    var write := 0;
    for i := 0 to |mb|
      invariant write <= i && |insts| == |mb| && insts[..write] == Compact(mb[..i])
      invariant forall j :: i <= j < |mb| ==> insts[j] == mb[j]
      invariant !changed ==> write == i && insts == mb
    {
      assert mb[..i + 1][..i] == mb[..i];
      if !insts[i].op.NOP? {
        if write != i {
          insts := insts[write := insts[i]];
        }
        write := write + 1;
      } else {
        changed := true;
      }
    }
    assert mb[..|mb|] == mb;
    out := insts[..write];
  }

  /** One sweep over all blocks. */
  method SweepBlocks(mf: MachFunc) returns (changed: bool)
    modifies mf
    ensures mf.blocks == SweepAll(old(mf.blocks))
    ensures !changed ==> mf.blocks == old(mf.blocks)
  {
    hide Scan, Compact;
    changed := false;
    ghost var bs := mf.blocks;
    for b := 0 to |mf.blocks|
      invariant |mf.blocks| == |bs|
      invariant forall c :: 0 <= c < b ==> mf.blocks[c] == Sweep(bs[c])
      invariant forall c :: b <= c < |bs| ==> mf.blocks[c] == bs[c]
      invariant !changed ==> mf.blocks == bs
    {
      var scanned, c0 := ScanBlock(mf.blocks[b]);
      var compacted, c1 := CompactBlock(scanned);
      changed := changed || c0 || c1;
      mf.blocks := mf.blocks[b := compacted];
    }
  }

  method PeepholeRun(mf: MachFunc)
    modifies mf
    ensures mf.blocks == Sweeps(old(mf.blocks), 5)
  {
    hide SweepAll;
    var changed, left := true, MAX_ITERATIONS;
    while changed && left > 0
      invariant Sweeps(mf.blocks, left) == Sweeps(old(mf.blocks), MAX_ITERATIONS)
      invariant !changed ==> SweepAll(mf.blocks) == mf.blocks
    {
      left := left - 1;
      changed := SweepBlocks(mf);
    }
    if !changed {
      Stable(mf.blocks, left);
    }
  }
}
