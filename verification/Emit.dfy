/** Emitting a function: bytes, labels and branch patches (src/emit.c:35-101, 736-802, 1290-1341). */
module Emit {
  import opened Wrappers
  import opened Ssa
  import opened Mach
  import opened X86
  import opened Expand

  // ---- The items of a function ----

  /** What the frame needs: its size and the callee-saved registers to keep. */
  datatype Frame = Frame(stackSize: nat, saved: seq<Reg>, paramMoves: seq<(Reg, Reg)>)

  function Codes(xs: seq<X86>): seq<Item> {
    seq(|xs|, i requires 0 <= i < |xs| => Code(xs[i]))
  }

  function Pushes(rs: seq<Reg>): seq<X86> {
    seq(|rs|, i requires 0 <= i < |rs| => Push(rs[i]))
  }

  /** Restored in the opposite order. */
  function Pops(rs: seq<Reg>): seq<X86> {
    seq(|rs|, i requires 0 <= i < |rs| => Pop(rs[|rs| - 1 - i]))
  }

  function ParamMoves(ms: seq<(Reg, Reg)>): seq<X86> {
    seq(|ms|, i requires 0 <= i < |ms| => MovRR(ms[i].0, ms[i].1))
  }

  /** Makes room for the frame. */
  function MakeRoom(size: nat): seq<X86> {
    if size == 0 then [] else if size <= 127 then [AluImm8(SubImm, RSP, size)]
    else [AluImm32(SubImm, RSP, Truncate32(size))]
  }

  function PrologueCode(fr: Frame): seq<X86> {
    [Push(RBP), MovRR(RBP, RSP)] + MakeRoom(fr.stackSize) + Pushes(fr.saved) + ParamMoves(fr.paramMoves)
  }

  function EpilogueCode(fr: Frame): seq<X86> {
    Pops(fr.saved) + [MovRR(RSP, RBP), Pop(RBP), RetNear]
  }

  /** The items of one instruction; a label emits nothing. */
  function ItemsOf(mi: MachInst, fr: Frame): seq<Item>
    requires Emittable(mi.op)
  {
    match mi.op
    case JMP => [JumpTo(None, mi.target)]
    case JE => [JumpTo(Some(E), mi.target)]
    case JNE => [JumpTo(Some(NE), mi.target)]
    case RET => Codes(ExpandInst(mi) + EpilogueCode(fr))
    case LABEL => []
    case _ => Codes(ExpandInst(mi))
  }

  predicate BlockEmittable(mb: MachBlock) {
    forall j :: 0 <= j < |mb| ==> Emittable(mb[j].op)
  }

  predicate AllEmittable(m: MFunc) {
    forall b :: 0 <= b < |m.blocks| ==> BlockEmittable(m.blocks[b])
  }

  function BlockItems(mb: MachBlock, i: nat, fr: Frame): seq<Item>
    requires i <= |mb| && BlockEmittable(mb)
  {
    if i == 0 then [] else BlockItems(mb, i - 1, fr) + ItemsOf(mb[i - 1], fr)
  }

  /** Everything before block `b`. */
  function ItemsBefore(m: MFunc, b: nat, fr: Frame): seq<Item>
    requires b <= |m.blocks| && AllEmittable(m)
  {
    if b == 0 then Codes(PrologueCode(fr))
    else ItemsBefore(m, b - 1, fr) + BlockItems(m.blocks[b - 1], |m.blocks[b - 1]|, fr)
  }

  /** With the fallback epilogue. */
  function FuncItems(m: MFunc, fr: Frame): seq<Item>
    requires AllEmittable(m)
  {
    ItemsBefore(m, |m.blocks|, fr) + Codes([MovImm32(RAX, 0)] + EpilogueCode(fr))
  }

  // ---- Bytes ----

  function Placeholder(it: Item): X86 {
    match it
    case Code(x) => x
    case JumpTo(None, _) => JmpRel(0)
    case JumpTo(Some(c), _) => JccRel(c, 0)
  }

  function ItemSize(it: Item): (n: nat)
    ensures it.JumpTo? ==> n >= 5
    ensures n > 0
  {
    |Encode(Placeholder(it))|
  }

  function Size(items: seq<Item>): nat {
    if items == [] then 0 else Size(items[..|items| - 1]) + ItemSize(items[|items| - 1])
  }

  /** An item at offset `at`, its distance filled in if its label is known. */
  function Resolved(it: Item, at: nat, labels: seq<nat>): X86 {
    match it
    case Code(x) => x
    case JumpTo(cc, l) =>
      if l >= |labels| then Placeholder(it)
      else
        var rel := Truncate32(labels[l] - (at + ItemSize(it)));
        match cc case None => JmpRel(rel) case Some(c) => JccRel(c, rel)
  }

  /** The bytes of the items from offset `base` on. */
  function Assemble(items: seq<Item>, base: nat, labels: seq<nat>, resolved: bool): (bs: seq<Byte>)
    ensures |bs| == Size(items)
  {
    if items == [] then []
    else
      var k := |items| - 1;
      var at := base + Size(items[..k]);
      ResolvedSize(items[k], at, labels);
      Assemble(items[..k], base, labels, resolved) + Encode(if resolved then Resolved(items[k], at, labels) else Placeholder(items[k]))
  }

  lemma ResolvedSize(it: Item, at: nat, labels: seq<nat>)
    ensures |Encode(Resolved(it, at, labels))| == ItemSize(it)
  {
  }

  datatype Patch = Patch(offset: nat, label_: Label)

  /** Where the distances of the jumps are, in order. */
  function PatchesOf(items: seq<Item>, base: nat): seq<Patch> {
    if items == [] then []
    else
      var k := |items| - 1;
      PatchesOf(items[..k], base) +
      if items[k].JumpTo? then [Patch(base + Size(items) - 4, items[k].label_)] else []
  }

  function PatchAt(bs: seq<Byte>, offset: nat, rel: Int32): (r: seq<Byte>)
    requires offset + 4 <= |bs|
    ensures |r| == |bs|
  {
    Powers();
    bs[..offset] + TwosLe(rel, 4) + bs[offset + 4..]
  }

  /** The distance is relative to the end of its field. */
  function Distance(p: Patch, labels: seq<nat>): Int32
    requires p.label_ < |labels|
  {
    Truncate32(labels[p.label_] - (p.offset + 4))
  }

  function ApplyPatches(bs: seq<Byte>, ps: seq<Patch>, labels: seq<nat>): (r: seq<Byte>)
    ensures |r| == |bs|
  {
    if ps == [] then bs
    else
      var k := |ps| - 1;
      var before := ApplyPatches(bs, ps[..k], labels);
      if ps[k].label_ < |labels| && ps[k].offset + 4 <= |bs| then PatchAt(before, ps[k].offset, Distance(ps[k], labels)) else before
  }

  lemma {:induction false} ApplyMore(bs: seq<Byte>, ps: seq<Patch>, p: Patch, labels: seq<nat>)
    ensures ApplyPatches(bs, ps + [p], labels) ==
              if p.label_ < |labels| && p.offset + 4 <= |bs| then PatchAt(ApplyPatches(bs, ps, labels), p.offset, Distance(p, labels))
              else ApplyPatches(bs, ps, labels)
  {
    assert (ps + [p])[..|ps|] == ps;
  }

  function JumpHead(it: Item): seq<Byte>
    requires it.JumpTo?
  {
    match it.cc case None => [0xE9] case Some(c) => [0x0F, 0x80 + CondCode(c)]
  }

  lemma FitsWord(v: Int32)
    ensures Fits(v, 4)
  {
    Powers();
  }

  /** A jump is its opcode and four bytes of distance. */
  lemma JumpBytes(it: Item, at: nat, labels: seq<nat>)
    requires it.JumpTo? && it.label_ < |labels|
    ensures var rel := Truncate32(labels[it.label_] - (at + ItemSize(it)));
            && Fits(0, 4) && Fits(rel, 4)
            && Encode(Placeholder(it)) == JumpHead(it) + TwosLe(0, 4)
            && Encode(Resolved(it, at, labels)) == JumpHead(it) + TwosLe(rel, 4)
            && ItemSize(it) == |JumpHead(it)| + 4
  {
    FitsWord(0);
    FitsWord(Truncate32(labels[it.label_] - (at + ItemSize(it))));
    hide TwosLe, Pow256, Truncate32;
  }

  lemma Replace(pre: seq<Byte>, head: seq<Byte>, field: seq<Byte>, tail: seq<Byte>, rel: Int32)
    requires |field| == 4
    ensures Fits(rel, 4) && PatchAt(pre + (head + field) + tail, |pre| + |head|, rel) == pre + (head + TwosLe(rel, 4)) + tail
  {
    FitsWord(rel);
    hide TwosLe, Pow256;
    var bs := pre + (head + field) + tail;
    assert bs[..|pre| + |head|] == pre + head;
    assert bs[|pre| + |head| + 4..] == tail;
  }

  /** Filling in a distance makes the placeholder the resolved jump, and touches nothing else. */
  lemma PatchOne(pre: seq<Byte>, it: Item, tail: seq<Byte>, labels: seq<nat>)
    requires it.JumpTo? && it.label_ < |labels|
    ensures var p := Patch(|pre| + ItemSize(it) - 4, it.label_);
            PatchAt(pre + Encode(Placeholder(it)) + tail, p.offset, Distance(p, labels)) == pre + Encode(Resolved(it, |pre|, labels)) + tail
  {
    hide Encode, TwosLe, Pow256, Truncate32, PatchAt, Placeholder, Resolved, ItemSize, JumpHead;
    JumpBytes(it, |pre|, labels);
    var rel := Truncate32(labels[it.label_] - (|pre| + ItemSize(it)));
    Replace(pre, JumpHead(it), TwosLe(0, 4), tail, rel);
  }

  lemma AssembleLast(items: seq<Item>, base: nat, labels: seq<nat>, resolved: bool)
    requires items != []
    ensures var k := |items| - 1; var at := base + Size(items[..k]);
            Assemble(items, base, labels, resolved) ==
              Assemble(items[..k], base, labels, resolved) + Encode(if resolved then Resolved(items[k], at, labels) else Placeholder(items[k]))
  {
    hide Encode, Placeholder, Resolved;
  }

  lemma PatchesLast(items: seq<Item>, base: nat)
    requires items != []
    ensures var k := |items| - 1;
            PatchesOf(items, base) == PatchesOf(items[..k], base) +
              if items[k].JumpTo? then [Patch(base + Size(items[..k]) + ItemSize(items[k]) - 4, items[k].label_)] else []
  {
    hide Encode, Placeholder, Resolved;
  }

  /** The last item, the others being done. */
  lemma PatchLast(done: seq<Byte>, it: Item, tail: seq<Byte>, labels: seq<nat>, bs: seq<Byte>, ps: seq<Patch>)
    requires ApplyPatches(bs, ps, labels) == done + Encode(Placeholder(it)) + tail
    ensures var more := if it.JumpTo? then [Patch(|done| + ItemSize(it) - 4, it.label_)] else [];
            ApplyPatches(bs, ps + more, labels) == done + Encode(Resolved(it, |done|, labels)) + tail
  {
    hide Encode;
    if it.JumpTo? {
      ApplyMore(bs, ps, Patch(|done| + ItemSize(it) - 4, it.label_), labels);
      assert |bs| == |done + Encode(Placeholder(it)) + tail|;
      if it.label_ < |labels| {
        PatchOne(done, it, tail, labels);
      }
    } else {
      assert ps + [] == ps;
    }
  }

  lemma Regroup(pre: seq<Byte>, front: seq<Byte>, last: seq<Byte>, tail: seq<Byte>)
    ensures pre + (front + last) + tail == pre + front + (last + tail) == (pre + front) + last + tail
  {
  }

  /** Applying all patches of some items resolves exactly these items. */
  lemma {:induction false} PatchAll(pre: seq<Byte>, items: seq<Item>, tail: seq<Byte>, labels: seq<nat>)
    ensures ApplyPatches(pre + Assemble(items, |pre|, labels, false) + tail, PatchesOf(items, |pre|), labels) ==
              pre + Assemble(items, |pre|, labels, true) + tail
  {
    hide Encode;
    if items == [] {
      assert Assemble(items, |pre|, labels, false) == [];
    } else {
      var k := |items| - 1;
      var init, last := items[..k], items[k];
      var ph := Encode(Placeholder(last));
      PatchAll(pre, init, ph + tail, labels);
      AssembleLast(items, |pre|, labels, false);
      AssembleLast(items, |pre|, labels, true);
      PatchesLast(items, |pre|);
      var front, right := Assemble(init, |pre|, labels, false), Assemble(init, |pre|, labels, true);
      var fixed := Encode(Resolved(last, |pre| + Size(init), labels));
      hide *;
      Regroup(pre, front, ph, tail);
      Regroup(pre, right, ph, tail);
      Regroup(pre, right, fixed, tail);
      PatchLast(pre + right, last, tail, labels, pre + Assemble(items, |pre|, labels, false) + tail, PatchesOf(init, |pre|));
    }
  }

  lemma MoreItems(items: seq<Item>, it: Item, base: nat)
    ensures Assemble(items + [it], base, [], false) == Assemble(items, base, [], false) + Encode(Placeholder(it))
    ensures PatchesOf(items + [it], base) == PatchesOf(items, base) +
              if it.JumpTo? then [Patch(base + Size(items) + ItemSize(it) - 4, it.label_)] else []
    ensures |Encode(Placeholder(it))| == ItemSize(it)
  {
    hide Encode, Assemble, PatchesOf, Size, Placeholder, Resolved;
    var all := items + [it];
    assert all[..|all| - 1] == items && all[|all| - 1] == it;
    AssembleLast(all, base, [], false);
    PatchesLast(all, base);
  }

  /** Before patching, labels do not matter. */
  lemma {:induction false} Unlabelled(items: seq<Item>, base: nat, labels: seq<nat>)
    ensures Assemble(items, base, [], false) == Assemble(items, base, labels, false)
  {
    if items != [] {
      Unlabelled(items[..|items| - 1], base, labels);
      AssembleLast(items, base, [], false);
      AssembleLast(items, base, labels, false);
      hide Assemble, Encode;
    }
  }

  lemma LabelIsNothing(mi: MachInst, fr: Frame)
    requires mi.op.LABEL?
    ensures ItemsOf(mi, fr) == []
  {
  }

  /** Each block's label is the offset of its first byte. */
  function LabelsOf(m: MFunc, fr: Frame, base: nat): (ls: seq<nat>)
    requires AllEmittable(m)
    ensures |ls| == |m.blocks|
  {
    seq(|m.blocks|, b requires 0 <= b < |m.blocks| => base + Size(ItemsBefore(m, b, fr)))
  }

  lemma FirstItems(m: MFunc, fr: Frame)
    requires AllEmittable(m)
    ensures [] + Codes(PrologueCode(fr)) == ItemsBefore(m, 0, fr)
  {
  }

  lemma NextItems(m: MFunc, b: nat, fr: Frame)
    requires AllEmittable(m) && b < |m.blocks|
    ensures BlockEmittable(m.blocks[b])
    ensures ItemsBefore(m, b, fr) + BlockItems(m.blocks[b], |m.blocks[b]|, fr) == ItemsBefore(m, b + 1, fr)
  {
  }

  lemma LabelNext(m: MFunc, fr: Frame, base: nat, b: nat)
    requires AllEmittable(m) && b < |m.blocks|
    ensures LabelsOf(m, fr, base)[..b] + [base + Size(ItemsBefore(m, b, fr))] == LabelsOf(m, fr, base)[..b + 1]
  {
    hide Size, ItemsBefore;
    var ls := LabelsOf(m, fr, base);
    assert ls[b] == base + Size(ItemsBefore(m, b, fr));
    hide *;
    assert ls[..b] + [ls[b]] == ls[..b + 1];
  }

  lemma AllItems(m: MFunc, fr: Frame)
    requires AllEmittable(m)
    ensures ItemsBefore(m, |m.blocks|, fr) + Codes([MovImm32(RAX, 0)] + EpilogueCode(fr)) == FuncItems(m, fr)
  {
  }

  class Emitter {
    var code: seq<Byte>
    var patches: seq<Patch>
    var labels: seq<nat>

    constructor ()
      ensures code == [] && patches == [] && labels == []
    {
      code, patches, labels := [], [], [];
    }

    /** Emit an instruction, or a jump with a placeholder and a note to patch it. */
    method EmitItem(it: Item)
      modifies this`code, this`patches
      ensures code == old(code) + Encode(Placeholder(it))
      ensures patches == old(patches) + if it.JumpTo? then [Patch(|code| - 4, it.label_)] else []
    {
      code := code + Encode(Placeholder(it));
      if it.JumpTo? {
        patches := patches + [Patch(|code| - 4, it.label_)];
      }
    }

    /** The code is `pre` followed by the items, jumps still open. */
    ghost predicate Holds(pre: seq<Byte>, items: seq<Item>)
      reads this`code, this`patches
    {
      code == pre + Assemble(items, |pre|, [], false) && patches == PatchesOf(items, |pre|)
    }

    method EmitItems(its: seq<Item>, ghost pre: seq<Byte>, ghost items: seq<Item>)
      requires Holds(pre, items)
      modifies this`code, this`patches
      ensures Holds(pre, items + its)
    {
      hide Encode, Assemble, PatchesOf, Placeholder, Size, ItemSize;
      assert items + its[..0] == items;
      for i := 0 to |its|
        invariant Holds(pre, items + its[..i])
      {
        MoreItems(items + its[..i], its[i], |pre|);
        assert (items + its[..i]) + [its[i]] == items + its[..i + 1];
        EmitItem(its[i]);
      }
      assert items + its[..|its|] == items + its;
    }

    /** One machine instruction. */
    method EmitInst(mi: MachInst, fr: Frame, ghost pre: seq<Byte>, ghost items: seq<Item>)
      requires Holds(pre, items) && Emittable(mi.op)
      modifies this`code, this`patches
      ensures Holds(pre, items + ItemsOf(mi, fr))
    {
      EmitItems(ItemsOf(mi, fr), pre, items);
    }

    /** The instructions of a block; its label emits nothing. */
    method EmitBlock(mb: MachBlock, fr: Frame, ghost pre: seq<Byte>, ghost items: seq<Item>)
      requires Holds(pre, items) && BlockEmittable(mb)
      modifies this`code, this`patches
      ensures Holds(pre, items + BlockItems(mb, |mb|, fr))
    {
      hide Encode, Assemble, PatchesOf, ItemsOf;
      assert items + BlockItems(mb, 0, fr) == items;
      for i := 0 to |mb|
        invariant Holds(pre, items + BlockItems(mb, i, fr))
      {
        ghost var so := items + BlockItems(mb, i, fr);
        if mb[i].op.LABEL? {
          LabelIsNothing(mb[i], fr);
          assert so + [] == so;
        } else {
          EmitInst(mb[i], fr, pre, so);
        }
        assert so + ItemsOf(mb[i], fr) == items + BlockItems(mb, i + 1, fr);
      }
    }

    /** Fill in the distance of every jump whose label is known. */
    method ResolvePatches()
      modifies this`code
      ensures code == ApplyPatches(old(code), patches, labels)
    {
      hide PatchAt, Distance;
      assert patches[..0] == [];
      for p := 0 to |patches|
        invariant code == ApplyPatches(old(code), patches[..p], labels)
      {
        ApplyMore(old(code), patches[..p], patches[p], labels);
        assert patches[..p] + [patches[p]] == patches[..p + 1];
        if patches[p].label_ < |labels| && patches[p].offset + 4 <= |code| {
          code := PatchAt(code, patches[p].offset, Distance(patches[p], labels));
        }
      }
      assert patches[..|patches|] == patches;
    }

    /** One block, its label recorded. */
    method EmitLabelled(m: MFunc, fr: Frame, b: nat, ghost pre: seq<Byte>)
      requires AllEmittable(m) && b < |m.blocks|
      requires Holds(pre, ItemsBefore(m, b, fr)) && labels == LabelsOf(m, fr, |pre|)[..b]
      modifies this
      ensures Holds(pre, ItemsBefore(m, b + 1, fr)) && labels == LabelsOf(m, fr, |pre|)[..b + 1]
    {
      hide *;
      CodeSize(pre, ItemsBefore(m, b, fr));
      LabelNext(m, fr, |pre|, b);
      NextItems(m, b, fr);
      labels := labels + [|code|];
      EmitBlock(m.blocks[b], fr, pre, ItemsBefore(m, b, fr));
    }

    /** Prologue, blocks and fallback epilogue, jumps still open. */
    method EmitBody(m: MFunc, fr: Frame)
      requires AllEmittable(m) && patches == [] && labels == []
      modifies this
      ensures Holds(old(code), FuncItems(m, fr)) && labels == LabelsOf(m, fr, |old(code)|)
    {
      hide *;
      ghost var pre := code;
      NoItems(pre);
      EmitItems(Codes(PrologueCode(fr)), pre, []);
      FirstItems(m, fr);
      for b := 0 to |m.blocks|
        invariant Holds(pre, ItemsBefore(m, b, fr)) && labels == LabelsOf(m, fr, |pre|)[..b]
      {
        EmitLabelled(m, fr, b, pre);
      }
      AllItems(m, fr);
      EmitItems(Codes([MovImm32(RAX, 0)] + EpilogueCode(fr)), pre, ItemsBefore(m, |m.blocks|, fr));
    }

    lemma NoItems(pre: seq<Byte>)
      requires code == pre && patches == []
      ensures Holds(pre, [])
    {
      assert pre + [] == pre;
    }

    lemma CodeSize(pre: seq<Byte>, items: seq<Item>)
      requires Holds(pre, items)
      ensures |code| == |pre| + Size(items)
    {
    }

    /** A function behind the code there is: prologue, blocks, fallback epilogue; then every
        jump to a block of the function gets its distance. */
    method EmitFunc(m: MFunc, fr: Frame)
      requires AllEmittable(m)
      modifies this
      ensures labels == LabelsOf(m, fr, |old(code)|)
      ensures code == old(code) + Assemble(FuncItems(m, fr), |old(code)|, labels, true)
    {
      hide Encode, Assemble, PatchesOf, ApplyPatches, FuncItems, LabelsOf;
      ghost var pre := code;
      patches, labels := [], [];
      EmitBody(m, fr);
      ghost var items := FuncItems(m, fr);
      ghost var open := code;
      ResolvePatches();
      Unlabelled(items, |pre|, labels);
      PatchAll(pre, items, [], labels);
      assert open + [] == open;
      assert pre + Assemble(items, |pre|, labels, true) + [] == pre + Assemble(items, |pre|, labels, true);
    }
  }
}
