/** Reading the emitted bytes back: the instruction list of the function, each jump at the first
    instruction of its target block. */
module Disassembly {
  import opened Wrappers
  import opened Ssa
  import opened Mach
  import opened LinearScan
  import opened X86
  import opened Expand
  import opened Emit

  /** Decode `n` instructions one after the other. */
  function Disassemble(bs: seq<Byte>, at: nat, n: nat): Option<seq<(nat, X86)>>
    decreases n
  {
    if n == 0 then Some([])
    else if at > |bs| then None
    else
      match Decode(bs[at..])
      case None => None
      case Some((x, size)) =>
        (match Disassemble(bs, at + size, n - 1)
         case None => None
         case Some(more) => Some([(at, x)] + more))
  }

  function OffsetOf(items: seq<Item>, base: nat, k: nat): nat
    requires k <= |items|
  {
    base + Size(items[..k])
  }

  /** The instructions meant, with their offsets. */
  function Listing(items: seq<Item>, base: nat, labels: seq<nat>): (l: seq<(nat, X86)>)
    ensures |l| == |items|
  {
    seq(|items|, k requires 0 <= k < |items| => (OffsetOf(items, base, k), Resolved(items[k], OffsetOf(items, base, k), labels)))
  }

  // ---- Decoding the whole function ----

  lemma NextOffset(items: seq<Item>, base: nat, k: nat)
    requires k < |items|
    ensures OffsetOf(items, base, k + 1) == OffsetOf(items, base, k) + ItemSize(items[k])
  {
    hide Encode;
    assert items[..k + 1][..k] == items[..k];
  }

  /** The bytes from item `k` on begin with that item. */
  lemma {:induction false} BytesAt(items: seq<Item>, base: nat, labels: seq<nat>, k: nat) returns (rest: seq<Byte>)
    requires k < |items|
    ensures Size(items[..k]) <= Size(items)
    ensures Assemble(items, base, labels, true)[Size(items[..k])..] == Encode(Resolved(items[k], OffsetOf(items, base, k), labels)) + rest
    decreases |items|
  {
    hide Encode, Resolved;
    var n := |items| - 1;
    var last := Encode(Resolved(items[n], base + Size(items[..n]), labels));
    AssembleLast(items, base, labels, true);
    var front := Assemble(items[..n], base, labels, true);
    if k == n {
      rest := [];
      hide *;
      assert (front + last)[|front|..] == last == last + [];
    } else {
      rest := BytesAt(items[..n], base, labels, k);
      assert items[..n][..k] == items[..k] && items[..n][k] == items[k];
      hide Assemble, Size;
      var from := Size(items[..k]);
      assert (front + last)[from..] == front[from..] + last;
      rest := rest + last;
    }
  }

  lemma Slice(pre: seq<Byte>, code: seq<Byte>, tail: seq<Byte>, at: nat, first: seq<Byte>, rest: seq<Byte>)
    requires at <= |code| && code[at..] == first + rest
    ensures (pre + code + tail)[|pre| + at..] == first + (rest + tail)
  {
    assert (pre + code + tail)[|pre| + at..] == code[at..] + tail;
  }

  /** The bytes from item `k` on decode to it. */
  lemma DecodesAt(pre: seq<Byte>, items: seq<Item>, tail: seq<Byte>, labels: seq<nat>, k: nat)
    requires k < |items|
    ensures var bs := pre + Assemble(items, |pre|, labels, true) + tail;
            var at := OffsetOf(items, |pre|, k);
            at <= |bs| && Decode(bs[at..]) == Some((Resolved(items[k], at, labels), ItemSize(items[k])))
  {
    hide *;
    var at := OffsetOf(items, |pre|, k);
    var x := Resolved(items[k], at, labels);
    var rest := BytesAt(items, |pre|, labels, k);
    ResolvedSize(items[k], at, labels);
    EncodeRound(x, rest + tail);
    OffsetIs(items, |pre|, k);
    Slice(pre, Assemble(items, |pre|, labels, true), tail, Size(items[..k]), Encode(x), rest);
  }

  lemma OffsetIs(items: seq<Item>, base: nat, k: nat)
    requires k <= |items|
    ensures OffsetOf(items, base, k) == base + Size(items[..k])
  {
  }

  lemma OneMore(bs: seq<Byte>, at: nat, n: nat, x: X86, size: nat, more: seq<(nat, X86)>)
    requires n > 0 && at <= |bs| && Decode(bs[at..]) == Some((x, size)) && Disassemble(bs, at + size, n - 1) == Some(more)
    ensures Disassemble(bs, at, n) == Some([(at, x)] + more)
  {
    hide Decode;
  }

  lemma ListingFrom(items: seq<Item>, base: nat, labels: seq<nat>, k: nat)
    requires k < |items|
    ensures Listing(items, base, labels)[k..] ==
              [(OffsetOf(items, base, k), Resolved(items[k], OffsetOf(items, base, k), labels))] + Listing(items, base, labels)[k + 1..]
  {
    var l := Listing(items, base, labels);
    assert l[k] == (OffsetOf(items, base, k), Resolved(items[k], OffsetOf(items, base, k), labels));
    hide *;
    assert l[k..] == [l[k]] + l[k + 1..];
  }

  lemma NoneLeft(bs: seq<Byte>, at: nat, items: seq<Item>, base: nat, labels: seq<nat>)
    ensures Disassemble(bs, at, 0) == Some(Listing(items, base, labels)[|items|..])
  {
    assert Listing(items, base, labels)[|items|..] == [];
  }

  lemma {:induction false} DisassembleFrom(pre: seq<Byte>, items: seq<Item>, tail: seq<Byte>, labels: seq<nat>, k: nat)
    requires k <= |items|
    ensures Disassemble(pre + Assemble(items, |pre|, labels, true) + tail, OffsetOf(items, |pre|, k), |items| - k)
              == Some(Listing(items, |pre|, labels)[k..])
    decreases |items| - k
  {
    hide *;
    var bs, at := pre + Assemble(items, |pre|, labels, true) + tail, OffsetOf(items, |pre|, k);
    if k == |items| {
      NoneLeft(bs, at, items, |pre|, labels);
    } else {
      DisassembleFrom(pre, items, tail, labels, k + 1);
      NextOffset(items, |pre|, k);
      DecodesAt(pre, items, tail, labels, k);
      OneMore(bs, at, |items| - k, Resolved(items[k], at, labels), ItemSize(items[k]), Listing(items, |pre|, labels)[k + 1..]);
      ListingFrom(items, |pre|, labels, k);
    }
  }

  lemma Beginning(items: seq<Item>, base: nat, labels: seq<nat>)
    ensures OffsetOf(items, base, 0) == base && Listing(items, base, labels)[0..] == Listing(items, base, labels)
  {
    assert items[..0] == [];
  }

  /** Disassembling what was emitted for a function gives back its instructions. */
  lemma EmittedDisassembles(pre: seq<Byte>, m: MFunc, fr: Frame, tail: seq<Byte>)
    requires AllEmittable(m)
    ensures var items, labels := FuncItems(m, fr), LabelsOf(m, fr, |pre|);
            Disassemble(pre + Assemble(items, |pre|, labels, true) + tail, |pre|, |items|) == Some(Listing(items, |pre|, labels))
  {
    hide *;
    var items, labels := FuncItems(m, fr), LabelsOf(m, fr, |pre|);
    DisassembleFrom(pre, items, tail, labels, 0);
    Beginning(items, |pre|, labels);
  }

  // ---- Where the jumps land ----

  /** The position, in the item list, of the first instruction of a block. */
  function FirstItem(m: MFunc, fr: Frame, b: nat): nat
    requires AllEmittable(m) && b <= |m.blocks|
  {
    |ItemsBefore(m, b, fr)|
  }

  lemma {:induction false} BeforePrefix(m: MFunc, fr: Frame, b: nat, c: nat)
    requires AllEmittable(m) && b <= c <= |m.blocks|
    ensures ItemsBefore(m, b, fr) <= ItemsBefore(m, c, fr)
  {
    hide BlockItems, Codes;
    if b < c {
      BeforePrefix(m, fr, b, c - 1);
      var before := ItemsBefore(m, c - 1, fr);
      assert before <= ItemsBefore(m, c, fr);
    }
  }

  lemma BlockStart(m: MFunc, fr: Frame, base: nat, b: nat)
    requires AllEmittable(m) && b < |m.blocks|
    ensures FirstItem(m, fr, b) < |FuncItems(m, fr)|
    ensures OffsetOf(FuncItems(m, fr), base, FirstItem(m, fr, b)) == LabelsOf(m, fr, base)[b]
  {
    BeforePrefix(m, fr, b, |m.blocks|);
    var items, before := FuncItems(m, fr), ItemsBefore(m, b, fr);
    hide ItemsBefore, Size, EpilogueCode;
    assert items[..|before|] == before;
  }

  /** The target of a jump, as the processor computes it. */
  function Target(at: nat, x: X86): int
    requires x.JmpRel? || x.JccRel?
  {
    at + |Encode(x)| + x.rel
  }

  predicate ShortCode(items: seq<Item>, base: nat) {
    base + Size(items) < 0x8000_0000
  }

  lemma {:induction false} OffsetBound(items: seq<Item>, base: nat, k: nat)
    requires k <= |items|
    ensures OffsetOf(items, base, k) <= base + Size(items)
    decreases |items| - k
  {
    hide Encode;
    if k == |items| {
      assert items[..k] == items;
    } else {
      OffsetBound(items, base, k + 1);
      NextOffset(items, base, k);
    }
  }

  lemma RelTarget(it: Item, at: nat, labels: seq<nat>)
    requires it.JumpTo? && it.label_ < |labels| && at + ItemSize(it) < 0x8000_0000 && labels[it.label_] < 0x8000_0000
    ensures var x := Resolved(it, at, labels); (x.JmpRel? || x.JccRel?) && Target(at, x) == labels[it.label_]
  {
    ResolvedSize(it, at, labels);
    hide Encode, ItemSize;
    var rel := labels[it.label_] - (at + ItemSize(it));
    assert Truncate32(rel) == rel;
  }

  /** Every jump to a block lands on that block's first instruction, in code below 2 GiB. */
  lemma JumpsLand(m: MFunc, fr: Frame, base: nat, k: nat)
    requires AllEmittable(m) && ShortCode(FuncItems(m, fr), base)
    requires k < |FuncItems(m, fr)| && FuncItems(m, fr)[k].JumpTo? && FuncItems(m, fr)[k].label_ < |m.blocks|
    ensures var l := Listing(FuncItems(m, fr), base, LabelsOf(m, fr, base));
            var b := FuncItems(m, fr)[k].label_;
            && (l[k].1.JmpRel? || l[k].1.JccRel?)
            && FirstItem(m, fr, b) < |l|
            && Target(l[k].0, l[k].1) == l[FirstItem(m, fr, b)].0
  {
    var items, labels := FuncItems(m, fr), LabelsOf(m, fr, base);
    var b := items[k].label_;
    BlockStart(m, fr, base, b);
    OffsetBound(items, base, FirstItem(m, fr, b));
    OffsetBound(items, base, k + 1);
    NextOffset(items, base, k);
    hide FuncItems, LabelsOf, Size, FirstItem, OffsetOf, ItemSize, Resolved, Target;
    RelTarget(items[k], OffsetOf(items, base, k), labels);
  }
}
