/**
 * Byte layout of packed C register structures.
 *
 * A structure is a sequence of fields, each an array of `count` elements of
 * one element type (a scalar field is an array of one element). The
 * structures of the switch's global address space are declared `__packed`,
 * so a field starts exactly where the previous one ends: the offset of a
 * field is the total size of the fields before it and the size of the
 * structure is the total size of all its fields.
 */
module Layout {
  import opened Wrappers

  /** Element types used by the register structures. A nested structure is
      a `Record` carrying its own size and alignment. */
  datatype Elem =
    | U8 | U16 | U32 | U64 | Char
    | Record(tag: string, bytes: nat, alignment: nat)

  function Width(e: Elem): nat {
    match e
    case U8 => 1
    case U16 => 2
    case U32 => 4
    case U64 => 8
    case Char => 1
    case Record(_, bytes, _) => bytes
  }

  /** Natural alignment a C compiler gives the element type, on an ABI
      that aligns a 64-bit member to 8 bytes (such as x86-64 or arm64). */
  function Align(e: Elem): nat {
    match e
    case Record(_, _, alignment) => alignment
    case _ => Width(e)
  }

  datatype Field = Field(name: string, count: nat, elem: Elem)

  type Layout = seq<Field>

  function Size(f: Field): nat {
    f.count * Width(f.elem)
  }

  /** Byte offset of field `k` (or, for `k == |fs|`, the end of the
      structure): the total size of the fields before it. */
  function Offset(fs: Layout, k: nat): nat
    requires k <= |fs|
  {
    if k == 0 then 0 else Offset(fs, k - 1) + Size(fs[k - 1])
  }

  function StructSize(fs: Layout): nat {
    Offset(fs, |fs|)
  }

  /** Offsets never decrease along the structure. */
  lemma {:induction false} OffsetMonotone(fs: Layout, j: nat, k: nat)
    requires j <= k <= |fs|
    ensures Offset(fs, j) <= Offset(fs, k)
  {
    if j < k {
      OffsetMonotone(fs, j, k - 1);
    }
  }

  /** Field `k` occupies [Offset(fs, k), Offset(fs, k) + Size(fs[k])), and
      that range lies inside the structure. */
  lemma {:induction false} FieldWithin(fs: Layout, k: nat)
    requires k < |fs|
    ensures Offset(fs, k) + Size(fs[k]) <= StructSize(fs)
  {
    assert Offset(fs, k + 1) == Offset(fs, k) + Size(fs[k]);
    OffsetMonotone(fs, k + 1, |fs|);
  }

  /** Two different fields of a packed structure never overlap. */
  lemma {:induction false} FieldsDisjoint(fs: Layout, j: nat, k: nat)
    requires j < k < |fs|
    ensures Offset(fs, j) + Size(fs[j]) <= Offset(fs, k)
  {
    assert Offset(fs, j + 1) == Offset(fs, j) + Size(fs[j]);
    OffsetMonotone(fs, j + 1, k);
  }

  /** Appending fields after a structure does not move its fields. */
  lemma {:induction false} OffsetPrefix(a: Layout, b: Layout, k: nat)
    requires k <= |a|
    ensures Offset(a + b, k) == Offset(a, k)
  {
    if k > 0 {
      OffsetPrefix(a, b, k - 1);
      assert (a + b)[k - 1] == a[k - 1];
    }
  }

  /** The fields of `b` placed after `a` are shifted by the size of `a`. */
  lemma {:induction false} OffsetSuffix(a: Layout, b: Layout, k: nat)
    requires k <= |b|
    ensures Offset(a + b, |a| + k) == StructSize(a) + Offset(b, k)
  {
    if k == 0 {
      OffsetPrefix(a, b, |a|);
    } else {
      OffsetSuffix(a, b, k - 1);
      assert (a + b)[|a| + k - 1] == b[k - 1];
    }
  }

  /** The size of two structures laid end to end is the sum of their sizes. */
  lemma {:induction false} SizeAppend(a: Layout, b: Layout)
    ensures StructSize(a + b) == StructSize(a) + StructSize(b)
  {
    OffsetSuffix(a, b, |b|);
  }

  /** Field `k` of `fs` is called `name` and starts at byte `off`. */
  predicate FieldAt(fs: Layout, k: nat, name: string, off: nat) {
    k < |fs| && fs[k].name == name && Offset(fs, k) == off
  }

  /** Index of the first field called `name`, if any. */
  function IndexOf(fs: Layout, name: string): (r: Option<nat>)
    ensures r.Some? ==> r.value < |fs| && fs[r.value].name == name
    ensures r.Some? ==> forall j | 0 <= j < r.value :: fs[j].name != name
    ensures r.None? <==> forall j | 0 <= j < |fs| :: fs[j].name != name
  {
    if |fs| == 0 then None
    else if fs[0].name == name then Some(0)
    else
      match IndexOf(fs[1..], name)
      case None => None
      case Some(i) => Some(i + 1)
  }

  /** Byte offset of the field called `name`, if the structure has one. */
  function OffsetOf(fs: Layout, name: string): (r: Option<nat>)
    ensures r.None? <==> forall j | 0 <= j < |fs| :: fs[j].name != name
    ensures r.Some? ==> r.value <= StructSize(fs)
  {
    match IndexOf(fs, name)
    case None => None
    case Some(k) =>
      OffsetMonotone(fs, k, |fs|);
      Some(Offset(fs, k))
  }

  /** A field whose name no earlier field carries is found by its name. */
  lemma OffsetOfField(fs: Layout, k: nat)
    requires k < |fs|
    requires forall f | f in fs[..k] :: f.name != fs[k].name
    ensures IndexOf(fs, fs[k].name) == Some(k)
    ensures OffsetOf(fs, fs[k].name) == Some(Offset(fs, k))
  {
    forall j | 0 <= j < k ensures fs[j].name != fs[k].name {
      assert fs[j] in fs[..k];
    }
  }

  /** The largest alignment of any field, or 1 for no fields: the
      alignment of the whole structure when it is nested in another one. */
  function MaxAlign(fs: Layout): (m: nat)
    ensures m >= 1
    ensures forall f | f in fs :: Align(f.elem) <= m
    ensures m > 1 ==> exists f | f in fs :: Align(f.elem) == m
  {
    if |fs| == 0 then 1
    else
      var rest := MaxAlign(fs[1..]);
      assert forall f | f in fs :: f == fs[0] || f in fs[1..];
      assert forall f | f in fs[1..] :: f in fs;
      assert fs[0] in fs;
      if Align(fs[0].elem) > rest then Align(fs[0].elem) else rest
  }

  /** The least multiple of `a` that is at least `n`. */
  function RoundUp(n: nat, a: nat): (r: nat)
    requires a > 0
    ensures r % a == 0
    ensures n <= r < n + a
    ensures n % a == 0 ==> r == n
  {
    if n % a == 0 then n
    else
      var q := n / a;
      assert n == q * a + n % a;
      assert n + (a - n % a) == (q + 1) * a;
      MultipleMod(q + 1, a);
      n + (a - n % a)
  }

  lemma MultipleMod(k: nat, a: nat)
    requires a > 0
    ensures (k * a) % a == 0
  {
    var q, r := (k * a) / a, (k * a) % a;
    assert k * a == q * a + r;
    assert (k - q) * a == r;
    MulSign(k - q, a);
  }

  /** A nonzero multiple of a positive number is at least that number in
      size. */
  lemma MulSign(x: int, a: int)
    requires a > 0
    ensures x >= 1 ==> x * a >= a
    ensures x <= -1 ==> x * a <= -a
  {
    assert x * a == (x - 1) * a + a;
    assert x * a == (x + 1) * a - a;
  }

  /** `n` rounded up to a multiple of the alignment `a`; an alignment of 0
      asks for no rounding. */
  function PadTo(n: nat, a: nat): (r: nat)
    ensures n <= r
    ensures a > 0 ==> r % a == 0 && r < n + a
    ensures a > 0 && n % a == 0 ==> r == n
    ensures a == 0 ==> r == n
  {
    if a == 0 then n else RoundUp(n, a)
  }

  /** End of field `k - 1` (0 for `k == 0`) in the layout a C compiler
      gives a structure that is not packed: each field starts at the first
      multiple of its alignment at or after the end of the field before
      it. Padding only ever pushes fields later than the packed layout. */
  function NaturalEnd(fs: Layout, k: nat): (r: nat)
    requires k <= |fs|
    ensures Offset(fs, k) <= r
  {
    if k == 0 then 0
    else PadTo(NaturalEnd(fs, k - 1), Align(fs[k - 1].elem)) + Size(fs[k - 1])
  }

  /** Byte offset of field `k` in the unpacked layout: on its alignment,
      after the end of the field before it and no later than needed. */
  function NaturalOffset(fs: Layout, k: nat): (r: nat)
    requires k < |fs|
    ensures Offset(fs, k) <= NaturalEnd(fs, k) <= r
    ensures r + Size(fs[k]) == NaturalEnd(fs, k + 1)
    ensures Align(fs[k].elem) > 0 ==>
      r % Align(fs[k].elem) == 0 && r < NaturalEnd(fs, k) + Align(fs[k].elem)
  {
    PadTo(NaturalEnd(fs, k), Align(fs[k].elem))
  }

  /** Size of the unpacked structure: the end of its last field rounded up
      to the structure's alignment, so that it can repeat in an array. */
  function NaturalSize(fs: Layout): (r: nat)
    ensures StructSize(fs) <= NaturalEnd(fs, |fs|) <= r < NaturalEnd(fs, |fs|) + MaxAlign(fs)
    ensures r % MaxAlign(fs) == 0
  {
    RoundUp(NaturalEnd(fs, |fs|), MaxAlign(fs))
  }

  /** A structure used as the element type of a field of another one,
      declared without `__packed`: it takes the compiler's unpacked size,
      with the padding before misaligned members and at the end, and the
      largest alignment of its fields. When its fields are already
      naturally aligned that size is the packed one. */
  function Nested(tag: string, fs: Layout): (e: Elem)
    ensures Align(e) == MaxAlign(fs)
    ensures NaturalEnd(fs, |fs|) <= Width(e) < NaturalEnd(fs, |fs|) + Align(e)
    ensures StructSize(fs) <= Width(e)
    ensures Width(e) % Align(e) == 0
    ensures NaturallyAligned(fs) ==> Width(e) == StructSize(fs)
  {
    assert NaturallyAligned(fs) ==> NaturalSize(fs) == StructSize(fs) by {
      if NaturallyAligned(fs) {
        NaturalLayoutIsPacked(fs);
      }
    }
    Record(tag, NaturalSize(fs), MaxAlign(fs))
  }

  /** Every field starts at a multiple of its natural alignment and the
      size is a multiple of the structure's alignment: a C compiler lays
      such a structure out without padding, so `__packed` changes nothing. */
  ghost predicate NaturallyAligned(fs: Layout) {
    && (forall k | 0 <= k < |fs| :: Align(fs[k].elem) > 0 && Offset(fs, k) % Align(fs[k].elem) == 0)
    && MaxAlign(fs) > 0 && StructSize(fs) % MaxAlign(fs) == 0
  }

  lemma {:induction false} NaturalEndIsPacked(fs: Layout, k: nat)
    requires NaturallyAligned(fs)
    requires k <= |fs|
    ensures NaturalEnd(fs, k) == Offset(fs, k)
  {
    if k > 0 {
      NaturalEndIsPacked(fs, k - 1);
      assert Offset(fs, k - 1) % Align(fs[k - 1].elem) == 0;
    }
  }

  /** A naturally aligned structure gets no padding: the compiler places
      every field at its packed offset and gives the structure its packed
      size. */
  lemma NaturalLayoutIsPacked(fs: Layout)
    requires NaturallyAligned(fs)
    ensures forall k | 0 <= k < |fs| :: NaturalOffset(fs, k) == Offset(fs, k)
    ensures NaturalSize(fs) == StructSize(fs)
  {
    forall k | 0 <= k < |fs|
      ensures NaturalOffset(fs, k) == Offset(fs, k)
    {
      NaturalEndIsPacked(fs, k);
    }
    NaturalEndIsPacked(fs, |fs|);
  }

  /** Conversely, when the compiler adds no padding the packed layout is
      naturally aligned: with positive alignments, the two layouts agree
      exactly when the structure is naturally aligned. */
  lemma NaturallyAlignedIffUnpadded(fs: Layout)
    requires forall f | f in fs :: Align(f.elem) > 0
    ensures NaturallyAligned(fs) <==>
      (forall k | 0 <= k < |fs| :: NaturalOffset(fs, k) == Offset(fs, k))
      && NaturalSize(fs) == StructSize(fs)
  {
    if NaturallyAligned(fs) {
      NaturalLayoutIsPacked(fs);
    } else if (forall k | 0 <= k < |fs| :: NaturalOffset(fs, k) == Offset(fs, k))
      && NaturalSize(fs) == StructSize(fs) {
      forall k | 0 <= k < |fs|
        ensures Align(fs[k].elem) > 0 && Offset(fs, k) % Align(fs[k].elem) == 0
      {
        assert fs[k] in fs;
      }
      assert false;
    }
  }

  /** Whole 32-bit words */
  predicate WordSized(f: Field) {
    Size(f) % 4 == 0 && Align(f.elem) in {1, 2, 4}
  }

  lemma {:induction false} WordOffsets(fs: Layout, k: nat)
    requires forall f | f in fs :: WordSized(f)
    requires k <= |fs|
    ensures Offset(fs, k) % 4 == 0
  {
    if k > 0 {
      WordOffsets(fs, k - 1);
      assert WordSized(fs[k - 1]);
    }
  }

  /** A multiple of four is a multiple of any smaller power of two. */
  lemma WordMultiple(x: nat, a: nat)
    requires x % 4 == 0 && a in {1, 2, 4}
    ensures a > 0 && x % a == 0
  {
    if a == 2 {
      assert x == 2 * (x / 4 * 2);
    }
  }

  /** A structure made only of whole words whose members are at most
      word-aligned needs no padding, so its natural and packed layouts
      agree. */
  lemma {:induction false} WordFieldsNaturallyAligned(fs: Layout)
    requires forall f | f in fs :: WordSized(f)
    ensures NaturallyAligned(fs)
  {
    forall k | 0 <= k < |fs|
      ensures Align(fs[k].elem) > 0 && Offset(fs, k) % Align(fs[k].elem) == 0
    {
      WordOffsets(fs, k);
      assert WordSized(fs[k]);
      WordMultiple(Offset(fs, k), Align(fs[k].elem));
    }
    WordOffsets(fs, |fs|);
    MaxAlignOfWords(fs);
    WordMultiple(StructSize(fs), MaxAlign(fs));
  }

  lemma {:induction false} MaxAlignOfWords(fs: Layout)
    requires forall f | f in fs :: WordSized(f)
    ensures MaxAlign(fs) in {1, 2, 4}
  {
    if |fs| > 0 {
      assert fs[0] in fs;
      assert forall f | f in fs[1..] :: f in fs;
      MaxAlignOfWords(fs[1..]);
    }
  }
}
