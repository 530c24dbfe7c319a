/**
 * Event slots of the switch's event registers.
 *
 * Every event source in the global, partition and port-function event
 * blocks is a header word followed by words of event data or reserved
 * space, six 32-bit words in all. The structures spell the slot out in four
 * shapes, which `Slot` names; a run of slots therefore repeats with a
 * 24-byte stride whatever the shapes.
 */
module EventSlots {
  import opened Layout

  /** Size of one event slot: six 32-bit words. */
  const SLOT_SIZE: nat := 24

  datatype Slot =
    /** u32 hdr; u32 data; u32 reserved[4] */
    | HdrData(hdr: string, data: string, reserved: string)
    /** u32 hdr; u32 reserved[5] */
    | HdrReserved(hdr: string, reserved: string)
    /** u32 hdr; u32 data[5] */
    | HdrDataWords(hdr: string, data: string)
    /** u32 reserved[6]: a slot with no event source */
    | Unused(reserved: string)

  function U32Field(name: string): Field {
    Field(name, 1, U32)
  }

  function Words(name: string, n: nat): Field {
    Field(name, n, U32)
  }

  /** The fields a slot stands for; a slot with an event source starts with
      its header word. */
  function SlotFields(s: Slot): (fs: Layout)
    ensures |fs| > 0 && StructSize(fs) == SLOT_SIZE
    ensures !s.Unused? ==> fs[0] == U32Field(s.hdr)
  {
    match s
    case HdrData(hdr, data, reserved) =>
      var fs := [U32Field(hdr), U32Field(data), Words(reserved, 4)];
      assert Offset(fs, 1) == 4;
      assert Offset(fs, 2) == 8;
      fs
    case HdrReserved(hdr, reserved) =>
      var fs := [U32Field(hdr), Words(reserved, 5)];
      assert Offset(fs, 1) == 4;
      fs
    case HdrDataWords(hdr, data) =>
      var fs := [U32Field(hdr), Words(data, 5)];
      assert Offset(fs, 1) == 4;
      fs
    case Unused(reserved) =>
      var fs := [Words(reserved, 6)];
      assert Offset(fs, 1) == 24;
      fs
  }

  /** The fields of a run of slots, one after another. */
  function SlotsLayout(slots: seq<Slot>): (fs: Layout)
    ensures StructSize(fs) == SLOT_SIZE * |slots|
  {
    if |slots| == 0 then []
    else
      var init := slots[..|slots| - 1];
      SizeAppend(SlotsLayout(init), SlotFields(slots[|slots| - 1]));
      SlotsLayout(init) + SlotFields(slots[|slots| - 1])
  }

  lemma {:induction false} SlotsLayoutAppend(a: seq<Slot>, b: seq<Slot>)
    ensures SlotsLayout(a + b) == SlotsLayout(a) + SlotsLayout(b)
  {
    if |b| == 0 {
      assert a + b == a;
    } else {
      var b' := b[..|b| - 1];
      assert (a + b)[..|a + b| - 1] == a + b';
      assert (a + b)[|a + b| - 1] == b[|b| - 1];
      SlotsLayoutAppend(a, b');
    }
  }

  /** Index of the first field of slot `k`. */
  function SlotStart(slots: seq<Slot>, k: nat): nat
    requires k <= |slots|
  {
    |SlotsLayout(slots[..k])|
  }

  lemma SlotsLayoutCons(s: Slot, rest: seq<Slot>)
    ensures SlotsLayout([s] + rest) == SlotFields(s) + SlotsLayout(rest)
  {
    SlotsLayoutAppend([s], rest);
    assert [s][..0] == [];
  }

  /** Slot `k` of a run starts 24·k bytes into the run, and its first
      field is the first field of that slot's shape. */
  lemma {:induction false} SlotAt(slots: seq<Slot>, k: nat)
    requires k < |slots|
    ensures SlotStart(slots, k) < |SlotsLayout(slots)|
    ensures SlotsLayout(slots)[SlotStart(slots, k)] == SlotFields(slots[k])[0]
    ensures Offset(SlotsLayout(slots), SlotStart(slots, k)) == SLOT_SIZE * k
  {
    var pre, rest := slots[..k], slots[k..];
    assert slots == pre + rest;
    SlotsLayoutAppend(pre, rest);
    assert rest == [slots[k]] + rest[1..];
    SlotsLayoutCons(slots[k], rest[1..]);
    var a, b := SlotsLayout(pre), SlotsLayout(rest);
    assert SlotsLayout(slots) == a + b;
    assert b[0] == SlotFields(slots[k])[0];
    assert (a + b)[|a|] == b[0];
    OffsetSuffix(a, b, 0);
  }

  /** A structure whose event slots follow a fixed head and are followed by
      a tail of reserved space. */
  function EventBlock(head: Layout, slots: seq<Slot>, tail: Layout): (fs: Layout)
    ensures StructSize(fs) == StructSize(head) + SLOT_SIZE * |slots| + StructSize(tail)
  {
    SizeAppend(head, SlotsLayout(slots));
    SizeAppend(head + SlotsLayout(slots), tail);
    head + SlotsLayout(slots) + tail
  }

  /** Index, within an event block, of the first field of slot `k`. */
  function SlotIndex(head: Layout, slots: seq<Slot>, k: nat): nat
    requires k <= |slots|
  {
    |head| + SlotStart(slots, k)
  }

  /** The slots of an event block lie on a 24-byte stride starting right
      after the head, and slot `k` begins with its header field. */
  lemma {:induction false} EventSlotOffset(head: Layout, slots: seq<Slot>, tail: Layout, k: nat)
    requires k < |slots|
    ensures SlotIndex(head, slots, k) < |EventBlock(head, slots, tail)|
    ensures EventBlock(head, slots, tail)[SlotIndex(head, slots, k)] == SlotFields(slots[k])[0]
    ensures Offset(EventBlock(head, slots, tail), SlotIndex(head, slots, k))
            == StructSize(head) + SLOT_SIZE * k
  {
    var run := SlotsLayout(slots);
    var start := SlotStart(slots, k);
    var body := head + run;
    var i := |head| + start;
    SlotAt(slots, k);
    assert EventBlock(head, slots, tail) == body + tail;
    assert body[i] == run[start];
    assert (body + tail)[i] == body[i];
    OffsetPrefix(body, tail, i);
    OffsetSuffix(head, run, start);
  }

  /** Field `i` of `fs` is the header word `name` at byte offset `off`. */
  predicate HeaderAt(fs: Layout, i: nat, name: string, off: nat) {
    i < |fs| && fs[i] == U32Field(name) && Offset(fs, i) == off
  }

  /** The slots of an event block that have an event source put its header
      on the 24-byte stride. */
  lemma EventHeaderAt(head: Layout, slots: seq<Slot>, tail: Layout, k: nat)
    requires k < |slots| && !slots[k].Unused?
    ensures HeaderAt(EventBlock(head, slots, tail), SlotIndex(head, slots, k), slots[k].hdr,
                     StructSize(head) + SLOT_SIZE * k)
  {
    EventSlotOffset(head, slots, tail, k);
  }

  /** A field of the head keeps its index and offset in the whole event
      block. */
  lemma HeadFieldAt(head: Layout, slots: seq<Slot>, tail: Layout, k: nat, name: string, off: nat)
    requires FieldAt(head, k, name, off)
    ensures FieldAt(EventBlock(head, slots, tail), k, name, off)
  {
    var body := head + SlotsLayout(slots);
    assert EventBlock(head, slots, tail) == body + tail;
    OffsetPrefix(head, SlotsLayout(slots), k);
    OffsetPrefix(body, tail, k);
  }
}
