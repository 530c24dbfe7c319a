/**
 * struct part_cfg_regs: the configuration and event block of one
 * partition, and the partition events whose bits the block's event summary
 * reports.
 */
module PartCfg {
  import opened Wrappers
  import opened Layout
  import opened EventSlots

  const PART_CFG_HEAD: Layout := [
    Field("status", 1, U32),
    Field("state", 1, U32),
    Field("port_cnt", 1, U32),
    Field("usp_port_mode", 1, U32),
    Field("usp_pff_inst_id", 1, U32),
    Field("vep_pff_inst_id", 1, U32),
    Field("dsp_pff_inst_id", 47, U32),
    Field("reserved1", 11, U32),
    Field("vep_vector_number", 1, U16),
    Field("usp_vector_number", 1, U16),
    Field("port_event_bitmap", 1, U32),
    Field("reserved2", 3, U32),
    Field("part_event_summary", 1, U32),
    Field("reserved3", 3, U32)
  ]

  /** The partition event sources in register order. */
  const PART_EVENT_SLOTS: seq<Slot> := [
    HdrDataWords("part_reset_hdr", "part_reset_data"),
    HdrDataWords("mrpc_comp_hdr", "mrpc_comp_data"),
    HdrDataWords("mrpc_comp_async_hdr", "mrpc_comp_async_data"),
    HdrDataWords("dyn_binding_hdr", "dyn_binding_data")
  ]

  const PART_CFG_TAIL: Layout := [Field("reserved4", 159, U32)]

  const PART_CFG_REGS: Layout := EventBlock(PART_CFG_HEAD, PART_EVENT_SLOTS, PART_CFG_TAIL)

  /** The head takes 292 bytes; the port event bitmap and the partition
      event summary sit at 260 and 276. */
  lemma PartCfgHeadLayout()
    ensures StructSize(PART_CFG_HEAD) == 292
    ensures FieldAt(PART_CFG_HEAD, 6, "dsp_pff_inst_id", 24)
    ensures FieldAt(PART_CFG_HEAD, 8, "vep_vector_number", 256)
    ensures FieldAt(PART_CFG_HEAD, 10, "port_event_bitmap", 260)
    ensures FieldAt(PART_CFG_HEAD, 12, "part_event_summary", 276)
  {
    assert Offset(PART_CFG_HEAD, 1) == 4;
    assert Offset(PART_CFG_HEAD, 2) == 8;
    assert Offset(PART_CFG_HEAD, 3) == 12;
    assert Offset(PART_CFG_HEAD, 4) == 16;
    assert Offset(PART_CFG_HEAD, 5) == 20;
    assert Offset(PART_CFG_HEAD, 6) == 24;
    assert Offset(PART_CFG_HEAD, 7) == 212;
    assert Offset(PART_CFG_HEAD, 8) == 256;
    assert Offset(PART_CFG_HEAD, 9) == 258;
    assert Offset(PART_CFG_HEAD, 10) == 260;
    assert Offset(PART_CFG_HEAD, 11) == 264;
    assert Offset(PART_CFG_HEAD, 12) == 276;
    assert Offset(PART_CFG_HEAD, 13) == 280;
  }

  /** One partition's block is exactly 1024 bytes, and the headers of its
      four events lie at 292 + 24·k. */
  lemma PartCfgRegsLayout()
    ensures StructSize(PART_CFG_REGS) == 1024
    ensures |PART_EVENT_SLOTS| == 4
    ensures forall k | 0 <= k < |PART_EVENT_SLOTS| ::
              !PART_EVENT_SLOTS[k].Unused? &&
              HeaderAt(PART_CFG_REGS, SlotIndex(PART_CFG_HEAD, PART_EVENT_SLOTS, k),
                       PART_EVENT_SLOTS[k].hdr, 292 + 24 * k)
  {
    PartCfgHeadLayout();
    assert Offset(PART_CFG_TAIL, 1) == 636;
    forall k | 0 <= k < |PART_EVENT_SLOTS|
      ensures !PART_EVENT_SLOTS[k].Unused?
      ensures HeaderAt(PART_CFG_REGS, SlotIndex(PART_CFG_HEAD, PART_EVENT_SLOTS, k),
                       PART_EVENT_SLOTS[k].hdr, 292 + 24 * k)
    {
      assert PART_EVENT_SLOTS[k] in PART_EVENT_SLOTS;
      EventHeaderAt(PART_CFG_HEAD, PART_EVENT_SLOTS, PART_CFG_TAIL, k);
    }
  }

  /** The summary registers keep their offsets in the whole block. */
  lemma PartCfgSummaryOffsets()
    ensures FieldAt(PART_CFG_REGS, 10, "port_event_bitmap", 260)
    ensures FieldAt(PART_CFG_REGS, 12, "part_event_summary", 276)
  {
    PartCfgHeadLayout();
    HeadFieldAt(PART_CFG_HEAD, PART_EVENT_SLOTS, PART_CFG_TAIL, 10, "port_event_bitmap", 260);
    HeadFieldAt(PART_CFG_HEAD, PART_EVENT_SLOTS, PART_CFG_TAIL, 12, "part_event_summary", 276);
  }

  /** The partition events, in the order of their bits. */
  datatype PartEvent = Reset | MrpcCmp | MrpcAsyncCmp | DynPartCmp

  /** Bit position of an event. */
  function EventIndex(e: PartEvent): nat {
    match e
    case Reset => 0
    case MrpcCmp => 1
    case MrpcAsyncCmp => 2
    case DynPartCmp => 3
  }

  /** The event's mask among the partition event bits. */
  function EventBit(e: PartEvent): (bit: bv32)
    ensures bit != 0 && bit & (bit - 1) == 0
    ensures bit & 0xF == bit
  {
    match e
    case Reset => 0x1
    case MrpcCmp => 0x2
    case MrpcAsyncCmp => 0x4
    case DynPartCmp => 0x8
  }

  /** The event whose mask is `bit`, if any. */
  function EventOfBit(bit: bv32): (r: Option<PartEvent>)
    ensures r.Some? ==> EventBit(r.value) == bit
  {
    if bit == 0x1 then Some(Reset)
    else if bit == 0x2 then Some(MrpcCmp)
    else if bit == 0x4 then Some(MrpcAsyncCmp)
    else if bit == 0x8 then Some(DynPartCmp)
    else None
  }

  /** The mask of an event is bit `EventIndex(e)`, the four events taking
      bits 0 to 3. */
  lemma {:induction false} EventBitPosition(e: PartEvent)
    ensures EventIndex(e) < 4
    ensures EventBit(e) == 1 << EventIndex(e)
  {
    match e {
      case Reset =>
      case MrpcCmp =>
      case MrpcAsyncCmp =>
      case DynPartCmp =>
    }
  }

  /** Decoding an event's mask gives the event back, so the four masks are
      pairwise distinct. */
  lemma EventBitRoundTrip(e: PartEvent)
    ensures EventOfBit(EventBit(e)) == Some(e)
  {
  }

  lemma EventBitsDistinct(e: PartEvent, d: PartEvent)
    ensures EventBit(e) == EventBit(d) <==> e == d
  {
    EventBitRoundTrip(e);
    EventBitRoundTrip(d);
  }

  /** The header register of each event, as the names of the event bits and
      of the block's registers pair them. */
  function EventHeader(e: PartEvent): string {
    match e
    case Reset => "part_reset_hdr"
    case MrpcCmp => "mrpc_comp_hdr"
    case MrpcAsyncCmp => "mrpc_comp_async_hdr"
    case DynPartCmp => "dyn_binding_hdr"
  }

  /** An event's bit position is also the index of its slot: the header of
      the event with bit k is the k-th event header, at 292 + 24·k. */
  lemma {:induction false} EventSlotOfBit(e: PartEvent)
    ensures EventIndex(e) < |PART_EVENT_SLOTS|
    ensures PART_EVENT_SLOTS[EventIndex(e)].hdr == EventHeader(e)
    ensures HeaderAt(PART_CFG_REGS, SlotIndex(PART_CFG_HEAD, PART_EVENT_SLOTS, EventIndex(e)),
                     EventHeader(e), 292 + 24 * EventIndex(e))
  {
    PartCfgRegsLayout();
    match e {
      case Reset =>
      case MrpcCmp =>
      case MrpcAsyncCmp =>
      case DynPartCmp =>
    }
  }
}
