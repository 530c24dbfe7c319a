/**
 * struct sw_event_regs: the global event block. A head of control,
 * bitmap and summary registers is followed by thirteen event slots, one per
 * global event source.
 */
module SwEvent {
  import opened Layout
  import opened EventSlots

  const SW_EVENT_HEAD: Layout := [
    Field("event_report_ctrl", 1, U64),
    Field("reserved1", 1, U64),
    Field("part_event_bitmap", 1, U64),
    Field("reserved2", 1, U64),
    Field("global_summary", 1, U32),
    Field("reserved3", 3, U32)
  ]

  /** The global event sources in register order. */
  const GLOBAL_EVENT_SLOTS: seq<Slot> := [
    HdrData("stack_error_event_hdr", "stack_error_event_data", "reserved4"),
    HdrData("ppu_error_event_hdr", "ppu_error_event_data", "reserved5"),
    HdrData("isp_error_event_hdr", "isp_error_event_data", "reserved6"),
    HdrReserved("sys_reset_event_hdr", "reserved7"),
    HdrReserved("fw_exception_hdr", "reserved8"),
    HdrReserved("fw_nmi_hdr", "reserved9"),
    HdrReserved("fw_non_fatal_hdr", "reserved10"),
    HdrReserved("fw_fatal_hdr", "reserved11"),
    HdrData("twi_mrpc_comp_hdr", "twi_mrpc_comp_data", "reserved12"),
    HdrData("twi_mrpc_comp_async_hdr", "twi_mrpc_comp_async_data", "reserved13"),
    HdrData("cli_mrpc_comp_hdr", "cli_mrpc_comp_data", "reserved14"),
    HdrData("cli_mrpc_comp_async_hdr", "cli_mrpc_comp_async_data", "reserved15"),
    HdrData("gpio_interrupt_hdr", "gpio_interrupt_data", "reserved16")
  ]

  const SW_EVENT_REGS: Layout := EventBlock(SW_EVENT_HEAD, GLOBAL_EVENT_SLOTS, [])

  /** The head takes 48 bytes, with the partition event bitmap at 16 and
      the global summary at 32. */
  lemma SwEventHeadLayout()
    ensures StructSize(SW_EVENT_HEAD) == 48
    ensures FieldAt(SW_EVENT_HEAD, 2, "part_event_bitmap", 16)
    ensures FieldAt(SW_EVENT_HEAD, 4, "global_summary", 32)
  {
    assert Offset(SW_EVENT_HEAD, 1) == 8;
    assert Offset(SW_EVENT_HEAD, 2) == 16;
    assert Offset(SW_EVENT_HEAD, 3) == 24;
    assert Offset(SW_EVENT_HEAD, 4) == 32;
    assert Offset(SW_EVENT_HEAD, 5) == 36;
  }

  /** The structure takes 360 bytes, and the partition bitmap and the
      global summary keep their offsets in it. */
  lemma SwEventRegsLayout()
    ensures StructSize(SW_EVENT_REGS) == 360
    ensures FieldAt(SW_EVENT_REGS, 2, "part_event_bitmap", 16)
    ensures FieldAt(SW_EVENT_REGS, 4, "global_summary", 32)
  {
    SwEventHeadLayout();
    assert StructSize([]) == 0;
    HeadFieldAt(SW_EVENT_HEAD, GLOBAL_EVENT_SLOTS, [], 2, "part_event_bitmap", 16);
    HeadFieldAt(SW_EVENT_HEAD, GLOBAL_EVENT_SLOTS, [], 4, "global_summary", 32);
  }

  /** The headers of the thirteen global events, stack_error first and
      gpio_interrupt last, lie at 48 + 24·k. */
  lemma GlobalEventHeaders()
    ensures |GLOBAL_EVENT_SLOTS| == 13
    ensures GLOBAL_EVENT_SLOTS[0].hdr == "stack_error_event_hdr"
    ensures GLOBAL_EVENT_SLOTS[12].hdr == "gpio_interrupt_hdr"
    ensures forall k | 0 <= k < |GLOBAL_EVENT_SLOTS| ::
              !GLOBAL_EVENT_SLOTS[k].Unused? &&
              HeaderAt(SW_EVENT_REGS, SlotIndex(SW_EVENT_HEAD, GLOBAL_EVENT_SLOTS, k),
                       GLOBAL_EVENT_SLOTS[k].hdr, 48 + 24 * k)
  {
    SwEventHeadLayout();
    forall k | 0 <= k < |GLOBAL_EVENT_SLOTS|
      ensures !GLOBAL_EVENT_SLOTS[k].Unused?
      ensures HeaderAt(SW_EVENT_REGS, SlotIndex(SW_EVENT_HEAD, GLOBAL_EVENT_SLOTS, k),
                       GLOBAL_EVENT_SLOTS[k].hdr, 48 + 24 * k)
    {
      assert GLOBAL_EVENT_SLOTS[k] in GLOBAL_EVENT_SLOTS;
      EventHeaderAt(SW_EVENT_HEAD, GLOBAL_EVENT_SLOTS, [], k);
    }
  }
}
