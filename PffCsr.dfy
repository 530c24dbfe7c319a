/**
 * struct pff_csr_regs: the register block of one PCIe function (PFF): its
 * configuration-space windows, event summary and event slots.
 */
module PffCsr {
  import opened Layout
  import opened EventSlots

  const PFF_CSR_HEAD: Layout := [
    Field("vendor_id", 1, U16),
    Field("device_id", 1, U16),
    Field("pci_cfg_header", 15, U32),
    Field("pci_cap_region", 48, U32),
    Field("pcie_cap_region", 448, U32),
    Field("indirect_gas_window", 128, U32),
    Field("indirect_gas_window_off", 1, U32),
    Field("reserved", 127, U32),
    Field("pff_event_summary", 1, U32),
    Field("reserved2", 3, U32)
  ]

  /** The port-function event sources in register order; the fifth slot
      has no event source. */
  const PFF_EVENT_SLOTS: seq<Slot> := [
    HdrDataWords("aer_in_p2p_hdr", "aer_in_p2p_data"),
    HdrDataWords("aer_in_vep_hdr", "aer_in_vep_data"),
    HdrDataWords("dpc_hdr", "dpc_data"),
    HdrDataWords("cts_hdr", "cts_data"),
    Unused("reserved3"),
    HdrDataWords("hotplug_hdr", "hotplug_data"),
    HdrDataWords("ier_hdr", "ier_data"),
    HdrDataWords("threshold_hdr", "threshold_data"),
    HdrDataWords("power_mgmt_hdr", "power_mgmt_data"),
    HdrDataWords("tlp_throttling_hdr", "tlp_throttling_data"),
    HdrDataWords("force_speed_hdr", "force_speed_data"),
    HdrDataWords("credit_timeout_hdr", "credit_timeout_data"),
    HdrDataWords("link_state_hdr", "link_state_data")
  ]

  const PFF_CSR_TAIL: Layout := [Field("reserved4", 174, U32)]

  const PFF_CSR_REGS: Layout := EventBlock(PFF_CSR_HEAD, PFF_EVENT_SLOTS, PFF_CSR_TAIL)

  /** The head takes 3088 bytes: the configuration header and capability
      windows, the indirect window at 2048 and the event summary at 3072. */
  lemma PffCsrHeadLayout()
    ensures StructSize(PFF_CSR_HEAD) == 3088
    ensures FieldAt(PFF_CSR_HEAD, 2, "pci_cfg_header", 4)
    ensures FieldAt(PFF_CSR_HEAD, 5, "indirect_gas_window", 2048)
    ensures FieldAt(PFF_CSR_HEAD, 6, "indirect_gas_window_off", 2560)
    ensures FieldAt(PFF_CSR_HEAD, 8, "pff_event_summary", 3072)
  {
    assert Offset(PFF_CSR_HEAD, 1) == 2;
    assert Offset(PFF_CSR_HEAD, 2) == 4;
    assert Offset(PFF_CSR_HEAD, 3) == 64;
    assert Offset(PFF_CSR_HEAD, 4) == 256;
    assert Offset(PFF_CSR_HEAD, 5) == 2048;
    assert Offset(PFF_CSR_HEAD, 6) == 2560;
    assert Offset(PFF_CSR_HEAD, 7) == 2564;
    assert Offset(PFF_CSR_HEAD, 8) == 3072;
    assert Offset(PFF_CSR_HEAD, 9) == 3076;
  }

  /** One function's block is exactly 4096 bytes, and the event summary
      keeps its offset in it. */
  lemma PffCsrRegsLayout()
    ensures StructSize(PFF_CSR_REGS) == 4096
    ensures FieldAt(PFF_CSR_REGS, 8, "pff_event_summary", 3072)
  {
    PffCsrHeadLayout();
    assert Offset(PFF_CSR_TAIL, 1) == 696;
    HeadFieldAt(PFF_CSR_HEAD, PFF_EVENT_SLOTS, PFF_CSR_TAIL, 8, "pff_event_summary", 3072);
  }

  /** Of the thirteen slots after the head only the fifth is reserved; every
      other slot's header lies at 3088 + 24·k. */
  lemma PffEventHeaders()
    ensures |PFF_EVENT_SLOTS| == 13
    ensures PFF_EVENT_SLOTS[4].Unused?
    ensures forall k | 0 <= k < |PFF_EVENT_SLOTS| && k != 4 ::
              !PFF_EVENT_SLOTS[k].Unused? &&
              HeaderAt(PFF_CSR_REGS, SlotIndex(PFF_CSR_HEAD, PFF_EVENT_SLOTS, k),
                       PFF_EVENT_SLOTS[k].hdr, 3088 + 24 * k)
  {
    PffCsrHeadLayout();
    forall k | 0 <= k < |PFF_EVENT_SLOTS| && k != 4
      ensures !PFF_EVENT_SLOTS[k].Unused?
      ensures HeaderAt(PFF_CSR_REGS, SlotIndex(PFF_CSR_HEAD, PFF_EVENT_SLOTS, k),
                       PFF_EVENT_SLOTS[k].hdr, 3088 + 24 * k)
    {
      assert PFF_EVENT_SLOTS[k] in PFF_EVENT_SLOTS[..4] + PFF_EVENT_SLOTS[5..];
      EventHeaderAt(PFF_CSR_HEAD, PFF_EVENT_SLOTS, PFF_CSR_TAIL, k);
    }
  }
}
