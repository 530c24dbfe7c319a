/**
 * The information blocks: struct sys_info_regs (chip identity and
 * versions), struct flash_info_regs (where the flash partitions are) and
 * struct ntb_info_regs (the non-transparent bridge's partition summary).
 */
module InfoRegs {
  import opened Layout

  /** struct sys_info_regs */
  const SYS_INFO_REGS: Layout := [
    Field("device_id", 1, U32),
    Field("device_version", 1, U32),
    Field("firmware_version", 1, U32),
    Field("reserved1", 1, U32),
    Field("vendor_table_revision", 1, U32),
    Field("table_format_version", 1, U32),
    Field("partition_id", 1, U32),
    Field("cfg_file_fmt_version", 1, U32),
    Field("reserved2", 58, U32),
    Field("vendor_id", 8, Char),
    Field("product_id", 16, Char),
    Field("product_revision", 4, Char),
    Field("component_vendor", 8, Char),
    Field("component_id", 1, U16),
    Field("component_revision", 1, U8)
  ]

  /** The identity strings follow 264 bytes of words, and the structure
      ends on the single component_revision byte at 302, 303 bytes in all. */
  lemma SysInfoRegsLayout()
    ensures FieldAt(SYS_INFO_REGS, 6, "partition_id", 24)
    ensures FieldAt(SYS_INFO_REGS, 9, "vendor_id", 264)
    ensures FieldAt(SYS_INFO_REGS, 13, "component_id", 300)
    ensures FieldAt(SYS_INFO_REGS, 14, "component_revision", 302)
    ensures StructSize(SYS_INFO_REGS) == 303
  {
    assert Offset(SYS_INFO_REGS, 1) == 4;
    assert Offset(SYS_INFO_REGS, 2) == 8;
    assert Offset(SYS_INFO_REGS, 3) == 12;
    assert Offset(SYS_INFO_REGS, 4) == 16;
    assert Offset(SYS_INFO_REGS, 5) == 20;
    assert Offset(SYS_INFO_REGS, 6) == 24;
    assert Offset(SYS_INFO_REGS, 7) == 28;
    assert Offset(SYS_INFO_REGS, 8) == 32;
    assert Offset(SYS_INFO_REGS, 9) == 264;
    assert Offset(SYS_INFO_REGS, 10) == 272;
    assert Offset(SYS_INFO_REGS, 11) == 288;
    assert Offset(SYS_INFO_REGS, 12) == 292;
    assert Offset(SYS_INFO_REGS, 13) == 300;
    assert Offset(SYS_INFO_REGS, 14) == 302;
  }

  /** struct active_partition_info */
  const ACTIVE_PARTITION_INFO: Layout := [
    Field("address", 1, U32),
    Field("build_version", 1, U32),
    Field("build_string", 1, U32)
  ]

  /** struct partition_info */
  const PARTITION_INFO: Layout := [
    Field("address", 1, U32),
    Field("length", 1, U32)
  ]

  /** The two nested structures as element types, with the size and
      alignment NestedInfoLayout derives from their fields. */
  const ACTIVE_INFO: Elem := Record("active_partition_info", 12, 4)
  const PART_INFO: Elem := Record("partition_info", 8, 4)

  /** struct flash_info_regs */
  const FLASH_INFO_REGS: Layout := [
    Field("flash_part_map_upd_idx", 1, U32),
    Field("active_img", 1, ACTIVE_INFO),
    Field("active_cfg", 1, ACTIVE_INFO),
    Field("inactive_img", 1, ACTIVE_INFO),
    Field("inactive_cfg", 1, ACTIVE_INFO),
    Field("flash_length", 1, U32),
    Field("cfg0", 1, PART_INFO),
    Field("cfg1", 1, PART_INFO),
    Field("img0", 1, PART_INFO),
    Field("img1", 1, PART_INFO),
    Field("nvlog", 1, PART_INFO),
    Field("vendor", 8, PART_INFO)
  ]

  /** flash_info_regs is 160 bytes of whole words with vendor[8] at 96. */
  lemma FlashInfoRegsLayout()
    ensures FieldAt(FLASH_INFO_REGS, 5, "flash_length", 52)
    ensures FieldAt(FLASH_INFO_REGS, 11, "vendor", 96)
    ensures StructSize(FLASH_INFO_REGS) == 160
  {
    assert Offset(FLASH_INFO_REGS, 1) == 4;
    assert Offset(FLASH_INFO_REGS, 2) == 16;
    assert Offset(FLASH_INFO_REGS, 3) == 28;
    assert Offset(FLASH_INFO_REGS, 4) == 40;
    assert Offset(FLASH_INFO_REGS, 5) == 52;
    assert Offset(FLASH_INFO_REGS, 6) == 56;
    assert Offset(FLASH_INFO_REGS, 7) == 64;
    assert Offset(FLASH_INFO_REGS, 8) == 72;
    assert Offset(FLASH_INFO_REGS, 9) == 80;
    assert Offset(FLASH_INFO_REGS, 10) == 88;
    assert Offset(FLASH_INFO_REGS, 11) == 96;
  }

  /** active_partition_info and partition_info are not declared packed,
      but their fields are whole words, so neither needs padding. */
  lemma NestedNeedNoPadding()
    ensures NaturallyAligned(ACTIVE_PARTITION_INFO)
    ensures NaturallyAligned(PARTITION_INFO)
  {
    WordFieldsNaturallyAligned(ACTIVE_PARTITION_INFO);
    WordFieldsNaturallyAligned(PARTITION_INFO);
  }

  /** active_partition_info is three words and partition_info two, both
      word-aligned and without padding: the element types above are these
      structures. */
  lemma NestedInfoLayout()
    ensures ACTIVE_INFO == Nested("active_partition_info", ACTIVE_PARTITION_INFO)
    ensures PART_INFO == Nested("partition_info", PARTITION_INFO)
  {
    NestedNeedNoPadding();
    assert Offset(ACTIVE_PARTITION_INFO, 1) == 4;
    assert Offset(ACTIVE_PARTITION_INFO, 2) == 8;
    assert Offset(PARTITION_INFO, 1) == 4;
    assert ACTIVE_PARTITION_INFO[1..] == [Field("build_version", 1, U32), Field("build_string", 1, U32)];
    assert ACTIVE_PARTITION_INFO[1..][1..] == [Field("build_string", 1, U32)];
    assert ACTIVE_PARTITION_INFO[1..][1..][1..] == [];
    assert PARTITION_INFO[1..] == [Field("length", 1, U32)];
    assert PARTITION_INFO[1..][1..] == [];
  }

  /** flash_info_regs and the two structures nested in it are not declared
      packed, but in each of them every field already sits on its natural
      alignment and the size is a multiple of the alignment, so the
      compiler's layout is the packed one: flash_info_regs takes 160
      bytes. */
  lemma FlashInfoNeedsNoPadding()
    ensures NaturallyAligned(ACTIVE_PARTITION_INFO)
    ensures NaturallyAligned(PARTITION_INFO)
    ensures NaturallyAligned(FLASH_INFO_REGS)
    ensures NaturalSize(FLASH_INFO_REGS) == StructSize(FLASH_INFO_REGS) == 160
  {
    NestedNeedNoPadding();
    FlashFieldsNeedNoPadding();
    NaturalLayoutIsPacked(FLASH_INFO_REGS);
    FlashInfoRegsLayout();
  }

  lemma FlashFieldsNeedNoPadding()
    ensures NaturallyAligned(FLASH_INFO_REGS)
  {
    WordFieldsNaturallyAligned(FLASH_INFO_REGS);
  }

  /** struct ntb_info_regs */
  const NTB_INFO_REGS: Layout := [
    Field("partition_count", 1, U8),
    Field("partition_id", 1, U8),
    Field("reserved1", 1, U16),
    Field("ep_map", 1, U64),
    Field("requester_id", 1, U16)
  ]

  /** ntb_info_regs is 14 bytes with the 64-bit ep_map at byte 4. On an ABI
      that aligns a 64-bit member to 8 bytes, that offset is misaligned and
      only the packed declaration keeps ep_map there. */
  lemma NtbInfoRegsLayout()
    ensures FieldAt(NTB_INFO_REGS, 3, "ep_map", 4)
    ensures FieldAt(NTB_INFO_REGS, 4, "requester_id", 12)
    ensures StructSize(NTB_INFO_REGS) == 14
    ensures Offset(NTB_INFO_REGS, 3) % Align(NTB_INFO_REGS[3].elem) != 0
    ensures !NaturallyAligned(NTB_INFO_REGS)
  {
    assert Offset(NTB_INFO_REGS, 1) == 1;
    assert Offset(NTB_INFO_REGS, 2) == 2;
    assert Offset(NTB_INFO_REGS, 3) == 4;
    assert Offset(NTB_INFO_REGS, 4) == 12;
    assert NTB_INFO_REGS[3] == Field("ep_map", 1, U64);
    assert Align(NTB_INFO_REGS[3].elem) == 8;
  }

  /** On an ABI that aligns a 64-bit member to 8 bytes, a compiler would
      pad ntb_info_regs without `__packed`: ep_map would move to byte 8,
      requester_id to 16, and the structure would take 24 bytes instead of
      14, aligned to ep_map's 8. */
  lemma NtbInfoUnpackedLayout()
    ensures NaturalOffset(NTB_INFO_REGS, 3) == 8
    ensures NaturalOffset(NTB_INFO_REGS, 4) == 16
    ensures MaxAlign(NTB_INFO_REGS) == 8
    ensures NaturalSize(NTB_INFO_REGS) == 24
  {
    NtbUnpackedEnds();
    var r := NTB_INFO_REGS;
    assert r[3] in r && Align(r[3].elem) == 8;
    assert forall f | f in r :: Align(f.elem) <= 8;
  }

  lemma NtbUnpackedEnds()
    ensures NaturalEnd(NTB_INFO_REGS, 3) == 4
    ensures NaturalEnd(NTB_INFO_REGS, 4) == 16
    ensures NaturalEnd(NTB_INFO_REGS, 5) == 18
  {
    var r := NTB_INFO_REGS;
    assert NaturalEnd(r, 1) == 1;
    assert NaturalEnd(r, 2) == 2;
    assert r[3].elem == U64 && r[4].elem == U16;
  }

}
