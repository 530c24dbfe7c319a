# Switchtec GAS register map

This project models the register map of the Microsemi Switchtec PCIe switch,
as declared in the Linux header `linux/switchtec.h`. The switch exposes its
management registers as one memory window, the global address space (GAS).
The window is split into regions at fixed offsets:
- the MRPC mailbox;
- the top configuration registers;
- the global event registers;
- the system and flash information blocks;
- an array of 48 partition blocks;
- the NTB information;
- an array of 48 port-function (PFF) blocks.

The model has these parts:

- **Layouts** (`Layout`, `EventSlots`). A packed structure is a sequence of
  fields. Each field has a name, a count and an element type (u8, u16, u32,
  u64, char or a nested structure). A field's byte offset is the sum of the
  sizes before it. A nested structure that is not packed takes the layout a
  C compiler gives it: each field moves up to its alignment, and the size
  is rounded up to the structure's alignment. Event registers are runs of 24-byte slots, in
  one of four shapes. Three shapes are one header word followed by data or
  reserved words. The fourth is six reserved words with no header, for a
  slot that has no event source.
- **The structures** (`Mrpc`, `SwEvent`, `InfoRegs`, `PartCfg`, `PffCsr`).
  Each struct of the header is written field by field. Lemmas give each
  struct's exact size and the offsets the hardware fixes.
- **The address space** (`Gas`):
  - the region offsets;
  - proof that every block ends before the next region starts;
  - bounds-checked locators for partition `i` and port function `i`, which
    return an error outside the arrays.
- **Event header flags** (`EventFlags`): the occurred/clear bit and the four
  enable bits of an event header, as operations on `bv32`.
- **Partition events** (`PartCfg`): the four bits of the partition event
  bitmap, and how they correspond to the partition event slots.
- **MRPC status** (`Mrpc`): the four status codes and their decoding.
- **Device indexing** (`Device`): the fields of `struct switchtec_dev` that
  choose blocks, namely the partition number, the counts and `pff_local`.

## Model

| member | source | states |
|---|---|---|
| Layout.Offset | linux/switchtec.h:47-53 | the packed rule: field k starts where field k-1 ends, and field 0 starts at 0 |
| Layout.StructSize | linux/switchtec.h:47-53 | a packed structure's size is the offset just past its last field |
| Layout.FieldWithin | linux/switchtec.h:47-53 | every field of a packed structure lies inside the structure |
| Layout.FieldsDisjoint | linux/switchtec.h:47-53 | two different fields of a packed structure never overlap |
| Layout.OffsetPrefix | linux/switchtec.h:158-182 | fields placed after a structure's fields do not move them |
| Layout.OffsetSuffix | linux/switchtec.h:158-182 | fields placed after a structure are shifted by exactly its size |
| Layout.SizeAppend | linux/switchtec.h:158-182 | the size of two packed field runs laid end to end is the sum of their sizes |
| Layout.IndexOf | linux/switchtec.h:47-53 | a lookup by name finds the first field with that name, and fails exactly when no field has it |
| Layout.OffsetOf | linux/switchtec.h:47-53 | a field's offset by name is missing exactly when no field has that name, and otherwise it lies within the structure |
| Layout.OffsetOfField | linux/switchtec.h:47-53 | a field whose name is unique among the earlier fields is found at its own offset |
| Layout.MaxAlign | linux/switchtec.h:123-148 | a structure's alignment is the largest alignment of its fields: at least each of them, equal to one of them when above 1, and 1 for no fields |
| Layout.RoundUp | linux/switchtec.h:126-147 | the padded size is the least multiple of the alignment that is at least the unpadded size |
| Layout.NaturalEnd | linux/switchtec.h:126-147 | in a structure that is not packed, the end of each field is never before its packed end, because padding only moves fields later |
| Layout.NaturalOffset | linux/switchtec.h:126-147 | in a structure that is not packed, a field starts at the first multiple of its alignment at or after the end of the field before it |
| Layout.NaturalSize | linux/switchtec.h:126-147 | a structure that is not packed takes the end of its last field rounded up to the structure's alignment, and never less than its packed size |
| Layout.Nested | linux/switchtec.h:126-147 | a nested non-packed structure has its fields' largest alignment, and its size is the end of its last field in the unpacked layout, rounded up to that alignment; when the structure is naturally aligned, that size is the packed size |
| Layout.NaturalLayoutIsPacked | linux/switchtec.h:123-148 | a naturally aligned structure gets no padding: every field keeps its packed offset and the size is the packed size |
| Layout.NaturallyAlignedIffUnpadded | linux/switchtec.h:123-148 | with positive alignments, the compiler's layout equals the packed one exactly when the structure is naturally aligned |
| Layout.WordFieldsNaturallyAligned | linux/switchtec.h:123-148 | a structure made only of whole words, with members at most word-aligned, has every field on its natural alignment and needs no padding |
| EventSlots.SlotFields | linux/switchtec.h:69-102 | each of the four slot shapes takes exactly 24 bytes, and a slot with an event source starts with its header word |
| EventSlots.SlotsLayout | linux/switchtec.h:69-102 | a run of n slots takes 24·n bytes |
| EventSlots.SlotsLayoutAppend | linux/switchtec.h:69-102 | the fields of two runs of slots are the fields of each run, concatenated |
| EventSlots.SlotAt | linux/switchtec.h:69-102 | slot k of a run starts 24·k bytes in, with the first field of its shape |
| EventSlots.EventBlock | linux/switchtec.h:158-182 | a block made of head, slots and tail has the size of the head plus 24 per slot plus the tail |
| EventSlots.EventSlotOffset | linux/switchtec.h:171-181 | in a block, slot k lies 24·k bytes after the end of the head and begins with its header field |
| EventSlots.EventHeaderAt | linux/switchtec.h:200-227 | the header word of every slot with an event source is on the 24-byte stride after the head |
| EventSlots.HeadFieldAt | linux/switchtec.h:158-172 | a field of the head keeps its index and offset in the whole block |
| Mrpc.MrpcRegsLayout | linux/switchtec.h:47-53 | input_data is at 0, output_data at 1024, cmd at 2048, status at 2052 and ret_value at 2056, for 2060 bytes in all |
| Mrpc.PayloadFits | linux/switchtec.h:26 | a payload fits the mailbox when it is at most SWITCHTEC_MRPC_PAYLOAD_SIZE bytes |
| Mrpc.PayloadFitsInputData | linux/switchtec.h:26 | a payload fits exactly when it stays within input_data and clear of output_data, and each buffer holds SWITCHTEC_MRPC_PAYLOAD_SIZE bytes |
| Mrpc.StatusCode | linux/switchtec.h:55-60 | every status code is positive, and it fits in a byte exactly when the status is not INTERRUPTED |
| Mrpc.StatusOf | linux/switchtec.h:55-60 | a decoded register value is the code of the status it names |
| Mrpc.StatusRoundTrip | linux/switchtec.h:55-60 | decoding the code of a status gives that status back |
| Mrpc.StatusCodesDistinct | linux/switchtec.h:55-60 | two statuses have the same code exactly when they are the same status |
| SwEvent.SwEventHeadLayout | linux/switchtec.h:62-68 | the head of sw_event_regs takes 48 bytes, with part_event_bitmap at 16 and global_summary at 32 |
| SwEvent.SwEventRegsLayout | linux/switchtec.h:62-103 | sw_event_regs takes 360 bytes, and part_event_bitmap and global_summary keep their offsets in it |
| SwEvent.GlobalEventHeaders | linux/switchtec.h:69-102 | there are 13 global events, from stack_error_event_hdr to gpio_interrupt_hdr, and header k lies at 48 + 24·k |
| InfoRegs.SysInfoRegsLayout | linux/switchtec.h:105-121 | sys_info_regs has partition_id at 24, vendor_id at 264, component_id at 300 and component_revision at 302, and takes 303 bytes |
| InfoRegs.NestedNeedNoPadding | linux/switchtec.h:126-141 | active_partition_info and partition_info are not packed, yet each field is on its natural alignment and each size is a multiple of the alignment |
| InfoRegs.NestedInfoLayout | linux/switchtec.h:126-141 | as fields, active_partition_info takes 12 bytes and partition_info 8, both word-aligned |
| InfoRegs.FlashInfoRegsLayout | linux/switchtec.h:123-148 | flash_info_regs has flash_length at 52 and vendor[8] at 96, and takes 160 bytes |
| InfoRegs.FlashFieldsNeedNoPadding | linux/switchtec.h:123-148 | every field of flash_info_regs is on its natural alignment, and its size is a multiple of its alignment |
| InfoRegs.FlashInfoNeedsNoPadding | linux/switchtec.h:123-148 | flash_info_regs and the two structures nested in it are not declared packed, yet none of them needs padding, so the natural layout equals the packed one and flash_info_regs takes 160 bytes either way |
| InfoRegs.NtbInfoRegsLayout | linux/switchtec.h:150-156 | ntb_info_regs takes 14 bytes with ep_map at 4 and requester_id at 12; with u64 aligned to 8, 4 is not a multiple of ep_map's alignment, so the structure is not naturally aligned |
| InfoRegs.NtbInfoUnpackedLayout | linux/switchtec.h:150-156 | with u64 aligned to 8 and without `__packed`, ep_map would move to 8 and requester_id to 16, and the structure, aligned to 8, would take 24 bytes; so the packed declaration is what gives the 14-byte layout |
| InfoRegs.NtbUnpackedEnds | linux/switchtec.h:150-156 | with u64 aligned to 8 and without `__packed`, reserved1 would end at 4, ep_map at 16 and requester_id at 18 |
| PartCfg.PartCfgHeadLayout | linux/switchtec.h:158-172 | the head of part_cfg_regs takes 292 bytes, with dsp_pff_inst_id at 24, vep_vector_number at 256, port_event_bitmap at 260 and part_event_summary at 276 |
| PartCfg.PartCfgRegsLayout | linux/switchtec.h:158-182 | part_cfg_regs takes exactly 1024 bytes, and its four event headers lie at 292 + 24·k |
| PartCfg.PartCfgSummaryOffsets | linux/switchtec.h:169-171 | port_event_bitmap and part_event_summary keep offsets 260 and 276 in the whole block |
| PartCfg.EventBit | linux/switchtec.h:184-189 | each partition event's mask is a single bit among bits 0 to 3 |
| PartCfg.EventOfBit | linux/switchtec.h:184-189 | a decoded bitmap bit is the mask of the event it names |
| PartCfg.EventBitPosition | linux/switchtec.h:184-189 | the mask of the event with index k is 1 << k, for k from 0 to 3 |
| PartCfg.EventBitRoundTrip | linux/switchtec.h:184-189 | decoding an event's mask gives the event back |
| PartCfg.EventBitsDistinct | linux/switchtec.h:184-189 | two events have the same mask exactly when they are the same event |
| PartCfg.EventSlotOfBit | linux/switchtec.h:173-189 | the event with bit k has the k-th partition event header (reset, mrpc_comp, mrpc_comp_async, dyn_binding), at 292 + 24·k |
| PffCsr.PffCsrHeadLayout | linux/switchtec.h:191-201 | the head of pff_csr_regs takes 3088 bytes, with pci_cfg_header at 4, indirect_gas_window at 2048, indirect_gas_window_off at 2560 and pff_event_summary at 3072 |
| PffCsr.PffCsrRegsLayout | linux/switchtec.h:191-228 | pff_csr_regs takes exactly 4096 bytes, and pff_event_summary stays at 3072 |
| PffCsr.PffEventHeaders | linux/switchtec.h:202-226 | of the 13 event slots only the fifth (reserved3) has no event source, and every other header k lies at 3088 + 24·k |
| Gas.BlockSizes | linux/switchtec.h:158-228 | the stride of the partition array is the size of part_cfg_regs, and the stride of the PFF array is the size of pff_csr_regs |
| Gas.Locate | linux/switchtec.h:36-45 | every region starts at or before the PFF array, inside the GAS window that ends with the last PFF block |
| Gas.LocateIncreasing | linux/switchtec.h:36-45 | the region offsets increase strictly in declaration order, so no two regions start at the same offset |
| Gas.Next | linux/switchtec.h:36-45 | every region but the PFF array has a successor, and the successor is the next one in declaration order |
| Gas.RegionFits | linux/switchtec.h:36-156 | the structure at the start of each region ends no later than the start of the next region |
| Gas.MrpcFits | linux/switchtec.h:37-53 | mrpc_regs ends before the top configuration registers at 0x1000 |
| Gas.SwEventFits | linux/switchtec.h:39-40 | sw_event_regs lies within [0x1800, 0x2000) |
| Gas.SysInfoFits | linux/switchtec.h:40-41 | sys_info_regs lies within [0x2000, 0x2200) |
| Gas.FlashInfoFits | linux/switchtec.h:41-42 | flash_info_regs lies within [0x2200, 0x4000) |
| Gas.PartCfgFits | linux/switchtec.h:42-43 | the partition block at the start of its region ends before the NTB region |
| Gas.NtbFits | linux/switchtec.h:43-44 | ntb_info_regs ends before the PFF array at 0x134000 |
| Gas.LocatePartCfg | linux/switchtec.h:42-43 | a located partition block lies inside the partition region, below the NTB region, on a 1024-byte stride |
| Gas.LocatePartCfgRange | linux/switchtec.h:247 | partition i has a block exactly when 0 <= i < 48, and it is at 0x4000 + 1024·i |
| Gas.PartCfgBlocksDisjoint | linux/switchtec.h:247 | the blocks of two different partitions do not overlap |
| Gas.LocatePffCsr | linux/switchtec.h:27 | a located PFF block lies inside the array of SWITCHTEC_MAX_PFF_CSR blocks, on a 4096-byte stride |
| Gas.LocatePffCsrRange | linux/switchtec.h:248 | PFF i has a block exactly when 0 <= i < 48; it is at 0x134000 + 0x1000·i and lies after the NTB registers |
| Gas.PffCsrBlocksDisjoint | linux/switchtec.h:248 | the blocks of two different port functions do not overlap |
| EventFlags.FlagBitPositions | linux/switchtec.h:29-34 | OCCURRED and CLEAR are both bit 0, and EN_LOG, EN_CLI, EN_IRQ and FATAL are bits 1 to 4 |
| EventFlags.MaskIsOneBit | linux/switchtec.h:31-34 | each enable flag's mask is one of bits 1 to 4 |
| EventFlags.OneFlagBitIsSingle | linux/switchtec.h:29-34 | each of bits 1 to 4 is a single bit, distinct from the occurred/clear bit |
| EventFlags.Enable | linux/switchtec.h:31-34 | enabling a flag ORs its mask into the header word |
| EventFlags.Disable | linux/switchtec.h:31-34 | disabling a flag clears its mask in the header word |
| EventFlags.MasksDisjoint | linux/switchtec.h:31-34 | two flags share a bit exactly when they are the same flag |
| EventFlags.EnableSets | linux/switchtec.h:31-34 | enabling a flag sets it and changes no other bit of the header |
| EventFlags.DisableClears | linux/switchtec.h:31-34 | disabling a flag clears it and changes no other bit of the header |
| EventFlags.EnableKeepsOthers | linux/switchtec.h:31-34 | enabling one flag leaves each other flag as it was |
| EventFlags.DisableKeepsOthers | linux/switchtec.h:31-34 | disabling one flag leaves each other flag as it was |
| EventFlags.OccurredKept | linux/switchtec.h:29-34 | changing an enable flag never changes the occurred bit |
| EventFlags.LastChangeWins | linux/switchtec.h:31-34 | after an enable and a disable of the same flag, the header is what the later change alone makes it |
| EventFlags.NoOpChanges | linux/switchtec.h:31-34 | disabling changes nothing exactly when the flag is clear, and enabling exactly when it is set |
| EventFlags.DisableUndoesEnable | linux/switchtec.h:31-34 | enabling then disabling a flag restores the header exactly when the flag was clear |
| EventFlags.EnableUndoesDisable | linux/switchtec.h:31-34 | disabling then enabling a flag restores the header exactly when the flag was set |
| Device.OwnPartCfg | linux/switchtec.h:235-247 | the host's partition block exists exactly when the partition number is 0 to 47, and it is at 0x4000 + 1024·partition; otherwise the error names the partition |
| Device.IsLocalPff | linux/switchtec.h:238-248 | a pff_local entry can be read exactly when the PFF block with that index exists, and it is the stored flag |
| Device.LocalPffsLocatable | linux/switchtec.h:238-248 | the local port functions are exactly the indices whose flag reads true; each has a block; there are at most 48 |
| Device.LocalPffBlocksDisjoint | linux/switchtec.h:238-248 | two different local port functions use disjoint blocks |
| Device.PartitionCountLocatable | linux/switchtec.h:236-247 | a partition count names only existing blocks exactly when it is at most 48 |
| Device.PffCountLocatable | linux/switchtec.h:237-248 | a PFF count names only existing blocks exactly when it is at most SWITCHTEC_MAX_PFF_CSR |
| Device.OwnPartCfgCounted | linux/switchtec.h:235-246 | with consistent counts, the host's own partition block exists and lies among the counted blocks |

## Left out

- The MRPC queue, busy flag, work item, timeout work and mutex (linux/switchtec.h:250-259) are not modelled. Only their declarations appear, and the code that uses them is not part of this model. The locking is concurrency.
- The `alive` flag, the event wait queue and the atomic event counter (linux/switchtec.h:259-262) are not modelled. They are concurrency primitives with no logic here.
- The `pci_dev`, `device` and `cdev` members (linux/switchtec.h:231-233) are kernel objects and are left out.
- The `__iomem` pointers and every MMIO access (linux/switchtec.h:240-248) are left out. The model works with byte offsets into the GAS window instead of pointers.
- `to_stdev` (linux/switchtec.h:265-268) is left out. It is a `container_of` cast, with no behaviour beyond the C object model.
- The contents of the identity strings and version words in `sys_info_regs`, and of the flash partition records (linux/switchtec.h:105-148), are left out. Their sizes and offsets are modelled; their values are vendor data.
- The vendor ID and class codes (linux/switchtec.h:22-24) are left out. They only serve PCI device matching.
- The top configuration region (linux/switchtec.h:38) has no structure in the header. `Gas.RegionLayout` gives it none, so `Gas.RegionFits` says nothing about it.
- Device.OwnPartCfg: the header declares `mmio_part_cfg` and `mmio_part_cfg_all` but not how they are set. The model takes `mmio_part_cfg` to be entry `partition` of the partition array. The driver code that assigns it is not part of this model.
- Device.CountsInRange: the bounds on `partition`, `partition_count` and `pff_csr_count` are what the register map needs. The driver code that reads the counts from the switch is not part of this model.
- Device.IsLocalPff: `pff_local` is a `char` array that the model keeps as one boolean per entry. Any nonzero char counts as local.
- Gas.LocatePartCfg: the header does not bound the partition index. The model bounds it by the room between the partition region and the NTB region, which allows 48 blocks.
- Layout.Align: the alignments are those of an ABI that aligns a 64-bit struct member to 8 bytes, such as x86-64 or arm64. On 32-bit x86 a u64 member is 4-aligned, so unpacked ntb_info_regs would keep ep_map at 4 and requester_id at 12 and take 16 bytes. The claims of `InfoRegs.NtbInfoRegsLayout` about misalignment, and those of `InfoRegs.NtbInfoUnpackedLayout` and `InfoRegs.NtbUnpackedEnds`, hold only for the 8-byte ABI. The packed structures and the all-u32 flash structures are the same on both.
- Event header flags are modelled on a 32-bit word as a value. The register read-modify-write itself is MMIO and is left out. CLEAR is the same bit as OCCURRED (linux/switchtec.h:29-30). So writing back `EventFlags.Enable(hdr, f)` or `EventFlags.Disable(hdr, f)` for a header read with bit 0 set also clears the event. `EventFlags.OccurredKept` speaks of the value only, not of that write.
