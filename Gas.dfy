/**
 * The global address space (GAS): the switch's register file as one memory
 * window, divided into regions at fixed offsets. The partition and
 * port-function regions are arrays of equal blocks, reached by index.
 */
module Gas {
  import opened Wrappers
  import opened Layout
  import Mrpc
  import SwEvent
  import InfoRegs
  import PartCfg
  import PffCsr

  const GAS_MRPC_OFFSET: nat := 0x0000
  const GAS_TOP_CFG_OFFSET: nat := 0x1000
  const GAS_SW_EVENT_OFFSET: nat := 0x1800
  const GAS_SYS_INFO_OFFSET: nat := 0x2000
  const GAS_FLASH_INFO_OFFSET: nat := 0x2200
  const GAS_PART_CFG_OFFSET: nat := 0x4000
  const GAS_NTB_OFFSET: nat := 0x10000
  const GAS_PFF_CSR_OFFSET: nat := 0x134000

  /** SWITCHTEC_MAX_PFF_CSR: the number of port-function blocks. */
  const MAX_PFF_CSR: nat := 48

  /** Size of one partition block and of one port-function block. */
  const PART_CFG_SIZE: nat := 1024
  const PFF_CSR_SIZE: nat := 4096

  lemma BlockSizes()
    ensures PART_CFG_SIZE == StructSize(PartCfg.PART_CFG_REGS)
    ensures PFF_CSR_SIZE == StructSize(PffCsr.PFF_CSR_REGS)
  {
    PartCfg.PartCfgRegsLayout();
    PffCsr.PffCsrRegsLayout();
  }

  datatype Region =
    | MrpcRegion | TopCfgRegion | SwEventRegion | SysInfoRegion
    | FlashInfoRegion | PartCfgRegion | NtbRegion | PffCsrRegion

  /** Start of a region in the address space. */
  function Locate(r: Region): (off: nat)
    ensures off <= GAS_PFF_CSR_OFFSET
  {
    match r
    case MrpcRegion => GAS_MRPC_OFFSET
    case TopCfgRegion => GAS_TOP_CFG_OFFSET
    case SwEventRegion => GAS_SW_EVENT_OFFSET
    case SysInfoRegion => GAS_SYS_INFO_OFFSET
    case FlashInfoRegion => GAS_FLASH_INFO_OFFSET
    case PartCfgRegion => GAS_PART_CFG_OFFSET
    case NtbRegion => GAS_NTB_OFFSET
    case PffCsrRegion => GAS_PFF_CSR_OFFSET
  }

  /** Position of a region in declaration order. */
  function Rank(r: Region): nat {
    match r
    case MrpcRegion => 0
    case TopCfgRegion => 1
    case SwEventRegion => 2
    case SysInfoRegion => 3
    case FlashInfoRegion => 4
    case PartCfgRegion => 5
    case NtbRegion => 6
    case PffCsrRegion => 7
  }

  /** The regions are declared in increasing address order, so no two
      regions start at the same offset. */
  lemma LocateIncreasing(r: Region, s: Region)
    ensures Rank(r) < Rank(s) <==> Locate(r) < Locate(s)
    ensures Locate(r) == Locate(s) <==> r == s
  {
  }

  /** The region declared right after `r`, if any. */
  function Next(r: Region): (n: Option<Region>)
    ensures n.Some? ==> Rank(n.value) == Rank(r) + 1
    ensures n.None? <==> r.PffCsrRegion?
  {
    match r
    case MrpcRegion => Some(TopCfgRegion)
    case TopCfgRegion => Some(SwEventRegion)
    case SwEventRegion => Some(SysInfoRegion)
    case SysInfoRegion => Some(FlashInfoRegion)
    case FlashInfoRegion => Some(PartCfgRegion)
    case PartCfgRegion => Some(NtbRegion)
    case NtbRegion => Some(PffCsrRegion)
    case PffCsrRegion => None
  }

  /** The register structure at the start of a region, where one is
      declared; the top configuration registers have none. */
  function RegionLayout(r: Region): Option<Layout> {
    match r
    case MrpcRegion => Some(Mrpc.MRPC_REGS)
    case TopCfgRegion => None
    case SwEventRegion => Some(SwEvent.SW_EVENT_REGS)
    case SysInfoRegion => Some(InfoRegs.SYS_INFO_REGS)
    case FlashInfoRegion => Some(InfoRegs.FLASH_INFO_REGS)
    case PartCfgRegion => Some(PartCfg.PART_CFG_REGS)
    case NtbRegion => Some(InfoRegs.NTB_INFO_REGS)
    case PffCsrRegion => Some(PffCsr.PFF_CSR_REGS)
  }

  /** Each region's structure ends before the next region starts. */
  lemma {:induction false} RegionFits(r: Region)
    requires RegionLayout(r).Some? && Next(r).Some?
    ensures Locate(r) + StructSize(RegionLayout(r).value) <= Locate(Next(r).value)
  {
    if Rank(r) < 3 {
      LowRegionFits(r);
    } else if Rank(r) < 5 {
      InfoRegionFits(r);
    } else {
      HighRegionFits(r);
    }
  }

  lemma {:induction false} LowRegionFits(r: Region)
    requires RegionLayout(r).Some? && Rank(r) < 3
    ensures Locate(r) + StructSize(RegionLayout(r).value) <= Locate(Next(r).value)
  {
    match r {
      case MrpcRegion => MrpcFits();
      case SwEventRegion => SwEventFits();
    }
  }

  lemma {:induction false} InfoRegionFits(r: Region)
    requires 3 <= Rank(r) < 5
    ensures Locate(r) + StructSize(RegionLayout(r).value) <= Locate(Next(r).value)
  {
    match r {
      case SysInfoRegion => SysInfoFits();
      case FlashInfoRegion => FlashInfoFits();
    }
  }

  lemma {:induction false} HighRegionFits(r: Region)
    requires Rank(r) == 5 || Rank(r) == 6
    ensures Locate(r) + StructSize(RegionLayout(r).value) <= Locate(Next(r).value)
  {
    match r {
      case PartCfgRegion => PartCfgFits();
      case NtbRegion => NtbFits();
    }
  }

  lemma MrpcFits()
    ensures GAS_MRPC_OFFSET + StructSize(Mrpc.MRPC_REGS) <= GAS_TOP_CFG_OFFSET
  {
    Mrpc.MrpcRegsLayout();
  }

  lemma SwEventFits()
    ensures GAS_SW_EVENT_OFFSET + StructSize(SwEvent.SW_EVENT_REGS) <= GAS_SYS_INFO_OFFSET
  {
    SwEvent.SwEventRegsLayout();
  }

  lemma SysInfoFits()
    ensures GAS_SYS_INFO_OFFSET + StructSize(InfoRegs.SYS_INFO_REGS) <= GAS_FLASH_INFO_OFFSET
  {
    InfoRegs.SysInfoRegsLayout();
  }

  lemma FlashInfoFits()
    ensures GAS_FLASH_INFO_OFFSET + StructSize(InfoRegs.FLASH_INFO_REGS) <= GAS_PART_CFG_OFFSET
  {
    InfoRegs.FlashInfoRegsLayout();
  }

  lemma PartCfgFits()
    ensures GAS_PART_CFG_OFFSET + StructSize(PartCfg.PART_CFG_REGS) <= GAS_NTB_OFFSET
  {
    PartCfg.PartCfgRegsLayout();
  }

  lemma NtbFits()
    ensures GAS_NTB_OFFSET + StructSize(InfoRegs.NTB_INFO_REGS) <= GAS_PFF_CSR_OFFSET
  {
    InfoRegs.NtbInfoRegsLayout();
  }

  datatype AddrError = OutOfRange(index: int)

  /** Address of partition `i`'s block: blocks follow one another from the
      start of the partition region, and a block must end before the NTB
      region. */
  function LocatePartCfg(i: int): (r: Result<nat, AddrError>)
    ensures r.Ok? ==> GAS_PART_CFG_OFFSET <= r.value
    ensures r.Ok? ==> r.value + PART_CFG_SIZE <= GAS_NTB_OFFSET
    ensures r.Ok? ==> (r.value - GAS_PART_CFG_OFFSET) % PART_CFG_SIZE == 0
  {
    if 0 <= i && GAS_PART_CFG_OFFSET + (i + 1) * PART_CFG_SIZE <= GAS_NTB_OFFSET
    then Ok(GAS_PART_CFG_OFFSET + i * PART_CFG_SIZE)
    else Err(OutOfRange(i))
  }

  /** The region holds exactly 48 partition blocks: partition `i` has a
      block exactly when 0 <= i < 48, at 0x4000 + 1024·i. */
  lemma LocatePartCfgRange(i: int)
    ensures LocatePartCfg(i).Ok? <==> 0 <= i < 48
    ensures LocatePartCfg(i).Ok? ==> LocatePartCfg(i).value == 0x4000 + 1024 * i
  {
  }

  /** The blocks of two different partitions do not overlap. */
  lemma PartCfgBlocksDisjoint(i: int, j: int)
    requires LocatePartCfg(i).Ok? && LocatePartCfg(j).Ok? && i != j
    ensures LocatePartCfg(i).value + PART_CFG_SIZE <= LocatePartCfg(j).value
         || LocatePartCfg(j).value + PART_CFG_SIZE <= LocatePartCfg(i).value
  {
  }

  /** Address of port function `i`'s block: only the SWITCHTEC_MAX_PFF_CSR
      blocks exist. */
  function LocatePffCsr(i: int): (r: Result<nat, AddrError>)
    ensures r.Ok? ==> GAS_PFF_CSR_OFFSET <= r.value
    ensures r.Ok? ==> r.value + PFF_CSR_SIZE <= GAS_PFF_CSR_OFFSET + MAX_PFF_CSR * PFF_CSR_SIZE
    ensures r.Ok? ==> (r.value - GAS_PFF_CSR_OFFSET) % PFF_CSR_SIZE == 0
  {
    if 0 <= i < MAX_PFF_CSR then Ok(GAS_PFF_CSR_OFFSET + i * PFF_CSR_SIZE)
    else Err(OutOfRange(i))
  }

  /** Port function `i` has a block exactly when 0 <= i < 48, at
      0x134000 + 0x1000·i, and that block lies after the NTB registers. */
  lemma LocatePffCsrRange(i: int)
    ensures LocatePffCsr(i).Ok? <==> 0 <= i < MAX_PFF_CSR
    ensures LocatePffCsr(i).Ok? ==> LocatePffCsr(i).value == 0x134000 + 0x1000 * i
    ensures LocatePffCsr(i).Ok? ==>
              GAS_NTB_OFFSET + StructSize(InfoRegs.NTB_INFO_REGS) <= LocatePffCsr(i).value
  {
    InfoRegs.NtbInfoRegsLayout();
  }

  /** The blocks of two different port functions do not overlap. */
  lemma PffCsrBlocksDisjoint(i: int, j: int)
    requires LocatePffCsr(i).Ok? && LocatePffCsr(j).Ok? && i != j
    ensures LocatePffCsr(i).value + PFF_CSR_SIZE <= LocatePffCsr(j).value
         || LocatePffCsr(j).value + PFF_CSR_SIZE <= LocatePffCsr(i).value
  {
  }
}
