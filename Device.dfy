/**
 * The indexing state of struct switchtec_dev: which partition the host is
 * attached to, how many partitions and port functions the switch reports,
 * and which port functions are local to this host. Together with the GAS
 * locators they decide which partition and port-function blocks the driver
 * may reach.
 */
module Device {
  import opened Wrappers
  import Gas

  /** pff_local: one flag per port-function block, SWITCHTEC_MAX_PFF_CSR of
      them. */
  type PffLocal = s: seq<bool> | |s| == Gas.MAX_PFF_CSR witness seq(Gas.MAX_PFF_CSR, _ => false)

  datatype SwitchtecDev = SwitchtecDev(
    partition: int,
    partitionCount: int,
    pffCsrCount: int,
    pffLocal: PffLocal)

  /** mmio_part_cfg: the block of the host's own partition inside the array
      that mmio_part_cfg_all points at; it exists exactly when the partition
      number is one of the 48 blocks. */
  function OwnPartCfg(d: SwitchtecDev): (r: Result<nat, Gas.AddrError>)
    ensures r.Ok? <==> 0 <= d.partition < 48
    ensures r.Ok? ==> r.value == Gas.GAS_PART_CFG_OFFSET + d.partition * Gas.PART_CFG_SIZE
    ensures r.Err? ==> r.error == Gas.OutOfRange(d.partition)
  {
    Gas.LocatePartCfgRange(d.partition);
    Gas.LocatePartCfg(d.partition)
  }

  /** pff_local[i], checked against the length of the array. */
  function IsLocalPff(d: SwitchtecDev, i: int): (r: Result<bool, Gas.AddrError>)
    ensures r.Ok? <==> Gas.LocatePffCsr(i).Ok?
    ensures r.Ok? ==> r.value == d.pffLocal[i]
  {
    Gas.LocatePffCsrRange(i);
    if 0 <= i < |d.pffLocal| then Ok(d.pffLocal[i]) else Err(Gas.OutOfRange(i))
  }

  /** The port functions marked local to this host. */
  function LocalPffs(d: SwitchtecDev): set<nat> {
    set i: nat | i < |d.pffLocal| && d.pffLocal[i]
  }

  /** Every local port function has a block in the port-function array, and
      the array index and the flag agree; the set holds at most 48 of them. */
  lemma LocalPffsLocatable(d: SwitchtecDev)
    ensures forall i | i in LocalPffs(d) :: Gas.LocatePffCsr(i).Ok? && IsLocalPff(d, i) == Ok(true)
    ensures forall i: nat | IsLocalPff(d, i) == Ok(true) :: i in LocalPffs(d)
    ensures |LocalPffs(d)| <= Gas.MAX_PFF_CSR
  {
    assert LocalPffs(d) <= Range(Gas.MAX_PFF_CSR);
    SubsetSize(LocalPffs(d), Range(Gas.MAX_PFF_CSR));
  }

  /** Two different local port functions use disjoint blocks. */
  lemma LocalPffBlocksDisjoint(d: SwitchtecDev, i: nat, j: nat)
    requires i in LocalPffs(d) && j in LocalPffs(d) && i != j
    ensures Gas.LocatePffCsr(i).Ok? && Gas.LocatePffCsr(j).Ok?
    ensures Gas.LocatePffCsr(i).value + Gas.PFF_CSR_SIZE <= Gas.LocatePffCsr(j).value
         || Gas.LocatePffCsr(j).value + Gas.PFF_CSR_SIZE <= Gas.LocatePffCsr(i).value
  {
    LocalPffsLocatable(d);
    Gas.PffCsrBlocksDisjoint(i, j);
  }

  /** The counts the switch reports are consistent with the register map:
      every counted partition and port function has a block, and the host's
      partition is one of the counted ones. */
  predicate CountsInRange(d: SwitchtecDev) {
    0 <= d.partition < d.partitionCount <= 48 && 0 <= d.pffCsrCount <= Gas.MAX_PFF_CSR
  }

  /** A partition count names only existing blocks exactly when it is at
      most 48. */
  lemma PartitionCountLocatable(n: int)
    requires 0 <= n
    ensures n <= 48 <==> forall i | 0 <= i < n :: Gas.LocatePartCfg(i).Ok?
  {
    if n <= 48 {
      forall i | 0 <= i < n
        ensures Gas.LocatePartCfg(i).Ok?
      {
        Gas.LocatePartCfgRange(i);
      }
    } else {
      Gas.LocatePartCfgRange(48);
    }
  }

  /** A port-function count names only existing blocks exactly when it is
      at most SWITCHTEC_MAX_PFF_CSR. */
  lemma PffCountLocatable(n: int)
    requires 0 <= n
    ensures n <= Gas.MAX_PFF_CSR <==> forall i | 0 <= i < n :: Gas.LocatePffCsr(i).Ok?
  {
    if n > Gas.MAX_PFF_CSR {
      assert !Gas.LocatePffCsr(Gas.MAX_PFF_CSR).Ok?;
    }
  }

  /** With consistent counts, the host's own partition block exists and
      lies among the counted ones. */
  lemma OwnPartCfgCounted(d: SwitchtecDev)
    requires CountsInRange(d)
    ensures OwnPartCfg(d).Ok?
    ensures Gas.GAS_PART_CFG_OFFSET <= OwnPartCfg(d).value
    ensures OwnPartCfg(d).value + Gas.PART_CFG_SIZE
            <= Gas.GAS_PART_CFG_OFFSET + d.partitionCount * Gas.PART_CFG_SIZE
  {
  }

  /** The indices 0 .. n-1. */
  function Range(n: nat): (r: set<nat>)
    ensures forall i: nat :: i in r <==> i < n
    ensures |r| == n
  {
    if n == 0 then {} else Range(n - 1) + {n - 1}
  }

  lemma {:induction false} SubsetSize(a: set<nat>, b: set<nat>)
    requires a <= b
    ensures |a| <= |b|
  {
    assert b == a + (b - a);
  }
}
