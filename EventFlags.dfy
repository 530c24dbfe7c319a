/**
 * Flag bits of an event header word. Bit 0 reports that the event occurred
 * and, written back as 1, clears it; bits 1 to 4 enable logging, reporting
 * to the management console, raising an interrupt, and treating the event
 * as fatal.
 */
module EventFlags {

  const EVENT_OCCURRED: bv32 := 0x01
  const EVENT_CLEAR: bv32 := 0x01
  const EVENT_EN_LOG: bv32 := 0x02
  const EVENT_EN_CLI: bv32 := 0x04
  const EVENT_EN_IRQ: bv32 := 0x08
  const EVENT_FATAL: bv32 := 0x10

  /** The masks are bits 0 to 4; occurred and clear are the same bit. */
  lemma FlagBitPositions()
    ensures EVENT_OCCURRED == EVENT_CLEAR == 1 << 0
    ensures EVENT_EN_LOG == 1 << 1 && EVENT_EN_CLI == 1 << 2
    ensures EVENT_EN_IRQ == 1 << 3 && EVENT_FATAL == 1 << 4
  {
  }

  /** The four settable flags of a header. */
  datatype Flag = Log | Cli | Irq | Fatal

  /** The header bit of a flag. */
  function Mask(f: Flag): bv32 {
    match f
    case Log => EVENT_EN_LOG
    case Cli => EVENT_EN_CLI
    case Irq => EVENT_EN_IRQ
    case Fatal => EVENT_FATAL
  }

  predicate Occurred(hdr: bv32) {
    hdr & EVENT_OCCURRED != 0
  }

  predicate IsSet(hdr: bv32, f: Flag) {
    hdr & Mask(f) != 0
  }

  /** The header with one flag set. */
  function Enable(hdr: bv32, f: Flag): bv32 {
    hdr | Mask(f)
  }

  /** The header with one flag cleared. */
  function Disable(hdr: bv32, f: Flag): bv32 {
    hdr & !Mask(f)
  }

  /** One of the bits 1 to 4. */
  predicate OneFlagBit(m: bv32) {
    m == 0x02 || m == 0x04 || m == 0x08 || m == 0x10
  }

  /** Each flag is one of bits 1 to 4. */
  lemma {:induction false} MaskIsOneBit(f: Flag)
    ensures OneFlagBit(Mask(f))
  {
    match f {
      case Log =>
      case Cli =>
      case Irq =>
      case Fatal =>
    }
  }

  /** Each of bits 1 to 4 is a single bit, and none of them is the
      occurred/clear bit. */
  lemma OneFlagBitIsSingle(m: bv32)
    requires OneFlagBit(m)
    ensures m != 0 && m & (m - 1) == 0
    ensures m & EVENT_OCCURRED == 0
  {
  }

  /** The four flags are four different bits. */
  lemma {:induction false} MasksDisjoint(f: Flag, g: Flag)
    ensures f != g <==> Mask(f) & Mask(g) == 0
  {
    match f {
      case Log =>
      case Cli =>
      case Irq =>
      case Fatal =>
    }
  }

  /** Enabling a flag sets it and changes no other bit of the header. */
  lemma EnableSets(hdr: bv32, f: Flag)
    ensures IsSet(Enable(hdr, f), f)
    ensures Enable(hdr, f) & !Mask(f) == hdr & !Mask(f)
  {
    MaskIsOneBit(f);
    OneFlagBitIsSingle(Mask(f));
    SetBit(hdr, Mask(f));
  }

  /** Disabling a flag clears it and changes no other bit of the header. */
  lemma DisableClears(hdr: bv32, f: Flag)
    ensures !IsSet(Disable(hdr, f), f)
    ensures Disable(hdr, f) & !Mask(f) == hdr & !Mask(f)
  {
    ClearBit(hdr, Mask(f));
  }

  /** Enabling one flag leaves every other flag as it was. */
  lemma EnableKeepsOthers(hdr: bv32, f: Flag, g: Flag)
    requires f != g
    ensures IsSet(Enable(hdr, f), g) == IsSet(hdr, g)
  {
    MasksDisjoint(f, g);
    OtherBits(hdr, Mask(f), Mask(g));
  }

  /** Disabling one flag leaves every other flag as it was. */
  lemma DisableKeepsOthers(hdr: bv32, f: Flag, g: Flag)
    requires f != g
    ensures IsSet(Disable(hdr, f), g) == IsSet(hdr, g)
  {
    MasksDisjoint(f, g);
    OtherBits(hdr, Mask(f), Mask(g));
  }

  /** Changing a flag leaves the occurred bit as it was. */
  lemma OccurredKept(hdr: bv32, f: Flag)
    ensures Occurred(Enable(hdr, f)) == Occurred(hdr)
    ensures Occurred(Disable(hdr, f)) == Occurred(hdr)
  {
    MaskIsOneBit(f);
    OneFlagBitIsSingle(Mask(f));
    OtherBits(hdr, Mask(f), EVENT_OCCURRED);
  }

  /** Of an enable and a disable of the same flag, the later one wins. */
  lemma LastChangeWins(hdr: bv32, f: Flag)
    ensures Disable(Enable(hdr, f), f) == Disable(hdr, f)
    ensures Enable(Disable(hdr, f), f) == Enable(hdr, f)
  {
    SetClearOverride(hdr, Mask(f));
  }

  /** Disabling a flag leaves the header unchanged exactly when the flag is
      clear, and enabling it exactly when it is set. */
  lemma NoOpChanges(hdr: bv32, f: Flag)
    ensures Disable(hdr, f) == hdr <==> !IsSet(hdr, f)
    ensures Enable(hdr, f) == hdr <==> IsSet(hdr, f)
  {
    ClearMaskNoOp(hdr, f);
    SetMaskNoOp(hdr, f);
  }

  // The no-op tests for one flag's mask, each in a lemma of its own: the
  // single-bit fact they need makes the combined proof above too costly.

  lemma ClearMaskNoOp(hdr: bv32, f: Flag)
    ensures hdr & !Mask(f) == hdr <==> hdr & Mask(f) == 0
  {
    MaskIsOneBit(f);
    ClearNoOp(hdr, Mask(f));
  }

  lemma SetMaskNoOp(hdr: bv32, f: Flag)
    ensures hdr | Mask(f) == hdr <==> hdr & Mask(f) != 0
  {
    MaskIsOneBit(f);
    SetNoOp(hdr, Mask(f));
  }

  /** Enabling then disabling a flag restores the header exactly when the
      flag was clear to begin with. */
  lemma DisableUndoesEnable(hdr: bv32, f: Flag)
    ensures Disable(Enable(hdr, f), f) == hdr <==> !IsSet(hdr, f)
  {
    LastChangeWins(hdr, f);
    NoOpChanges(hdr, f);
  }

  /** Disabling then enabling a flag restores the header exactly when the
      flag was set to begin with. */
  lemma EnableUndoesDisable(hdr: bv32, f: Flag)
    ensures Enable(Disable(hdr, f), f) == hdr <==> IsSet(hdr, f)
  {
    LastChangeWins(hdr, f);
    NoOpChanges(hdr, f);
  }

  lemma SetBit(hdr: bv32, m: bv32)
    requires m != 0
    ensures (hdr | m) & m != 0
    ensures (hdr | m) & !m == hdr & !m
  {
  }

  lemma ClearBit(hdr: bv32, m: bv32)
    ensures (hdr & !m) & m == 0
    ensures (hdr & !m) & !m == hdr & !m
  {
  }

  /** Setting or clearing the bits of `m` leaves the bits of a disjoint
      mask `n` alone. */
  lemma OtherBits(hdr: bv32, m: bv32, n: bv32)
    requires m & n == 0
    ensures (hdr | m) & n == hdr & n
    ensures (hdr & !m) & n == hdr & n
  {
  }

  /** Setting then clearing a bit, or clearing then setting it, is the
      same as doing only the second step. */
  lemma SetClearOverride(hdr: bv32, m: bv32)
    ensures (hdr | m) & !m == hdr & !m
    ensures (hdr & !m) | m == hdr | m
  {
  }

  /** Clearing a single bit changes nothing exactly when it is clear. */
  lemma ClearNoOp(hdr: bv32, m: bv32)
    requires OneFlagBit(m)
    ensures hdr & !m == hdr <==> hdr & m == 0
  {
  }

  /** Setting a single bit changes nothing exactly when it is set. */
  lemma SetNoOp(hdr: bv32, m: bv32)
    requires OneFlagBit(m)
    ensures hdr | m == hdr <==> hdr & m != 0
  {
  }
}
