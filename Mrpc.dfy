/**
 * The MRPC (management RPC) mailbox: the payload bound, the layout of the
 * mailbox registers and the status codes the status register reports.
 */
module Mrpc {
  import opened Wrappers
  import opened Layout

  /** SWITCHTEC_MRPC_PAYLOAD_SIZE: bytes of command input and of output. */
  const MRPC_PAYLOAD_SIZE: nat := 1024

  /** struct mrpc_regs */
  const MRPC_REGS: Layout := [
    Field("input_data", MRPC_PAYLOAD_SIZE, U8),
    Field("output_data", MRPC_PAYLOAD_SIZE, U8),
    Field("cmd", 1, U32),
    Field("status", 1, U32),
    Field("ret_value", 1, U32)
  ]

  /** The mailbox is packed: both payload buffers first, then the command,
      status and return-value words, 2060 bytes in all. */
  lemma MrpcRegsLayout()
    ensures OffsetOf(MRPC_REGS, "input_data") == Some(0)
    ensures OffsetOf(MRPC_REGS, "output_data") == Some(1024)
    ensures OffsetOf(MRPC_REGS, "cmd") == Some(2048)
    ensures OffsetOf(MRPC_REGS, "status") == Some(2052)
    ensures OffsetOf(MRPC_REGS, "ret_value") == Some(2056)
    ensures StructSize(MRPC_REGS) == 2060
  {
    assert Offset(MRPC_REGS, 1) == 1024;
    assert Offset(MRPC_REGS, 2) == 2048;
    assert Offset(MRPC_REGS, 3) == 2052;
    assert Offset(MRPC_REGS, 4) == 2056;
    OffsetOfField(MRPC_REGS, 0);
    OffsetOfField(MRPC_REGS, 1);
    OffsetOfField(MRPC_REGS, 2);
    OffsetOfField(MRPC_REGS, 3);
    OffsetOfField(MRPC_REGS, 4);
  }

  /** A command payload fits the mailbox's input buffer. */
  predicate PayloadFits(len: nat) {
    len <= MRPC_PAYLOAD_SIZE
  }

  /** A payload fits exactly when writing it from the start of input_data
      stays clear of output_data; a longer one would overrun it. */
  lemma PayloadFitsInputData(len: nat)
    ensures PayloadFits(len) <==> len <= Size(MRPC_REGS[0])
    ensures PayloadFits(len) <==> Offset(MRPC_REGS, 0) + len <= Offset(MRPC_REGS, 1)
    ensures Size(MRPC_REGS[1]) == MRPC_PAYLOAD_SIZE
  {
  }

  /** The 32-bit status register's values. */
  type u32 = x: int | 0 <= x < 0x1_0000_0000

  /** enum mrpc_status */
  datatype MrpcStatus = InProgress | Done | Error | Interrupted

  /** Code of a status. Every code but INTERRUPTED (0x100) fits in a byte,
      so INTERRUPTED is never confused with a one-byte status value. */
  function StatusCode(s: MrpcStatus): (code: u32)
    ensures code > 0
    ensures code <= 0xFF <==> !s.Interrupted?
  {
    match s
    case InProgress => 1
    case Done => 2
    case Error => 0xFF
    case Interrupted => 0x100
  }

  /** The status a register value stands for, if any. */
  function StatusOf(code: u32): (r: Option<MrpcStatus>)
    ensures r.Some? ==> StatusCode(r.value) == code
  {
    if code == 1 then Some(InProgress)
    else if code == 2 then Some(Done)
    else if code == 0xFF then Some(Error)
    else if code == 0x100 then Some(Interrupted)
    else None
  }

  /** Decoding a status's code gives the status back, so the four codes are
      pairwise distinct. */
  lemma StatusRoundTrip(s: MrpcStatus)
    ensures StatusOf(StatusCode(s)) == Some(s)
  {
  }

  lemma StatusCodesDistinct(s: MrpcStatus, t: MrpcStatus)
    ensures StatusCode(s) == StatusCode(t) <==> s == t
  {
    StatusRoundTrip(s);
    StatusRoundTrip(t);
  }
}
