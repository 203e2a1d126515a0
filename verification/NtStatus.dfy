// The NTSTATUS values the driver returns, as the signed 32-bit integers they are.
module NtStatus {
  import opened Power

  const STATUS_SUCCESS: int := 0
  const STATUS_INVALID_PARAMETER: int := 0xC000_000D - TWO_32
  const STATUS_ILLEGAL_INSTRUCTION: int := 0xC000_001D - TWO_32
  const STATUS_INSUFFICIENT_RESOURCES: int := 0xC000_009A - TWO_32
  const STATUS_MEMORY_NOT_ALLOCATED: int := 0xC000_00A0 - TWO_32
  const STATUS_NOT_SUPPORTED: int := 0xC000_00BB - TWO_32

  /** As 32-bit patterns these are the codes that the Windows headers give the names, and the
      failures are the patterns from 0x80000000 on. */
  lemma CodesByNumber()
    ensures STATUS_SUCCESS % TWO_32 == 0 && STATUS_INVALID_PARAMETER % TWO_32 == 0xC000_000D
    ensures STATUS_ILLEGAL_INSTRUCTION % TWO_32 == 0xC000_001D
    ensures STATUS_INSUFFICIENT_RESOURCES % TWO_32 == 0xC000_009A
    ensures STATUS_MEMORY_NOT_ALLOCATED % TWO_32 == 0xC000_00A0
    ensures STATUS_NOT_SUPPORTED % TWO_32 == 0xC000_00BB
    ensures forall status :: Int32(status) ==> (NtSuccess(status) <==> status % TWO_32 < 0x8000_0000)
  {
  }

  predicate NtSuccess(status: int) { status >= 0 }
}
