/** Limits that several parts share. */
module Limits {
  import opened Bits

  const MIB: u64 := 0x10_0000

  /** Sessions of one host. */
  const MAX_SESSIONS: u32 := 8

  /** Experts whose requests are in flight together. */
  const BLOCK: nat := 64
}
