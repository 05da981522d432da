/** Value types shared by the owners cache and the multisig wallet code:
    failure-compatible wrappers, the fixed-width integers of the Rust source,
    TON cells and internal message addresses. */
module Base {

  datatype Option<+T> = None | Some(value: T)

  datatype Result<+R, +E> = Success(value: R) | Failure(error: E) {
    predicate IsFailure() { Failure? }

    function PropagateFailure<U>(): Result<U, E>
      requires Failure?
    {
      Failure(error)
    }

    function Extract(): R
      requires Success?
    {
      value
    }
  }

  // Fixed-width integers of the source (`i8`, `u8`, `u32`, `u64`, `i64`, 128-bit ABI integers).
  newtype i8 = x: int | -0x80 <= x < 0x80
  newtype u8 = x: int | 0 <= x < 0x100
  newtype u32 = x: int | 0 <= x < 0x1_0000_0000
  newtype u64 = x: int | 0 <= x < 0x1_0000_0000_0000_0000
  newtype i64 = x: int | -0x8000_0000_0000_0000 <= x < 0x8000_0000_0000_0000
  newtype u128 = x: int | 0 <= x < 0x1_0000_0000_0000_0000_0000_0000_0000_0000

  type byte = bv8

  /** `ton_types::UInt256`: a 256-bit value, as 32 bytes. */
  type UInt256 = s: seq<byte> | |s| == 32 witness seq(32, _ => 0 as byte)

  /** `ed25519_dalek::PublicKey`, as its 32 bytes. */
  type PublicKey = s: seq<byte> | |s| == 32 witness seq(32, _ => 0 as byte)

  /** A raw ed25519 signature (`[u8; SIGNATURE_LENGTH]`, 64 bytes). */
  type Signature = s: seq<byte> | |s| == 64 witness seq(64, _ => 0 as byte)

  /** A TVM cell: a string of data bits and references to child cells. */
  datatype Cell = Cell(bits: seq<bool>, refs: seq<Cell>)

  /** The empty cell, `Default::default()` of cells, builders and slices. */
  const EmptyCell: Cell := Cell([], [])

  /** `MsgAddressInt::AddrStd` without anycast: a workchain id and a 256-bit account id. */
  datatype MsgAddressInt = AddrStd(workchainId: i8, address: UInt256)
}
