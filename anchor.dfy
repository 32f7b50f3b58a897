/** Types and byte widths shared by the three Anchor programs: the Rust integer
    types they use, account keys, the handler result type, and the widths of the
    Borsh-encoded fields that the programs' `space` formulas add up. */
module Anchor {

  type U8 = x: int | 0 <= x < 0x100
  type U32 = x: int | 0 <= x < 0x1_0000_0000
  type U64 = x: int | 0 <= x < 0x1_0000_0000_0000_0000
  type U128 = x: int | 0 <= x < 0x1_0000_0000_0000_0000_0000_0000_0000_0000

  /** Bytes in an account discriminator, the prefix every `#[account]` record carries. */
  const DISCRIMINATOR_SIZE: nat := 8
  /** Bytes in a `Pubkey`. */
  const PUBKEY_SIZE: nat := 32
  /** Bytes in the length prefix of a `Vec` or `String`. */
  const LEN_PREFIX_SIZE: nat := 4
  /** Bytes in the tag of a field-less enum. */
  const ENUM_TAG_SIZE: nat := 1
  const BOOL_SIZE: nat := 1
  const U32_SIZE: nat := 4
  const U64_SIZE: nat := 8
  const U128_SIZE: nat := 16

  /** An account address; its internals play no part in the programs' logic. */
  type Pubkey = k: seq<U8> | |k| == PUBKEY_SIZE witness seq(32, i => 0)

  /** `Pubkey::default()`, the all-zero key a freshly created account holds. */
  const DEFAULT_PUBKEY: Pubkey := seq(32, i => 0)

  /** What a handler returns: `Ok(())` or an error of type `E`. */
  datatype Outcome<+E> = Pass | Fail(error: E)

  /** A decoding step that either yields a value or fails with an error. */
  datatype Result<+T, +E> = Success(value: T) | Failure(error: E)

  /** The error another program returns through a cross-program invocation. */
  datatype ProgramError = ProgramError(code: nat)

  /** A system-program lamport transfer, as a cross-program invocation asks for it. */
  datatype Transfer = Transfer(from: Pubkey, to: Pubkey, lamports: U64)

  /** Total of a list of field widths. */
  function Sum(widths: seq<nat>): nat
  {
    if widths == [] then 0 else widths[0] + Sum(widths[1..])
  }
}
