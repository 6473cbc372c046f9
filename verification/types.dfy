/**
 Basic on-chain value types shared by the ledger model: fixed-width
 unsigned integers, account addresses, and the Option/Result wrappers
 used for failure outcomes.
 */
module Types {

  const U8_MAX: nat := 0xFF
  const U64_MAX: nat := 0xFFFF_FFFF_FFFF_FFFF

  /** Rust `u8` and `u64`: bounded naturals. Arithmetic that could leave
      the range is checked explicitly where the program performs it. */
  type u8 = x: nat | x <= U8_MAX
  type u64 = x: nat | x <= U64_MAX

  /** An account address. Ordinary keys (wallets, mints, metadata) are
      opaque identities; an associated token account is derived from its
      wallet and mint, and the derivation is injective because it is a
      constructor. */
  datatype Pubkey =
    | Key(id: nat)
    | Ata(wallet: Pubkey, mint: Pubkey)

  /** A key that can sign a transaction. An associated token account
      address is derived off the curve and has no private key, so only
      ordinary keys sign. */
  type Wallet = k: Pubkey | k.Key? witness Key(0)

  datatype Option<+T> = None | Some(value: T)

  datatype Result<+T, +E> = Ok(value: T) | Err(error: E)
}
