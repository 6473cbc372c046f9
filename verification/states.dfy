/**
 The two persistent account records of the program, their sizes, and the
 byte layout of a claim account: an 8-byte discriminator followed by its
 two `u64` fields in declaration order, little-endian.
 */
module States {
  import opened Types

  /** Denominator of every share fraction. */
  const TOTAL_SHARES: nat := 10_000

  const DISCRIMINATOR_SIZE: nat := 8
  const PUBKEY_SIZE: nat := 32
  const U64_SIZE: nat := 8
  const U8_SIZE: nat := 1

  /** Space reserved for the global account, as declared. */
  const GLOBAL_LEN: nat := 8 + 32 + 32 + 32 + 8 + 8 + 8 + 8 + 8 + 1

  /** Space reserved for a claim account, as declared. */
  const CLAIM_ACCOUNT_LEN: nat := 8 + 8 + 8

  /** The singleton configuration account. */
  datatype Global = Global(
    marketing: Pubkey,
    lp: Pubkey,
    collection: Pubkey,
    totalReleased: u64,
    tokenAuthBump: u8
  )

  /** One beneficiary's record: cumulative amount paid and fixed weight. */
  datatype ClaimAccount = ClaimAccount(totalReleased: u64, shares: u64)

  /** `ClaimAccount::initialize` on the account `prior`: whatever it held
      is overwritten. */
  function InitializeClaim(prior: ClaimAccount, shares: u64): (c: ClaimAccount)
    ensures c.totalReleased == 0
    ensures c.shares == shares
  {
    ClaimAccount(0, shares)
  }

  /** The outcome of `initialize` does not depend on the prior contents:
      both fields are overwritten. */
  lemma InitializeOverwrites(a: ClaimAccount, b: ClaimAccount, shares: u64)
    ensures InitializeClaim(a, shares) == InitializeClaim(b, shares)
    ensures InitializeClaim(a, shares) == ClaimAccount(0, shares)
  {
  }

  /** Bytes the global record needs: discriminator, three keys, a `u64`
      and a `u8`. */
  function GlobalDataSize(): (n: nat)
    ensures n <= GLOBAL_LEN
    ensures GLOBAL_LEN - n == 4 * U64_SIZE
  {
    DISCRIMINATOR_SIZE + 3 * PUBKEY_SIZE + U64_SIZE + U8_SIZE
  }

  // ---------------------------------------------------------------------
  // Claim account layout
  // ---------------------------------------------------------------------

  function Pow256(n: nat): (p: nat)
    ensures p > 0
  {
    if n == 0 then 1 else 256 * Pow256(n - 1)
  }

  lemma U64FitsEightBytes()
    ensures Pow256(U64_SIZE) == U64_MAX + 1
  {
  }

  /** Little-endian value of a byte string. */
  function DecodeLE(bs: seq<u8>): (x: nat)
    ensures x < Pow256(|bs|)
  {
    if |bs| == 0 then 0 else bs[0] + 256 * DecodeLE(bs[1..])
  }

  /** The `n`-byte little-endian encoding of `x`; decoding it gives `x` back. */
  function EncodeLE(x: nat, n: nat): (bs: seq<u8>)
    requires x < Pow256(n)
    ensures |bs| == n
    ensures DecodeLE(bs) == x
  {
    if n == 0 then []
    else
      var rest := EncodeLE(x / 256, n - 1);
      assert (x % 256) + 256 * DecodeLE(rest) == x;
      [x % 256] + rest
  }

  /** Encoding is the inverse of decoding on byte strings of the given width. */
  lemma {:induction false} EncodeDecodeLE(bs: seq<u8>)
    ensures EncodeLE(DecodeLE(bs), |bs|) == bs
  {
    if |bs| > 0 {
      var x := DecodeLE(bs);
      assert x % 256 == bs[0];
      assert x / 256 == DecodeLE(bs[1..]);
      EncodeDecodeLE(bs[1..]);
    }
  }

  /** Serialized claim account: discriminator, `total_released`, `shares`. */
  function EncodeClaimAccount(discriminator: seq<u8>, c: ClaimAccount): (bytes: seq<u8>)
    requires |discriminator| == DISCRIMINATOR_SIZE
    ensures |bytes| == CLAIM_ACCOUNT_LEN
    ensures bytes[..DISCRIMINATOR_SIZE] == discriminator
  {
    U64FitsEightBytes();
    discriminator + EncodeLE(c.totalReleased, U64_SIZE) + EncodeLE(c.shares, U64_SIZE)
  }

  /** Reads a claim account back; fails on a wrong size or discriminator. */
  function DecodeClaimAccount(discriminator: seq<u8>, bytes: seq<u8>): (r: Option<ClaimAccount>)
    ensures r.Some? ==> |bytes| == CLAIM_ACCOUNT_LEN && bytes[..DISCRIMINATOR_SIZE] == discriminator
  {
    if |bytes| != CLAIM_ACCOUNT_LEN || bytes[..DISCRIMINATOR_SIZE] != discriminator then None
    else
      U64FitsEightBytes();
      Some(ClaimAccount(DecodeLE(bytes[8..16]), DecodeLE(bytes[16..24])))
  }

  /** The layout round-trips: what is written is what is read. */
  lemma ClaimAccountRoundTrip(discriminator: seq<u8>, c: ClaimAccount)
    requires |discriminator| == DISCRIMINATOR_SIZE
    ensures DecodeClaimAccount(discriminator, EncodeClaimAccount(discriminator, c)) == Some(c)
  {
    U64FitsEightBytes();
    var bytes := EncodeClaimAccount(discriminator, c);
    assert bytes[8..16] == EncodeLE(c.totalReleased, U64_SIZE);
    assert bytes[16..24] == EncodeLE(c.shares, U64_SIZE);
  }

  /** Every well-sized buffer with the right discriminator decodes, and
      re-encoding the decoded record reproduces it byte for byte. */
  lemma ClaimAccountDecodeEncode(discriminator: seq<u8>, bytes: seq<u8>)
    requires |discriminator| == DISCRIMINATOR_SIZE
    requires |bytes| == CLAIM_ACCOUNT_LEN && bytes[..DISCRIMINATOR_SIZE] == discriminator
    ensures DecodeClaimAccount(discriminator, bytes).Some?
    ensures EncodeClaimAccount(discriminator, DecodeClaimAccount(discriminator, bytes).value) == bytes
  {
    U64FitsEightBytes();
    EncodeDecodeLE(bytes[8..16]);
    EncodeDecodeLE(bytes[16..24]);
    assert bytes == bytes[..8] + bytes[8..16] + bytes[16..24];
  }
}
