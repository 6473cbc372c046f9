/**
 Concrete histories with the numbers of the repository's end-to-end
 tests: a token with 2 decimal places, so a harvest wave of 200 tokens is
 20000 base units; marketing is owed 7000 (70 tokens), lp 10000 (100
 tokens) and each NFT 6 (0.06 tokens) of that wave.

 Every payout is itself a transfer of the fee-bearing token, so 2% of it
 (rounded up to a whole base unit) is withheld at the recipient, and the
 tests' later sweeps collect those fees into the pool along with the new
 wave. Amounts here are the gross amounts the ledger pays.
 */
module Scenarios {
  import opened Types
  import opened Errors
  import opened States
  import opened NftChecks
  import opened Ledger

  const OWNER: Wallet := Key(0)
  const MARKETING: Wallet := Key(1)
  const LP: Wallet := Key(2)
  const COLLECTION: Pubkey := Key(3)
  const USER_ONE: Wallet := Key(4)
  const USER_TWO: Wallet := Key(5)
  const USER_THREE: Wallet := Key(6)
  const NFT_ONE: Pubkey := Key(7)
  const NFT_TWO: Pubkey := Key(8)
  /** A zero-decimal, single-supply mint outside the collection. */
  const STRAY_MINT: Pubkey := Key(9)
  const BUMP: u8 := 254

  /** 200 tokens at 2 decimal places. */
  const WAVE: nat := 20000

  /** A verified member of the collection held by `holder`. */
  function NftOf(holder: Pubkey, mint: Pubkey): (ev: Evidence) {
    Evidence(
      Mint(mint, 0, 1),
      TokenAccount(Ata(holder, mint), mint, holder, 1),
      Some(Collection(true, COLLECTION)))
  }

  function Config(released: u64): (g: Global) {
    Global(MARKETING, LP, COLLECTION, released, BUMP)
  }

  const INITIALIZED: State := State(
    Some(Config(0)),
    map[MARKETING := ClaimAccount(0, 3500), LP := ClaimAccount(0, 5000)],
    0)

  /** Initialization records the keys and creates the two static accounts;
      a second attempt fails. */
  lemma InitializeScenario()
    ensures Initialize(Genesis(0), OWNER, MARKETING, LP, Mint(COLLECTION, 0, 1), BUMP) == Ok(INITIALIZED)
    ensures Initialize(INITIALIZED, OWNER, MARKETING, LP, Mint(COLLECTION, 0, 1), BUMP) == Err(AccountInUse)
  {
  }

  const REGISTERED: State := INITIALIZED.(claims := INITIALIZED.claims[Ata(USER_ONE, NFT_ONE) := ClaimAccount(0, 3)])

  /** The first NFT registers with 3 shares; registering it again fails. */
  lemma RegisterScenario()
    ensures Register(INITIALIZED, USER_ONE, NftOf(USER_ONE, NFT_ONE)) == Ok(REGISTERED)
    ensures Register(REGISTERED, USER_ONE, NftOf(USER_ONE, NFT_ONE)) == Err(AccountInUse)
  {
  }

  const HARVESTED: State := REGISTERED.(pool := WAVE)

  const MARKETING_PAID: State := State(
    Some(Config(7000)),
    HARVESTED.claims[MARKETING := ClaimAccount(7000, 3500)],
    13000)

  const LP_PAID: State := State(
    Some(Config(17000)),
    MARKETING_PAID.claims[LP := ClaimAccount(10000, 5000)],
    3000)

  /** After a 200-token wave marketing takes 70 and lp 100, leaving 30. */
  lemma StaticClaimsScenario()
    ensures Harvest(REGISTERED, WAVE) == Ok(HARVESTED)
    ensures Claim(HARVESTED, MARKETING) == Ok(MARKETING_PAID)
    ensures Claim(MARKETING_PAID, LP) == Ok(LP_PAID)
  {
  }

  const NFT_ONE_PAID: State := State(
    Some(Config(17006)),
    LP_PAID.claims[Ata(USER_ONE, NFT_ONE) := ClaimAccount(6, 3)],
    2994)

  const NFT_TWO_REGISTERED: State :=
    NFT_ONE_PAID.(claims := NFT_ONE_PAID.claims[Ata(USER_TWO, NFT_TWO) := ClaimAccount(0, 3)])

  const NFT_TWO_PAID: State := State(
    Some(Config(17012)),
    NFT_TWO_REGISTERED.claims[Ata(USER_TWO, NFT_TWO) := ClaimAccount(6, 3)],
    2988)

  /** The NFT holder takes 0.06; a second NFT registered after the wave
      takes its 0.06 of that same wave at once. */
  lemma NftClaimsScenario()
    ensures ClaimWithNft(LP_PAID, USER_ONE, NftOf(USER_ONE, NFT_ONE)) == Ok(NFT_ONE_PAID)
    ensures Register(NFT_ONE_PAID, USER_TWO, NftOf(USER_TWO, NFT_TWO)) == Ok(NFT_TWO_REGISTERED)
    ensures ClaimWithNft(NFT_TWO_REGISTERED, USER_TWO, NftOf(USER_TWO, NFT_TWO)) == Ok(NFT_TWO_PAID)
  {
  }

  /** The second sweep: a new wave plus the fees withheld on the first
      wave's payouts, 140 + 200 + 1 + 1. */
  const SECOND_HARVEST: nat := WAVE + 342

  const SECOND_WAVE: State := NFT_TWO_PAID.(pool := 2988 + SECOND_HARVEST)

  const MARKETING_REPAID: State := State(
    Some(Config(24131)),
    SECOND_WAVE.claims[MARKETING := ClaimAccount(14119, 3500)],
    16211)

  /** The third sweep: a new wave plus the 143 withheld on marketing's
      second payout. */
  const THIRD_HARVEST: nat := WAVE + 143

  const THIRD_WAVE: State := MARKETING_REPAID.(pool := 16211 + THIRD_HARVEST)

  /** The lifetime total grows to 40342, so marketing's next claim pays
      7119 (69.76 net of the fee: 68.60 becomes 138.36). After another
      sweep the total is 60485, and lp, which last claimed in the first
      wave, is paid 20242 at once (198.37 net: 98 becomes 296.37). */
  lemma SecondWaveScenario()
    ensures Harvest(NFT_TWO_PAID, SECOND_HARVEST) == Ok(SECOND_WAVE)
    ensures Claim(SECOND_WAVE, MARKETING) == Ok(MARKETING_REPAID)
    ensures Harvest(MARKETING_REPAID, THIRD_HARVEST) == Ok(THIRD_WAVE)
    ensures Claim(THIRD_WAVE, LP) == Ok(LP_REPAID)
  {
  }

  const LP_REPAID: State := State(
    Some(Config(44373)),
    THIRD_WAVE.claims[LP := ClaimAccount(30242, 5000)],
    16112)

  const NFT_ONE_REPAID: State := State(
    Some(Config(44385)),
    LP_REPAID.claims[Ata(USER_ONE, NFT_ONE) := ClaimAccount(18, 3)],
    16100)

  /** After the third sweep, someone else presenting the first NFT's token
      account is refused; its holder is paid 12 more (18 of the lifetime
      60485), and an immediate second claim finds nothing owed, because
      no new revenue has arrived. */
  lemma RefusalScenario()
    ensures ClaimWithNft(LP_REPAID, USER_THREE, NftOf(USER_ONE, NFT_ONE)) == Err(NotAssociatedAccount)
    ensures ClaimWithNft(LP_REPAID, USER_ONE, NftOf(USER_ONE, NFT_ONE)) == Ok(NFT_ONE_REPAID)
    ensures ClaimWithNft(NFT_ONE_REPAID, USER_ONE, NftOf(USER_ONE, NFT_ONE)) == Err(Program(EmptyValue))
  {
  }

  const NFT_ONE_MOVED: State :=
    NFT_TWO_PAID.(claims := NFT_TWO_PAID.claims[Ata(USER_THREE, NFT_ONE) := ClaimAccount(0, 3)])

  /** Claim accounts are keyed by the token account, not the mint: once
      the first NFT moves to a new holder, the holder's own associated
      account registers it again with 3 more shares, and that account is
      at once paid the NFT's 6 of the first wave a second time. */
  lemma TransferredNftRegistersAgain()
    ensures Register(NFT_TWO_PAID, USER_THREE, NftOf(USER_THREE, NFT_ONE)) == Ok(NFT_ONE_MOVED)
    ensures ClaimWithNft(NFT_ONE_MOVED, USER_THREE, NftOf(USER_THREE, NFT_ONE)) == Ok(State(
      Some(Config(17018)),
      NFT_ONE_MOVED.claims[Ata(USER_THREE, NFT_ONE) := ClaimAccount(6, 3)],
      2982))
  {
  }

  /** The metadata account is not tied to the mint, so a holder of a mint
      outside the collection registers by presenting a member's genuine
      metadata, and is paid like any NFT. */
  lemma BorrowedMetadataRegisters()
    ensures Register(NFT_TWO_PAID, USER_THREE, NftOf(USER_THREE, STRAY_MINT)).Ok?
    ensures
      var s := Register(NFT_TWO_PAID, USER_THREE, NftOf(USER_THREE, STRAY_MINT)).value;
      ClaimWithNft(s, USER_THREE, NftOf(USER_THREE, STRAY_MINT)).Ok?
  {
  }
}
