/**
 Properties of the instructions across calls and over whole histories:
 create-once accounts, replay refusal, fixed configuration and weights,
 forward-only watermarks, wave-by-wave settlement and coverage of what is
 outstanding.
 */
module Properties {
  import opened Types
  import opened Errors
  import opened States
  import opened NftChecks
  import opened Settlement
  import opened Sums
  import opened Ledger
  import opened Invariants

  // ---------------------------------------------------------------------
  // Create-once accounts
  // ---------------------------------------------------------------------

  /** A second initialization fails whatever its arguments, so existing
      weights are untouched. */
  lemma InitializeOnce(s: State, user: Wallet, marketing: Pubkey, lp: Pubkey, collection: Mint, bump: u8,
                       user2: Wallet, marketing2: Pubkey, lp2: Pubkey, collection2: Mint, bump2: u8)
    requires Initialize(s, user, marketing, lp, collection, bump).Ok?
    ensures
      var s2 := Initialize(s, user, marketing, lp, collection, bump).value;
      Initialize(s2, user2, marketing2, lp2, collection2, bump2) == Err(AccountInUse)
  {
  }

  /** Who pays for initialization makes no difference to its outcome. */
  lemma InitializeIgnoresPayer(s: State, user1: Wallet, user2: Wallet, marketing: Pubkey, lp: Pubkey,
                               collection: Mint, bump: u8)
    ensures Initialize(s, user1, marketing, lp, collection, bump)
         == Initialize(s, user2, marketing, lp, collection, bump)
  {
  }

  /** Registering the same token account again fails, for any signer and
      evidence, and the existing account is left as it was. */
  lemma RegisterOnce(s: State, signer: Wallet, ev: Evidence, signer2: Wallet, ev2: Evidence)
    requires Register(s, signer, ev).Ok?
    requires ev2.token.key == ev.token.key
    ensures
      var s2 := Register(s, signer, ev).value;
      Register(s2, signer2, ev2) == Err(AccountInUse)
  {
  }

  // ---------------------------------------------------------------------
  // Replay refusal and holder checks
  // ---------------------------------------------------------------------

  /** A second `claim` with no revenue in between fails with `EmptyValue`. */
  lemma ClaimTwiceFails(s: State, signer: Wallet)
    requires Claim(s, signer).Ok?
    ensures Claim(Claim(s, signer).value, signer) == Err(Program(EmptyValue))
  {
  }

  /** The same for `claim_with_nft`: the holder's evidence still passes,
      and the settlement finds nothing owed. */
  lemma ClaimWithNftTwiceFails(s: State, signer: Wallet, ev: Evidence)
    requires ClaimWithNft(s, signer, ev).Ok?
    ensures ClaimWithNft(ClaimWithNft(s, signer, ev).value, signer, ev) == Err(Program(EmptyValue))
  {
  }

  /** Someone whose associated token account is not the NFT's token
      account cannot settle that NFT's claim: `claim_with_nft` refuses
      them, and `claim` cannot reach the account at all, because it is
      keyed by an associated token account and such an address never
      signs. */
  lemma NonHolderCannotClaim(s: State, signer: Wallet, ev: Evidence)
    requires ev.token.key != Ata(signer, ev.mint.key)
    ensures ClaimWithNft(s, signer, ev).Err?
    ensures ClaimWithNft(s, signer, ev).error in {AccountNotInitialized, MintDecimalsMismatch, Program(TokenNotNFT), NotAssociatedAccount}
    ensures ev.token.key.Ata? && ev.token.key in s.claims && Claim(s, signer).Ok? ==>
      Claim(s, signer).value.claims[ev.token.key] == s.claims[ev.token.key]
  {
  }

  /** `claim` only ever settles the signer's own account. */
  lemma ClaimSettlesOnlySigner(s: State, signer: Wallet, other: Pubkey)
    requires Claim(s, signer).Ok?
    requires other in s.claims && other != signer
    ensures Claim(s, signer).value.claims[other] == s.claims[other]
  {
  }

  // ---------------------------------------------------------------------
  // Settlement across harvest waves
  // ---------------------------------------------------------------------

  /** After a settlement of `key` and a harvest of `k`, the next
      settlement of `key` pays exactly the growth of its absolute
      entitlement, whichever instruction settles it. */
  lemma LaterWavePaysDifference(s: State, key: Pubkey, k: nat, s1: State, s2: State)
    requires SettledOne(s, s1, key)
    requires s1.pool + k <= U64_MAX
    requires SettledOne(s1.(pool := s1.pool + k), s2, key)
    ensures s2.claims[key].totalReleased == Entitlement(LifetimeTotal(s) + k, s.claims[key].shares)
    ensures s2.claims[key].totalReleased - s1.claims[key].totalReleased
         == Entitlement(LifetimeTotal(s) + k, s.claims[key].shares)
          - Entitlement(LifetimeTotal(s), s.claims[key].shares)
  {
    assert LifetimeTotal(s1.(pool := s1.pool + k)) == LifetimeTotal(s) + k;
  }

  /** A freshly registered NFT may at once claim its full entitlement of
      the revenue harvested before it registered. */
  lemma FreshNftSharesPastRevenue(s: State, signer: Wallet, ev: Evidence)
    requires Inv(s)
    requires Register(s, signer, ev).Ok?
    requires SumShares(Register(s, signer, ev).value.claims) <= TOTAL_SHARES
    requires LifetimeTotal(s) <= U64_MAX && LifetimeTotal(s) * NFT_SHARES <= U64_MAX
    requires Entitlement(LifetimeTotal(s), NFT_SHARES) > 0
    ensures ClaimWithNft(Register(s, signer, ev).value, signer, ev).Ok?
    ensures ClaimWithNft(Register(s, signer, ev).value, signer, ev).value.claims[ev.token.key].totalReleased
         == Entitlement(LifetimeTotal(s), NFT_SHARES)
  {
    var s1 := Register(s, signer, ev).value;
    RegisterPreservesInv(s, signer, ev);
    SettlesOrNothingOwed(s1, ev.token.key);
    assert LifetimeTotal(s1) == LifetimeTotal(s);
  }

  /** Everything outstanding to all beneficiaries at once is covered by
      the pool: rounding only delays payment, it never loses funds. */
  lemma OutstandingCovered(s: State)
    requires Inv(s) && s.global.Some?
    requires SumShares(s.claims) <= TOTAL_SHARES
    ensures SumReleased(s.claims) <= Sum(s.claims, EntitledAt(LifetimeTotal(s)))
    ensures Sum(s.claims, EntitledAt(LifetimeTotal(s))) <= SumReleased(s.claims) + s.pool
  {
    SumMonotone(s.claims, Released, EntitledAt(LifetimeTotal(s)));
    SumEntitlementsAtMostTotal(s.claims, LifetimeTotal(s));
  }

  // ---------------------------------------------------------------------
  // Histories
  // ---------------------------------------------------------------------

  /** Once initialized, the configuration fields never change. */
  lemma StepKeepsConfig(s: State, e: Event)
    requires s.global.Some?
    ensures Step(s, e).global.Some?
    ensures Step(s, e).global.value.(totalReleased := 0) == s.global.value.(totalReleased := 0)
  {
  }

  lemma {:induction false} RunKeepsConfig(s: State, events: seq<Event>)
    requires s.global.Some?
    ensures Run(s, events).global.Some?
    ensures Run(s, events).global.value.marketing == s.global.value.marketing
    ensures Run(s, events).global.value.lp == s.global.value.lp
    ensures Run(s, events).global.value.collection == s.global.value.collection
    ensures Run(s, events).global.value.tokenAuthBump == s.global.value.tokenAuthBump
    ensures Run(s, events).global.value.totalReleased >= s.global.value.totalReleased
    decreases |events|
  {
    if |events| > 0 {
      StepKeepsConfig(s, events[0]);
      RunKeepsConfig(Step(s, events[0]), events[1..]);
    }
  }

  /** Accounts are never removed, weights never change and watermarks
      never decrease, over any history. */
  lemma {:induction false} RunKeepsAccounts(s: State, events: seq<Event>, k: Pubkey)
    requires k in s.claims
    ensures k in Run(s, events).claims
    ensures Run(s, events).claims[k].shares == s.claims[k].shares
    ensures Run(s, events).claims[k].totalReleased >= s.claims[k].totalReleased
    decreases |events|
  {
    if |events| > 0 {
      RunKeepsAccounts(Step(s, events[0]), events[1..], k);
    }
  }
}
