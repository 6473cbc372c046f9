/**
 The ledger invariant and what follows from it. While every account
 stays within its entitlement of the lifetime total and the released
 counter equals what the accounts received, every event keeps the
 invariant, and a settlement never asks the pool for more than it holds
 as long as the weights sum to at most the denominator.
 */
module Invariants {
  import opened Types
  import opened Errors
  import opened States
  import opened NftChecks
  import opened Settlement
  import opened Sums
  import opened Ledger

  /** Every account stays within its entitlement of the lifetime total. */
  ghost predicate WithinEntitlement(claims: map<Pubkey, ClaimAccount>, total: nat) {
    forall k :: k in claims ==> claims[k].totalReleased <= Entitlement(total, claims[k].shares)
  }

  /** Every weight is one the program hands out. */
  ghost predicate KnownShares(claims: map<Pubkey, ClaimAccount>) {
    forall k :: k in claims ==> claims[k].shares in {MARKETING_SHARES, LP_SHARES, NFT_SHARES}
  }

  /** The weights add up to the two static beneficiaries' plus three for
      every other account: only `register` creates accounts after
      initialization, and nothing changes a weight. */
  ghost predicate SharesTally(claims: map<Pubkey, ClaimAccount>) {
    SumShares(claims) == MARKETING_SHARES + LP_SHARES + NFT_SHARES * (|claims| - 2)
  }

  /** How many NFT claim accounts fit in the weight the static
      beneficiaries leave unallocated. */
  const MAX_NFT_ACCOUNTS: nat := (TOTAL_SHARES - MARKETING_SHARES - LP_SHARES) / NFT_SHARES

  /** Each account's entitlement of `total`, as a summable quantity. */
  function EntitledAt(total: nat): (f: ClaimAccount -> nat) {
    (c: ClaimAccount) => Entitlement(total, c.shares)
  }

  ghost predicate Inv(s: State) {
    && (s.global.None? ==> s.claims == map[])
    && (s.global.Some? ==>
          && s.global.value.totalReleased == SumReleased(s.claims)
          && WithinEntitlement(s.claims, LifetimeTotal(s)))
    && KnownShares(s.claims)
  }

  lemma GenesisInv(pool: u64)
    ensures Inv(Genesis(pool))
  {
  }

  // ---------------------------------------------------------------------
  // Preservation, instruction by instruction
  // ---------------------------------------------------------------------

  lemma InitializePreservesInv(s: State, user: Wallet, marketing: Pubkey, lp: Pubkey, collection: Mint, bump: u8)
    requires Inv(s)
    requires Initialize(s, user, marketing, lp, collection, bump).Ok?
    ensures Inv(Initialize(s, user, marketing, lp, collection, bump).value)
  {
    var s2 := Initialize(s, user, marketing, lp, collection, bump).value;
    var m1 := map[marketing := ClaimAccount(0, MARKETING_SHARES)];
    assert s2.claims == m1[lp := ClaimAccount(0, LP_SHARES)];
    SumInsert(map[], Released, marketing, ClaimAccount(0, MARKETING_SHARES));
    assert map[][marketing := ClaimAccount(0, MARKETING_SHARES)] == m1;
    SumInsert(m1, Released, lp, ClaimAccount(0, LP_SHARES));
  }

  lemma RegisterPreservesInv(s: State, signer: Wallet, ev: Evidence)
    requires Inv(s)
    requires Register(s, signer, ev).Ok?
    ensures Inv(Register(s, signer, ev).value)
  {
    var s2 := Register(s, signer, ev).value;
    SumInsert(s.claims, Released, ev.token.key, ClaimAccount(0, NFT_SHARES));
    assert LifetimeTotal(s2) == LifetimeTotal(s);
  }

  lemma SettledOnePreservesInv(s: State, s2: State, key: Pubkey)
    requires Inv(s)
    requires SettledOne(s, s2, key)
    ensures Inv(s2)
  {
    var c2 := s2.claims[key];
    assert s2.claims == s.claims[key := c2];
    SumUpdate(s.claims, Released, key, c2);
  }

  lemma HarvestPreservesInv(s: State, amount: nat)
    requires Inv(s)
    requires Harvest(s, amount).Ok?
    ensures Inv(Harvest(s, amount).value)
  {
    var s2 := Harvest(s, amount).value;
    assert s2.claims == s.claims && s2.global == s.global;
    if s.global.Some? {
      forall k | k in s.claims
        ensures s.claims[k].totalReleased <= Entitlement(LifetimeTotal(s2), s.claims[k].shares)
      {
        EntitlementMonotone(LifetimeTotal(s), LifetimeTotal(s2), s.claims[k].shares);
      }
    }
  }

  /** Every event, successful or not, keeps the invariant. */
  lemma StepPreservesInv(s: State, e: Event)
    requires Inv(s)
    ensures Inv(Step(s, e))
  {
    if Apply(s, e).Ok? {
      match e
      case HarvestFees(amount) => HarvestPreservesInv(s, amount);
      case Execute(ix) =>
        match ix
        case InitializeIx(user, marketing, lp, collection, bump) =>
          InitializePreservesInv(s, user, marketing, lp, collection, bump);
        case RegisterIx(signer, nft) => RegisterPreservesInv(s, signer, nft);
        case ClaimWithNftIx(signer, nft) =>
          SettledOnePreservesInv(s, Step(s, e), nft.token.key);
        case ClaimIx(signer) =>
          SettledOnePreservesInv(s, Step(s, e), signer);
    }
  }

  /** The invariant holds after any sequence of events. */
  lemma {:induction false} RunPreservesInv(s: State, events: seq<Event>)
    requires Inv(s)
    ensures Inv(Run(s, events))
    decreases |events|
  {
    if |events| > 0 {
      StepPreservesInv(s, events[0]);
      RunPreservesInv(Step(s, events[0]), events[1..]);
    }
  }

  // ---------------------------------------------------------------------
  // The share tally
  // ---------------------------------------------------------------------

  /** Once initialized, the weights add up as `SharesTally` says. */
  ghost predicate Tallied(s: State) {
    s.global.Some? ==> SharesTally(s.claims)
  }

  /** Every event keeps the tally: initialization creates the two static
      accounts, registration adds one of 3 shares, and settlement leaves
      every weight alone. */
  lemma StepPreservesTally(s: State, e: Event)
    requires Inv(s) && Tallied(s)
    ensures Tallied(Step(s, e))
  {
    if Apply(s, e).Ok? {
      var s2 := Step(s, e);
      match e
      case HarvestFees(_) =>
      case Execute(ix) =>
        match ix
        case InitializeIx(user, marketing, lp, collection, bump) =>
          var m1 := map[marketing := ClaimAccount(0, MARKETING_SHARES)];
          assert s2.claims == m1[lp := ClaimAccount(0, LP_SHARES)];
          SumInsert(map[], Shares, marketing, ClaimAccount(0, MARKETING_SHARES));
          assert map[][marketing := ClaimAccount(0, MARKETING_SHARES)] == m1;
          SumInsert(m1, Shares, lp, ClaimAccount(0, LP_SHARES));
        case RegisterIx(signer, nft) =>
          SumInsert(s.claims, Shares, nft.token.key, ClaimAccount(0, NFT_SHARES));
        case ClaimWithNftIx(signer, nft) =>
          assert s2.claims == s.claims[nft.token.key := s2.claims[nft.token.key]];
          SumUpdate(s.claims, Shares, nft.token.key, s2.claims[nft.token.key]);
        case ClaimIx(signer) =>
          assert s2.claims == s.claims[signer := s2.claims[signer]];
          SumUpdate(s.claims, Shares, signer, s2.claims[signer]);
    }
  }

  /** The tally holds after any sequence of events. */
  lemma {:induction false} RunPreservesTally(s: State, events: seq<Event>)
    requires Inv(s) && Tallied(s)
    ensures Tallied(Run(s, events))
    decreases |events|
  {
    if |events| > 0 {
      StepPreservesInv(s, events[0]);
      StepPreservesTally(s, events[0]);
      RunPreservesTally(Step(s, events[0]), events[1..]);
    }
  }

  /** On an initialized ledger the weights stay within the denominator
      exactly while there are at most 500 NFT claim accounts.
      Registration itself sets no cap. */
  lemma SharesWithinDenominator(s: State)
    requires Tallied(s) && s.global.Some?
    ensures MAX_NFT_ACCOUNTS == 500
    ensures SumShares(s.claims) <= TOTAL_SHARES <==> |s.claims| <= 2 + MAX_NFT_ACCOUNTS
  {
  }

  // ---------------------------------------------------------------------
  // No overdraft
  // ---------------------------------------------------------------------

  /** Rounding down keeps the summed entitlements, scaled by the
      denominator, within the total scaled by the summed weights. */
  lemma {:induction false} SumEntitlementsScaled(m: map<Pubkey, ClaimAccount>, total: nat)
    ensures Sum(m, EntitledAt(total)) * TOTAL_SHARES <= total * SumShares(m)
    decreases |m|
  {
    var ent := EntitledAt(total);
    if m != map[] {
      var k := PickKey(m);
      SumRemove(m, ent, k);
      SumRemove(m, Shares, k);
      SumEntitlementsScaled(m - {k}, total);
      EntitlementRoundsDown(total, m[k].shares);
      AddScaledBounds(ent(m[k]), Sum(m - {k}, ent), m[k].shares, SumShares(m - {k}), total);
    }
  }

  lemma AddScaledBounds(a: nat, b: nat, x: nat, y: nat, total: nat)
    requires a * TOTAL_SHARES <= total * x
    requires b * TOTAL_SHARES <= total * y
    ensures (a + b) * TOTAL_SHARES <= total * (x + y)
  {
  }

  /** Summed entitlements of accounts whose weights total at most the
      denominator never exceed the lifetime total. */
  lemma SumEntitlementsAtMostTotal(m: map<Pubkey, ClaimAccount>, total: nat)
    requires SumShares(m) <= TOTAL_SHARES
    ensures Sum(m, EntitledAt(total)) <= total
  {
    SumEntitlementsScaled(m, total);
    MulMonotone(SumShares(m), TOTAL_SHARES, total);
    assert total * SumShares(m) <= total * TOTAL_SHARES;
  }

  /** While the weights sum to at most the denominator, what any account
      is owed is covered by the pool. */
  lemma OwedWithinPool(s: State, key: Pubkey)
    requires Inv(s) && s.global.Some? && key in s.claims
    requires SumShares(s.claims) <= TOTAL_SHARES
    ensures s.claims[key].totalReleased <= Entitlement(LifetimeTotal(s), s.claims[key].shares)
    ensures Entitlement(LifetimeTotal(s), s.claims[key].shares) - s.claims[key].totalReleased <= s.pool
  {
    var total := LifetimeTotal(s);
    var ent := EntitledAt(total);
    var rest := s.claims - {key};
    SumRemove(s.claims, Released, key);
    SumRemove(s.claims, ent, key);
    SumMonotone(rest, Released, ent);
    SumEntitlementsAtMostTotal(s.claims, total);
  }

  /** A settlement on an invariant ledger whose weights sum to at most the
      denominator never overdraws the pool. */
  lemma NoOverdraft(s: State, key: Pubkey)
    requires Inv(s) && s.global.Some? && key in s.claims
    requires SumShares(s.claims) <= TOTAL_SHARES
    ensures TransferOwed(s.global.value, s.claims[key], s.pool) != Err(InsufficientFunds)
  {
    OwedWithinPool(s, key);
  }

  /** The same in terms of accounts: with at most 500 NFT claim accounts
      no settlement overdraws the pool. */
  lemma NoOverdraftWithinCap(s: State, key: Pubkey)
    requires Inv(s) && Tallied(s) && s.global.Some? && key in s.claims
    requires |s.claims| <= 2 + MAX_NFT_ACCOUNTS
    ensures TransferOwed(s.global.value, s.claims[key], s.pool) != Err(InsufficientFunds)
  {
    SharesWithinDenominator(s);
    NoOverdraft(s, key);
  }

  /** On such a ledger, as long as the `u64` arithmetic fits, a claim
      either pays or fails only because nothing is owed. */
  lemma SettlesOrNothingOwed(s: State, key: Pubkey)
    requires Inv(s) && s.global.Some? && key in s.claims
    requires SumShares(s.claims) <= TOTAL_SHARES
    requires LifetimeTotal(s) * s.claims[key].shares <= U64_MAX
    requires LifetimeTotal(s) <= U64_MAX
    ensures Settle(s, key).Ok? || Settle(s, key) == Err(Program(EmptyValue))
  {
    OwedWithinPool(s, key);
  }
}
