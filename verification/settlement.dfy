/**
 The settlement rule shared by `claim` and `claim_with_nft`: a payment
 splitter over the lifetime total (everything already released plus the
 pool balance), paying each beneficiary the difference between its
 absolute entitlement and what it has already received.
 */
module Settlement {
  import opened Types
  import opened Errors
  import opened States

  /** A beneficiary's absolute entitlement out of `total`: its share of
      the lifetime total, rounded down. */
  function Entitlement(total: nat, shares: nat): (e: nat) {
    total * shares / TOTAL_SHARES
  }

  /** The lifetime total a settlement sees: released so far plus the pool. */
  function Total(g: Global, pool: u64): (total: nat) {
    g.totalReleased + pool
  }

  /** No `u64` operation of the settlement panics before `owed`
      is known: the total and its product with the shares fit in a `u64`,
      and the entitlement is not below what was already released. */
  predicate Computable(g: Global, c: ClaimAccount, pool: u64) {
    && Total(g, pool) <= U64_MAX
    && Total(g, pool) * c.shares <= U64_MAX
    && c.totalReleased <= Entitlement(Total(g, pool), c.shares)
  }

  /** The accounts a successful settlement writes, and the amount paid. */
  datatype Settled = Settled(global: Global, claim: ClaimAccount, pool: u64, owed: u64)

  /** `transfer_owed`: pay the beneficiary what it is owed out of the pool. */
  function TransferOwed(g: Global, c: ClaimAccount, pool: u64): (r: Result<Settled, Failure>)
    // Success exactly when the arithmetic is defined, something is owed
    // and the pool can cover it.
    ensures r.Ok? <==>
      && Computable(g, c, pool)
      && c.totalReleased < Entitlement(Total(g, pool), c.shares)
      && Entitlement(Total(g, pool), c.shares) - c.totalReleased <= pool
    // The beneficiary ends exactly at its entitlement; both counters grow
    // by the amount paid and the pool shrinks by it, so the lifetime total
    // is conserved; shares and the configuration are untouched.
    ensures r.Ok? ==>
      && r.value.owed > 0
      && r.value.claim.totalReleased == Entitlement(Total(g, pool), c.shares)
      && r.value.claim.totalReleased == c.totalReleased + r.value.owed
      && r.value.claim.shares == c.shares
      && r.value.global.totalReleased == g.totalReleased + r.value.owed
      && r.value.global == g.(totalReleased := r.value.global.totalReleased)
      && r.value.pool + r.value.owed == pool
      && Total(r.value.global, r.value.pool) == Total(g, pool)
    // Nothing owed is reported as `EmptyValue`, the only program error
    // settlement raises.
    ensures r == Err(Program(EmptyValue)) <==>
      Computable(g, c, pool) && c.totalReleased == Entitlement(Total(g, pool), c.shares)
    ensures r.Err? ==> r.error in {ArithmeticOverflow, Program(EmptyValue), InsufficientFunds}
    ensures r == Err(InsufficientFunds) ==>
      Computable(g, c, pool) && Entitlement(Total(g, pool), c.shares) - c.totalReleased > pool
  {
    var total := g.totalReleased + pool;
    if total > U64_MAX then Err(ArithmeticOverflow)
    else if total * c.shares > U64_MAX then Err(ArithmeticOverflow)
    else
      var totalValue := total * c.shares / TOTAL_SHARES;
      if totalValue < c.totalReleased then Err(ArithmeticOverflow)
      else
        var owed := totalValue - c.totalReleased;
        if owed == 0 then Err(Program(EmptyValue))
        else if g.totalReleased + owed > U64_MAX then Err(ArithmeticOverflow)
        else if owed > pool then Err(InsufficientFunds)
        else
          Ok(Settled(
               g.(totalReleased := g.totalReleased + owed),
               c.(totalReleased := c.totalReleased + owed),
               pool - owed,
               owed))
  }

  // ---------------------------------------------------------------------
  // Arithmetic facts about the entitlement
  // ---------------------------------------------------------------------

  /** Rounding down never over-pays: `N * floor(t*s/N) <= t*s`, and what
      rounding withholds is less than one unit of the denominator. */
  lemma EntitlementRoundsDown(total: nat, shares: nat)
    ensures Entitlement(total, shares) * TOTAL_SHARES <= total * shares
    ensures total * shares < (Entitlement(total, shares) + 1) * TOTAL_SHARES
  {
  }

  /** More revenue never lowers an entitlement. */
  lemma EntitlementMonotone(t1: nat, t2: nat, shares: nat)
    requires t1 <= t2
    ensures Entitlement(t1, shares) <= Entitlement(t2, shares)
  {
    MulMonotone(t1, t2, shares);
    DivMonotone(t1 * shares, t2 * shares);
  }

  /** A weight within the denominator is entitled to at most the total. */
  lemma EntitlementAtMostTotal(total: nat, shares: nat)
    requires shares <= TOTAL_SHARES
    ensures Entitlement(total, shares) <= total
  {
  }

  lemma MulMonotone(a: nat, b: nat, k: nat)
    requires a <= b
    ensures a * k <= b * k
  {
    assert b * k == a * k + (b - a) * k;
  }

  lemma DivMonotone(a: nat, b: nat)
    requires a <= b
    ensures a / TOTAL_SHARES <= b / TOTAL_SHARES
  {
    assert a == (a / TOTAL_SHARES) * TOTAL_SHARES + a % TOTAL_SHARES;
    assert b == (b / TOTAL_SHARES) * TOTAL_SHARES + b % TOTAL_SHARES;
  }

  // ---------------------------------------------------------------------
  // Properties of settlement across calls
  // ---------------------------------------------------------------------

  /** With no new revenue a second settlement pays nothing: it fails with
      `EmptyValue`. */
  lemma SecondSettlementFails(g: Global, c: ClaimAccount, pool: u64)
    requires TransferOwed(g, c, pool).Ok?
    ensures
      var s := TransferOwed(g, c, pool).value;
      TransferOwed(s.global, s.claim, s.pool) == Err(Program(EmptyValue))
  {
  }
}
