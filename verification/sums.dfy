/**
 Sums of a per-account quantity over the claim accounts of the ledger,
 with the lemmas that relate the sum before and after one account is
 added, updated or compared.
 */
module Sums {
  import opened Types
  import opened States

  /** The sum of `f` over every account in `m`. */
  ghost function Sum(m: map<Pubkey, ClaimAccount>, f: ClaimAccount -> nat): (total: nat)
    decreases |m|
  {
    if m == map[] then 0
    else
      var k := PickKey(m);
      f(m[k]) + Sum(m - {k}, f)
  }

  ghost function PickKey(m: map<Pubkey, ClaimAccount>): (k: Pubkey)
    requires m != map[]
    ensures k in m
  {
    var k :| k in m.Keys; k
  }

  /** Any account can be split off the sum, not only the one `Sum` picks. */
  lemma {:induction false} SumRemove(m: map<Pubkey, ClaimAccount>, f: ClaimAccount -> nat, k: Pubkey)
    requires k in m
    ensures Sum(m, f) == f(m[k]) + Sum(m - {k}, f)
    decreases |m|
  {
    var j := PickKey(m);
    if j != k {
      assert (m - {j}) - {k} == (m - {k}) - {j};
      SumRemove(m - {j}, f, k);
      SumRemove(m - {k}, f, j);
    }
  }

  /** Adding a fresh account adds its value to the sum. */
  lemma SumInsert(m: map<Pubkey, ClaimAccount>, f: ClaimAccount -> nat, k: Pubkey, v: ClaimAccount)
    requires k !in m
    ensures Sum(m[k := v], f) == Sum(m, f) + f(v)
  {
    SumRemove(m[k := v], f, k);
    assert m[k := v] - {k} == m;
  }

  /** Replacing one account changes the sum by the difference. */
  lemma SumUpdate(m: map<Pubkey, ClaimAccount>, f: ClaimAccount -> nat, k: Pubkey, v: ClaimAccount)
    requires k in m
    ensures Sum(m[k := v], f) + f(m[k]) == Sum(m, f) + f(v)
  {
    SumRemove(m[k := v], f, k);
    SumRemove(m, f, k);
    assert m[k := v] - {k} == m - {k};
  }

  /** A pointwise bound lifts to the sums. */
  lemma {:induction false} SumMonotone(m: map<Pubkey, ClaimAccount>, f: ClaimAccount -> nat, g: ClaimAccount -> nat)
    requires forall k :: k in m ==> f(m[k]) <= g(m[k])
    ensures Sum(m, f) <= Sum(m, g)
    decreases |m|
  {
    if m != map[] {
      var k := PickKey(m);
      SumMonotone(m - {k}, f, g);
    }
  }

  /** Released amount and weight of an account, as summable quantities. */
  function Released(c: ClaimAccount): (n: nat) { c.totalReleased }
  function Shares(c: ClaimAccount): (n: nat) { c.shares }

  /** The weight of all accounts together. */
  ghost function SumShares(m: map<Pubkey, ClaimAccount>): (total: nat) {
    Sum(m, Shares)
  }

  /** Everything ever paid to all accounts together. */
  ghost function SumReleased(m: map<Pubkey, ClaimAccount>): (total: nat) {
    Sum(m, Released)
  }
}
