/**
 The program's state and its four instructions as atomic transitions.
 The state is the global account (absent before initialization), the
 claim accounts keyed by their owner key (a wallet for the two static
 beneficiaries, the NFT's token account for NFT holders), and the balance
 of the pool token account owned by the token-authority address.

 Claim accounts live at an address derived from the seed "claim" and the
 owner key; the derivation is injective, so keying by owner is keying by
 address. Every instruction either commits all its writes or fails and
 writes nothing.
 */
module Ledger {
  import opened Types
  import opened Errors
  import opened States
  import opened NftChecks
  import opened Settlement

  const MARKETING_SHARES: u64 := 3500
  const LP_SHARES: u64 := 5000
  const NFT_SHARES: u64 := 3

  /** The contents of a freshly created account before its handler runs. */
  const ZEROED: ClaimAccount := ClaimAccount(0, 0)

  datatype State = State(
    global: Option<Global>,
    claims: map<Pubkey, ClaimAccount>,
    pool: u64
  )

  /** Nothing exists yet; revenue may already sit in the pool. */
  function Genesis(pool: u64): (s: State) {
    State(None, map[], pool)
  }

  /** The lifetime total of an initialized ledger: released plus pool. */
  function LifetimeTotal(s: State): (total: nat)
    requires s.global.Some?
  {
    Total(s.global.value, s.pool)
  }

  // ---------------------------------------------------------------------
  // initialize
  // ---------------------------------------------------------------------

  /** `initialize`: creates the global account and the marketing and lp
      claim accounts. `user` only pays for the accounts and is not
      recorded; no authority is checked, so the first caller wins. */
  function Initialize(s: State, user: Wallet, marketing: Pubkey, lp: Pubkey, collection: Mint, tokenAuthBump: u8)
    : (r: Result<State, Failure>)
    ensures r.Ok? <==>
      && s.global.None?
      && marketing !in s.claims && lp !in s.claims && marketing != lp
      && collection.decimals == 0
    ensures r.Ok? ==>
      && r.value.global == Some(Global(marketing, lp, collection.key, 0, tokenAuthBump))
      && r.value.claims.Keys == s.claims.Keys + {marketing, lp}
      && r.value.claims[marketing] == ClaimAccount(0, MARKETING_SHARES)
      && r.value.claims[lp] == ClaimAccount(0, LP_SHARES)
      && (forall k :: k in s.claims ==> r.value.claims[k] == s.claims[k])
      && r.value.pool == s.pool
    ensures r.Err? ==> r.error in {AccountInUse, MintDecimalsMismatch}
    // The three created accounts are checked before the collection mint.
    ensures s.global.Some? || marketing in s.claims || lp in s.claims || marketing == lp ==>
      r == Err(AccountInUse)
    ensures
      (&& s.global.None? && marketing !in s.claims && lp !in s.claims && marketing != lp
       && collection.decimals != 0) ==>
      r == Err(MintDecimalsMismatch)
  {
    if s.global.Some? then Err(AccountInUse)
    else if marketing in s.claims then Err(AccountInUse)
    else if lp in s.claims || lp == marketing then Err(AccountInUse)
    else if collection.decimals != 0 then Err(MintDecimalsMismatch)
    else
      var global := Global(marketing, lp, collection.key, 0, tokenAuthBump);
      var claims := s.claims[marketing := InitializeClaim(ZEROED, MARKETING_SHARES)]
                            [lp := InitializeClaim(ZEROED, LP_SHARES)];
      Ok(State(Some(global), claims, s.pool))
  }

  // ---------------------------------------------------------------------
  // register
  // ---------------------------------------------------------------------

  /** `register`: creates the claim account of one NFT, keyed by its
      token account, after the NFT constraints pass. The global account is
      only read. */
  function Register(s: State, signer: Wallet, ev: Evidence): (r: Result<State, Failure>)
    ensures r.Ok? <==>
      && s.global.Some?
      && ev.token.key !in s.claims
      && Eligible(ev, signer, s.global.value.collection)
    ensures r.Ok? ==>
      && r.value.global == s.global
      && r.value.pool == s.pool
      && r.value.claims == s.claims[ev.token.key := ClaimAccount(0, NFT_SHARES)]
    ensures s.global.None? ==> r == Err(AccountNotInitialized)
    ensures s.global.Some? && ev.token.key in s.claims ==> r == Err(AccountInUse)
    // A rejected NFT is refused with the error of a constraint it fails.
    ensures s.global.Some? && ev.token.key !in s.claims && !Eligible(ev, signer, s.global.value.collection) ==>
      exists ch :: !Holds(ch, ev, signer, s.global.value.collection) && r == Err(ErrorOf(ch))
    ensures r.Err? && r.error.Program? ==> r.error.error != EmptyValue
  {
    if s.global.None? then Err(AccountNotInitialized)
    else if ev.token.key in s.claims then Err(AccountInUse)
    else
      match CheckNft(ev, signer, s.global.value.collection)
      case Some(e) => Err(e)
      case None =>
        Ok(s.(claims := s.claims[ev.token.key := InitializeClaim(ZEROED, NFT_SHARES)]))
  }

  // ---------------------------------------------------------------------
  // claim and claim_with_nft
  // ---------------------------------------------------------------------

  /** `s2` is `s` after the account at `key` was paid what it was owed:
      it now holds exactly its entitlement of the unchanged lifetime
      total, the payment moved from the pool to the released counter, and
      no other account, weight or configuration field changed. */
  predicate SettledOne(s: State, s2: State, key: Pubkey)
  {
    && s.global.Some? && s2.global.Some?
    && key in s.claims
    && s2.claims.Keys == s.claims.Keys
    && s2.global.value == s.global.value.(totalReleased := s2.global.value.totalReleased)
    && LifetimeTotal(s2) == LifetimeTotal(s)
    && s2.pool < s.pool
    && s2.claims[key].totalReleased == Entitlement(LifetimeTotal(s), s.claims[key].shares)
    && s2.claims[key].totalReleased - s.claims[key].totalReleased == s.pool - s2.pool
    && s2.claims[key].shares == s.claims[key].shares
    && (forall k :: k in s.claims && k != key ==> s2.claims[k] == s.claims[k])
  }

  /** Runs the settlement on the account at `key` and commits its writes. */
  function Settle(s: State, key: Pubkey): (r: Result<State, Failure>)
    requires s.global.Some? && key in s.claims
    ensures r.Ok? ==> SettledOne(s, r.value, key)
    ensures r.Ok? <==> TransferOwed(s.global.value, s.claims[key], s.pool).Ok?
    ensures r.Err? ==> r.error in {ArithmeticOverflow, Program(EmptyValue), InsufficientFunds}
  {
    match TransferOwed(s.global.value, s.claims[key], s.pool)
    case Err(e) => Err(e)
    case Ok(paid) => Ok(State(Some(paid.global), s.claims[key := paid.claim], paid.pool))
  }

  /** `claim`: a static beneficiary settles the account keyed by its own
      signing key. */
  function Claim(s: State, signer: Wallet): (r: Result<State, Failure>)
    ensures r.Ok? ==> SettledOne(s, r.value, signer)
    ensures (s.global.None? || signer !in s.claims) ==> r == Err(AccountNotInitialized)
    // An existing account is paid exactly when the settlement goes
    // through, and otherwise fails with the settlement's own error.
    ensures s.global.Some? && signer in s.claims ==>
      (r.Ok? <==> TransferOwed(s.global.value, s.claims[signer], s.pool).Ok?)
    ensures s.global.Some? && signer in s.claims && TransferOwed(s.global.value, s.claims[signer], s.pool).Err? ==>
      r == Err(TransferOwed(s.global.value, s.claims[signer], s.pool).error)
    ensures r.Err? ==>
      r.error in {AccountNotInitialized, ArithmeticOverflow, Program(EmptyValue), InsufficientFunds}
  {
    if s.global.None? || signer !in s.claims then Err(AccountNotInitialized)
    else Settle(s, signer)
  }

  /** `claim_with_nft`: an NFT holder settles the account keyed by the
      NFT's token account, after the same NFT constraints as registration
      pass again for the current holder. */
  function ClaimWithNft(s: State, signer: Wallet, ev: Evidence): (r: Result<State, Failure>)
    ensures r.Ok? ==> SettledOne(s, r.value, ev.token.key)
    ensures r.Ok? ==> Eligible(ev, signer, s.global.value.collection)
    ensures (s.global.None? || ev.token.key !in s.claims) ==> r == Err(AccountNotInitialized)
    // A registered NFT is paid exactly when its current holder passes the
    // constraints and the settlement goes through.
    ensures s.global.Some? && ev.token.key in s.claims ==>
      (r.Ok? <==>
         && Eligible(ev, signer, s.global.value.collection)
         && TransferOwed(s.global.value, s.claims[ev.token.key], s.pool).Ok?)
    // A rejected NFT is refused with the error of a constraint it fails.
    ensures s.global.Some? && ev.token.key in s.claims && !Eligible(ev, signer, s.global.value.collection) ==>
      exists ch :: !Holds(ch, ev, signer, s.global.value.collection) && r == Err(ErrorOf(ch))
    // Eligible evidence whose settlement fails gets the settlement's own
    // error; in particular nothing owed is `EmptyValue`.
    ensures
      (&& s.global.Some? && ev.token.key in s.claims
       && Eligible(ev, signer, s.global.value.collection)
       && TransferOwed(s.global.value, s.claims[ev.token.key], s.pool).Err?) ==>
      r == Err(TransferOwed(s.global.value, s.claims[ev.token.key], s.pool).error)
  {
    if s.global.None? || ev.token.key !in s.claims then Err(AccountNotInitialized)
    else
      match CheckNft(ev, signer, s.global.value.collection)
      case Some(e) => Err(e)
      case None => Settle(s, ev.token.key)
  }

  // ---------------------------------------------------------------------
  // Harvest (external) and the entry points
  // ---------------------------------------------------------------------

  /** Withheld transfer fees swept into the pool by the token program;
      only the pool balance grows. */
  function Harvest(s: State, amount: nat): (r: Result<State, Failure>)
    ensures r.Ok? <==> s.pool + amount <= U64_MAX
    ensures r.Ok? ==> r.value.pool == s.pool + amount
    ensures r.Ok? ==> r.value.global == s.global && r.value.claims == s.claims
  {
    if s.pool + amount > U64_MAX then Err(ArithmeticOverflow)
    else Ok(s.(pool := s.pool + amount))
  }

  /** The program's four entry points. */
  datatype Instruction =
    | InitializeIx(user: Wallet, marketing: Pubkey, lp: Pubkey, collection: Mint, tokenAuthBump: u8)
    | RegisterIx(signer: Wallet, nft: Evidence)
    | ClaimWithNftIx(signer: Wallet, nft: Evidence)
    | ClaimIx(signer: Wallet)

  /** Dispatch of an instruction to its handler. */
  function Process(s: State, ix: Instruction): (r: Result<State, Failure>)
    // Only initialization resets the released counter; every other
    // instruction keeps `released + pool` fixed and the configuration
    // fields as they were.
    ensures r.Ok? && !ix.InitializeIx? ==>
      && s.global.Some? && r.value.global.Some?
      && LifetimeTotal(r.value) == LifetimeTotal(s)
      && r.value.global.value.(totalReleased := 0) == s.global.value.(totalReleased := 0)
    // No instruction ever removes an account or changes a weight.
    ensures r.Ok? ==> s.claims.Keys <= r.value.claims.Keys
    ensures r.Ok? ==> forall k :: k in s.claims ==> r.value.claims[k].shares == s.claims[k].shares
    // Watermarks only move forwards.
    ensures r.Ok? ==> forall k :: k in s.claims ==> r.value.claims[k].totalReleased >= s.claims[k].totalReleased
    ensures r.Ok? && s.global.Some? ==>
      r.value.global.Some? && r.value.global.value.totalReleased >= s.global.value.totalReleased
  {
    match ix
    case InitializeIx(user, marketing, lp, collection, bump) =>
      Initialize(s, user, marketing, lp, collection, bump)
    case RegisterIx(signer, nft) => Register(s, signer, nft)
    case ClaimWithNftIx(signer, nft) => ClaimWithNft(s, signer, nft)
    case ClaimIx(signer) => Claim(s, signer)
  }

  /** Something that happens to the ledger: an instruction, or a harvest
      by the token program. */
  datatype Event = Execute(ix: Instruction) | HarvestFees(amount: nat)

  function Apply(s: State, e: Event): (r: Result<State, Failure>) {
    match e
    case Execute(ix) => Process(s, ix)
    case HarvestFees(amount) => Harvest(s, amount)
  }

  /** An event's effect: a failure aborts and leaves the state as it was. */
  function Step(s: State, e: Event): (s2: State)
    ensures Apply(s, e).Err? ==> s2 == s
  {
    match Apply(s, e)
    case Ok(next) => next
    case Err(_) => s
  }

  /** The state after a sequence of events. */
  function Run(s: State, events: seq<Event>): (s2: State)
    decreases |events|
  {
    if |events| == 0 then s else Run(Step(s, events[0]), events[1..])
  }
}
