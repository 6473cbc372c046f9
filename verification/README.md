# shiba revenue-splitting ledger, modelled in Dafny

The `shiba` program splits the transfer-fee revenue of a token between
fixed beneficiaries. Marketing holds 3500 shares and the liquidity wallet
("lp") holds 5000. Every registered NFT claim account holds 3 shares. To
register, a wallet must hold exactly 1 token of a 0-decimal, supply-1
mint and present a metadata account that names the recorded collection
as verified.
All shares are out of a denominator of 10000. Harvested fees collect in
one pool token account, owned by the token-authority address.

A beneficiary may claim at any time. It is paid the difference between
its absolute entitlement, `floor((total_released + pool) * shares / 10000)`,
and what it has already received.

The model is a set of pure transition functions over one immutable state:

- the `Global` account, absent before initialization;
- a map from owner key to `ClaimAccount`;
- the pool balance.

Each instruction either commits all of its writes or fails with a
`Failure` and writes nothing, as the runtime guarantees. The modules are:

- `Types`: `u8`/`u64`, addresses and `Option`/`Result`. An associated
  token account address is the constructor `Ata(wallet, mint)`, so the
  derivation is injective. Such an address is off the curve and cannot
  sign, so signers have the type `Wallet` of ordinary keys.
- `Errors`: the program's `ClaimError` enum with its codes and messages,
  plus the framework and token-program failures.
- `States`: `Global`, `ClaimAccount`, `initialize`, `TOTAL_SHARES`, the
  account sizes and the byte layout of a claim account.
- `NftChecks`: the NFT account constraints shared by `register` and
  `claim_with_nft`, as a predicate over an abstract evidence record.
- `Settlement`: `transfer_owed`.
- `Sums`: sums over the claim accounts.
- `Ledger`: the state, the four instructions, the harvest step, dispatch,
  and runs of events.
- `Invariants`: the ledger invariant, its preservation and no-overdraft.
- `Properties`: properties across several calls and whole histories.
- `Scenarios`: the end-to-end test numbers, with a 2-decimal token.

The invariant `Inv` states three things. First, the global
`total_released` equals the sum of the per-account `total_released`.
Second, every account stays within its entitlement of the lifetime total.
Third, every weight is 3500, 5000 or 3.
A second invariant, `Tallied`, states that the shares add up to
3500 + 5000 plus 3 for every other account. Every event preserves both:
each instruction, successful or not, and every harvest.

On top of `Inv`, if the shares sum to at most 10000 and every claim
names the pool account, a settlement never asks the pool for more than it
holds. By `Tallied`, that is exactly the
case while there are at most 500 NFT claim accounts. Registration itself is
uncapped, so the bound is a hypothesis of the theorem and not a
consequence of it. NFT claim accounts are keyed by the NFT's token
account, not by its mint. When an NFT moves to a new holder, the holder's
associated token account can register it again, with 3 more shares and an
immediate claim on everything harvested so far
(`Scenarios.TransferredNftRegistersAgain`). So one NFT can own several
claim accounts, and the cap counts accounts, not NFTs.

Details of the program that the model keeps:

- Nothing owed is reported as `EmptyValue`.
- `Global` holds no count of registrations.
- `initialize` checks no authority. The signing user only pays and is not
  recorded.
- "Already initialized" and "already registered" are the framework
  refusing to create an existing account (`AccountInUse`). They are not
  named program errors. For the same reason, initialization fails when
  the marketing and lp keys are equal: both claim accounts would live at
  one address, and the second creation finds it taken.
- Settlement sets the watermark to `total_released + owed`, which equals
  the entitlement.
- The `mint::decimals = 0` constraint carries no custom error, so it fails
  with the framework's own error (`MintDecimalsMismatch`). Only
  `supply == 1` raises `TokenNotNFT`.
- A token account that is not the signer's associated account fails the
  framework's `associated_token` constraint (`NotAssociatedAccount`), not
  `TokenAccountEmpty`.

The settlement's `u64` `+`, `*` and `-` are assumed to panic when they
overflow or underflow, as they do when the build enables overflow checks.
A panic is modelled as the failure `ArithmeticOverflow`. A
settlement larger than the pool balance is refused by the token program
(`InsufficientFunds`). Neither is a precondition: both are outcomes.

## Model

| member | source | states |
|---|---|---|
| `Errors.Code` | programs/shiba/src/lib.rs:30-42 | each `ClaimError` variant has a code in 6000..6004 |
| `Errors.CodesInDeclarationOrder` | programs/shiba/src/lib.rs:30-42 | the codes follow the declaration order: `CollectionNotVerified` is 6000 and `EmptyValue` is 6004 |
| `Errors.FromCode` | programs/shiba/src/lib.rs:30-42 | a code decodes exactly when it lies in 6000..6004, and decodes to the variant carrying that code |
| `Errors.Message` | programs/shiba/src/lib.rs:31-41 | every variant carries a non-empty message, and distinct variants carry distinct messages (with `Errors.VariantsDistinct`) |
| `Errors.CodeRoundTrip` | programs/shiba/src/lib.rs:30-42 | codes and variants correspond one to one: decoding a variant's code gives the variant back |
| `States.InitializeClaim` | programs/shiba/src/states/claim_account.rs:11-14 | `initialize(s)` leaves `total_released = 0` and `shares = s` |
| `States.InitializeOverwrites` | programs/shiba/src/states/claim_account.rs:11-14 | the result of `initialize` does not depend on the account's prior contents |
| `States.GlobalDataSize` | programs/shiba/src/states/global.rs:4-13 | the global record's discriminator, three keys, `u64` and `u8` need 113 bytes, within the 145 reserved |
| `States.EncodeClaimAccount` | programs/shiba/src/states/claim_account.rs:3-9 | a serialized claim account is exactly `LEN` = 24 bytes and begins with its 8-byte discriminator |
| `States.EncodeLE` | programs/shiba/src/states/claim_account.rs:5-6 | the 8-byte little-endian form of a `u64` field decodes back to the field |
| `States.ClaimAccountRoundTrip` | programs/shiba/src/states/claim_account.rs:3-9 | reading back a written claim account gives the same `total_released` and `shares` |
| `States.ClaimAccountDecodeEncode` | programs/shiba/src/states/claim_account.rs:3-9 | every 24-byte buffer with the right discriminator is read, and writing it back reproduces it byte for byte |
| `NftChecks.ErrorOf` | programs/shiba/src/instructions/register.rs:37-57 | no NFT constraint raises `EmptyValue` |
| `NftChecks.CheckNft` | programs/shiba/src/instructions/register.rs:37-57 | the NFT is accepted exactly when all six constraints hold; a rejection names a constraint that fails |
| `NftChecks.SingleFailureReported` | programs/shiba/src/instructions/register.rs:37-57 | when exactly one constraint fails, its own error is reported (decimals: framework error; supply: `TokenNotNFT`; association: framework error; amount: `TokenAccountEmpty`; verified: `CollectionNotVerified`; key: `InvalidCollection`) |
| `NftChecks.AcceptedMeansHolder` | programs/shiba/src/instructions/claim.rs:91-109 | acceptance means the signer's associated account for a 0-decimal, supply-1 mint holds exactly 1, and the metadata account presented names the recorded collection as verified |
| `NftChecks.NonHolderRejected` | programs/shiba/src/instructions/claim.rs:97-103 | a token account not derived from the signer and the mint is refused |
| `Settlement.TransferOwed` | programs/shiba/src/instructions/claim.rs:145-181 | success exactly when the arithmetic is defined and `0 < entitlement - released <= pool`; the account then ends at its entitlement, both counters grow by `owed`, the pool shrinks by `owed`, and `released + pool`, shares and configuration are unchanged; `EmptyValue` exactly when nothing is owed; no other program error |
| `Settlement.EntitlementRoundsDown` | programs/shiba/src/instructions/claim.rs:154-158 | the entitlement is the floor of `total * shares / 10000`: never more, and short of it by less than one unit |
| `Settlement.EntitlementMonotone` | programs/shiba/src/instructions/claim.rs:154-158 | a larger lifetime total never lowers an entitlement |
| `Settlement.EntitlementAtMostTotal` | programs/shiba/src/states/global.rs:14 | with at most `TOTAL_SHARES` shares, an entitlement never exceeds the total |
| `Settlement.SecondSettlementFails` | programs/shiba/src/instructions/claim.rs:161-162 | settling again with no new revenue fails with `EmptyValue` |
| `Ledger.Initialize` | programs/shiba/src/instructions/initialize.rs:16-103 | succeeds exactly when no global account, no marketing or lp account exists, the two keys differ and the collection mint has 0 decimals; then records marketing, lp, collection and bump with `total_released = 0`, and creates marketing with 3500 and lp with 5000 shares; an existing account or equal keys fail with `AccountInUse`, and only when the three accounts can be created does a non-zero-decimal collection fail with `MintDecimalsMismatch` |
| `Ledger.Register` | programs/shiba/src/instructions/register.rs:15-71 | succeeds exactly when the global account exists, no account exists for the token account and the NFT is eligible; then it adds exactly one account with 3 shares and 0 released, and leaves global and pool unchanged; a missing global account fails with `AccountNotInitialized`, an existing account with `AccountInUse`, and an ineligible NFT with the error of a constraint it fails |
| `Ledger.Settle` | programs/shiba/src/instructions/claim.rs:154-180 | a successful settlement moves `owed` from the pool to the account, which ends at its entitlement; nothing else changes |
| `Ledger.Claim` | programs/shiba/src/instructions/claim.rs:19-60 | `claim` settles the account keyed by the signing wallet; it fails with `AccountNotInitialized` when there is none, and otherwise pays exactly when the settlement succeeds and fails with the settlement's own error when it does not |
| `Ledger.ClaimWithNft` | programs/shiba/src/instructions/claim.rs:71-135 | `claim_with_nft` settles the account keyed by the NFT's token account; for a registered NFT it pays exactly when the signer's evidence is eligible and the settlement succeeds, and ineligible evidence fails with the error of a constraint it fails |
| `Ledger.Harvest` | tests/shiba.test.ts:281-294 | a harvest only raises the pool, by the amount harvested |
| `Ledger.Step` | programs/shiba/src/lib.rs:13-27 | a failed instruction or harvest leaves the state as it was, so the counter writes of a settlement are rolled back when its token transfer is refused |
| `Ledger.Process` | programs/shiba/src/lib.rs:13-27 | every instruction except `initialize` conserves `released + pool` and the configuration; no instruction removes an account, changes shares or lowers a watermark |
| `Invariants.InitializePreservesInv` | programs/shiba/src/instructions/initialize.rs:88-103 | initialization establishes the invariant |
| `Invariants.RegisterPreservesInv` | programs/shiba/src/instructions/register.rs:68-71 | registration keeps the invariant |
| `Invariants.SettledOnePreservesInv` | programs/shiba/src/instructions/claim.rs:154-165 | a claim keeps `global.total_released == sum of claim.total_released` and every account within its entitlement |
| `Invariants.HarvestPreservesInv` | programs/shiba/src/instructions/claim.rs:154-158 | a harvest keeps every account within its (now larger) entitlement |
| `Invariants.StepPreservesInv` | programs/shiba/src/lib.rs:13-27 | every event, successful or failed, keeps the invariant |
| `Invariants.RunPreservesInv` | programs/shiba/src/lib.rs:13-27 | the invariant holds after any history of instructions and harvests |
| `Invariants.SumEntitlementsScaled` | programs/shiba/src/instructions/claim.rs:158 | the summed entitlements times 10000 are at most the total times the summed shares |
| `Invariants.SumEntitlementsAtMostTotal` | programs/shiba/src/instructions/claim.rs:158 | with summed shares at most 10000, the summed entitlements never exceed the lifetime total |
| `Invariants.OwedWithinPool` | programs/shiba/src/instructions/claim.rs:154-165 | on an invariant ledger with summed shares at most 10000, what an account is owed is never negative and never more than the pool |
| `Invariants.NoOverdraft` | programs/shiba/src/instructions/claim.rs:154-180 | on an invariant ledger whose shares sum to at most 10000, a settlement is never refused for insufficient funds |
| `Invariants.NoOverdraftWithinCap` | programs/shiba/src/instructions/claim.rs:154-180 | on a ledger that keeps both invariants and has at most 500 NFT claim accounts, a settlement is never refused for insufficient funds |
| `Invariants.SettlesOrNothingOwed` | programs/shiba/src/instructions/claim.rs:154-165 | on an invariant ledger whose shares sum to at most 10000, and while the `u64` products fit, a claim either pays or fails only with `EmptyValue` |
| `Invariants.StepPreservesTally` | programs/shiba/src/instructions/register.rs:68-71 | every event keeps the shares at 3500 + 5000 plus 3 per other account: only registration adds an account, with 3 shares, and nothing changes a weight |
| `Invariants.RunPreservesTally` | programs/shiba/src/lib.rs:13-27 | the share tally holds after any history |
| `Invariants.SharesWithinDenominator` | programs/shiba/src/instructions/initialize.rs:96-100 | on an initialized, tallied ledger the shares sum to at most 10000 exactly when there are at most 500 NFT claim accounts |
| `Properties.InitializeOnce` | programs/shiba/src/instructions/initialize.rs:16-47 | after initialization, every further `initialize` fails with `AccountInUse` |
| `Properties.InitializeIgnoresPayer` | programs/shiba/src/instructions/initialize.rs:57-58 | the paying signer has no influence on the outcome of `initialize` |
| `Properties.RegisterOnce` | programs/shiba/src/instructions/register.rs:25-35 | registering the same token account twice fails with `AccountInUse` |
| `Properties.ClaimTwiceFails` | programs/shiba/src/instructions/claim.rs:161-162 | an immediate second `claim` fails with `EmptyValue` |
| `Properties.ClaimWithNftTwiceFails` | programs/shiba/src/instructions/claim.rs:161-162 | an immediate second `claim_with_nft` fails with `EmptyValue` |
| `Properties.NonHolderCannotClaim` | programs/shiba/src/instructions/claim.rs:29-103 | a signer whose associated token account is not the NFT's token account cannot settle it: `claim_with_nft` refuses it, and `claim` leaves every account keyed by an associated token account untouched |
| `Properties.ClaimSettlesOnlySigner` | programs/shiba/src/instructions/claim.rs:29-37 | `claim` leaves every other account unchanged |
| `Properties.LaterWavePaysDifference` | programs/shiba/src/instructions/claim.rs:156-165 | across a harvest, two consecutive settlements of one account (by `claim` or `claim_with_nft`) reach the recomputed absolute entitlement, and the second pays only the difference |
| `Properties.FreshNftSharesPastRevenue` | programs/shiba/src/instructions/register.rs:68-71 | while the shares sum to at most 10000, a freshly registered NFT may at once claim its full entitlement of everything harvested before it registered |
| `Properties.OutstandingCovered` | programs/shiba/src/instructions/claim.rs:154-165 | while the shares sum to at most 10000 and every claim names the pool account, the pool covers the outstanding amounts of all beneficiaries at once, so rounding delays payment but never loses funds |
| `Properties.StepKeepsConfig` | programs/shiba/src/states/global.rs:5-9 | once initialized, no event changes marketing, lp, collection or bump |
| `Properties.RunKeepsConfig` | programs/shiba/src/instructions/initialize.rs:89-94 | over any history the configuration stays fixed and `global.total_released` never decreases |
| `Properties.RunKeepsAccounts` | programs/shiba/src/states/claim_account.rs:11-14 | over any history no account disappears, `shares` never changes and `total_released` never decreases |
| `Scenarios.InitializeScenario` | tests/shiba.test.ts:187-233 | initialization records the keys and the 3500/5000 shares; a second one fails |
| `Scenarios.RegisterScenario` | tests/shiba.test.ts:235-269 | registration gives 3 shares; a second registration fails |
| `Scenarios.StaticClaimsScenario` | tests/shiba.test.ts:271-349 | after a 200-token wave, marketing takes 70 and lp 100, leaving 30 in the pool |
| `Scenarios.NftClaimsScenario` | tests/shiba.test.ts:351-460 | each NFT takes 0.06, including one registered after the wave |
| `Scenarios.RefusalScenario` | tests/shiba.test.ts:563-635 | after the third sweep a non-holder is refused, the holder's first NFT claim pays 12 more (reaching 18), and an immediate repeat fails with `EmptyValue` |
| `Scenarios.SecondWaveScenario` | tests/shiba.test.ts:462-561 | the second sweep of 20342 (a wave plus the fees withheld on earlier payouts) pays marketing 7119, reaching 14119; a third sweep of 20143 pays lp 20242 |
| `Scenarios.BorrowedMetadataRegisters` | programs/shiba/src/instructions/register.rs:37-57 | a mint outside the collection registers and is paid when a member's verified metadata is presented, because nothing ties the metadata to the mint |
| `Scenarios.TransferredNftRegistersAgain` | programs/shiba/src/instructions/register.rs:24-34 | a transferred NFT registers again under its new holder's associated account, which is at once paid the NFT's share of the first wave a second time |

## Left out

- Token-2022 fee withholding and harvesting are the token program's own work. A harvest is modelled only as "the pool grows by `k`".
- The 2% transfer fee deducted at the recipient is not modelled. The ledger tracks the gross amount owed, and the pool is debited by that full amount.
- The `transfer_checked` call is modelled only as "the pool shrinks by `owed`, or the transfer is refused when `owed` exceeds the pool".
- Creating the recipient's associated account, rent and lamport payments are not modelled. These are calls into other programs.
- Address derivation (the "global", "claim" and "token-authority" seeds and associated token accounts) is hashing. Claim accounts are keyed by owner, and associated accounts are the injective constructor `Ata`.
- The token-authority bump is an input to `Initialize`, because it comes from that derivation.
- Metaplex metadata and edition decoding is replaced by an abstract evidence record: mint decimals and supply, the token account's address, mint, owner and amount, and the collection entry.
- The source ties neither the metadata nor the edition account to `nft_mint`, so the record carries no such link. The edition account is checked only for its account type, which the model takes as given.
- As a consequence, collection membership is not enforced. Anyone holding 1 token of any 0-decimal, supply-1 mint can register and claim by presenting a genuine member's metadata account (`Scenarios.BorrowedMetadataRegisters`). So the number of NFT claim accounts is not bounded by the collection's size.
- Candy-machine minting is not modelled. It is the NFT issuer's work.
- `Claim` and `ClaimWithNft` assume `token_account` and `mint` are the pool account for the revenue mint. The model has one pool.
- The source constrains neither account beyond `mut` (programs/shiba/src/instructions/claim.rs lines 47-48, 62-63, 122-123 and 137-138). A caller can create a Token-2022 account of a mint they control, owned by the token-authority address, and pass it in.
- Settlement would then add that account's balance to the total and raise `global.total_released` by the amount owed. It would pay out in the foreign mint and leave the real pool untouched.
- That breaks the conservation of `released + pool` and raises every other account's entitlement of the real pool. The coverage and no-overdraft results (`Invariants.NoOverdraft`, `Properties.OutstandingCovered` and the rest) therefore hold only for histories in which every claim names the pool account.
- `Settlement.TransferOwed`: assumes the release build enables overflow checks, so an overflowing `+`, `*` or `-` panics. The build configuration is not part of this model. Without overflow checks the operations would wrap around instead, and the model does not describe that behaviour.
- Concurrency is left out. The runtime executes each instruction atomically, and the model treats each as one transition.
- When several constraints fail together, the model reports them in declaration order. The framework's real order may differ. `NftChecks.SingleFailureReported` states only what holds whatever the order.
- Anchor checks on account ownership and deserialization are not modelled, apart from "this account does not exist" and "this account already exists".
