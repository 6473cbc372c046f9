/**
 The NFT evidence an NFT holder presents to `register` and
 `claim_with_nft`, and the account constraints both instructions place
 on it. The metadata and edition accounts are checked only for their own
 contents; nothing ties them to the mint, so the evidence record carries
 no such link.
 */
module NftChecks {
  import opened Types
  import opened Errors

  /** A mint account: its address, decimal places and current supply. */
  datatype Mint = Mint(key: Pubkey, decimals: u8, supply: u64)

  /** A token account: its address, its mint, its owner and its balance. */
  datatype TokenAccount = TokenAccount(key: Pubkey, mint: Pubkey, owner: Pubkey, amount: u64)

  /** The collection entry of a metadata account. */
  datatype Collection = Collection(verified: bool, key: Pubkey)

  /** Everything the instructions read about one NFT. */
  datatype Evidence = Evidence(
    mint: Mint,
    token: TokenAccount,
    collection: Option<Collection>
  )

  /** The individual account constraints, in declaration order. */
  datatype Check =
    | MintDecimals
    | MintSupply
    | Associated
    | Amount
    | Verified
    | CollectionKey

  /** `token` is `wallet`'s associated token account for `mint`. */
  predicate IsAssociated(token: TokenAccount, wallet: Pubkey, mint: Pubkey) {
    && token.key == Ata(wallet, mint)
    && token.mint == mint
    && token.owner == wallet
  }

  /** Whether one constraint holds for the evidence, the signer and the
      collection recorded in the global account. */
  predicate Holds(ch: Check, ev: Evidence, signer: Pubkey, collection: Pubkey) {
    match ch
    case MintDecimals => ev.mint.decimals == 0
    case MintSupply => ev.mint.supply == 1
    case Associated => IsAssociated(ev.token, signer, ev.mint.key)
    case Amount => ev.token.amount == 1
    case Verified => ev.collection.Some? && ev.collection.value.verified
    case CollectionKey => ev.collection.Some? && ev.collection.value.key == collection
  }

  /** The error each constraint raises when it fails. */
  function ErrorOf(ch: Check): (e: Failure)
    ensures e.Program? ==> e.error != EmptyValue
  {
    match ch
    case MintDecimals => MintDecimalsMismatch
    case MintSupply => Program(TokenNotNFT)
    case Associated => NotAssociatedAccount
    case Amount => Program(TokenAccountEmpty)
    case Verified => Program(CollectionNotVerified)
    case CollectionKey => Program(InvalidCollection)
  }

  /** Distinct constraints raise distinct errors, so an error names its cause. */
  lemma ErrorOfInjective(a: Check, b: Check)
    ensures ErrorOf(a) == ErrorOf(b) ==> a == b
  {
  }

  /** The evidence satisfies every constraint. */
  predicate Eligible(ev: Evidence, signer: Pubkey, collection: Pubkey) {
    forall ch: Check :: Holds(ch, ev, signer, collection)
  }

  /** The constraints evaluated in declaration order: the first failing one
      aborts with its error. */
  function CheckNft(ev: Evidence, signer: Pubkey, collection: Pubkey): (r: Option<Failure>)
    ensures r.None? <==> Eligible(ev, signer, collection)
    ensures r.Some? ==> exists ch: Check :: !Holds(ch, ev, signer, collection) && r.value == ErrorOf(ch)
  {
    if !Holds(MintDecimals, ev, signer, collection) then Some(ErrorOf(MintDecimals))
    else if !Holds(MintSupply, ev, signer, collection) then Some(ErrorOf(MintSupply))
    else if !Holds(Associated, ev, signer, collection) then Some(ErrorOf(Associated))
    else if !Holds(Amount, ev, signer, collection) then Some(ErrorOf(Amount))
    else if !Holds(Verified, ev, signer, collection) then Some(ErrorOf(Verified))
    else if !Holds(CollectionKey, ev, signer, collection) then Some(ErrorOf(CollectionKey))
    else
      None
  }

  /** When exactly one constraint fails, that constraint's error is the
      one reported, whatever the evaluation order. */
  lemma SingleFailureReported(ev: Evidence, signer: Pubkey, collection: Pubkey, ch: Check)
    requires !Holds(ch, ev, signer, collection)
    requires forall other: Check :: other != ch ==> Holds(other, ev, signer, collection)
    ensures CheckNft(ev, signer, collection) == Some(ErrorOf(ch))
  {
  }

  /** What passing the checks establishes: the signer's associated
      account for a zero-decimal, single-supply mint holds exactly one
      token, and the metadata account presented names the recorded
      collection as verified. Nothing ties that metadata account to the
      mint, so this does not establish that the mint belongs to the
      collection. */
  lemma AcceptedMeansHolder(ev: Evidence, signer: Pubkey, collection: Pubkey)
    requires CheckNft(ev, signer, collection).None?
    ensures ev.token.key == Ata(signer, ev.mint.key) && ev.token.owner == signer
    ensures ev.mint.decimals == 0 && ev.mint.supply == 1 && ev.token.amount == 1
    ensures ev.collection == Some(Collection(true, collection))
  {
  }

  /** A token account derived for another wallet is refused, whatever else
      holds: only the holder can present an NFT. */
  lemma NonHolderRejected(ev: Evidence, signer: Pubkey, collection: Pubkey)
    requires ev.token.key != Ata(signer, ev.mint.key)
    ensures CheckNft(ev, signer, collection).Some?
  {
  }
}
