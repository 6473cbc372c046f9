/**
 Failure outcomes of the program. `ClaimError` is the program's own
 error enum; `Failure` adds the outcomes raised by the framework, the
 runtime and the token program, each of which aborts the instruction
 with no state change.
 */
module Errors {
  import opened Types

  /** The program's error enum, in declaration order. */
  datatype ClaimError =
    | CollectionNotVerified
    | TokenAccountEmpty
    | InvalidCollection
    | TokenNotNFT
    | EmptyValue

  /** Custom error codes start at this offset, one per variant in order. */
  const ERROR_CODE_OFFSET: nat := 6000

  function Code(e: ClaimError): (c: nat)
    ensures ERROR_CODE_OFFSET <= c < ERROR_CODE_OFFSET + 5
  {
    match e
    case CollectionNotVerified => ERROR_CODE_OFFSET
    case TokenAccountEmpty => ERROR_CODE_OFFSET + 1
    case InvalidCollection => ERROR_CODE_OFFSET + 2
    case TokenNotNFT => ERROR_CODE_OFFSET + 3
    case EmptyValue => ERROR_CODE_OFFSET + 4
  }

  /** Decodes an error code back to the variant, if it names one. */
  function FromCode(c: nat): (r: Option<ClaimError>)
    ensures r.Some? <==> ERROR_CODE_OFFSET <= c < ERROR_CODE_OFFSET + 5
    ensures r.Some? ==> Code(r.value) == c
  {
    if c == ERROR_CODE_OFFSET then Some(CollectionNotVerified)
    else if c == ERROR_CODE_OFFSET + 1 then Some(TokenAccountEmpty)
    else if c == ERROR_CODE_OFFSET + 2 then Some(InvalidCollection)
    else if c == ERROR_CODE_OFFSET + 3 then Some(TokenNotNFT)
    else if c == ERROR_CODE_OFFSET + 4 then Some(EmptyValue)
    else None
  }

  /** The message attached to each variant. */
  function Message(e: ClaimError): (m: string)
    ensures |m| > 0
  {
    match e
    case CollectionNotVerified => "Collection Not Verified"
    case TokenAccountEmpty => "Token Account Empty"
    case InvalidCollection => "Invalid Collection"
    case TokenNotNFT => "Token Not NFT"
    case EmptyValue => "Empty value"
  }

  /** Codes and variants are in one-to-one correspondence: decoding a
      code recovers its variant, and a code that decodes came from it. */
  lemma CodeRoundTrip(e: ClaimError, c: nat)
    ensures FromCode(Code(e)) == Some(e)
    ensures FromCode(c) == Some(e) ==> Code(e) == c
  {
  }

  /** Codes follow the declaration order, starting at the offset. */
  lemma CodesInDeclarationOrder()
    ensures Code(CollectionNotVerified) == 6000
    ensures Code(TokenAccountEmpty) == 6001
    ensures Code(InvalidCollection) == 6002
    ensures Code(TokenNotNFT) == 6003
    ensures Code(EmptyValue) == 6004
  {
  }

  /** The five variants are distinct, as are their codes and messages. */
  lemma VariantsDistinct(e1: ClaimError, e2: ClaimError)
    ensures e1 != e2 ==> Code(e1) != Code(e2)
    ensures e1 != e2 ==> Message(e1) != Message(e2)
  {
  }

  /** Everything that aborts an instruction. */
  datatype Failure =
    | Program(error: ClaimError)
      /** An `init` account already exists (the system program refuses to create it). */
    | AccountInUse
      /** An account the instruction reads was never created. */
    | AccountNotInitialized
      /** A `mint::decimals` constraint failed. */
    | MintDecimalsMismatch
      /** An `associated_token::` constraint failed. */
    | NotAssociatedAccount
      /** A `u64` operation overflowed or underflowed and the program panicked. */
    | ArithmeticOverflow
      /** The token program refused a transfer larger than the source balance. */
    | InsufficientFunds
}
