/** The program's error codes (`LaunchpadError`) and the framework-level
    rejections the instruction can end with. */
module Errors {

  /** The custom errors declared by the program, in declaration order. */
  datatype LaunchpadError =
    | SupplyNonZero
    | FreezeAuthoritySet
    | InvalidDecimals      // declared, but no code path raises it
    | InvalidMintAuthority

  /** Anchor numbers custom errors from this offset, in declaration order. */
  const ERROR_CODE_OFFSET: nat := 6000

  /** The custom errors in the order they are declared. */
  const DECLARED: seq<LaunchpadError> := [SupplyNonZero, FreezeAuthoritySet, InvalidDecimals, InvalidMintAuthority]

  /** The numeric code a client sees for a custom error: the offset plus the
      error's position in the declaration. */
  function Code(e: LaunchpadError): (c: nat)
    ensures ERROR_CODE_OFFSET <= c < ERROR_CODE_OFFSET + |DECLARED|
    ensures DECLARED[c - ERROR_CODE_OFFSET] == e
    ensures FromCode(c) == Some(e)
  {
    ERROR_CODE_OFFSET + match e
      case SupplyNonZero => 0
      case FreezeAuthoritySet => 1
      case InvalidDecimals => 2
      case InvalidMintAuthority => 3
  }

  /** Decodes a numeric code back into the custom error it stands for. */
  function FromCode(c: nat): (r: Option<LaunchpadError>)
    ensures r.Some? <==> ERROR_CODE_OFFSET <= c < ERROR_CODE_OFFSET + |DECLARED|
    ensures r.Some? ==> r.value == DECLARED[c - ERROR_CODE_OFFSET]
  {
    if c == ERROR_CODE_OFFSET then Some(SupplyNonZero)
    else if c == ERROR_CODE_OFFSET + 1 then Some(FreezeAuthoritySet)
    else if c == ERROR_CODE_OFFSET + 2 then Some(InvalidDecimals)
    else if c == ERROR_CODE_OFFSET + 3 then Some(InvalidMintAuthority)
    else None
  }

  /** Every way the instruction can fail: one of the program's own errors,
      an `init` target that already exists, or signer seeds that do not
      make a program address when the runtime checks the signed call. */
  datatype ProgramError =
    | Launchpad(error: LaunchpadError)
    | AccountAlreadyInUse
    | InvalidSeeds

  datatype Option<+T> = None | Some(value: T)

  datatype Result<+T> = Ok(value: T) | Err(error: ProgramError)
}
