/** The error kinds of the contract (src/error.rs) and of the host library it converts from. */
module Errors {

  /** `cosmwasm_std::StdError`, reduced to the cases this contract can raise. */
  datatype StdError =
    | NotFound(kind: string)                 // loading an `Item` that was never saved
    | ParseErr(target: string, msg: string)  // JSON that does not decode into the expected type
    | InvalidAddress(addr: string)           // `api.addr_validate` rejected an address
    | HostError(operation: string)           // any other failing host call

  /** `cw_utils::PaymentError`, the one case `nonpayable` raises. */
  datatype PaymentError = NonPayable

  /** `ContractError` of src/error.rs. */
  datatype ContractError =
    | Std(std: StdError)
    | Payment(payment: PaymentError)
    | Unauthorized
    | UnknownMemo
    | InvalidMemoFormat(memo: string)
    | NoCreditAccount
    | DestinationNotFound(destination: string)
    | IcaQueryError(queryError: string)
    | InvalidAmount

  /** Why a call aborted the transaction instead of returning an error. */
  datatype PanicReason =
    | DivideByZero            // `Decimal::from_ratio` with a zero denominator
    | MultiplicationOverflow  // `Decimal::from_ratio` whose value exceeds the Uint128 range
    | AddOverflow             // `Uint128 + Uint128` beyond 2^128 - 1
    | Unimplemented(what: string)
    | UnwrapFailed(what: string)

  /** How an entry point can end other than successfully: a returned error or a panic.
      Both abort the transaction; the chain then discards every storage write. */
  datatype Halt = Err(error: ContractError) | Panic(reason: PanicReason)
}
