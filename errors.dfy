/**
 * The exceptions that can leave the percentage service.
 * PercentageUnavailableException is the service's own failure kind; every other
 * exception that reaches the caller (a storage failure during the audit write, a
 * rejected request) is an `Unexpected` one.
 */
module Errors {

  datatype ServiceException =
    | PercentageUnavailable(message: string)
    | Unexpected(message: string)
}
