/** Result values of the simulator's operations. Each error names one of the
    messages the simulator shows when it rejects a request and changes nothing. */
module Outcomes {

  datatype Option<+T> = None | Some(value: T)

  datatype Error =
    | AuthFailed         // "Invalid account number or PIN."
    | NotLoggedIn        // no current account: the dereference fails and the generic handler reports it
    | InvalidAmount      // deposit of a non-positive amount
    | WithdrawRejected   // "Insufficient funds or invalid amount." (one message for both causes)
    | InvalidDetails     // add: empty account number or PIN, or a negative balance
    | DuplicateAccount   // add: the account number is already a key
    | NoSelection        // delete/modify with nothing selected in the admin list
    | InvalidValues      // modify: empty PIN or a negative balance

  datatype Outcome = Ok | Err(error: Error)
}
