/** The account record: an account number, a PIN and a balance. */
module Accounts {

  /** Balances are decimal amounts; only comparison, addition and subtraction
      are ever applied to them, so they are modelled exactly as reals. */
  datatype Account = Account(accountNumber: string, pin: string, balance: real)
  {
    /** Exact, case-sensitive string comparison against the stored PIN. */
    function ValidatePin(inputPin: string): (ok: bool)
      ensures ok ==> inputPin == pin
      ensures inputPin == pin ==> ok
    {
      pin == inputPin
    }
  }
}
