# SecureATM simulator: account ledger and session

A model of the business logic of the SecureATM simulator, a Swing desktop
program that lets a user log in to an account, deposit and withdraw, and lets
an administrator add, delete and modify accounts. Underneath the user interface
the program keeps a store mapping account numbers to account records
(number, PIN, balance), a current-account field that is either empty or the
logged-in account, and writes the whole store to a file after every successful
change.

The model has three layers:

- `Accounts` (accounts.dfy): the account record and its PIN check.
  `Outcomes` (outcomes.dfy) holds the result type, one error per message the
  program shows when it rejects a request.
- `Ledger` (ledger.dfy): the store and the session as one value (`State`), and
  every listener of the program as a pure transition returning the new state and
  an outcome. Each function's contract states when the request succeeds (both
  directions), exactly what changes, and that nothing else does.
  `LedgerProperties` (ledger_properties.dfy) proves the global invariant (every
  record is filed under its own number, no balance is negative, the current
  account is in the store) for every request and every sequence of requests
  from start-up, the round trips between requests that undo each other, and two
  worked scenarios.
- `Simulator` (simulator.dfy): the class `Atm` with the fields the program
  updates in place (`accounts`, `session`) and a ghost snapshot of the file
  (`persisted`, with a write counter `saveCount`). Each method is proved to
  perform the matching `Ledger` transition, to keep the invariant, and to write
  the file exactly when the request succeeded.

Balances are reals: the program only compares, adds and subtracts them.
Inputs are taken already parsed and trimmed. The session names the current
account by its number. In the program the current-account field aliases the
store's record, so a deposit is visible through the store; the model updates
the store entry under that number, which has the same effect.

Details of the program's behaviour that the model keeps:

- Withdraw has one rejection for a non-positive amount and for an amount above
  the balance, because the program shows one message for both.
- The program has no separate not-found error for delete. It removes the account selected in the admin
  list, and a key that is absent leaves the store as it is. It still writes the file.
- Modify has no not-found error either: it only runs on an account selected
  in the admin list, which is rebuilt from the store after every change.
- Deposit or withdraw with nobody logged in dereferences an empty field. The
  program's generic exception handler catches this and nothing changes. The
  model returns `NotLoggedIn` in that case, after the checks the program makes first.
- The two default accounts installed at start-up are not written to the file
  until the first successful change, because the program does not save after seeding.

## Model

| member | source | states |
|---|---|---|
| `Accounts.Account.ValidatePin` | SecureATMSimulator.java:18-20 | the PIN check accepts the stored PIN and no other string (exact, case-sensitive) |
| `LedgerProperties.LoginPinUnique` | SecureATMSimulator.java:134-135 | if two PINs both log in to the same account number, they are the same PIN |
| `Ledger.Defaults` | SecureATMSimulator.java:52-56 | the default store is exactly 12345/1111/1000 and 67890/2222/500 |
| `Ledger.Startup` | SecureATMSimulator.java:49-56 | a non-empty loaded store is kept, an empty one is replaced by exactly the two default records, nobody is logged in, and a well-formed loaded store gives a state satisfying the invariant |
| `Ledger.Login` | SecureATMSimulator.java:130-143 | login succeeds iff the number is a key and its PIN validates; on success only the session changes, to that number; otherwise the state is unchanged and the error is AuthFailed |
| `Ledger.Logout` | SecureATMSimulator.java:184-187 | logout always clears the session and leaves every account unchanged |
| `Ledger.Deposit` | SecureATMSimulator.java:150-165 | deposit succeeds iff the amount is positive and someone is logged in; the current balance rises by exactly the amount, its number and PIN and every other account are unchanged; a non-positive amount is InvalidAmount, a positive one with nobody logged in is NotLoggedIn, and both change nothing |
| `Ledger.Withdraw` | SecureATMSimulator.java:167-182 | withdraw succeeds iff the amount is positive and at most the current balance; the balance then drops by exactly the amount and stays non-negative, other accounts are unchanged; a non-positive amount or one above the balance is WithdrawRejected, a positive one with nobody logged in is NotLoggedIn, and any rejection changes nothing |
| `Ledger.Add` | SecureATMSimulator.java:189-222 | add succeeds iff number and PIN are non-empty, the balance is non-negative and the number is not a key; it then inserts exactly that record and keeps every other; empty number or PIN or a negative balance is InvalidDetails; a duplicate is DuplicateAccount; both leave the store, including the existing record, unchanged |
| `Ledger.Delete` | SecureATMSimulator.java:224-237 | with a selection, exactly that number's entry is removed and every other entry is unchanged; without one, NoSelection and nothing changes |
| `Ledger.Modify` | SecureATMSimulator.java:239-272 | with a selection, a non-empty PIN and a non-negative balance, the selected record gets that PIN and balance and keeps its number, others unchanged; invalid values are InvalidValues, no selection is NoSelection, and both change nothing |
| `LedgerProperties.StepPreservesInv` | SecureATMSimulator.java:150-272 | every request the user interface can issue keeps all balances non-negative, each record under its own number, and the current account in the store |
| `LedgerProperties.RunPreservesInv` | SecureATMSimulator.java:150-272 | every sequence of such requests keeps that invariant |
| `LedgerProperties.NeverNegative` | SecureATMSimulator.java:49-56 | after start-up on a well-formed or absent file, no sequence of requests ever yields a negative balance or a record filed under another number |
| `LedgerProperties.DepositThenWithdraw` | SecureATMSimulator.java:150-182 | withdrawing an amount just deposited succeeds and restores the state exactly |
| `LedgerProperties.AddThenDelete` | SecureATMSimulator.java:206-232 | deleting an account just added restores the store exactly |
| `LedgerProperties.AddThenLookup` | SecureATMSimulator.java:206-216 | after a successful add the number maps to exactly the supplied record; an existing record survives any add |
| `LedgerProperties.LoginThenLogout` | SecureATMSimulator.java:130-187 | logging in and then out from the anonymous state returns to that state |
| `LedgerProperties.ModifyIdempotent` | SecureATMSimulator.java:257-261 | modifying twice with the same values equals modifying once |
| `LedgerProperties.DefaultAccountScenario` | SecureATMSimulator.java:150-187 | on the default store: login 12345/1111 succeeds, deposit 250 gives 1250, withdraw 2000 is rejected leaving 1250, logout clears the session |
| `LedgerProperties.NegativeAddScenario` | SecureATMSimulator.java:206-217 | adding 999/5555 with balance -10 is rejected as invalid and changes nothing |
| `Simulator.Atm.constructor` | SecureATMSimulator.java:49-56 | the in-place store starts as the start-up state, satisfies the invariant, and the file still holds what was loaded; every method keeps the file's contents well-formed |
| `Simulator.Atm.SaveAccounts` | SecureATMSimulator.java:293-299 | the file snapshot becomes the current store and nothing else changes |
| `Simulator.Atm.Login` | SecureATMSimulator.java:130-143 | performs the login transition in place and never writes the file |
| `Simulator.Atm.Logout` | SecureATMSimulator.java:184-187 | clears the session in place and never writes the file |
| `Simulator.Atm.Deposit` | SecureATMSimulator.java:150-165 | performs the deposit transition in place, keeps the invariant, writes the file once iff it succeeded |
| `Simulator.Atm.Withdraw` | SecureATMSimulator.java:167-182 | performs the withdraw transition in place, keeps the invariant, writes the file once iff it succeeded |
| `Simulator.Atm.AddAccount` | SecureATMSimulator.java:189-222 | performs the add transition in place, keeps the invariant, writes the file once iff it succeeded |
| `Simulator.Atm.DeleteAccount` | SecureATMSimulator.java:224-237 | performs the delete transition in place, keeps the invariant, writes the file once iff it succeeded |
| `Simulator.Atm.ModifyAccount` | SecureATMSimulator.java:239-272 | performs the modify transition in place, keeps the invariant, writes the file once iff it succeeded |
| `Simulator.DefaultAccountSession` | SecureATMSimulator.java:150-187 | the default-account scenario driven through the in-place class leaves balance 1250 |

## Left out

- The Swing user interface: panel switching, widgets, dialogs, the balance label and the clearing of the login fields. They are presentation only.
- Confirmation and cancel buttons of the admin dialogs: the model is called only when the administrator confirms.
- Parsing and trimming of inputs, and the number-format error branches: operations take already-parsed, already-trimmed values.
- Object serialization and file I/O: saving is a ghost snapshot of the store that always succeeds. A failed save in the program only shows a message and keeps the in-memory change, which the model does not represent. Loading is the constructor's parameter, empty when the file is absent or unreadable.
- Simulator.Atm.constructor: requires the loaded store to satisfy the invariant, because the file is only ever written from the in-memory store (the class invariant includes that the file's contents are well-formed, and every method keeps it).
- Floating-point behaviour of the balance (NaN, infinities, rounding) and its two-decimal rendering.
- The admin list's ordering: hash-map iteration order carries no meaning.
- Simulator.Atm.DeleteAccount: requires that the selected account is not the logged-in one. The admin panel is only reachable from the login screen, where nobody is logged in; the program would otherwise keep operating on a record detached from the store.
- Simulator.Atm.ModifyAccount: requires that the selected number is a key, because the admin list is rebuilt from the store after every change.
