/** The account store and the session as one value, and every listener of the
    simulator as a pure transition on it. The class in module Simulator performs
    the same transitions in place and is proved against these functions. */
module Ledger {
  import opened Outcomes
  import opened Accounts

  type Store = map<string, Account>

  /** The account store and the current account (by its number), if any. */
  datatype State = State(accounts: Store, session: Option<string>)

  datatype Transition = Transition(state: State, outcome: Outcome)

  /** The two accounts installed when nothing was loaded. */
  function Defaults(): (m: Store)
    ensures m.Keys == {"12345", "67890"}
    ensures m["12345"] == Account("12345", "1111", 1000.0)
    ensures m["67890"] == Account("67890", "2222", 500.0)
  {
    map["12345" := Account("12345", "1111", 1000.0), "67890" := Account("67890", "2222", 500.0)]
  }

  /** Every record is filed under its own account number and no balance is negative. */
  predicate StoreInv(m: Store)
  {
    forall k :: k in m ==> m[k].accountNumber == k && m[k].balance >= 0.0
  }

  /** The current account, if any, is an entry of the store. */
  predicate SessionValid(s: State)
  {
    s.session.Some? ==> s.session.value in s.accounts
  }

  predicate Inv(s: State)
  {
    StoreInv(s.accounts) && SessionValid(s)
  }

  /** `m'` differs from `m` at most in the record filed under `k`. */
  predicate OthersUnchanged(m: Store, m': Store, k: string)
  {
    forall j :: j in m && j != k ==> j in m' && m'[j] == m[j]
  }

  /** Start-up: the loaded store (empty when the file is absent or unreadable),
      replaced by the two default accounts when it is empty. Nobody is logged in. */
  function Startup(loaded: Store): (s: State)
    ensures s.session == None
    ensures loaded != map[] ==> s.accounts == loaded
    ensures loaded == map[] ==> s.accounts == Defaults()
    ensures StoreInv(loaded) ==> Inv(s)
  {
    State(if loaded == map[] then Defaults() else loaded, None)
  }

  /** Login succeeds exactly when the number is a key and the PIN validates;
      only the session changes. */
  function Login(s: State, accNum: string, pin: string): (r: Transition)
    ensures r.outcome.Ok? <==> accNum in s.accounts && s.accounts[accNum].ValidatePin(pin)
    ensures r.outcome.Ok? ==> r.state == State(s.accounts, Some(accNum))
    ensures r.outcome.Err? ==> r == Transition(s, Err(AuthFailed))
  {
    if accNum in s.accounts && s.accounts[accNum].ValidatePin(pin) then
      Transition(s.(session := Some(accNum)), Ok)
    else
      Transition(s, Err(AuthFailed))
  }

  /** Logout always clears the session and touches no account. */
  function Logout(s: State): (r: State)
    ensures r.session == None && r.accounts == s.accounts
  {
    s.(session := None)
  }

  /** Deposit: a positive amount is added to the current account; a
      non-positive amount, or no current account, changes nothing. */
  function Deposit(s: State, amount: real): (r: Transition)
    requires SessionValid(s)
    ensures r.outcome.Ok? <==> amount > 0.0 && s.session.Some?
    ensures amount <= 0.0 ==> r == Transition(s, Err(InvalidAmount))
    ensures amount > 0.0 && s.session.None? ==> r == Transition(s, Err(NotLoggedIn))
    ensures r.outcome.Err? ==> r.state == s
    ensures r.state.session == s.session && r.state.accounts.Keys == s.accounts.Keys
    ensures r.outcome.Ok? ==>
      var k := s.session.value;
      OthersUnchanged(s.accounts, r.state.accounts, k) &&
      r.state.accounts[k].accountNumber == s.accounts[k].accountNumber &&
      r.state.accounts[k].pin == s.accounts[k].pin &&
      r.state.accounts[k].balance == s.accounts[k].balance + amount
  {
    if amount > 0.0 then
      if s.session.None? then Transition(s, Err(NotLoggedIn))
      else
        var k := s.session.value;
        var acc := s.accounts[k];
        Transition(s.(accounts := s.accounts[k := acc.(balance := acc.balance + amount)]), Ok)
    else
      Transition(s, Err(InvalidAmount))
  }

  /** Withdraw: succeeds exactly when the amount is positive and covered by the
      current account's balance, which then drops by that amount. */
  function Withdraw(s: State, amount: real): (r: Transition)
    requires SessionValid(s)
    ensures r.outcome.Ok? <==>
      amount > 0.0 && s.session.Some? && s.accounts[s.session.value].balance >= amount
    ensures amount <= 0.0 ==> r == Transition(s, Err(WithdrawRejected))
    ensures amount > 0.0 && s.session.None? ==> r == Transition(s, Err(NotLoggedIn))
    ensures amount > 0.0 && s.session.Some? && s.accounts[s.session.value].balance < amount ==>
      r == Transition(s, Err(WithdrawRejected))
    ensures r.outcome.Err? ==> r.state == s
    ensures r.state.session == s.session && r.state.accounts.Keys == s.accounts.Keys
    ensures r.outcome.Ok? ==>
      var k := s.session.value;
      OthersUnchanged(s.accounts, r.state.accounts, k) &&
      r.state.accounts[k].accountNumber == s.accounts[k].accountNumber &&
      r.state.accounts[k].pin == s.accounts[k].pin &&
      r.state.accounts[k].balance == s.accounts[k].balance - amount &&
      r.state.accounts[k].balance >= 0.0
  {
    if amount > 0.0 && s.session.None? then
      Transition(s, Err(NotLoggedIn))
    else if amount > 0.0 && s.accounts[s.session.value].balance >= amount then
      var k := s.session.value;
      var acc := s.accounts[k];
      Transition(s.(accounts := s.accounts[k := acc.(balance := acc.balance - amount)]), Ok)
    else
      Transition(s, Err(WithdrawRejected))
  }

  /** Add: inserts a new record only for a non-empty number and PIN, a
      non-negative balance and a number that is not yet a key. */
  function Add(s: State, accNum: string, pin: string, balance: real): (r: Transition)
    ensures r.outcome.Ok? <==> accNum != "" && pin != "" && balance >= 0.0 && accNum !in s.accounts
    ensures r.outcome == Err(DuplicateAccount) <==>
      accNum != "" && pin != "" && balance >= 0.0 && accNum in s.accounts
    ensures !(accNum != "" && pin != "" && balance >= 0.0) ==> r == Transition(s, Err(InvalidDetails))
    ensures r.outcome.Err? ==> r.state == s
    ensures r.state.session == s.session
    ensures r.outcome.Ok? ==>
      r.state.accounts.Keys == s.accounts.Keys + {accNum} &&
      r.state.accounts[accNum] == Account(accNum, pin, balance) &&
      OthersUnchanged(s.accounts, r.state.accounts, accNum)
  {
    if accNum != "" && pin != "" && balance >= 0.0 then
      if accNum in s.accounts then Transition(s, Err(DuplicateAccount))
      else Transition(s.(accounts := s.accounts[accNum := Account(accNum, pin, balance)]), Ok)
    else
      Transition(s, Err(InvalidDetails))
  }

  /** Delete: removes the selected number's entry (a number that is not a key
      leaves the store as it is) and nothing else. */
  function Delete(s: State, selected: Option<string>): (r: Transition)
    ensures r.outcome.Ok? <==> selected.Some?
    ensures r.outcome.Err? ==> r == Transition(s, Err(NoSelection))
    ensures r.state.session == s.session
    ensures r.outcome.Ok? ==>
      r.state.accounts.Keys == s.accounts.Keys - {selected.value} &&
      OthersUnchanged(s.accounts, r.state.accounts, selected.value)
  {
    match selected
    case None => Transition(s, Err(NoSelection))
    case Some(k) => Transition(s.(accounts := s.accounts - {k}), Ok)
  }

  /** Modify: overwrites the selected account's PIN and balance when the new PIN
      is non-empty and the new balance is non-negative; the number is kept. */
  function Modify(s: State, selected: Option<string>, newPin: string, newBalance: real): (r: Transition)
    requires selected.Some? ==> selected.value in s.accounts
    ensures r.outcome.Ok? <==> selected.Some? && newPin != "" && newBalance >= 0.0
    ensures selected.None? ==> r == Transition(s, Err(NoSelection))
    ensures selected.Some? && !(newPin != "" && newBalance >= 0.0) ==> r == Transition(s, Err(InvalidValues))
    ensures r.outcome.Err? ==> r.state == s
    ensures r.state.session == s.session && r.state.accounts.Keys == s.accounts.Keys
    ensures r.outcome.Ok? ==>
      var k := selected.value;
      OthersUnchanged(s.accounts, r.state.accounts, k) &&
      r.state.accounts[k] == Account(s.accounts[k].accountNumber, newPin, newBalance)
  {
    match selected
    case None => Transition(s, Err(NoSelection))
    case Some(k) =>
      if newPin != "" && newBalance >= 0.0 then
        var acc := s.accounts[k];
        Transition(s.(accounts := s.accounts[k := acc.(pin := newPin, balance := newBalance)]), Ok)
      else
        Transition(s, Err(InvalidValues))
  }

  /** A request the user interface can issue, with its inputs already parsed and trimmed. */
  datatype Op =
    | LoginOp(accNum: string, pin: string)
    | LogoutOp
    | DepositOp(amount: real)
    | WithdrawOp(amount: real)
    | AddOp(newNum: string, newPin: string, initial: real)
    | DeleteOp(selected: Option<string>)
    | ModifyOp(chosen: Option<string>, pinValue: string, balanceValue: real)

  /** What the user interface guarantees before issuing `op`: the admin list
      mirrors the store, and the admin panel is only reachable while nobody is
      logged in, so the current account is never deleted. */
  predicate Enabled(s: State, op: Op)
  {
    match op
    case DeleteOp(sel) => sel.Some? ==> s.session != Some(sel.value)
    case ModifyOp(sel, _, _) => sel.Some? ==> sel.value in s.accounts
    case _ => true
  }

  function Step(s: State, op: Op): (r: Transition)
    requires SessionValid(s) && Enabled(s, op)
  {
    match op
    case LoginOp(n, p) => Login(s, n, p)
    case LogoutOp => Transition(Logout(s), Ok)
    case DepositOp(a) => Deposit(s, a)
    case WithdrawOp(a) => Withdraw(s, a)
    case AddOp(n, p, b) => Add(s, n, p, b)
    case DeleteOp(sel) => Delete(s, sel)
    case ModifyOp(sel, p, b) => Modify(s, sel, p, b)
  }

  /** The state after issuing `ops` in order, or None when one of them is not enabled. */
  function Run(s: State, ops: seq<Op>): (r: Option<State>)
    decreases |ops|
  {
    if ops == [] then Some(s)
    else if SessionValid(s) && Enabled(s, ops[0]) then Run(Step(s, ops[0]).state, ops[1..])
    else None
  }
}
