/** Properties of the ledger transitions: the global invariant, round trips
    between operations that undo each other, and the documented scenarios. */
module LedgerProperties {
  import opened Outcomes
  import opened Accounts
  import opened Ledger

  /** No single request breaks the invariant: every balance stays non-negative,
      every record stays under its own number, the session names an account. */
  lemma StepPreservesInv(s: State, op: Op)
    requires Inv(s) && Enabled(s, op)
    ensures Inv(Step(s, op).state)
  {
  }

  /** At most one PIN logs in to a given account number. */
  lemma LoginPinUnique(s: State, accNum: string, p: string, q: string)
    requires Login(s, accNum, p).outcome.Ok? && Login(s, accNum, q).outcome.Ok?
    ensures p == q
  {
  }

  /** Any enabled sequence of requests keeps the invariant. */
  lemma {:induction false} RunPreservesInv(s: State, ops: seq<Op>, t: State)
    requires Inv(s) && Run(s, ops) == Some(t)
    ensures Inv(t)
    decreases |ops|
  {
    if ops != [] {
      StepPreservesInv(s, ops[0]);
      RunPreservesInv(Step(s, ops[0]).state, ops[1..], t);
    }
  }

  /** From start-up on a well-formed file (or none), no sequence of requests
      ever produces a negative balance or a record filed under another number. */
  lemma NeverNegative(loaded: Store, ops: seq<Op>, t: State, k: string)
    requires StoreInv(loaded) && Run(Startup(loaded), ops) == Some(t)
    requires k in t.accounts
    ensures t.accounts[k].balance >= 0.0 && t.accounts[k].accountNumber == k
  {
    RunPreservesInv(Startup(loaded), ops, t);
  }

  /** Withdrawing what was just deposited restores the store exactly. */
  lemma DepositThenWithdraw(s: State, amount: real)
    requires Inv(s) && s.session.Some? && amount > 0.0
    ensures Deposit(s, amount).outcome == Ok
    ensures Withdraw(Deposit(s, amount).state, amount) == Transition(s, Ok)
  {
  }

  /** Deleting an account that was just added restores the store exactly. */
  lemma AddThenDelete(s: State, accNum: string, pin: string, balance: real)
    requires Inv(s) && Add(s, accNum, pin, balance).outcome == Ok
    ensures Delete(Add(s, accNum, pin, balance).state, Some(accNum)) == Transition(s, Ok)
  {
  }

  /** After a successful add, looking the number up yields exactly the supplied
      record; a rejected add leaves any existing record as it was. */
  lemma AddThenLookup(s: State, accNum: string, pin: string, balance: real)
    ensures var r := Add(s, accNum, pin, balance);
      (r.outcome == Ok ==> accNum in r.state.accounts &&
                           r.state.accounts[accNum] == Account(accNum, pin, balance)) &&
      (accNum in s.accounts ==> accNum in r.state.accounts &&
                                r.state.accounts[accNum] == s.accounts[accNum])
  {
  }

  /** Logging in and out again from the anonymous state returns to it. */
  lemma LoginThenLogout(s: State, accNum: string, pin: string)
    requires s.session == None
    ensures Logout(Login(s, accNum, pin).state) == s
  {
  }

  /** Modifying twice with the same values is the same as modifying once. */
  lemma ModifyIdempotent(s: State, k: string, newPin: string, newBalance: real)
    requires k in s.accounts
    ensures var once := Modify(s, Some(k), newPin, newBalance).state;
      Modify(once, Some(k), newPin, newBalance).state == once
  {
  }

  /** Scenario: log in to the default account 12345, deposit 250, fail to
      withdraw 2000, log out. */
  lemma DefaultAccountScenario()
    ensures var s0 := Startup(map[]);
      var l := Login(s0, "12345", "1111");
      var d := Deposit(l.state, 250.0);
      var w := Withdraw(d.state, 2000.0);
      l.outcome == Ok && d.outcome == Ok &&
      d.state.accounts["12345"].balance == 1250.0 &&
      w == Transition(d.state, Err(WithdrawRejected)) &&
      Logout(w.state) == State(w.state.accounts, None)
  {
  }

  /** Scenario: adding an account with a negative balance is rejected and
      changes nothing. */
  lemma NegativeAddScenario(s: State)
    ensures Add(s, "999", "5555", -10.0) == Transition(s, Err(InvalidDetails))
  {
  }
}
