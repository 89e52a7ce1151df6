/** The simulator's state as the program keeps it: a mutable account store and
    a current-account field, updated in place by the listeners. Each method is
    proved to perform the matching transition of module Ledger. */
module Simulator {
  import opened Outcomes
  import opened Accounts
  import opened Ledger

  class Atm {
    var accounts: Store
    var session: Option<string>
    /** The store as last written to the accounts file. */
    ghost var persisted: Store
    /** How many times the store has been written. */
    ghost var saveCount: nat

    function State(): (st: Ledger.State)
      reads this
    {
      Ledger.State(accounts, session)
    }

    /** The invariant holds in memory, and the file holds a well-formed store. */
    ghost predicate Valid()
      reads this
    {
      Inv(State()) && StoreInv(persisted)
    }

    /** Start-up with the store read from the file (empty when there is no file
        or it cannot be read). The default accounts are installed in memory only. */
    constructor (loaded: Store)
      requires StoreInv(loaded)
      ensures Valid()
      ensures State() == Startup(loaded)
      ensures persisted == loaded && saveCount == 0
    {
      accounts := loaded;
      session := None;
      persisted := loaded;
      saveCount := 0;
      new;
      if accounts == map[] {
        accounts := accounts["12345" := Account("12345", "1111", 1000.0)];
        accounts := accounts["67890" := Account("67890", "2222", 500.0)];
      }
    }

    /** Writes the whole store to the file. */
    method SaveAccounts()
      modifies this
      ensures accounts == old(accounts) && session == old(session)
      ensures persisted == accounts && saveCount == old(saveCount) + 1
    {
      persisted := accounts;
      saveCount := saveCount + 1;
    }

    method Login(accNum: string, pin: string) returns (r: Outcome)
      requires Valid()
      modifies this
      ensures Valid()
      ensures Transition(State(), r) == Ledger.Login(old(State()), accNum, pin)
      ensures persisted == old(persisted) && saveCount == old(saveCount)
    {
      if accNum in accounts && accounts[accNum].ValidatePin(pin) {
        session := Some(accNum);
        r := Ok;
      } else {
        r := Err(AuthFailed);
      }
    }

    method Logout()
      requires Valid()
      modifies this
      ensures Valid()
      ensures State() == Ledger.Logout(old(State()))
      ensures persisted == old(persisted) && saveCount == old(saveCount)
    {
      session := None;
    }

    method Deposit(amount: real) returns (r: Outcome)
      requires Valid()
      modifies this
      ensures Valid()
      ensures Transition(State(), r) == Ledger.Deposit(old(State()), amount)
      ensures r.Ok? ==> persisted == accounts && saveCount == old(saveCount) + 1
      ensures r.Err? ==> persisted == old(persisted) && saveCount == old(saveCount)
    {
      if amount > 0.0 {
        if session.None? {
          return Err(NotLoggedIn);
        }
        var k := session.value;
        var acc := accounts[k];
        accounts := accounts[k := acc.(balance := acc.balance + amount)];
        SaveAccounts();
        r := Ok;
      } else {
        r := Err(InvalidAmount);
      }
    }

    method Withdraw(amount: real) returns (r: Outcome)
      requires Valid()
      modifies this
      ensures Valid()
      ensures Transition(State(), r) == Ledger.Withdraw(old(State()), amount)
      ensures r.Ok? ==> persisted == accounts && saveCount == old(saveCount) + 1
      ensures r.Err? ==> persisted == old(persisted) && saveCount == old(saveCount)
    {
      if amount > 0.0 && session.None? {
        return Err(NotLoggedIn);
      }
      if amount > 0.0 && accounts[session.value].balance >= amount {
        var k := session.value;
        var acc := accounts[k];
        accounts := accounts[k := acc.(balance := acc.balance - amount)];
        SaveAccounts();
        r := Ok;
      } else {
        r := Err(WithdrawRejected);
      }
    }

    method AddAccount(accNum: string, pin: string, balance: real) returns (r: Outcome)
      requires Valid()
      modifies this
      ensures Valid()
      ensures Transition(State(), r) == Ledger.Add(old(State()), accNum, pin, balance)
      ensures r.Ok? ==> persisted == accounts && saveCount == old(saveCount) + 1
      ensures r.Err? ==> persisted == old(persisted) && saveCount == old(saveCount)
    {
      if accNum != "" && pin != "" && balance >= 0.0 {
        if accNum in accounts {
          r := Err(DuplicateAccount);
        } else {
          accounts := accounts[accNum := Account(accNum, pin, balance)];
          SaveAccounts();
          r := Ok;
        }
      } else {
        r := Err(InvalidDetails);
      }
    }

    /** `selected` is the account chosen in the admin list, if any. The admin
        panel is reachable only while nobody is logged in, so the selection is
        never the current account. */
    method DeleteAccount(selected: Option<string>) returns (r: Outcome)
      requires Valid()
      requires selected.Some? ==> session != Some(selected.value)
      modifies this
      ensures Valid()
      ensures Transition(State(), r) == Ledger.Delete(old(State()), selected)
      ensures r.Ok? ==> persisted == accounts && saveCount == old(saveCount) + 1
      ensures r.Err? ==> persisted == old(persisted) && saveCount == old(saveCount)
    {
      if selected.Some? {
        accounts := accounts - {selected.value};
        SaveAccounts();
        r := Ok;
      } else {
        r := Err(NoSelection);
      }
    }

    /** `selected` is the account chosen in the admin list, which is rebuilt
        from the store after every change, so it names an entry of the store. */
    method ModifyAccount(selected: Option<string>, newPin: string, newBalance: real) returns (r: Outcome)
      requires Valid()
      requires selected.Some? ==> selected.value in accounts
      modifies this
      ensures Valid()
      ensures Transition(State(), r) == Ledger.Modify(old(State()), selected, newPin, newBalance)
      ensures r.Ok? ==> persisted == accounts && saveCount == old(saveCount) + 1
      ensures r.Err? ==> persisted == old(persisted) && saveCount == old(saveCount)
    {
      if selected.None? {
        return Err(NoSelection);
      }
      var k := selected.value;
      if newPin != "" && newBalance >= 0.0 {
        var acc := accounts[k];
        accounts := accounts[k := acc.(pin := newPin, balance := newBalance)];
        SaveAccounts();
        r := Ok;
      } else {
        r := Err(InvalidValues);
      }
    }
  }

  /** The default-account scenario, driven through the in-place simulator. */
  method DefaultAccountSession() returns (balance: real)
    ensures balance == 1250.0
  {
    var atm := new Atm(map[]);
    var r := atm.Login("12345", "1111");
    assert r == Ok;
    r := atm.Deposit(250.0);
    assert r == Ok;
    r := atm.Withdraw(2000.0);
    assert r == Err(WithdrawRejected);
    balance := atm.accounts["12345"].balance;
    atm.Logout();
    assert atm.session == None;
  }
}
