/**
 * The demonstration program: one account is opened and exercised by a fixed
 * sequence of calls inside a single exception handler, so the first failing
 * call ends the sequence; the balance is then reported if an account exists.
 */
module BankManagementSystem {
  import opened Bank

  datatype Option<T> = None | Some(value: T)

  /** The calls of the scenario made on the account once it is open. */
  const Script: seq<Op> := [DepositCall(500.0), WithdrawCall(200.0), WithdrawCall(2000.0)]

  /**
   * From the opening balance of 1000, the first two calls succeed and the
   * third fails for lack of funds, leaving the balance at 1300.
   */
  lemma ScriptRun()
    ensures Run(1000.0, Script) == Trace(InsufficientFunds(1300.0), 1300.0, 2)
  {
  }

  /**
   * Runs the fixed scenario: open with 1000, deposit 500, withdraw 200, then
   * withdraw 2000, which fails for lack of funds with 1300 available. Returns
   * the error caught (Ok if none) and the final balance report, if any.
   */
  method Driver() returns (caught: Outcome, report: Option<Report>)
    ensures caught == InsufficientFunds(1300.0)
    ensures report == Some(Report("Ziaurrehman", 1300.0))
    ensures caught == Run(1000.0, Script).outcome
    ensures report.Some? && report.value.balance == Run(1000.0, Script).balance
  {
    var account: BankAccount?;
    account, caught := BankAccount.Open("Ziaurrehman", 1000.0);
    if caught == Ok {
      caught := account.Deposit(500.0);
    }
    if caught == Ok {
      caught := account.Withdraw(200.0);
    }
    if caught == Ok {
      caught := account.Withdraw(2000.0);
    }
    if account != null {
      var r := account.CheckBalance();
      report := Some(r);
    } else {
      report := None;
    }
  }
}
