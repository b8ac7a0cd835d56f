# Bank account model

A Dafny model of the single-account banking demo in
`src/BankManagementSystem.java`. A `BankAccount` has a holder name, set once
when the account is opened, and a balance. Deposits and withdrawals change the
balance in place, each after its own input checks. Two errors can come out:

- the negative-amount error, for a negative opening balance, deposit or withdrawal;
- the insufficient-funds error, for a withdrawal larger than the balance, which
  reports the balance that was available.

The model has two modules.

- `Bank` (`bank.dfy`) holds the account itself.
  - `Outcome` replaces the two Java exception classes: `Ok`,
    `NegativeAmount` or `InsufficientFunds(available)`.
  - The pure functions `OpenOutcome`, `DepositStep` and `WithdrawStep` say
    what each operation decides and which balance it leaves. Their contracts
    state the exact conditions of each error, in the source's order of checks.
  - The class `BankAccount` has the const `holder` and the mutable `balance`.
    `Deposit` and `Withdraw` update the balance in place, are proved against
    `DepositStep` and `WithdrawStep`, and keep the invariant `Valid()` (the
    balance is never negative). The static method `Open` builds a new
    account and is proved against `OpenOutcome`. `CheckBalance` only reads.
  - `Run` models what the driver's `try` block does: calls in order until
    the first one throws. Four lemmas about `Run` state the balance
    and success properties for any sequence of calls.
- `BankManagementSystem` (`driver.dfy`) holds `Driver`, the fixed scenario
  of `main`. It is proved to end with the insufficient-funds error
  (available 1300) and a final report of 1300 for "Ziaurrehman".

Amounts are exact `real` numbers in place of Java's `double`.

The holder may be any string, the empty one included, as in the Java
constructor (lines 28-29). In Java `deposit` and `withdraw` return nothing
(lines 38, 48); the model's methods return the `Outcome` and leave the new
balance in the field.

## Model

| member | source | states |
|---|---|---|
| `Bank.OpenOutcome` | src/BankManagementSystem.java:28-34 | opening fails with the negative-amount error exactly when the initial balance is negative, succeeds otherwise, and never reports insufficient funds |
| `Bank.BankAccount.Open` | src/BankManagementSystem.java:28-34 | a negative initial balance yields no account and the negative-amount error; otherwise a fresh valid account with exactly the given holder and initial balance |
| `Bank.BankAccount.constructor` | src/BankManagementSystem.java:28-34 | an account built from an already checked initial balance holds that holder and balance and is valid |
| `Bank.DepositStep` | src/BankManagementSystem.java:38-42 | a deposit fails with the negative-amount error iff the amount is negative and then leaves the balance unchanged; otherwise it succeeds with balance `old + amount`; it never reports insufficient funds and keeps a non-negative balance non-negative |
| `Bank.BankAccount.Deposit` | src/BankManagementSystem.java:38-42 | the in-place deposit returns the outcome and leaves the balance that `DepositStep` gives for the old balance, and keeps the account valid; the holder is a const and cannot change |
| `Bank.WithdrawStep` | src/BankManagementSystem.java:49-55 | a negative amount always gives the negative-amount error, never insufficient funds; a non-negative amount above the balance gives insufficient funds carrying the current balance; success iff `0 <= amount <= balance` (the whole balance may be taken), with balance `old - amount`; a failure leaves the balance unchanged; non-negativity is kept |
| `Bank.BankAccount.Withdraw` | src/BankManagementSystem.java:49-55 | the in-place withdrawal returns the outcome and leaves the balance that `WithdrawStep` gives for the old balance, and keeps the account valid |
| `Bank.BankAccount.CheckBalance` | src/BankManagementSystem.java:61-63 | reports the holder and the current balance, which is non-negative, and modifies nothing, so repeated checks with no call in between report the same |
| `Bank.Apply` | src/BankManagementSystem.java:38-55 | a failed deposit or withdrawal leaves the balance unchanged, and no call makes a non-negative balance negative |
| `Bank.Run` | src/BankManagementSystem.java:71-91 | calls run in order until the first failure: the run completes all calls iff it reports Ok, and otherwise the call at the stopping index, applied to the final balance, raises exactly the reported error |
| `Bank.RunKeepsNonNegative` | src/BankManagementSystem.java:30-55 | from a non-negative balance, any sequence of deposits and withdrawals, successful or not, ends at a non-negative balance |
| `Bank.RunPrefixSucceeds` | src/BankManagementSystem.java:71-83 | running only the calls before the stopping index completes with Ok and reaches the same final balance |
| `Bank.RunStepsSucceed` | src/BankManagementSystem.java:71-83 | each call before the stopping index succeeds: applied to the balance left by the calls before it, call `i` reports Ok and leaves the balance the first `i + 1` calls reach |
| `Bank.RunBalance` | src/BankManagementSystem.java:42-55 | the final balance of a run is the initial balance plus deposits minus withdrawals of exactly the calls that succeeded |
| `BankManagementSystem.Driver` | src/BankManagementSystem.java:68-95 | the fixed scenario (open 1000, deposit 500, withdraw 200, withdraw 2000) stops at the last withdrawal with insufficient funds, available 1300, and the final balance report is "Ziaurrehman" with 1300; the error caught and the reported balance are those `Run` gives for the same three calls from 1000 |
| `BankManagementSystem.ScriptRun` | src/BankManagementSystem.java:73-82 | from 1000, `Run` of deposit 500, withdraw 200, withdraw 2000 completes two calls and stops with insufficient funds, available 1300, at balance 1300 |

## Left out

- Console output: all `System.out.println` lines and the exact message texts, including the `finally` line, which only prints. The available balance is kept as data in `InsufficientFunds`.
- `double` arithmetic: rounding, infinities and NaN are deliberately not modelled; amounts are exact reals. In Java a NaN amount passes both the `< 0` and the `> balance` checks; the model has no such value.
- The difference between the checked `InsufficientFundsException` and the unchecked `NegativeAmountException`, and the `try/catch/finally` mechanics. Both become values of one `Outcome` type. `Driver` and `Run` stop at the first failing call, as the `try` block does.
- The `BankOperations` interface: it has one implementation and no polymorphic behaviour.
- In Java, the constructor assigns `accountHolder` before it checks the balance and throws. That half-built object is never observable, so `Open` rejects the balance before anything is built.
