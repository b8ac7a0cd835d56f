/**
 * A single bank account: a holder name fixed at opening and a balance that
 * only deposits and withdrawals change, each after its own input checks.
 *
 * Amounts are exact reals. The two exception kinds of the account are folded
 * into one `Outcome` value that every operation returns.
 */
module Bank {

  /** What an operation reports: success, or which of the two errors it raised. */
  datatype Outcome =
    | Ok
      /** a negative opening balance, deposit or withdrawal */
    | NegativeAmount
      /** a withdrawal larger than the balance; carries the balance at that moment */
    | InsufficientFunds(available: real)

  /** The outcome of one balance-changing call together with the balance it leaves. */
  datatype Step = Step(outcome: Outcome, balance: real)

  /** What a balance check reports. */
  datatype Report = Report(holder: string, balance: real)

  /** Opening an account: only a negative initial balance is refused. */
  function OpenOutcome(initialBalance: real): (r: Outcome)
    ensures r == NegativeAmount <==> initialBalance < 0.0
    ensures r == Ok <==> initialBalance >= 0.0
    ensures !r.InsufficientFunds?
  {
    if initialBalance < 0.0 then NegativeAmount else Ok
  }

  /** A deposit into an account holding `balance`. */
  function DepositStep(balance: real, amount: real): (r: Step)
    ensures r.outcome == NegativeAmount <==> amount < 0.0
    ensures r.outcome == Ok <==> amount >= 0.0
    ensures !r.outcome.InsufficientFunds?
    ensures r.outcome == Ok ==> r.balance == balance + amount
    ensures r.outcome != Ok ==> r.balance == balance
    ensures balance >= 0.0 ==> r.balance >= 0.0
  {
    if amount < 0.0 then Step(NegativeAmount, balance)
    else Step(Ok, balance + amount)
  }

  /**
   * A withdrawal from an account holding `balance`. The sign of the amount is
   * checked before the funds, and taking out exactly the whole balance is allowed.
   */
  function WithdrawStep(balance: real, amount: real): (r: Step)
    ensures r.outcome == NegativeAmount <==> amount < 0.0
    ensures r.outcome.InsufficientFunds? <==> 0.0 <= amount && balance < amount
    ensures r.outcome.InsufficientFunds? ==> r.outcome.available == balance
    ensures r.outcome == Ok <==> 0.0 <= amount <= balance
    ensures r.outcome == Ok ==> r.balance == balance - amount
    ensures r.outcome != Ok ==> r.balance == balance
    ensures balance >= 0.0 ==> r.balance >= 0.0
  {
    if amount < 0.0 then Step(NegativeAmount, balance)
    else if amount > balance then Step(InsufficientFunds(balance), balance)
    else Step(Ok, balance - amount)
  }

  class BankAccount {
    const holder: string
    var balance: real

    /** The account invariant that the input checks maintain. */
    predicate Valid()
      reads this
    {
      balance >= 0.0
    }

    /** Builds an account whose opening balance has already passed the check in `Open`. */
    constructor (holder: string, initialBalance: real)
      requires initialBalance >= 0.0
      ensures Valid()
      ensures this.holder == holder && balance == initialBalance
    {
      this.holder := holder;
      balance := initialBalance;
    }

    /**
     * Opens an account. A negative initial balance raises the negative-amount
     * error and yields no account; otherwise the new account holds exactly
     * the initial balance.
     */
    static method Open(holder: string, initialBalance: real) returns (account: BankAccount?, outcome: Outcome)
      ensures outcome == OpenOutcome(initialBalance)
      ensures outcome == Ok ==>
        account != null && fresh(account) && account.Valid() &&
        account.holder == holder && account.balance == initialBalance
      ensures outcome != Ok ==> account == null
    {
      if initialBalance < 0.0 {
        return null, NegativeAmount;
      }
      account := new BankAccount(holder, initialBalance);
      outcome := Ok;
    }

    /** Adds `amount` to the balance unless it is negative. */
    method Deposit(amount: real) returns (outcome: Outcome)
      requires Valid()
      modifies this
      ensures Valid()
      ensures Step(outcome, balance) == DepositStep(old(balance), amount)
    {
      if amount < 0.0 {
        return NegativeAmount;
      }
      balance := balance + amount;
      outcome := Ok;
    }

    /** Takes `amount` from the balance unless it is negative or exceeds the balance. */
    method Withdraw(amount: real) returns (outcome: Outcome)
      requires Valid()
      modifies this
      ensures Valid()
      ensures Step(outcome, balance) == WithdrawStep(old(balance), amount)
    {
      if amount < 0.0 {
        return NegativeAmount;
      }
      if amount > balance {
        return InsufficientFunds(balance);
      }
      balance := balance - amount;
      outcome := Ok;
    }

    /** Reports the holder and the current balance; changes nothing. */
    method CheckBalance() returns (report: Report)
      requires Valid()
      ensures report.holder == holder && report.balance == balance
      ensures report.balance >= 0.0
    {
      report := Report(holder, balance);
    }
  }

  /** One balance-changing call on an open account. */
  datatype Op = DepositCall(amount: real) | WithdrawCall(amount: real)

  /** The effect of one call, as the account's methods perform it. */
  function Apply(balance: real, op: Op): (r: Step)
    ensures r.outcome != Ok ==> r.balance == balance
    ensures balance >= 0.0 ==> r.balance >= 0.0
  {
    match op
    case DepositCall(a) => DepositStep(balance, a)
    case WithdrawCall(a) => WithdrawStep(balance, a)
  }

  /**
   * The result of running calls in order until the first one fails, as a
   * block of calls inside one exception handler does: the outcome of the
   * failing call (or Ok), the final balance, and how many calls succeeded.
   */
  datatype Trace = Trace(outcome: Outcome, balance: real, done: nat)

  function Run(balance: real, ops: seq<Op>): (r: Trace)
    ensures r.done <= |ops|
    ensures r.outcome == Ok <==> r.done == |ops|
    ensures r.done < |ops| ==> Apply(r.balance, ops[r.done]).outcome == r.outcome
    decreases |ops|
  {
    if ops == [] then Trace(Ok, balance, 0)
    else
      var s := Apply(balance, ops[0]);
      if s.outcome != Ok then Trace(s.outcome, balance, 0)
      else
        var t := Run(s.balance, ops[1..]);
        Trace(t.outcome, t.balance, t.done + 1)
  }

  /** The signed amount a successful call adds to the balance. */
  function Delta(op: Op): real {
    match op
    case DepositCall(a) => a
    case WithdrawCall(a) => -a
  }

  /** The total signed amount of a sequence of calls. */
  function Net(ops: seq<Op>): real
    decreases |ops|
  {
    if ops == [] then 0.0 else Delta(ops[0]) + Net(ops[1..])
  }

  /** No sequence of calls on a valid account ever drives the balance negative. */
  lemma {:induction false} RunKeepsNonNegative(balance: real, ops: seq<Op>)
    requires balance >= 0.0
    ensures Run(balance, ops).balance >= 0.0
    decreases |ops|
  {
    if ops != [] {
      var s := Apply(balance, ops[0]);
      if s.outcome == Ok {
        RunKeepsNonNegative(s.balance, ops[1..]);
      }
    }
  }

  /**
   * Every successful call changes the balance by exactly its amount and the
   * failing one by nothing: the final balance is the initial one plus the net
   * amount of the calls that succeeded.
   */
  lemma {:induction false} RunBalance(balance: real, ops: seq<Op>)
    ensures Run(balance, ops).balance == balance + Net(ops[..Run(balance, ops).done])
    decreases |ops|
  {
    var r := Run(balance, ops);
    if ops == [] {
      assert ops[..r.done] == [];
    } else {
      var s := Apply(balance, ops[0]);
      if s.outcome != Ok {
        assert ops[..r.done] == [];
      } else {
        var t := Run(s.balance, ops[1..]);
        RunBalance(s.balance, ops[1..]);
        var done := ops[..r.done];
        assert done[0] == ops[0];
        assert done[1..] == ops[1..][..t.done];
        assert s.balance == balance + Delta(ops[0]);
      }
    }
  }

  /**
   * The calls before the stopping index all succeed: running just those
   * calls completes with Ok and reaches the same balance.
   */
  lemma {:induction false} RunPrefixSucceeds(balance: real, ops: seq<Op>)
    ensures var r := Run(balance, ops); Run(balance, ops[..r.done]) == Trace(Ok, r.balance, r.done)
    decreases |ops|
  {
    var r := Run(balance, ops);
    if ops == [] {
      assert ops[..r.done] == [];
    } else {
      var s := Apply(balance, ops[0]);
      if s.outcome != Ok {
        assert ops[..r.done] == [];
      } else {
        var t := Run(s.balance, ops[1..]);
        RunPrefixSucceeds(s.balance, ops[1..]);
        var done := ops[..r.done];
        assert done[0] == ops[0];
        assert done[1..] == ops[1..][..t.done];
      }
    }
  }

  /**
   * Each call before the stopping index succeeds: applied to the balance left
   * by the calls before it, call `i` reports Ok and leaves the balance that
   * the first `i + 1` calls reach.
   */
  lemma {:induction false} RunStepsSucceed(balance: real, ops: seq<Op>, i: nat)
    requires i < Run(balance, ops).done
    ensures Apply(Run(balance, ops[..i]).balance, ops[i]) == Step(Ok, Run(balance, ops[..i + 1]).balance)
    decreases |ops|
  {
    var s := Apply(balance, ops[0]);
    if i == 0 {
      assert ops[..0] == [];
      assert ops[..1] == [ops[0]];
      assert [ops[0]][1..] == [];
    } else {
      RunStepsSucceed(s.balance, ops[1..], i - 1);
      assert ops[..i][0] == ops[0] && ops[..i][1..] == ops[1..][..i - 1];
      assert ops[..i + 1][0] == ops[0] && ops[..i + 1][1..] == ops[1..][..i];
    }
  }
}
