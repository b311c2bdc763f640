/**
 * Bank accounts of bank_account.py: one balance, one funds check, and three
 * kinds of account that differ in how they credit a deposit and what fee they
 * charge on a withdrawal.
 *
 * The Python subclasses BankAccount, InterestRewardsAcct and SavingsAcct become
 * one class whose `kind` selects the rules.  Balances and amounts are exact
 * reals.  The exception BalanceExeption becomes the `Interrupted` status.
 */
module Bank {

  datatype Option<T> = None | Some(value: T)

  /** The Python class an account was created as. */
  datatype Kind = Plain | InterestRewards | Savings

  /**
   * Outcome of the funds check: `Interrupted(required)` stands for the
   * BalanceExeption raised because the balance is below `required`.
   */
  datatype Status = Completed | Interrupted(required: real)

  /**
   * Outcome of a transfer: interrupted by the up-front check of the bare
   * amount, or carried through, together with what the withdrawal leg did.
   */
  datatype TransferOutcome =
    | TransferInterrupted(required: real)
    | TransferCompleted(withdrawal: Status)

  /** Balances of source and target after a transfer, and its outcome. */
  datatype TransferResult = TransferResult(src: real, dst: real, outcome: TransferOutcome)

  /** The fee BankAccount.withdraw charges (also inherited by InterestRewardsAcct). */
  const PlainFee: real := 3.0
  /** The fee SavingsAcct stores in its `fee` attribute. */
  const SavingsFee: real := 5.0
  /** What InterestRewardsAcct (and SavingsAcct) credit per unit deposited. */
  const InterestFactor: real := 1.05

  function DepositFactor(kind: Kind): real
  {
    if kind == Plain then 1.0 else InterestFactor
  }

  /** viableTransaction: passes exactly when the balance covers the amount. */
  function Check(balance: real, amount: real): (s: Status)
    ensures s.Completed? <==> balance >= amount
    ensures s.Interrupted? ==> s.required == amount
  {
    if balance >= amount then Completed else Interrupted(amount)
  }

  /** The balance after depost on an account of the given kind. */
  function Credit(kind: Kind, balance: real, amount: real): (r: real)
    ensures kind == Plain ==> r == balance + amount
    ensures kind != Plain ==> r == balance + amount * InterestFactor
  {
    balance + amount * DepositFactor(kind)
  }

  /**
   * withdraw with the given fee: the balance afterwards and whether the
   * withdrawal went through.  A shortfall is swallowed: the balance stays.
   */
  function Debit(balance: real, amount: real, fee: real): (r: (real, Status))
    ensures r.1.Completed? <==> balance >= amount + fee
    ensures r.1.Completed? ==> r.0 == balance - (amount + fee) && r.0 >= 0.0
    ensures r.1.Interrupted? ==> r.0 == balance && r.1.required == amount + fee
  {
    var s := Check(balance, amount + fee);
    if s.Completed? then (balance - (amount + fee), s) else (balance, s)
  }

  /**
   * transfer between two distinct accounts: the source is checked for the
   * bare amount only, then withdraws (with its own fee) and the target
   * deposits (by its own rule).
   */
  function TransferBetween(src: real, fee: real, dstKind: Kind, dst: real, amount: real): (r: TransferResult)
    // a source below the bare amount interrupts the transfer and nothing moves
    ensures src < amount ==> r == TransferResult(src, dst, TransferInterrupted(amount))
    // otherwise the target is always credited by its own deposit rule
    ensures src >= amount && dstKind == Plain ==> r.dst == dst + amount
    ensures src >= amount && dstKind != Plain ==> r.dst == dst + amount * InterestFactor
    // the source pays amount plus fee when it can
    ensures src >= amount && src >= amount + fee ==>
              r.src == src - (amount + fee) && r.outcome == TransferCompleted(Completed)
    // and when it cannot, it keeps its balance although the target was credited
    ensures amount <= src < amount + fee ==>
              r.src == src && r.outcome == TransferCompleted(Interrupted(amount + fee))
    // so in that gap a positive transfer raises the total held by the two accounts
    ensures amount <= src < amount + fee && amount > 0.0 ==> r.src + r.dst > src + dst
  {
    var viable := Check(src, amount);
    if viable.Interrupted? then
      TransferResult(src, dst, TransferInterrupted(amount))
    else
      var (src', withdrawal) := Debit(src, amount, fee);
      TransferResult(src', Credit(dstKind, dst, amount), TransferCompleted(withdrawal))
  }

  class Account {
    var balance: real
    var name: string
    const kind: Kind
    /** The `fee` attribute, which only a SavingsAcct has. */
    var fee: Option<real>

    ghost predicate Valid()
      reads this`fee
    {
      (kind == Savings) == fee.Some?
    }

    /** The fee this account's withdraw adds to the amount. */
    function WithdrawFee(): real
      reads this`fee
      requires Valid()
    {
      if kind == Savings then fee.value else PlainFee
    }

    /** BankAccount.__init__, and SavingsAcct.__init__ for a savings account. */
    constructor (kind: Kind, initialAmount: real, acctName: string)
      ensures Valid()
      ensures this.kind == kind && balance == initialAmount && name == acctName
      ensures kind == Savings ==> fee == Some(SavingsFee)
      ensures kind != Savings ==> fee == None
      ensures WithdrawFee() == if kind == Savings then SavingsFee else PlainFee
    {
      this.kind := kind;
      balance := initialAmount;
      name := acctName;
      fee := if kind == Savings then Some(SavingsFee) else None;
    }

    /** viableTransaction: reports a shortfall, changes nothing. */
    method ViableTransaction(amount: real) returns (s: Status)
      ensures s == Check(balance, amount)
      ensures s.Completed? <==> balance >= amount
    {
      if balance >= amount {
        s := Completed;
      } else {
        s := Interrupted(amount);
      }
    }

    /** depost: BankAccount's, or the one InterestRewardsAcct overrides. */
    method Deposit(amount: real)
      modifies this`balance
      ensures Valid() == old(Valid())
      ensures balance == Credit(kind, old(balance), amount)
      ensures kind == Plain ==> balance == old(balance) + amount
      ensures kind != Plain ==> balance == old(balance) + amount * InterestFactor
      ensures name == old(name) && fee == old(fee)
    {
      if kind == Plain {
        balance := balance + amount;
      } else {
        balance := balance + amount * InterestFactor;
      }
    }

    /**
     * withdraw: BankAccount's with its fee of 3, or the one SavingsAcct
     * overrides with its `fee` attribute.  A shortfall is caught inside, so
     * the status only reports what happened; the caller is not interrupted.
     */
    method Withdraw(amount: real) returns (s: Status)
      requires Valid()
      modifies this`balance
      ensures Valid()
      ensures (balance, s) == Debit(old(balance), amount, WithdrawFee())
      ensures s.Completed? <==> old(balance) >= amount + WithdrawFee()
      ensures s.Completed? ==> balance == old(balance) - (amount + WithdrawFee()) && balance >= 0.0
      ensures s.Interrupted? ==> balance == old(balance)
      ensures name == old(name) && fee == old(fee)
    {
      var total;
      if kind == Savings {
        total := amount + fee.value;
      } else {
        total := amount + PlainFee;
      }
      s := ViableTransaction(total);
      if s.Completed? {
        balance := balance - total;
      }
    }

    /**
     * transfer: checks the bare amount, then withdraws it here (fee
     * included, failure swallowed) and deposits it into `account`.
     */
    method Transfer(amount: real, account: Account) returns (outcome: TransferOutcome)
      requires Valid() && account.Valid()
      modifies this`balance, account`balance
      ensures Valid() && account.Valid()
      ensures account != this ==>
        var r := TransferBetween(old(balance), WithdrawFee(), account.kind, old(account.balance), amount);
        balance == r.src && account.balance == r.dst && outcome == r.outcome
      // transferring to itself: the withdrawal and the deposit hit the same balance
      ensures account == this ==>
        if old(balance) < amount then
          balance == old(balance) && outcome == TransferInterrupted(amount)
        else
          var (debited, withdrawal) := Debit(old(balance), amount, WithdrawFee());
          balance == Credit(kind, debited, amount) && outcome == TransferCompleted(withdrawal)
      ensures name == old(name) && account.name == old(account.name)
    {
      var viable := ViableTransaction(amount);
      if viable.Interrupted? {
        return TransferInterrupted(amount);
      }
      var withdrawal := Withdraw(amount);
      account.Deposit(amount);
      outcome := TransferCompleted(withdrawal);
    }
  }

  /**
   * A savings account holding 50 transfers 46 to a rewards account holding 10:
   * the bare amount is covered, the 51 owed with the fee is not, so the target
   * gains 46 * 1.05 while the source keeps its 50.
   */
  method FeeGapScenario() returns (src: real, dst: real, outcome: TransferOutcome)
    ensures src == 50.0 && dst == 10.0 + 46.0 * InterestFactor
    ensures outcome == TransferCompleted(Interrupted(51.0))
  {
    var savings := new Account(Savings, 50.0, "savings");
    var rewards := new Account(InterestRewards, 10.0, "rewards");
    outcome := savings.Transfer(46.0, rewards);
    src, dst := savings.balance, rewards.balance;
  }
}
