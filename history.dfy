/**
 * Consecutive calls of depost and withdraw on one account, as a client of
 * bank_account.py makes them, and what the funds check guarantees over any
 * such run.
 */
module History {
  import opened Bank

  /** One call made on an account. */
  datatype Call = Depost(amount: real) | Withdraw(amount: real)

  /** The balance after making `calls` in order on an account of `kind` whose withdraw charges `fee`. */
  function Replay(kind: Kind, fee: real, balance: real, calls: seq<Call>): real
    decreases |calls|
  {
    if calls == [] then balance
    else
      var next := match calls[0]
        case Depost(a) => Credit(kind, balance, a)
        case Withdraw(a) => Debit(balance, a, fee).0;
      Replay(kind, fee, next, calls[1..])
  }

  /** Sum of the amounts deposited by `calls`. */
  function Deposited(calls: seq<Call>): real
    decreases |calls|
  {
    if calls == [] then 0.0
    else (if calls[0].Depost? then calls[0].amount else 0.0) + Deposited(calls[1..])
  }

  ghost predicate DepositsNonNegative(calls: seq<Call>)
  {
    forall i :: 0 <= i < |calls| && calls[i].Depost? ==> calls[i].amount >= 0.0
  }

  ghost predicate WithdrawalsNonNegative(calls: seq<Call>)
  {
    forall i :: 0 <= i < |calls| && calls[i].Withdraw? ==> calls[i].amount >= 0.0
  }

  ghost predicate OnlyDeposits(calls: seq<Call>)
  {
    forall i :: 0 <= i < |calls| ==> calls[i].Depost?
  }

  /**
   * No run overdraws an account that starts in credit, whatever is
   * withdrawn, as long as nothing negative is deposited.
   */
  lemma {:induction false} ReplayStaysInCredit(kind: Kind, fee: real, balance: real, calls: seq<Call>)
    requires balance >= 0.0
    requires DepositsNonNegative(calls)
    ensures Replay(kind, fee, balance, calls) >= 0.0
    decreases |calls|
  {
    if calls != [] {
      var next := match calls[0]
        case Depost(a) => Credit(kind, balance, a)
        case Withdraw(a) => Debit(balance, a, fee).0;
      assert next >= 0.0;
      assert DepositsNonNegative(calls[1..]) by {
        forall i | 0 <= i < |calls[1..]| && calls[1..][i].Depost?
          ensures calls[1..][i].amount >= 0.0
        {
          assert calls[1..][i] == calls[i + 1];
        }
      }
      ReplayStaysInCredit(kind, fee, next, calls[1..]);
    }
  }

  /** A run of deposits credits their sum times the account's deposit factor. */
  lemma {:induction false} ReplayDeposits(kind: Kind, fee: real, balance: real, calls: seq<Call>)
    requires OnlyDeposits(calls)
    ensures Replay(kind, fee, balance, calls) == balance + Deposited(calls) * DepositFactor(kind)
    decreases |calls|
  {
    if calls != [] {
      var next := Credit(kind, balance, calls[0].amount);
      assert OnlyDeposits(calls[1..]) by {
        forall i | 0 <= i < |calls[1..]| ensures calls[1..][i].Depost? {
          assert calls[1..][i] == calls[i + 1];
        }
      }
      ReplayDeposits(kind, fee, next, calls[1..]);
    }
  }

  /**
   * With a non-negative fee, withdrawals of non-negative amounts never add
   * money: the balance never exceeds the start plus the credited deposits.
   */
  lemma {:induction false} ReplayBoundedByDeposits(kind: Kind, fee: real, balance: real, calls: seq<Call>)
    requires fee >= 0.0
    requires WithdrawalsNonNegative(calls)
    ensures Replay(kind, fee, balance, calls) <= balance + Deposited(calls) * DepositFactor(kind)
    decreases |calls|
  {
    if calls != [] {
      var next := match calls[0]
        case Depost(a) => Credit(kind, balance, a)
        case Withdraw(a) => Debit(balance, a, fee).0;
      assert WithdrawalsNonNegative(calls[1..]) by {
        forall i | 0 <= i < |calls[1..]| && calls[1..][i].Withdraw?
          ensures calls[1..][i].amount >= 0.0
        {
          assert calls[1..][i] == calls[i + 1];
        }
      }
      ReplayBoundedByDeposits(kind, fee, next, calls[1..]);
    }
  }
}
