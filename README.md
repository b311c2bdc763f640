# Bank accounts of `bank_account.py`, in Dafny

This project models the bank-account state machine of `bank_account.py` and
proves what its rules guarantee. There are three kinds of account:

- `BankAccount`: a deposit adds the amount; a withdrawal charges a flat fee of 3.
- `InterestRewardsAcct`: a deposit credits 1.05 times the amount.
- `SavingsAcct`: deposits like `InterestRewardsAcct`; a withdrawal charges the fee of 5 kept in its `fee` attribute.

All three share one balance and one funds check, `viableTransaction`. That
check raises `BalanceExeption` when the balance is below the amount asked for.

`bank.dfy` (module `Bank`) holds the accounts:

- One class `Account` stands for the three Python classes. Its field `kind`
  (`Plain | InterestRewards | Savings`) picks the deposit and withdrawal rules
  that Python picks by method overriding.
- `fee` is `Some(5.0)` only on a savings account, because only `SavingsAcct`
  has that attribute. `Valid()` ties `fee` to `kind`.
- Balances and amounts are exact `real`s.
- The exception becomes the `Status` value `Interrupted(required)`.
- `ViableTransaction`, `Deposit` and `Withdraw` are each proved equal to a
  pure rule (`Check`, `Credit`, `Debit`). `Transfer` between two distinct
  accounts is proved equal to `TransferBetween`. A transfer from an account
  to itself is proved equal to `Debit` followed by `Credit` on the one
  balance. The contracts of those rules state what the source promises.
- `Deposit`, `Withdraw` and `Transfer` keep `Valid()`.

`history.dfy` (module `History`) replays a sequence of `depost`/`withdraw`
calls on one account, as balances. It proves what the funds check guarantees
over any such run. The replay is built from `Credit` and `Debit`, so it gives
the balance after the same calls on an `Account`, because `Deposit` and
`Withdraw` are proved equal to those rules.

The transfer keeps the source's observed behaviour, and the model proves it
(`TransferBetween`, `FeeGapScenario`):

- `transfer` checks only the bare amount (`bank_account.py:40`).
- `withdraw` checks the amount plus the fee and swallows its own failure
  (`bank_account.py:29-35`).
- When the source balance lies in `[amount, amount + fee)`, the target is
  therefore credited while the source keeps its balance. For a positive
  amount, the two accounts then hold more money in total than before.

The repository also holds a JavaScript guestbook service (`docker-hello-world/`):
an Express/PostgreSQL server, an SES/SSM Lambda and an SSM test script, with
no logic of their own. It is not part of this model.

## Model

| member | source | states |
|---|---|---|
| `Bank.Check` | bank_account.py:20-24 | the funds check passes exactly when balance >= amount; otherwise it is the BalanceExeption carrying that amount |
| `Bank.Credit` | bank_account.py:48-49 | a deposit on a rewards or savings account adds exactly amount * 1.05; on a plain account (bank_account.py:15-16) exactly the amount |
| `Bank.Account.ViableTransaction` | bank_account.py:20-24 | returns `Check(balance, amount)`, so it completes iff balance >= amount; it has no modifies clause, so it never changes the balance |
| `Bank.Debit` | bank_account.py:59-66 | withdrawal with fee f goes through iff balance >= amount + f; then the balance drops by exactly amount + f and is >= 0; otherwise the balance is unchanged and the failure is reported, not raised; with f = 3 it is also BankAccount.withdraw (bank_account.py:26-35) |
| `Bank.Account.Withdraw` | bank_account.py:26-35 | the new balance and status are `Debit(old balance, amount, fee)`, with fee 3 for plain and rewards accounts and the `fee` attribute (5) for savings; name and fee unchanged; the failure never reaches the caller |
| `Bank.Account.Deposit` | bank_account.py:15-16 | a plain account gains exactly the amount; rewards and savings accounts (the override at bank_account.py:48-49) gain exactly amount * 1.05; name and fee unchanged |
| `Bank.Account.constructor` | bank_account.py:6-8 | balance is the initial amount, name the account name, kind as given; a savings account also gets fee 5 (bank_account.py:55-57), the other kinds have no fee attribute |
| `Bank.TransferBetween` | bank_account.py:37-45 | below the bare amount nothing moves and the transfer is interrupted; otherwise the target always gains amount (plain) or 1.05 * amount; the source pays amount + fee only when it covers it, else keeps its balance (the fee gap), and then a positive transfer raises the two accounts' total |
| `Bank.Account.Transfer` | bank_account.py:37-45 | between two accounts, the new balances and outcome are `TransferBetween` of the old balances, the source's fee and the target's kind; to itself, the withdrawal and then the deposit apply to the one balance |
| `Bank.FeeGapScenario` | bank_account.py:40-42 | a savings account with 50 transferring 46 to a rewards account with 10 keeps 50, the target ends with 10 + 46 * 1.05, and the withdrawal leg reports the 51 it could not cover |
| `History.ReplayStaysInCredit` | bank_account.py:26-31 | from a non-negative balance, any sequence of withdrawals and non-negative deposits leaves the balance non-negative (the funds check rules out overdrafts) |
| `History.ReplayDeposits` | bank_account.py:48-49 | a run of deposits credits exactly their sum times the account's deposit factor: 1 for the plain deposit (bank_account.py:15-16), 1.05 for the override |
| `History.ReplayBoundedByDeposits` | bank_account.py:28-31 | with a non-negative fee and non-negative withdrawal amounts, the balance never exceeds the starting balance plus the credited deposits |

## Left out

- Printing: `getBalance` and every f-string message, including the `:.2f` formatting (bank_account.py:9, 12-13, 17). These show up only as console text and do not change any state.
- Floating point: `Amount * 1.05` is exact real arithmetic here, so Python's float rounding is not modelled.
- Dynamic typing: Python would accept any value as an amount or a name. The model takes `real` amounts and `string` names.
- The exception's message text: an interrupted status carries only the amount that could not be covered.
- Outside code reassigning `fee` or `balance` directly: the model, like the source, does not stop it, since both fields are public; the contracts cover only the class's own methods.
- Subclassing in general: the three concrete classes are the only kinds, chosen by `kind`. Inheritance is not modelled.
- `docker-hello-world/` (the Express/PostgreSQL server, the SES/SSM Lambda and the SSM test script): I/O wrappers with no logic of their own.
