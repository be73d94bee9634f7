/** modules/transaction.py: deposit, withdraw and transfer, each a run of
    early-exit checks followed by balance updates through the account module
    and records through the history module. `deposit` is complete in the
    source. The blanks of `withdraw` and `transfer` are filled as their
    comments describe: `withdraw` refuses an amount above the balance and logs
    a `WITHDRAW` record (the shown code has no funds check and returns
    `transaction_id = None`, modules/transaction.py:135-165); `transfer` follows
    the eight reference steps of modules/transaction.py:208-258, which log both
    records without a related account. Python's `ValueError`s become `Failed`
    results. */
module Transactions {
  import opened Format
  import opened Records
  import opened DataStore
  import opened Accounts
  import opened History

  /** The `ValueError`s the three operations raise. */
  datatype TxnError =
    | InvalidAmount                       // "存款/提款/轉帳金額必須大於 0"
    | AccountNotFound(accountId: string)  // "帳戶不存在: {account_id}"
    | InsufficientBalance                 // "餘額不足"
    | SelfTransfer                        // "不能轉帳給自己"
    | SourceNotFound                      // "轉出帳戶不存在"
    | TargetNotFound                      // "轉入帳戶不存在"

  /** `{"success": True, "new_balance": ..., "transaction_id": ...}` */
  datatype Receipt = Receipt(newBalance: Money, transactionId: string)

  /** `{"success": True, "from_balance": ..., "to_balance": ..., "transaction_id": ...}` */
  datatype TransferReceipt = TransferReceipt(fromBalance: Money, toBalance: Money, transactionId: string)

  datatype Outcome<T> = Ok(value: T) | Failed(error: TxnError)

  // ------------------------------------------------------- money in the bank

  /** The sum of all balances. */
  ghost function Total(accounts: map<string, Account>): int
    decreases |accounts|
  {
    if accounts == map[] then 0
    else
      var k :| k in accounts;
      assert |accounts - {k}| < |accounts| by {
        assert accounts.Keys == (accounts - {k}).Keys + {k};
      }
      accounts[k].balance + Total(accounts - {k})
  }

  /** Any one account can be taken out of the sum first. */
  lemma {:induction false} TotalRemove(accounts: map<string, Account>, id: string)
    requires id in accounts
    ensures Total(accounts) == accounts[id].balance + Total(accounts - {id})
    decreases |accounts|
  {
    var k :| k in accounts && Total(accounts) == accounts[k].balance + Total(accounts - {k});
    if k != id {
      var rest := accounts - {k};
      assert |rest| < |accounts| by {
        assert accounts.Keys == rest.Keys + {k};
      }
      TotalRemove(rest, id);
      var other := accounts - {id};
      assert |other| < |accounts| by {
        assert accounts.Keys == other.Keys + {id};
      }
      TotalRemove(other, k);
      assert rest - {id} == other - {k};
    }
  }

  /** Setting one balance moves the total by the difference. */
  lemma TotalWithBalance(accounts: map<string, Account>, id: string, balance: Money)
    requires id in accounts
    ensures Total(WithBalance(accounts, id, balance)) == Total(accounts) - accounts[id].balance + balance
  {
    var updated := WithBalance(accounts, id, balance);
    TotalRemove(accounts, id);
    TotalRemove(updated, id);
    assert updated - {id} == accounts - {id};
  }

  /** The account map after moving `amount` from one account to another. */
  function Transferred(accounts: map<string, Account>, from: string, to: string, amount: Money)
    : (m: map<string, Account>)
    requires from in accounts && to in accounts && from != to
    ensures m.Keys == accounts.Keys
    ensures m[from].balance == accounts[from].balance - amount
    ensures m[to].balance == accounts[to].balance + amount
    ensures m[from].balance + m[to].balance == accounts[from].balance + accounts[to].balance
    ensures forall k :: k in accounts && k != from && k != to ==> m[k] == accounts[k]
  {
    var debited := WithBalance(accounts, from, accounts[from].balance - amount);
    WithBalance(debited, to, accounts[to].balance + amount)
  }

  /** A deposit adds its amount to the bank's money. */
  lemma DepositAddsToTotal(accounts: map<string, Account>, id: string, amount: Money)
    requires id in accounts
    ensures Total(WithBalance(accounts, id, accounts[id].balance + amount)) == Total(accounts) + amount
  {
    TotalWithBalance(accounts, id, accounts[id].balance + amount);
  }

  /** A withdrawal takes its amount out of the bank's money. */
  lemma WithdrawTakesFromTotal(accounts: map<string, Account>, id: string, amount: Money)
    requires id in accounts
    ensures Total(WithBalance(accounts, id, accounts[id].balance - amount)) == Total(accounts) - amount
  {
    TotalWithBalance(accounts, id, accounts[id].balance - amount);
  }

  /** A transfer conserves the bank's money. */
  lemma TransferConservesTotal(accounts: map<string, Account>, from: string, to: string, amount: Money)
    requires from in accounts && to in accounts && from != to
    ensures Total(Transferred(accounts, from, to, amount)) == Total(accounts)
  {
    var debited := WithBalance(accounts, from, accounts[from].balance - amount);
    var moved := WithBalance(debited, to, accounts[to].balance + amount);
    assert Transferred(accounts, from, to, amount) == moved;
    assert debited[to].balance == accounts[to].balance;
    TotalWithBalance(accounts, from, accounts[from].balance - amount);
    assert Total(debited) == Total(accounts) - amount;
    TotalWithBalance(debited, to, accounts[to].balance + amount);
    assert Total(moved) == Total(debited) + amount;
  }

  /** A transfer the checks let through leaves no balance negative. */
  lemma TransferKeepsBalancesNonNegative(accounts: map<string, Account>, next: int,
                                         from: string, to: string, amount: Money)
    requires WellFormedAccounts(accounts, next)
    requires from in accounts && to in accounts && from != to
    requires 0 < amount <= accounts[from].balance
    ensures WellFormedAccounts(Transferred(accounts, from, to, amount), next)
  {
    var debited := WithBalance(accounts, from, accounts[from].balance - amount);
    SetBalanceWellFormed(accounts, next, from, accounts[from].balance - amount);
    SetBalanceWellFormed(debited, next, to, accounts[to].balance + amount);
  }

  // ------------------------------------------------------------------ module

  class TransactionModule {
    const account: AccountModule
    const history: HistoryModule

    constructor (accountModule: AccountModule, historyModule: HistoryModule)
      ensures account == accountModule && history == historyModule
    {
      account := accountModule;
      history := historyModule;
    }

    /** Both injected modules work on one valid store, as every caller in
        the system wires them. */
    ghost predicate Valid()
      reads account.dataManager
    {
      account.dataManager == history.dataManager && account.dataManager.Valid()
    }

    /** Adds `amount` to an existing account and logs a `DEPOSIT` record
        whose `balance_after` is the new balance. */
    method Deposit(accountId: string, amount: Money) returns (r: Outcome<Receipt>)
      requires Valid()
      modifies account.dataManager
      ensures Valid()
      ensures r.Ok? <==> amount > 0 && accountId in old(account.dataManager.accounts)
      ensures amount <= 0 ==> r == Failed(InvalidAmount)
      ensures amount > 0 && accountId !in old(account.dataManager.accounts)
              ==> r == Failed(AccountNotFound(accountId))
      ensures r.Failed? ==> unchanged(account.dataManager)
      ensures r.Ok? ==>
        var dm := account.dataManager;
        && amount > 0 && accountId in old(dm.accounts)
        && var balance := old(dm.accounts[accountId].balance) + amount;
        && r.value == Receipt(balance, TransactionId(old(dm.GetNextTransactionId())))
        && dm.accounts == WithBalance(old(dm.accounts), accountId, balance)
        && dm.transactions
           == old(dm.transactions) + [Txn(r.value.transactionId, accountId, DEPOSIT, amount, balance, old(dm.clock), None)]
        && dm.config == old(dm.config)[NEXT_TRANSACTION_ID := old(dm.GetNextTransactionId()) + 1]
        && dm.clock == old(dm.clock) + 1
    {
      if amount <= 0 {
        return Failed(InvalidAmount);
      }
      var acct := account.GetAccount(accountId);
      if acct.None? {
        return Failed(AccountNotFound(accountId));
      }
      var newBalance := acct.value.balance + amount;
      assert newBalance >= 0 by {
        assert WellFormedAccounts(account.dataManager.accounts, account.dataManager.GetNextAccountId());
        assert acct.value == account.dataManager.accounts[accountId];
      }
      ghost var accounts, log, config, now :=
        account.dataManager.accounts, account.dataManager.transactions, account.dataManager.config, account.dataManager.clock;
      ghost var n := account.dataManager.GetNextTransactionId();
      var updated := account.UpdateBalance(accountId, newBalance);
      assert updated;
      var transactionId := history.LogTransaction(accountId, DEPOSIT, amount, newBalance);
      ghost var record := Txn(transactionId, accountId, DEPOSIT, amount, newBalance, now, None);
      assert MakeRecord(transactionId, accountId, DEPOSIT, amount, newBalance, now, None) == record;
      assert account.dataManager.accounts == WithBalance(accounts, accountId, newBalance);
      assert account.dataManager.transactions == log + [record];
      assert account.dataManager.config == config[NEXT_TRANSACTION_ID := n + 1];
      assert account.dataManager.clock == now + 1;
      r := Ok(Receipt(newBalance, transactionId));
    }

    /** Takes `amount`, at most the balance, from an existing account and logs
        a `WITHDRAW` record whose `balance_after` is the new balance. */
    method Withdraw(accountId: string, amount: Money) returns (r: Outcome<Receipt>)
      requires Valid()
      modifies account.dataManager
      ensures Valid()
      ensures r.Ok? <==> amount > 0 && accountId in old(account.dataManager.accounts)
                         && amount <= old(account.dataManager.accounts[accountId].balance)
      ensures amount <= 0 ==> r == Failed(InvalidAmount)
      ensures amount > 0 && accountId !in old(account.dataManager.accounts)
              ==> r == Failed(AccountNotFound(accountId))
      ensures amount > 0 && accountId in old(account.dataManager.accounts)
              && amount > old(account.dataManager.accounts[accountId].balance)
              ==> r == Failed(InsufficientBalance)
      ensures r.Failed? ==> unchanged(account.dataManager)
      ensures r.Ok? ==>
        var dm := account.dataManager;
        && amount > 0 && accountId in old(dm.accounts)
        && amount <= old(dm.accounts[accountId].balance)
        && var balance := old(dm.accounts[accountId].balance) - amount;
        && balance >= 0
        && r.value == Receipt(balance, TransactionId(old(dm.GetNextTransactionId())))
        && dm.accounts == WithBalance(old(dm.accounts), accountId, balance)
        && dm.transactions
           == old(dm.transactions) + [Txn(r.value.transactionId, accountId, WITHDRAW, amount, balance, old(dm.clock), None)]
        && dm.config == old(dm.config)[NEXT_TRANSACTION_ID := old(dm.GetNextTransactionId()) + 1]
        && dm.clock == old(dm.clock) + 1
    {
      if amount <= 0 {
        return Failed(InvalidAmount);
      }
      var acct := account.GetAccount(accountId);
      if acct.None? {
        return Failed(AccountNotFound(accountId));
      }
      // The funds check of the first blank.
      if amount > acct.value.balance {
        return Failed(InsufficientBalance);
      }
      var newBalance := acct.value.balance - amount;
      ghost var accounts, log, config, now :=
        account.dataManager.accounts, account.dataManager.transactions, account.dataManager.config, account.dataManager.clock;
      ghost var n := account.dataManager.GetNextTransactionId();
      var updated := account.UpdateBalance(accountId, newBalance);
      assert updated;
      // The record of the second blank, in the place of `transaction_id = None`.
      var transactionId := history.LogTransaction(accountId, WITHDRAW, amount, newBalance);
      ghost var record := Txn(transactionId, accountId, WITHDRAW, amount, newBalance, now, None);
      assert MakeRecord(transactionId, accountId, WITHDRAW, amount, newBalance, now, None) == record;
      assert account.dataManager.accounts == WithBalance(accounts, accountId, newBalance);
      assert account.dataManager.transactions == log + [record];
      assert account.dataManager.config == config[NEXT_TRANSACTION_ID := n + 1];
      assert account.dataManager.clock == now + 1;
      r := Ok(Receipt(newBalance, transactionId));
    }

    /** Moves `amount` between two different existing accounts when the
        source holds enough, then logs `TRANSFER_OUT` for the source and
        `TRANSFER_IN` for the target; the receipt carries the first record's
        identifier. Every check comes before the first update. */
    method Transfer(from: string, to: string, amount: Money) returns (r: Outcome<TransferReceipt>)
      requires Valid()
      modifies account.dataManager
      ensures Valid()
      ensures r.Ok? <==> amount > 0 && from != to
                         && from in old(account.dataManager.accounts) && to in old(account.dataManager.accounts)
                         && amount <= old(account.dataManager.accounts[from].balance)
      ensures amount <= 0 ==> r == Failed(InvalidAmount)
      ensures amount > 0 && from == to ==> r == Failed(SelfTransfer)
      ensures amount > 0 && from != to && from !in old(account.dataManager.accounts)
              ==> r == Failed(SourceNotFound)
      ensures amount > 0 && from != to && from in old(account.dataManager.accounts)
              && to !in old(account.dataManager.accounts)
              ==> r == Failed(TargetNotFound)
      ensures amount > 0 && from != to && from in old(account.dataManager.accounts)
              && to in old(account.dataManager.accounts)
              && amount > old(account.dataManager.accounts[from].balance)
              ==> r == Failed(InsufficientBalance)
      ensures r.Failed? ==> unchanged(account.dataManager)
      ensures r.Ok? ==>
        var dm := account.dataManager;
        && amount > 0 && from != to && from in old(dm.accounts) && to in old(dm.accounts)
        && amount <= old(dm.accounts[from].balance)
        && var n := old(dm.GetNextTransactionId());
        && var fromBalance := old(dm.accounts[from].balance) - amount;
        && var toBalance := old(dm.accounts[to].balance) + amount;
        && r.value == TransferReceipt(fromBalance, toBalance, TransactionId(n))
        && dm.accounts == Transferred(old(dm.accounts), from, to, amount)
        && dm.transactions
           == old(dm.transactions)
              + [Txn(TransactionId(n), from, TRANSFER_OUT, amount, fromBalance, old(dm.clock), None),
                 Txn(TransactionId(n + 1), to, TRANSFER_IN, amount, toBalance, old(dm.clock) + 1, None)]
        && dm.config == old(dm.config)[NEXT_TRANSACTION_ID := n + 2]
        && dm.clock == old(dm.clock) + 2
    {
      if amount <= 0 {
        return Failed(InvalidAmount);
      }
      if from == to {
        return Failed(SelfTransfer);
      }
      var fromAccount := account.GetAccount(from);
      var toAccount := account.GetAccount(to);
      if fromAccount.None? {
        return Failed(SourceNotFound);
      }
      if toAccount.None? {
        return Failed(TargetNotFound);
      }
      if amount > fromAccount.value.balance {
        return Failed(InsufficientBalance);
      }
      var fromNewBalance := fromAccount.value.balance - amount;
      var toNewBalance := toAccount.value.balance + amount;
      assert toNewBalance >= 0 by {
        assert WellFormedAccounts(account.dataManager.accounts, account.dataManager.GetNextAccountId());
        assert toAccount.value == account.dataManager.accounts[to];
      }
      ghost var accounts := account.dataManager.accounts;
      UpdateBoth(from, fromNewBalance, to, toNewBalance);
      assert account.dataManager.accounts == Transferred(accounts, from, to, amount);
      var txnOut := LogTransfer(from, to, amount, fromNewBalance, toNewBalance);
      r := Ok(TransferReceipt(fromNewBalance, toNewBalance, txnOut));
    }

    /** Step 6 of `transfer`: the source's balance is set, then the target's. */
    method UpdateBoth(from: string, fromBalance: Money, to: string, toBalance: Money)
      requires Valid()
      requires from != to && from in account.dataManager.accounts && to in account.dataManager.accounts
      requires fromBalance >= 0 && toBalance >= 0
      modifies account.dataManager
      ensures Valid()
      ensures account.dataManager.accounts
              == WithBalance(WithBalance(old(account.dataManager.accounts), from, fromBalance), to, toBalance)
      ensures account.dataManager.transactions == old(account.dataManager.transactions)
      ensures account.dataManager.config == old(account.dataManager.config)
      ensures account.dataManager.clock == old(account.dataManager.clock)
    {
      var debited := account.UpdateBalance(from, fromBalance);
      assert debited;
      var credited := account.UpdateBalance(to, toBalance);
      assert credited;
    }

    /** Step 7 of `transfer`: a `TRANSFER_OUT` record for the source, then a
        `TRANSFER_IN` record for the target; the first one's identifier is
        returned. */
    method LogTransfer(from: string, to: string, amount: Money, fromBalance: Money, toBalance: Money)
      returns (txnOut: string)
      requires Valid()
      modifies account.dataManager
      ensures Valid()
      ensures var n := old(account.dataManager.GetNextTransactionId());
        var now := old(account.dataManager.clock);
        && txnOut == TransactionId(n)
        && account.dataManager.transactions
           == old(account.dataManager.transactions)
              + [Txn(TransactionId(n), from, TRANSFER_OUT, amount, fromBalance, now, None),
                 Txn(TransactionId(n + 1), to, TRANSFER_IN, amount, toBalance, now + 1, None)]
        && account.dataManager.config == old(account.dataManager.config)[NEXT_TRANSACTION_ID := n + 2]
        && account.dataManager.clock == now + 2
      ensures account.dataManager.accounts == old(account.dataManager.accounts)
    {
      ghost var log, config, now :=
        account.dataManager.transactions, account.dataManager.config, account.dataManager.clock;
      ghost var n := account.dataManager.GetNextTransactionId();
      txnOut := history.LogTransaction(from, TRANSFER_OUT, amount, fromBalance);
      ghost var out := Txn(txnOut, from, TRANSFER_OUT, amount, fromBalance, now, None);
      assert MakeRecord(txnOut, from, TRANSFER_OUT, amount, fromBalance, now, None) == out;
      ghost var afterOut := account.dataManager.transactions;
      assert afterOut == log + [out];
      assert account.dataManager.config == config[NEXT_TRANSACTION_ID := n + 1];
      var txnIn := history.LogTransaction(to, TRANSFER_IN, amount, toBalance);
      ghost var into := Txn(txnIn, to, TRANSFER_IN, amount, toBalance, now + 1, None);
      assert MakeRecord(txnIn, to, TRANSFER_IN, amount, toBalance, now + 1, None) == into;
      assert account.dataManager.transactions == afterOut + [into];
      assert afterOut + [into] == log + [out, into];
      assert account.dataManager.config == config[NEXT_TRANSACTION_ID := n + 2];
    }
  }
}
