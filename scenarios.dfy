/** The flows of tests/test_account.py, tests/test_history.py,
    tests/test_transaction.py and tests/test_integration.py, each on a fresh
    store, with what those tests check stated as postconditions. Amounts are
    in cents: 1000.0 is 100000. */
module Scenarios {
  import opened Format
  import opened Records
  import opened DataStore
  import opened Accounts
  import opened History
  import opened Transactions

  /** The three modules wired to one new store, as the tests' setup does. */
  method Setup(startTime: nat) returns (accounts: AccountModule, history: HistoryModule, bank: TransactionModule)
    ensures fresh(accounts) && fresh(history) && fresh(bank) && fresh(accounts.dataManager)
    ensures bank.account == accounts && bank.history == history
    ensures history.dataManager == accounts.dataManager
    ensures bank.Valid()
    ensures accounts.dataManager.accounts == map[] && accounts.dataManager.transactions == []
    ensures accounts.dataManager.config == InitialConfig() && accounts.dataManager.clock == startTime
  {
    var dm := new DataManager(startTime);
    accounts := new AccountModule(dm);
    history := new HistoryModule(dm);
    bank := new TransactionModule(accounts, history);
  }

  /** test_create_account: the first account is ACC0001 and holds the name
      and the balance it was opened with. */
  method CreateAccountScenario(startTime: nat) returns (id: CreateResult, stored: Option<Account>)
    ensures id == Created("ACC0001")
    ensures stored.Some? && stored.value.name == "張三" && stored.value.balance == 100000
  {
    var accounts, _, _ := Setup(startTime);
    StripUnpadded("張三");
    assert !IsBlank("張三");
    assert accounts.dataManager.GetNextAccountId() == 1;
    id := accounts.CreateAccount("張三", 100000);
    FirstIdentifiers();
    stored := accounts.GetAccount("ACC0001");
  }

  /** test_create_account_with_empty_name: an empty name is refused for
      its name and the store stays empty. */
  method BlankNameScenario(startTime: nat) returns (r: CreateResult, count: nat)
    ensures r == Rejected(EmptyName)
    ensures count == 0
  {
    var dm := new DataManager(startTime);
    var accounts := new AccountModule(dm);
    r := accounts.CreateAccount("", 100000);
    count := |dm.accounts|;
  }

  /** test_create_account_with_negative_balance: a negative opening balance
      is refused for the balance and the store stays empty. */
  method NegativeBalanceScenario(startTime: nat) returns (r: CreateResult, count: nat)
    ensures r == Rejected(NegativeBalance)
    ensures count == 0
  {
    var dm := new DataManager(startTime);
    var accounts := new AccountModule(dm);
    StripUnpadded("李四");
    r := accounts.CreateAccount("李四", -10000);
    count := |dm.accounts|;
  }

  /** test_get_history: three records, two of them for ACC0001. */
  method GetHistoryScenario(startTime: nat) returns (found: seq<Txn>)
    ensures |found| == 2
    ensures forall t :: t in found ==> t.accountId == "ACC0001"
  {
    var _, history, _ := Setup(startTime);
    var dm := history.dataManager;
    var a := history.LogTransaction("ACC0001", DEPOSIT, 50000, 150000);
    var log1 := dm.transactions;
    var b := history.LogTransaction("ACC0001", WITHDRAW, 20000, 130000);
    var log2 := dm.transactions;
    var c := history.LogTransaction("ACC0002", DEPOSIT, 100000, 200000);
    var log3 := dm.transactions;
    found := history.GetHistory("ACC0001");
    var keep := OfAccount("ACC0001");
    SelectAppend([], log1[0], keep);
    SelectAppend(log1, log2[1], keep);
    SelectAppend(log2, log3[2], keep);
    assert log1 == [] + [log1[0]] && log2 == log1 + [log2[1]] && log3 == log2 + [log3[2]];
    ViewSpec(log3, keep, 10);
  }

  /** One account opened on a fresh store under a name with no white space
      at its ends; `acc` is the identifier `create_account` returned. */
  method OneAccount(startTime: nat, name: string, balance: Money)
    returns (accounts: AccountModule, bank: TransactionModule, acc: string)
    requires name != [] && !IsSpace(name[0]) && !IsSpace(name[|name| - 1])
    requires balance >= 0
    ensures bank.account == accounts && bank.Valid()
    ensures fresh(accounts.dataManager)
    ensures acc == AccountId(1) && accounts.dataManager.accounts.Keys == {acc}
    ensures accounts.dataManager.accounts[acc].name == name
    ensures accounts.dataManager.accounts[acc].balance == balance
    ensures accounts.dataManager.transactions == []
    ensures accounts.dataManager.GetNextTransactionId() == 1
  {
    StripUnpadded(name);
    var history;
    accounts, history, bank := Setup(startTime);
    var created := accounts.CreateAccount(name, balance);
    acc := created.accountId;
  }

  /** test_get_nonexistent_account: an unknown identifier gives None. */
  method UnknownAccountScenario(startTime: nat) returns (found: Option<Account>)
    ensures found == None
  {
    var accounts, _, _ := Setup(startTime);
    found := accounts.GetAccount("ACC9999");
  }

  /** test_update_balance: 500 set to 1500 succeeds and is read back. */
  method UpdateBalanceScenario(startTime: nat) returns (success: bool, stored: Option<Account>)
    ensures success
    ensures stored.Some? && stored.value.balance == 150000 && stored.value.name == "王五"
  {
    var accounts, _, acc := OneAccount(startTime, "王五", 50000);
    success := accounts.UpdateBalance(acc, 150000);
    stored := accounts.GetAccount(acc);
  }

  /** test_account_exists and test_delete_account: a created account exists
      and an unknown one does not; deleting the account succeeds, and
      afterwards it is neither found nor read. */
  method ExistsAndDeleteScenario(startTime: nat)
    returns (before: bool, unknown: bool, deleted: bool, after: bool, stored: Option<Account>)
    ensures before && !unknown
    ensures deleted && !after && stored == None
  {
    var accounts, _, acc := OneAccount(startTime, "用戶", 100000);
    FirstIdentifiers();
    before := accounts.AccountExists(acc);
    unknown := accounts.AccountExists("ACC9999");
    deleted := accounts.DeleteAccount(acc);
    after := accounts.AccountExists(acc);
    stored := accounts.GetAccount(acc);
  }

  /** test_get_history_with_limit: of five records of one account, a limit
      of 3 returns three, newest first, and every record left out is older
      than every one returned. */
  method HistoryLimitScenario(startTime: nat) returns (found: seq<Txn>, log: seq<Txn>)
    ensures |found| == 3 && NewestFirst(found)
    ensures forall t :: t in found ==> t in log
    ensures forall t, u :: t in found && u in log && u !in found ==> u.timestamp < t.timestamp
  {
    var _, history, _ := Setup(startTime);
    var acc := "ACC0001";
    assert Select([], OfAccount(acc)) == [];
    OwnDeposit(history, acc, 10000, 10000);
    OwnDeposit(history, acc, 10000, 20000);
    OwnDeposit(history, acc, 10000, 30000);
    OwnDeposit(history, acc, 10000, 40000);
    OwnDeposit(history, acc, 10000, 50000);
    log := history.dataManager.transactions;
    found := history.GetHistory(acc, 3);
  }

  /** Logs one `DEPOSIT` for `accountId` on a store that holds records of
      that account only; it then holds one more of them. */
  method OwnDeposit(history: HistoryModule, accountId: string, amount: Money, balanceAfter: Money)
    requires history.dataManager.Valid()
    requires forall t :: t in history.dataManager.transactions ==> t.accountId == accountId
    modifies history.dataManager
    ensures history.dataManager.Valid()
    ensures forall t :: t in history.dataManager.transactions ==> t.accountId == accountId
    ensures |Select(history.dataManager.transactions, OfAccount(accountId))|
         == |Select(old(history.dataManager.transactions), OfAccount(accountId))| + 1
  {
    var log := history.dataManager.transactions;
    var id := history.LogTransaction(accountId, DEPOSIT, amount, balanceAfter);
    var last := history.dataManager.transactions[|log|];
    assert history.dataManager.transactions == log + [last];
    SelectAppend(log, last, OfAccount(accountId));
  }

  /** test_get_history_by_type: of two deposits and a withdrawal, the
      deposit query returns the two deposits and nothing else. */
  method HistoryByTypeScenario(startTime: nat) returns (found: seq<Txn>)
    ensures |found| == 2
    ensures forall t :: t in found ==> t.txnType == DEPOSIT && t.accountId == "ACC0001"
  {
    var _, history, _ := Setup(startTime);
    var dm := history.dataManager;
    var keep := OfAccountAndType("ACC0001", DEPOSIT);
    var id := history.LogTransaction("ACC0001", DEPOSIT, 50000, 150000);
    var log1 := dm.transactions;
    id := history.LogTransaction("ACC0001", WITHDRAW, 20000, 130000);
    var log2 := dm.transactions;
    id := history.LogTransaction("ACC0001", DEPOSIT, 10000, 140000);
    var log3 := dm.transactions;
    found := history.GetHistoryByType("ACC0001", DEPOSIT);
    assert log1 == [] + [log1[0]] && log2 == log1 + [log2[1]] && log3 == log2 + [log3[2]];
    SelectAppend([], log1[0], keep);
    SelectAppend(log1, log2[1], keep);
    SelectAppend(log2, log3[2], keep);
  }

  /** test_get_history_empty: an account with no records has an empty history. */
  method EmptyHistoryScenario(startTime: nat) returns (found: seq<Txn>)
    ensures found == []
  {
    var _, history, _ := Setup(startTime);
    found := history.GetHistory("ACC0001");
    assert Select([], OfAccount("ACC0001")) == [];
  }

  /** test_deposit: 1000 plus 500 gives 1500 under the first record
      identifier, and the record logged is a `DEPOSIT` of 500. */
  method DepositScenario(startTime: nat) returns (r: Outcome<Receipt>, balance: Money, last: Txn)
    ensures r == Ok(Receipt(150000, "TXN0001"))
    ensures balance == 150000
    ensures last.txnType == DEPOSIT && last.amount == 50000 && last.balanceAfter == 150000
  {
    var accounts, bank, acc := OneAccount(startTime, "測試用戶", 100000);
    r := bank.Deposit(acc, 50000);
    balance := accounts.dataManager.accounts[acc].balance;
    last := accounts.dataManager.transactions[0];
    FirstIdentifiers();
  }

  /** test_deposit_invalid_amount: a negative deposit is refused and the
      balance stays. */
  method DepositInvalidAmountScenario(startTime: nat) returns (r: Outcome<Receipt>, balance: Money)
    ensures r == Failed(InvalidAmount)
    ensures balance == 100000
  {
    var accounts, bank, acc := OneAccount(startTime, "測試用戶", 100000);
    r := bank.Deposit(acc, -10000);
    balance := accounts.dataManager.accounts[acc].balance;
  }

  /** test_withdraw: 1000 minus 300 leaves 700, with a `WITHDRAW` record. */
  method WithdrawScenario(startTime: nat) returns (r: Outcome<Receipt>, last: Txn)
    ensures r.Ok? && r.value.newBalance == 70000
    ensures last.txnType == WITHDRAW && last.amount == 30000 && last.balanceAfter == 70000
  {
    var accounts, bank, acc := OneAccount(startTime, "測試用戶", 100000);
    r := bank.Withdraw(acc, 30000);
    last := accounts.dataManager.transactions[0];
  }

  /** test_withdraw_insufficient_balance: 1000 from 500 is refused. */
  method WithdrawInsufficientScenario(startTime: nat) returns (r: Outcome<Receipt>)
    ensures r == Failed(InsufficientBalance)
  {
    var _, bank, acc := OneAccount(startTime, "測試用戶", 50000);
    r := bank.Withdraw(acc, 100000);
  }

  /** test_insufficient_balance_workflow: withdrawing 200 from 100 fails
      with the balance message and leaves the balance and the log alone. */
  method InsufficientBalanceScenario(startTime: nat) returns (r: Outcome<Receipt>, balance: Money, records: nat)
    ensures r == Failed(InsufficientBalance)
    ensures balance == 10000 && records == 0
  {
    var accounts, bank, acc := OneAccount(startTime, "用戶", 10000);
    r := bank.Withdraw(acc, 20000);
    balance := accounts.dataManager.accounts[acc].balance;
    records := |accounts.dataManager.transactions|;
  }

  /** test_transfer_to_self: a transfer from an account to itself is refused. */
  method TransferToSelfScenario(startTime: nat) returns (r: Outcome<TransferReceipt>)
    ensures r == Failed(SelfTransfer)
  {
    var _, bank, acc := OneAccount(startTime, "測試用戶", 100000);
    r := bank.Transfer(acc, acc, 10000);
  }

  /** Two accounts opened on a fresh store, A with 1000 and B with 500, as
      the transfer tests begin; `acc1` and `acc2` are the identifiers
      `create_account` returned. */
  method TwoAccounts(startTime: nat, nameA: string, nameB: string)
    returns (accounts: AccountModule, bank: TransactionModule, acc1: string, acc2: string)
    requires nameA != [] && !IsSpace(nameA[0]) && !IsSpace(nameA[|nameA| - 1])
    requires nameB != [] && !IsSpace(nameB[0]) && !IsSpace(nameB[|nameB| - 1])
    ensures bank.account == accounts && bank.Valid()
    ensures fresh(accounts.dataManager)
    ensures acc1 != acc2
    ensures acc1 in accounts.dataManager.accounts && accounts.dataManager.accounts[acc1].balance == 100000
    ensures acc2 in accounts.dataManager.accounts && accounts.dataManager.accounts[acc2].balance == 50000
    ensures accounts.dataManager.transactions == []
    ensures accounts.dataManager.GetNextTransactionId() == 1
  {
    accounts, bank, acc1 := OneAccount(startTime, nameA, 100000);
    StripUnpadded(nameB);
    var b := accounts.CreateAccount(nameB, 50000);
    acc2 := b.accountId;
  }

  /** test_transfer: 300 from A (1000) to B (500) leaves 700 and 800, and
      each side gets its record. */
  method TransferScenario(startTime: nat) returns (r: Outcome<TransferReceipt>, log: seq<Txn>)
    ensures r.Ok? && r.value.fromBalance == 70000 && r.value.toBalance == 80000
    ensures |log| == 2 && log[0].txnType == TRANSFER_OUT && log[1].txnType == TRANSFER_IN
    ensures log[0].accountId != log[1].accountId
  {
    var accounts, bank, acc1, acc2 := TwoAccounts(startTime, "用戶A", "用戶B");
    r := bank.Transfer(acc1, acc2, 30000);
    log := accounts.dataManager.transactions;
  }

  /** Steps 2 and 3 of test_complete_workflow: A deposits 500 (1500), then
      sends 300 to B (1200 and 800). The log then holds A's deposit, A's
      outgoing record and B's incoming one. */
  method DepositThenTransfer(accounts: AccountModule, bank: TransactionModule, acc1: string, acc2: string)
    returns (deposit: Outcome<Receipt>, transfer: Outcome<TransferReceipt>)
    requires bank.account == accounts && bank.Valid()
    requires acc1 != acc2
    requires acc1 in accounts.dataManager.accounts && accounts.dataManager.accounts[acc1].balance == 100000
    requires acc2 in accounts.dataManager.accounts && accounts.dataManager.accounts[acc2].balance == 50000
    requires accounts.dataManager.transactions == []
    modifies accounts.dataManager
    ensures bank.Valid()
    ensures deposit.Ok? && deposit.value.newBalance == 150000
    ensures transfer.Ok? && transfer.value.fromBalance == 120000 && transfer.value.toBalance == 80000
    ensures var log := accounts.dataManager.transactions;
      |log| == 3 && log[0].accountId == acc1 && log[1].accountId == acc1 && log[2].accountId == acc2
  {
    var dm := accounts.dataManager;
    deposit := bank.Deposit(acc1, 50000);
    var log1 := dm.transactions;
    assert |log1| == 1 && log1[0].accountId == acc1;
    assert dm.accounts[acc1].balance == 150000 && dm.accounts[acc2].balance == 50000;
    transfer := bank.Transfer(acc1, acc2, 30000);
    var log3 := dm.transactions;
    assert log3 == log1 + [log3[1]] + [log3[2]];
  }

  /** test_complete_workflow: after the deposit and the transfer, A's history
      holds two records and B's one. */
  method CompleteWorkflowScenario(startTime: nat)
    returns (deposit: Outcome<Receipt>, transfer: Outcome<TransferReceipt>, historyA: seq<Txn>, historyB: seq<Txn>)
    ensures deposit.Ok? && deposit.value.newBalance == 150000
    ensures transfer.Ok? && transfer.value.fromBalance == 120000 && transfer.value.toBalance == 80000
    ensures |historyA| == 2 && |historyB| == 1
  {
    var accounts, bank, acc1, acc2 := TwoAccounts(startTime, "用戶A", "用戶B");
    deposit, transfer := DepositThenTransfer(accounts, bank, acc1, acc2);
    historyA := bank.history.GetHistory(acc1);
    historyB := bank.history.GetHistory(acc2);
    ThreeRecordHistories(accounts.dataManager.transactions, acc1, acc2);
  }

  /** A log whose records belong to a, a and b, in that order, shows two
      records for a and one for b under the default limit. */
  lemma ThreeRecordHistories(log: seq<Txn>, a: string, b: string)
    requires |log| == 3 && a != b
    requires log[0].accountId == a && log[1].accountId == a && log[2].accountId == b
    ensures |View(log, OfAccount(a), 10)| == 2
    ensures |View(log, OfAccount(b), 10)| == 1
  {
    assert log == [] + [log[0]] + [log[1]] + [log[2]];
    assert log[..2] == [] + [log[0]] + [log[1]];
    forall id | id == a || id == b
      ensures |Select(log, OfAccount(id))| == if id == a then 2 else 1
    {
      SelectAppend([], log[0], OfAccount(id));
      SelectAppend([log[0]], log[1], OfAccount(id));
      SelectAppend(log[..2], log[2], OfAccount(id));
    }
    ViewSpec(log, OfAccount(a), 10);
    ViewSpec(log, OfAccount(b), 10);
  }
}
