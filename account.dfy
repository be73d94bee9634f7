/** modules/account.py: accounts are created, read, re-balanced, tested for
    existence and deleted through the shared store. The blanks of the source
    are filled as their comments describe: `update_balance` refuses a negative
    balance (the team decision at modules/account.py:146, shown there only as
    reference code), and `account_exists` / `delete_account` (bodies `pass` in
    the source) follow their listed steps. Deleting does not look at the
    balance: that policy is left undecided at modules/account.py:205 and 214. */
module Accounts {
  import opened Format
  import opened Records
  import opened DataStore

  /** The two `ValueError`s of `create_account`. */
  datatype CreateError =
    | EmptyName        // "帳戶名稱不能為空"
    | NegativeBalance  // "初始餘額不能為負數"

  datatype CreateResult = Created(accountId: string) | Rejected(error: CreateError)

  class AccountModule {
    const dataManager: DataManager

    constructor (dm: DataManager)
      ensures dataManager == dm
    {
      dataManager := dm;
    }

    /** Validates the name and the opening balance, then stores the account
        under the next `ACC` identifier and advances the account counter. */
    method CreateAccount(name: string, initialBalance: Money) returns (r: CreateResult)
      requires dataManager.Valid()
      modifies dataManager
      ensures dataManager.Valid()
      ensures r.Created? <==> !IsBlank(name) && initialBalance >= 0
      ensures IsBlank(name) ==> r == Rejected(EmptyName)
      ensures !IsBlank(name) && initialBalance < 0 ==> r == Rejected(NegativeBalance)
      ensures r.Rejected? ==> unchanged(dataManager)
      ensures r.Created? ==>
        var n := old(dataManager.GetNextAccountId());
        && !IsBlank(name) && initialBalance >= 0
        && r.accountId == AccountId(n)
        && r.accountId !in old(dataManager.accounts)
        && dataManager.accounts
           == old(dataManager.accounts)[r.accountId := Account(Strip(name), initialBalance, old(dataManager.clock))]
        && dataManager.config == old(dataManager.config)[NEXT_ACCOUNT_ID := n + 1]
        && dataManager.transactions == old(dataManager.transactions)
        && dataManager.clock == old(dataManager.clock) + 1
    {
      if IsBlank(name) {
        return Rejected(EmptyName);
      }
      if initialBalance < 0 {
        return Rejected(NegativeBalance);
      }
      var accounts := dataManager.LoadAccounts();
      var nextId := dataManager.GetNextAccountId();
      var accountId := AccountId(nextId);
      FreshAccountId(accounts, nextId);
      ghost var log, nextTxn := dataManager.transactions, dataManager.GetNextTransactionId();
      LaterClockWellFormed(log, nextTxn, dataManager.clock, dataManager.clock + 1);
      var created := dataManager.Now();
      var account := Account(Strip(name), initialBalance, created);
      AddAccountWellFormed(accounts, nextId, account);
      accounts := accounts[accountId := account];
      var _ := dataManager.SaveAccounts(accounts);
      var _ := dataManager.IncrementAccountId();
      assert dataManager.accounts == accounts && dataManager.GetNextAccountId() == nextId + 1;
      assert dataManager.transactions == log && dataManager.GetNextTransactionId() == nextTxn;
      assert dataManager.clock == created + 1;
      r := Created(accountId);
    }

    /** `accounts.get(account_id)`: the stored record, or None for an unknown id. */
    function GetAccount(accountId: string): (r: Option<Account>)
      reads dataManager
      ensures r.None? <==> !AccountExists(accountId)
      ensures r.Some? ==> r.value == dataManager.accounts[accountId]
    {
      var accounts := dataManager.LoadAccounts();
      if accountId in accounts then Some(accounts[accountId]) else None
    }

    /** `account_id in accounts`. */
    function AccountExists(accountId: string): (b: bool)
      reads dataManager
      ensures b <==> accountId in dataManager.accounts
    {
      accountId in dataManager.LoadAccounts()
    }

    /** Sets one account's balance; refuses an unknown account and a negative
        balance. Name, creation time and every other account stay as they were. */
    method UpdateBalance(accountId: string, newBalance: Money) returns (ok: bool)
      requires dataManager.Valid()
      modifies dataManager
      ensures dataManager.Valid()
      ensures ok <==> accountId in old(dataManager.accounts) && newBalance >= 0
      ensures !ok ==> unchanged(dataManager)
      ensures ok ==>
        && dataManager.accounts == WithBalance(old(dataManager.accounts), accountId, newBalance)
        && dataManager.transactions == old(dataManager.transactions)
        && dataManager.config == old(dataManager.config)
        && dataManager.clock == old(dataManager.clock)
    {
      var accounts := dataManager.LoadAccounts();
      if accountId !in accounts {
        return false;
      }
      if newBalance < 0 {
        return false;
      }
      SetBalanceWellFormed(accounts, dataManager.GetNextAccountId(), accountId, newBalance);
      accounts := WithBalance(accounts, accountId, newBalance);
      ok := dataManager.SaveAccounts(accounts);
    }

    /** Removes one account; an unknown id gives false. The transaction list
        is never touched, so the removed account's history stays. */
    method DeleteAccount(accountId: string) returns (ok: bool)
      requires dataManager.Valid()
      modifies dataManager
      ensures dataManager.Valid()
      ensures ok <==> accountId in old(dataManager.accounts)
      ensures !ok ==> unchanged(dataManager)
      ensures dataManager.accounts == old(dataManager.accounts) - {accountId}
      ensures dataManager.transactions == old(dataManager.transactions)
      ensures dataManager.config == old(dataManager.config)
      ensures dataManager.clock == old(dataManager.clock)
    {
      var accounts := dataManager.LoadAccounts();
      if accountId !in accounts {
        assert accounts - {accountId} == accounts;
        return false;
      }
      RemoveWellFormed(accounts, dataManager.GetNextAccountId(), accountId);
      accounts := accounts - {accountId};
      ok := dataManager.SaveAccounts(accounts);
    }
  }
}
