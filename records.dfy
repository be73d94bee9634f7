/** The two persisted record shapes of the ledger, an account and a transaction
    record, and the well-formedness every stored collection of them keeps. */
module Records {
  import opened Format

  datatype Option<T> = None | Some(value: T)

  /** Money is counted in cents; the source's floats are not modelled. */
  type Money = int

  /** One entry of the account map `id -> {name, balance, created_date}`.
      `createdDate` is the reading of an abstract clock, not an ISO string. */
  datatype Account = Account(name: string, balance: Money, createdDate: nat)

  /** One entry of the transaction list. `relatedAccount` is the optional key
      `related_account`; `timestamp` is a reading of the abstract clock. */
  datatype Txn = Txn(
    transactionId: string,
    accountId: string,
    txnType: string,
    amount: Money,
    balanceAfter: Money,
    timestamp: nat,
    relatedAccount: Option<string>)

  const DEPOSIT: string := "DEPOSIT"
  const WITHDRAW: string := "WITHDRAW"
  const TRANSFER_OUT: string := "TRANSFER_OUT"
  const TRANSFER_IN: string := "TRANSFER_IN"

  /** The counter value a stored record's identifier was made from. */
  function Number(t: Txn): nat { IdNumber(t.transactionId) }

  /** The account map with one existing account's balance replaced; name
      and creation time stay. */
  function WithBalance(accounts: map<string, Account>, id: string, balance: Money): (m: map<string, Account>)
    requires id in accounts
    ensures m.Keys == accounts.Keys
    ensures m[id].name == accounts[id].name && m[id].createdDate == accounts[id].createdDate
    ensures m[id].balance == balance
    ensures forall k :: k in accounts && k != id ==> m[k] == accounts[k]
  {
    accounts[id := accounts[id].(balance := balance)]
  }

  /** The number written after every key's three-letter prefix is below the
      account counter `next`, and no balance is negative. The predicate does
      not say that the prefix is `ACC`. */
  ghost predicate WellFormedAccounts(accounts: map<string, Account>, next: int)
  {
    forall id :: id in accounts ==> IdNumber(id) < next && accounts[id].balance >= 0
  }

  /** The number written after every record identifier's three-letter prefix
      is below the transaction counter `next`, and every timestamp is before
      `clock`. */
  ghost predicate IssuedBefore(log: seq<Txn>, next: int, clock: nat)
  {
    forall i :: 0 <= i < |log| ==> Number(log[i]) < next && log[i].timestamp < clock
  }

  /** Identifier numbers strictly increase along the list. */
  ghost predicate IdsIncreasing(log: seq<Txn>)
  {
    forall i, j :: 0 <= i < j < |log| ==> Number(log[i]) < Number(log[j])
  }

  /** Timestamps strictly increase along the list: it is in the order the
      records were made. */
  predicate Chronological(log: seq<Txn>)
  {
    forall i, j :: 0 <= i < j < |log| ==> log[i].timestamp < log[j].timestamp
  }

  /** The shape of the transaction list between two operations. */
  ghost predicate WellFormedLog(log: seq<Txn>, next: int, clock: nat)
  {
    IssuedBefore(log, next, clock) && IdsIncreasing(log) && Chronological(log)
  }

  /** The identifier the account counter hands out next is not yet a key. */
  lemma FreshAccountId(accounts: map<string, Account>, next: nat)
    requires WellFormedAccounts(accounts, next)
    ensures AccountId(next) !in accounts
  {
    if AccountId(next) in accounts {
      IdNumberOfAccountId(next);
    }
  }

  /** Adding the account the counter names, with a non-negative balance, and
      advancing the counter keeps the account map well formed. */
  lemma AddAccountWellFormed(accounts: map<string, Account>, next: nat, a: Account)
    requires WellFormedAccounts(accounts, next) && a.balance >= 0
    ensures WellFormedAccounts(accounts[AccountId(next) := a], next + 1)
  {
    var id0 := AccountId(next);
    var m := accounts[id0 := a];
    IdNumberOfAccountId(next);
    forall id | id in m
      ensures IdNumber(id) < next + 1 && m[id].balance >= 0
    {
      if id != id0 {
        assert id in accounts;
      }
    }
  }

  /** Giving an existing account a non-negative balance keeps the map well formed. */
  lemma SetBalanceWellFormed(accounts: map<string, Account>, next: int, id: string, balance: Money)
    requires WellFormedAccounts(accounts, next) && id in accounts && balance >= 0
    ensures WellFormedAccounts(WithBalance(accounts, id, balance), next)
  {
    var m := WithBalance(accounts, id, balance);
    forall k | k in m
      ensures IdNumber(k) < next && m[k].balance >= 0
    {
      assert k in accounts;
    }
  }

  /** Removing an account keeps the map well formed. */
  lemma RemoveWellFormed(accounts: map<string, Account>, next: int, id: string)
    requires WellFormedAccounts(accounts, next)
    ensures WellFormedAccounts(accounts - {id}, next)
  {
    var m := accounts - {id};
    forall k | k in m
      ensures IdNumber(k) < next && m[k].balance >= 0
    {
      assert k in accounts;
    }
  }

  /** A later clock keeps the list well formed. */
  lemma LaterClockWellFormed(log: seq<Txn>, next: int, clock: nat, later: nat)
    requires WellFormedLog(log, next, clock) && clock <= later
    ensures WellFormedLog(log, next, later)
  {
    forall i | 0 <= i < |log|
      ensures Number(log[i]) < next && log[i].timestamp < later
    {
    }
  }

  /** Appending the record the counter names, stamped with the current clock,
      and advancing counter and clock keeps the list well formed. */
  lemma AppendWellFormed(log: seq<Txn>, next: nat, clock: nat, t: Txn)
    requires WellFormedLog(log, next, clock)
    requires t.transactionId == TransactionId(next) && t.timestamp == clock
    ensures WellFormedLog(log + [t], next + 1, clock + 1)
  {
    var l := log + [t];
    IdNumberOfTransactionId(next);
    assert Number(t) == next;
    forall i | 0 <= i < |l|
      ensures Number(l[i]) < next + 1 && l[i].timestamp < clock + 1
    {
      if i < |log| {
        assert l[i] == log[i];
      }
    }
    assert IssuedBefore(l, next + 1, clock + 1);
    AppendIncreasing(log, next, clock, t);
  }

  lemma AppendIncreasing(log: seq<Txn>, next: nat, clock: nat, t: Txn)
    requires IssuedBefore(log, next, clock) && IdsIncreasing(log) && Chronological(log)
    requires Number(t) == next && t.timestamp == clock
    ensures IdsIncreasing(log + [t]) && Chronological(log + [t])
  {
    var l := log + [t];
    forall i, j | 0 <= i < j < |l|
      ensures Number(l[i]) < Number(l[j]) && l[i].timestamp < l[j].timestamp
    {
      assert l[i] == log[i];
      if j < |log| {
        assert l[j] == log[j];
      }
    }
  }

  /** No two records of a well-formed list share an identifier. */
  lemma TransactionIdsDistinct(log: seq<Txn>, next: int, clock: nat, i: int, j: int)
    requires WellFormedLog(log, next, clock)
    requires 0 <= i < |log| && 0 <= j < |log| && i != j
    ensures log[i].transactionId != log[j].transactionId
  {
    assert IdsIncreasing(log);
  }
}
