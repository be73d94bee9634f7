/** The shared store of modules/data_manager.py: the account map, the
    transaction list and the configuration holding the two identifier
    counters, kept in memory. Saving always succeeds; the JSON files are not
    modelled. `clock` stands for the wall clock the other modules read through
    `datetime.now()`; every reading advances it, so readings strictly
    increase. */
module DataStore {
  import opened Records

  const NEXT_ACCOUNT_ID: string := "next_account_id"
  const NEXT_TRANSACTION_ID: string := "next_transaction_id"

  /** The configuration `_init_files` and `clear_all_data` write. */
  function InitialConfig(): (c: map<string, int>)
    ensures c.Keys == {NEXT_ACCOUNT_ID, NEXT_TRANSACTION_ID}
    ensures c[NEXT_ACCOUNT_ID] == 1 && c[NEXT_TRANSACTION_ID] == 1
  {
    map[NEXT_ACCOUNT_ID := 1, NEXT_TRANSACTION_ID := 1]
  }

  class DataManager {
    var accounts: map<string, Account>
    var transactions: seq<Txn>
    var config: map<string, int>
    var clock: nat

    /** The store between two operations: both counters present and positive;
        the number after the prefix of every account key and every record
        identifier below its counter; record numbers and timestamps increasing
        along the list; no negative balance. */
    ghost predicate Valid()
      reads this
    {
      && NEXT_ACCOUNT_ID in config && NEXT_TRANSACTION_ID in config
      && GetNextAccountId() >= 1 && GetNextTransactionId() >= 1
      && WellFormedAccounts(accounts, GetNextAccountId())
      && WellFormedLog(transactions, GetNextTransactionId(), clock)
    }

    /** A new store over no existing files: `_init_files` writes an empty
        account map, an empty list and both counters at 1. */
    constructor (startTime: nat)
      ensures Valid()
      ensures accounts == map[] && transactions == [] && config == InitialConfig()
      ensures clock == startTime
    {
      accounts := map[];
      transactions := [];
      config := InitialConfig();
      clock := startTime;
    }

    function LoadAccounts(): map<string, Account>
      reads this
    {
      accounts
    }

    /** Saving replaces the stored account map; loading then gives it back. */
    method SaveAccounts(newAccounts: map<string, Account>) returns (ok: bool)
      modifies this
      ensures ok && LoadAccounts() == newAccounts
      ensures transactions == old(transactions) && config == old(config) && clock == old(clock)
    {
      accounts := newAccounts;
      ok := true;
    }

    function LoadTransactions(): seq<Txn>
      reads this
    {
      transactions
    }

    /** Saving replaces the stored list; loading then gives it back. */
    method SaveTransactions(newTransactions: seq<Txn>) returns (ok: bool)
      modifies this
      ensures ok && LoadTransactions() == newTransactions
      ensures accounts == old(accounts) && config == old(config) && clock == old(clock)
    {
      transactions := newTransactions;
      ok := true;
    }

    /** `config.get("next_account_id", 1)`. */
    function GetNextAccountId(): (n: int)
      reads this
      ensures NEXT_ACCOUNT_ID !in config ==> n == 1
      ensures NEXT_ACCOUNT_ID in config ==> n == config[NEXT_ACCOUNT_ID]
    {
      if NEXT_ACCOUNT_ID in config then config[NEXT_ACCOUNT_ID] else 1
    }

    /** `config.get("next_transaction_id", 1)`. */
    function GetNextTransactionId(): (n: int)
      reads this
      ensures NEXT_TRANSACTION_ID !in config ==> n == 1
      ensures NEXT_TRANSACTION_ID in config ==> n == config[NEXT_TRANSACTION_ID]
    {
      if NEXT_TRANSACTION_ID in config then config[NEXT_TRANSACTION_ID] else 1
    }

    /** `config["next_account_id"] += 1`; the key is always present in a
        store built by the constructor (Python would raise KeyError). */
    method IncrementAccountId() returns (ok: bool)
      requires NEXT_ACCOUNT_ID in config
      modifies this
      ensures ok
      ensures config == old(config)[NEXT_ACCOUNT_ID := old(config[NEXT_ACCOUNT_ID]) + 1]
      ensures GetNextAccountId() == old(GetNextAccountId()) + 1
      ensures GetNextTransactionId() == old(GetNextTransactionId())
      ensures accounts == old(accounts) && transactions == old(transactions) && clock == old(clock)
    {
      config := config[NEXT_ACCOUNT_ID := config[NEXT_ACCOUNT_ID] + 1];
      ok := true;
    }

    /** `config["next_transaction_id"] += 1`. */
    method IncrementTransactionId() returns (ok: bool)
      requires NEXT_TRANSACTION_ID in config
      modifies this
      ensures ok
      ensures config == old(config)[NEXT_TRANSACTION_ID := old(config[NEXT_TRANSACTION_ID]) + 1]
      ensures GetNextTransactionId() == old(GetNextTransactionId()) + 1
      ensures GetNextAccountId() == old(GetNextAccountId())
      ensures accounts == old(accounts) && transactions == old(transactions) && clock == old(clock)
    {
      config := config[NEXT_TRANSACTION_ID := config[NEXT_TRANSACTION_ID] + 1];
      ok := true;
    }

    /** Reads the wall clock (`datetime.now()`); the next reading is later. */
    method Now() returns (t: nat)
      modifies this
      ensures t == old(clock) && clock == old(clock) + 1
      ensures accounts == old(accounts) && transactions == old(transactions) && config == old(config)
    {
      t := clock;
      clock := clock + 1;
    }

    /** Empties the store whatever it held: no accounts, no records, both
        counters back at 1. The wall clock is not part of the store. */
    method ClearAllData()
      modifies this
      ensures Valid()
      ensures accounts == map[] && transactions == [] && config == InitialConfig()
      ensures clock == old(clock)
    {
      var _ := SaveAccounts(map[]);
      var _ := SaveTransactions([]);
      config := InitialConfig();
    }
  }
}
