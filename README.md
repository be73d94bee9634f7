# Simple-Bank-System ledger engine in Dafny

This project models the ledger engine of Simple-Bank-System. The engine has four Python modules that share one store:

- `DataManager` holds three things:
  - the account map `id -> {name, balance, created_date}`;
  - the append-only transaction list;
  - the configuration with the two identifier counters `next_account_id` and `next_transaction_id`.
- `AccountModule` creates accounts under `ACC%04d` identifiers. It reads them, overwrites a balance, tests existence and deletes.
- `HistoryModule` appends records under `TXN%04d` identifiers. It reads one account's records back as a filtered view, newest first and truncated to a limit.
- `TransactionModule` implements deposit, withdraw and transfer through the two modules above.

Each Python class is a Dafny class. `DataManager`'s three structures are fields the methods reassign. The other three modules hold a reference to the shared store, or to the modules they were given, just as the source injects them. Python's `ValueError`s become `Rejected`/`Failed` results.

Money is an `int` counted in cents, so 1000.0 is 100000. `datetime.now()` is a `clock` field of the store that every reading advances. Timestamps therefore strictly increase in creation order. With such a clock, "sort by timestamp, newest first" is exactly "reverse the filtered list", and `History.NewestFirstUnique` proves that this sort has only one possible outcome.

Several functions in the source are unfinished. The model follows what their comments and reference code describe:

- `update_balance` refuses a negative balance. This is the team decision at modules/account.py:146, shown only as a comment.
- `account_exists` and `delete_account` follow their listed steps.
- `get_history` sorts newest first and keeps the first `limit` records when `limit > 0`. The shown code returns right after the filter.
- `get_history_by_type` filters by account and type in one pass, then sorts and limits the same way.
- `get_all_transactions` returns the stored list.
- `withdraw` checks funds and logs a `WITHDRAW` record. The shown code has no funds check and returns `transaction_id = None`.
- `transfer` follows its eight reference steps.

Where the intended design and the code differ, the model follows the code:

- Transfer records carry no related account, because the reference steps never pass one (modules/transaction.py:238-250).
- Deleting an account does not look at its balance (modules/account.py:205, 214).
- The default history limit is 10 (modules/history.py:93).
- There is no atomic commit: the two balance updates and the two records of a transfer are separate calls, as the source notes at modules/transaction.py:260-263.

Files:

- `format.dfy` (module `Format`): zero-padded identifiers, reading their number back, and Python's `str.strip()`.
- `records.dfy` (module `Records`): the account and record shapes, and the well-formedness the store keeps.
- `data_manager.dfy` (module `DataStore`): the store.
- `account.dfy` (module `Accounts`), `history.dfy` (module `History`) and `transaction.dfy` (module `Transactions`): the three modules.
- `scenarios.dfy` (module `Scenarios`): the flows of the repository's tests, with what each test checks stated as a postcondition.

The store invariant `DataManager.Valid` says:

- both counters are present and positive;
- the number written after the prefix of every account key and of every record identifier is below its counter;
- no balance is negative;
- records are in creation order, and the numbers of their identifiers increase along the list.

It does not say that a key carries the `ACC` prefix. Identifiers made by the counters do, as `Format.IdNumberOfAccountId` shows. From these facts, `Records.FreshAccountId` shows that the next identifier is never taken, and `Records.TransactionIdsDistinct` shows that record identifiers are distinct.

The following establish or keep the invariant:

- the store's constructor and `ClearAllData`;
- `CreateAccount`, `UpdateBalance`, `DeleteAccount` and `LogTransaction`;
- `Deposit`, `Withdraw` and `Transfer`, with its two steps `UpdateBoth` and `LogTransfer`.

The store's low-level methods neither require nor promise it: `SaveAccounts`, `SaveTransactions`, `IncrementAccountId`, `IncrementTransactionId` and `Now`. The module methods above call them and restore the invariant before they return.

## Model

| member | source | states |
|---|---|---|
| `Format.Digits` | modules/account.py:65 | the decimal digits of a counter value (`str(n)`): non-empty, all digits, no leading zero for a positive value, a single digit exactly for values below 10 |
| `Format.DigitsLength` | modules/account.py:50 | a counter value has at most four digits exactly when it is below 10000 |
| `Format.DigitsAtLeastFour` | modules/account.py:50 | from 1000 on, a counter value has at least four digits |
| `Format.PadZeros` | modules/account.py:65 | no contract: left-pads with '0' to a width; its meaning is stated by `Format.PadZerosAddsZeros` |
| `Format.Pad4` | modules/account.py:65 | no contract: `{n:04d}`; its meaning is stated by `Format.Pad4Shape` and `Format.ValueOfPad4` |
| `Format.PadZerosAddsZeros` | modules/account.py:65 | left-padding to a width puts exactly the missing number of '0's in front and never truncates |
| `Format.Pad4Shape` | modules/account.py:50 | `{n:04d}` is a digit string of at least four characters, exactly four exactly when `n < 10000` (the "4 digits" of the identifier format), ending with the number's own digits |
| `Format.ValueOfPad4` | modules/history.py:68 | reading a `{n:04d}` string back gives `n` |
| `Format.AccountId` | modules/account.py:65 | no contract: `f"ACC{n:04d}"`; its properties are the rows `Format.IdNumberOfAccountId`, `Format.AccountIdInjective`, `Format.FirstIdentifiers` and `Format.WideIdentifier` |
| `Format.TransactionId` | modules/history.py:68 | no contract: `f"TXN{n:04d}"`; its properties are the rows `Format.IdNumberOfTransactionId`, `Format.TransactionIdInjective` and `Format.FirstIdentifiers` |
| `Format.IdNumberOfAccountId` | modules/account.py:64-65 | the number after `ACC` in an account identifier is the counter value it was made from |
| `Format.IdNumberOfTransactionId` | modules/history.py:67-68 | the number after `TXN` in a record identifier is the counter value it was made from |
| `Format.AccountIdInjective` | modules/account.py:63-65 | two account identifiers are equal exactly when their counter values are |
| `Format.TransactionIdInjective` | modules/history.py:66-68 | two record identifiers are equal exactly when their counter values are |
| `Format.FirstIdentifiers` | modules/account.py:44 | counters 1 and 2 give `ACC0001` and `ACC0002` (the example at modules/account.py:44), and transaction counter 1 gives `TXN0001` (the example at modules/history.py:48) |
| `Format.WideIdentifier` | modules/account.py:65 | a five-digit counter gives the five-digit identifier `ACC12345`: padding does not cut |
| `Format.LeadingSpaces` | modules/account.py:69 | the count covers only white space and stops at the first other character or at the end |
| `Format.TrimStart` | modules/account.py:69 | the result is a suffix of the input, only white space was removed before it, and it does not start with white space |
| `Format.TrimEnd` | modules/account.py:69 | the result is a prefix of the input, only white space was removed after it, and it does not end with white space |
| `Format.Strip` | modules/account.py:69 | `name.strip()` is no longer than the input and has no white space at either end |
| `Format.StripKeepsInfix` | modules/account.py:69 | `strip` keeps one contiguous piece of the input and everything it removes around that piece is white space |
| `Format.IsBlank` | modules/account.py:55 | no contract: the rejection test `not name or name.strip() == ""`; its meaning is stated by `Format.BlankIffAllSpace` |
| `Format.BlankIffAllSpace` | modules/account.py:55-56 | the rejection test `not name or name.strip() == ""` holds exactly for names made only of white space |
| `Format.StripUnpadded` | modules/account.py:69 | a name with no white space at either end is stored as given |
| `Format.StripIdempotent` | modules/account.py:69 | stripping a stored name again changes nothing |
| `Records.WithBalance` | modules/account.py:160 | overwriting one balance keeps the keys, that account's name and creation time, and every other account |
| `Records.FreshAccountId` | modules/account.py:63-68 | in a well-formed map the identifier the counter hands out next is not yet a key, so creation never overwrites an account |
| `Records.AddAccountWellFormed` | modules/account.py:68-76 | adding the account the counter names, with a non-negative balance, and advancing the counter keeps the map well formed |
| `Records.SetBalanceWellFormed` | modules/account.py:154-160 | a non-negative new balance keeps the map well formed |
| `Records.RemoveWellFormed` | modules/account.py:215-216 | removing an account keeps the map well formed |
| `Records.LaterClockWellFormed` | modules/account.py:71 | reading the clock keeps the record list well formed |
| `Records.AppendWellFormed` | modules/history.py:66-89 | appending the record the counter names, stamped now, and advancing counter and clock keeps the list well formed |
| `Records.AppendIncreasing` | modules/history.py:84-85 | an appended record with the next identifier and the current time keeps identifiers and timestamps increasing |
| `Records.TransactionIdsDistinct` | modules/history.py:66-68 | no two records of a well-formed list share an identifier |
| `DataStore.InitialConfig` | modules/data_manager.py:33-38 | the initial configuration holds exactly the two counters, both 1 |
| `DataStore.DataManager.constructor` | modules/data_manager.py:27-38 | a new store has no accounts, no records, both counters at 1, and is valid |
| `DataStore.DataManager.LoadAccounts` | modules/data_manager.py:62-64 | no contract: returns the stored account map; the round trip with saving is stated by `DataStore.DataManager.SaveAccounts` |
| `DataStore.DataManager.LoadTransactions` | modules/data_manager.py:72-74 | no contract: returns the stored record list; the round trip with saving is stated by `DataStore.DataManager.SaveTransactions` |
| `DataStore.DataManager.SaveAccounts` | modules/data_manager.py:62-68 | saving then loading the account map gives back what was saved; nothing else changes |
| `DataStore.DataManager.SaveTransactions` | modules/data_manager.py:72-78 | saving then loading the record list gives back what was saved; nothing else changes |
| `DataStore.DataManager.GetNextAccountId` | modules/data_manager.py:82-85 | the stored account counter, or 1 when the key is absent |
| `DataStore.DataManager.GetNextTransactionId` | modules/data_manager.py:93-96 | the stored transaction counter, or 1 when the key is absent |
| `DataStore.DataManager.IncrementAccountId` | modules/data_manager.py:87-91 | the account counter goes up by exactly one; the transaction counter, accounts, records and clock stay |
| `DataStore.DataManager.IncrementTransactionId` | modules/data_manager.py:98-102 | the transaction counter goes up by exactly one; the account counter, accounts, records and clock stay |
| `DataStore.DataManager.Now` | modules/history.py:77 | a clock reading returns the current time and every later reading is greater; the store's data stay |
| `DataStore.DataManager.ClearAllData` | modules/data_manager.py:104-111 | whatever the store held, it ends with no accounts, no records and both counters at 1, and is valid |
| `Accounts.AccountModule.constructor` | modules/account.py:22-31 | the module works on the store it is given |
| `Accounts.AccountModule.CreateAccount` | modules/account.py:54-78 | a blank name is refused first, then a negative balance, both with no state change. It succeeds exactly otherwise (0 is accepted): `ACC` plus the old counter becomes a new key holding the stripped name, the balance and the current time; the counter goes up by one; records stay |
| `Accounts.AccountModule.GetAccount` | modules/account.py:104-105 | the stored account, or None exactly when the identifier is not a key |
| `Accounts.AccountModule.AccountExists` | modules/account.py:177-184 | true exactly when the identifier is a key |
| `Accounts.AccountModule.UpdateBalance` | modules/account.py:134-163 | succeeds exactly for an existing account and a non-negative balance. It sets only that balance (name, creation time and other accounts stay) and otherwise changes nothing |
| `Accounts.AccountModule.DeleteAccount` | modules/account.py:211-216 | succeeds exactly for an existing account. It removes only that key; records, counters and clock stay |
| `History.Select` | modules/history.py:123-126 | the filtered list holds exactly the records of the log that pass the filter, and is no longer than the log |
| `History.SelectAppend` | modules/history.py:123-126 | filtering a log with one more record adds that record at the end exactly when it passes |
| `History.SelectChronological` | modules/history.py:123-126 | filtering keeps creation order |
| `History.Reverse` | modules/history.py:141-145 | same length, element `i` is the input's element `n-1-i` |
| `History.Take` | modules/history.py:161-162 | `[:limit]` for `limit > 0` (at most `limit`, a prefix), the whole list otherwise |
| `History.ReversePermutes` | modules/history.py:141-145 | reversing keeps the same records with the same multiplicities |
| `History.ReverseSortsNewestFirst` | modules/history.py:141-145 | on a list in creation order, reversing yields a newest-first permutation, which is what `sorted(key=timestamp, reverse=True)` asks for |
| `History.NewestFirstUnique` | modules/history.py:141-145 | two newest-first orderings of the same records are equal, so the sort has one outcome |
| `History.View` | modules/history.py:119-166 | no contract: filter, reverse, then `[:limit]`; its meaning is stated by `History.ViewSpec`, `History.ViewAfterAppend` and `History.NewestFirstUnique` |
| `History.ViewSpec` | modules/history.py:119-166 | a history view holds only matching records. It has exactly `min(limit, matching)` of them when `limit > 0` and all of them otherwise. On a log in creation order it is newest first and every left-out match is older than every returned record |
| `History.PrefixIsNewest` | modules/history.py:161-162 | the first records of a newest-first list are newest first and newer than all the rest |
| `History.ViewAfterAppend` | modules/history.py:84-85 | after a record is appended, an unlimited view that accepts it shows it first, followed by the old view; other views are unchanged |
| `History.OfAccount` | modules/history.py:125 | no contract: the filter `txn["account_id"] == account_id`; what it selects is stated through `History.Select` and `History.HistoryModule.GetHistory` |
| `History.OfAccountAndType` | modules/history.py:206-209 | no contract: the filter on account and type; what it selects is stated through `History.Select` and `History.HistoryModule.GetHistoryByType` |
| `History.MakeRecord` | modules/history.py:71-82 | the record carries the given identifier, account, type, amount, balance after and timestamp. `related_account` is present exactly when a non-empty one was passed |
| `History.HistoryModule.constructor` | modules/history.py:21-30 | the module works on the store it is given |
| `History.HistoryModule.LogTransaction` | modules/history.py:63-91 | returns `TXN` plus the old counter and appends exactly one record, built as above and stamped now, after the unchanged earlier records. The counter goes up by one; accounts stay; the store stays valid |
| `History.HistoryModule.GetHistory` | modules/history.py:93-166 | only that account's records, exactly `min(limit, matching)` of them for `limit > 0` (default 10), all of them otherwise. They are newest first, and every left-out record of the account is older than every returned one |
| `History.HistoryModule.GetHistoryByType` | modules/history.py:202-212 | the same for the records of one account and one type |
| `History.HistoryModule.GetAllTransactions` | modules/history.py:227-230 | the stored list, element by element, in creation order |
| `Transactions.Transferred` | modules/transaction.py:229-235 | the source loses `amount`, the target gains it, their sum is unchanged, and every other account stays |
| `Transactions.TotalWithBalance` | modules/account.py:160 | overwriting one balance moves the bank's total by the difference |
| `Transactions.DepositAddsToTotal` | modules/transaction.py:76-79 | a deposit adds exactly its amount to the bank's total |
| `Transactions.WithdrawTakesFromTotal` | modules/transaction.py:149-152 | a withdrawal takes exactly its amount out of the bank's total |
| `Transactions.TransferConservesTotal` | modules/transaction.py:229-235 | a transfer leaves the bank's total unchanged |
| `Transactions.TransferKeepsBalancesNonNegative` | modules/transaction.py:225-235 | a transfer the checks let through leaves no balance negative |
| `Transactions.TransactionModule.constructor` | modules/transaction.py:22-39 | the module works on the account and history modules it is given |
| `Transactions.TransactionModule.Deposit` | modules/transaction.py:66-94 | a non-positive amount is refused first, then an unknown account, with no state change. It succeeds exactly otherwise: the balance rises by `amount` and one `DEPOSIT` record is appended whose balance after is the new balance. The receipt carries that balance and the record's identifier |
| `Transactions.TransactionModule.Withdraw` | modules/transaction.py:126-172 | a non-positive amount, an unknown account or an amount above the balance is refused, in that order, with no state change. It succeeds exactly otherwise: the balance falls by `amount` and stays at least 0, and one `WITHDRAW` record is appended with that balance after. The receipt carries the balance and the record's identifier |
| `Transactions.TransactionModule.Transfer` | modules/transaction.py:208-258 | a non-positive amount, a transfer to self, an unknown source, an unknown target or too little in the source is refused, in that order, before any change. It succeeds exactly otherwise: the balances move as `Transferred` and exactly a `TRANSFER_OUT` record for the source and then a `TRANSFER_IN` record for the target are appended. The receipt carries both balances and the first record's identifier |
| `Transactions.TransactionModule.UpdateBoth` | modules/transaction.py:233-235 | the source's balance is set, then the target's; records, counters and clock stay |
| `Transactions.TransactionModule.LogTransfer` | modules/transaction.py:237-250 | two records are appended, the outgoing one under the old counter and the incoming one under the next. The counter goes up by two and accounts stay |
| `Scenarios.Setup` | tests/test_integration.py:20-32 | the three modules share one fresh, empty, valid store |
| `Scenarios.CreateAccountScenario` | tests/test_account.py:43-60 | the first account is `ACC0001` and reads back with name 張三 and balance 1000 |
| `Scenarios.BlankNameScenario` | tests/test_account.py:65-77 | an empty name is refused for its name and no account is stored |
| `Scenarios.NegativeBalanceScenario` | tests/test_account.py:80-92 | a negative opening balance is refused for the balance and no account is stored |
| `Scenarios.UnknownAccountScenario` | tests/test_account.py:95-104 | an unknown identifier reads as None |
| `Scenarios.UpdateBalanceScenario` | tests/test_account.py:110-124 | setting 500 to 1500 succeeds and reads back, name kept |
| `Scenarios.ExistsAndDeleteScenario` | tests/test_account.py:132-160 | a created account exists and the unknown `ACC9999` does not; deleting the account succeeds, then it neither exists nor reads back |
| `Scenarios.GetHistoryScenario` | tests/test_history.py:62-76 | of three records, two for ACC0001, the history of ACC0001 holds exactly those two |
| `Scenarios.HistoryLimitScenario` | tests/test_history.py:84-97 | of five records of one account, `limit=3` returns three, newest first, and every record left out is older than every one returned |
| `Scenarios.HistoryByTypeScenario` | tests/test_history.py:112-125 | of two deposits and a withdrawal, the `DEPOSIT` query returns exactly the two deposits |
| `Scenarios.EmptyHistoryScenario` | tests/test_history.py:99-110 | an account with no records has an empty history |
| `Scenarios.DepositScenario` | tests/test_transaction.py:46-68 | 1000 plus 500 gives 1500 under `TXN0001`, stored and logged as a `DEPOSIT` |
| `Scenarios.DepositInvalidAmountScenario` | tests/test_transaction.py:74-87 | a negative deposit is refused and the balance stays 1000 |
| `Scenarios.WithdrawScenario` | tests/test_transaction.py:92-104 | 1000 minus 300 leaves 700 with a `WITHDRAW` record |
| `Scenarios.WithdrawInsufficientScenario` | tests/test_transaction.py:107-118 | withdrawing 1000 from 500 is refused for insufficient balance |
| `Scenarios.InsufficientBalanceScenario` | tests/test_integration.py:75-92 | withdrawing 200 from 100 is refused for insufficient balance; balance and log stay |
| `Scenarios.TransferScenario` | tests/test_transaction.py:121-134 | 300 from A (1000) to B (500) leaves 700 and 800, with one outgoing and one incoming record on different accounts |
| `Scenarios.TransferToSelfScenario` | tests/test_transaction.py:137-150 | a transfer to the same account is refused |
| `Scenarios.DepositThenTransfer` | tests/test_integration.py:52-61 | A deposits 500 (1500), then sends 300 to B (1200 and 800); the log holds A's, A's and B's records in that order |
| `Scenarios.CompleteWorkflowScenario` | tests/test_integration.py:43-72 | after the deposit and the transfer, A's history has two records and B's one |
| `Scenarios.ThreeRecordHistories` | tests/test_integration.py:64-68 | in a log of records for A, A, B the default-limit histories of A and B have two and one records |

## Left out

- JSON persistence (`_load_json`, `_save_json`, file paths, `os.makedirs`, the error wrapping and the False-on-exception return). The three structures are in-memory fields, and saving always succeeds.
- `DataStore.DataManager.IncrementAccountId` and `IncrementTransactionId`: require their key to be present. Python would raise `KeyError` on a configuration file without it, which a store built by the constructor never is.
- The `created_at` entry the first configuration file holds (modules/data_manager.py:37): it is an ISO time string that nothing reads.
- ISO-8601 time strings (`datetime.now().isoformat()`): timestamps are readings of an abstract clock that strictly increases. Two Python readings within one microsecond would tie; the model has no ties.
- IEEE floating point for money (`float(...)`): money is an integer count of cents.
- Concurrency, locking and rollback: the source has none, and an in-memory store cannot fail between the two updates of a transfer.
- Policies the source only discusses: a minimum retained balance (modules/transaction.py:142-144), a maximum balance (modules/account.py:149-151), refusing to delete a non-empty account (modules/account.py:205, 214), and transfer fees or limits.
- main.py, the interactive menu (`input`/`print`, float parsing, formatting). Its `get_stats()` call names a method `DataManager` does not define.
- The error message strings: each `ValueError` is a constructor of `CreateError` or `TxnError`, with its message noted beside it.
- `History.HistoryModule.LogTransaction`: does not restate `GetHistory` for the new state in its own contract. That consequence is the separate lemma `History.ViewAfterAppend` together with the list equation `LogTransaction` does state.
