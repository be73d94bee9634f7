/** modules/history.py: records are appended to the shared transaction list,
    and an account's history is read back as a filtered, newest-first,
    truncated view of that list. The blanks of the source are filled as their
    comments describe: `get_history` sorts by timestamp, newest first, and
    keeps the first `limit` records when `limit > 0` (the shown code stops
    after the filter); `get_history_by_type` filters by account and type in one
    pass, then sorts and limits the same way; `get_all_transactions` returns
    the list as stored. */
module History {
  import opened Format
  import opened Records
  import opened DataStore

  // ------------------------------------------------------- view functions

  /** The records of `log` that `keep` accepts, in log order (the list
      comprehension of modules/history.py:123-126). */
  function Select(log: seq<Txn>, keep: Txn -> bool): (r: seq<Txn>)
    ensures |r| <= |log|
    ensures forall t :: t in r <==> t in log && keep(t)
  {
    if log == [] then []
    else
      var rest := Select(log[..|log| - 1], keep);
      var last := log[|log| - 1];
      assert log == log[..|log| - 1] + [last];
      if keep(last) then rest + [last] else rest
  }

  /** Filtering a longer log filters the old part and then the new record. */
  lemma SelectAppend(log: seq<Txn>, t: Txn, keep: Txn -> bool)
    ensures Select(log + [t], keep) == Select(log, keep) + (if keep(t) then [t] else [])
  {
    assert (log + [t])[..|log|] == log;
  }

  /** Filtering keeps the creation order. */
  lemma {:induction false} SelectChronological(log: seq<Txn>, keep: Txn -> bool)
    requires Chronological(log)
    ensures Chronological(Select(log, keep))
  {
    if log != [] {
      var init := log[..|log| - 1];
      var last := log[|log| - 1];
      assert Chronological(init);
      SelectChronological(init, keep);
      var rest := Select(init, keep);
      forall t | t in rest ensures t.timestamp < last.timestamp {
        var i :| 0 <= i < |init| && init[i] == t;
      }
    }
  }

  /** Newest first: timestamps strictly decrease along the sequence. */
  predicate NewestFirst(s: seq<Txn>)
  {
    forall i, j :: 0 <= i < j < |s| ==> s[i].timestamp > s[j].timestamp
  }

  function Reverse(s: seq<Txn>): (r: seq<Txn>)
    ensures |r| == |s|
    ensures forall i :: 0 <= i < |s| ==> r[i] == s[|s| - 1 - i]
  {
    if s == [] then [] else [s[|s| - 1]] + Reverse(s[..|s| - 1])
  }

  /** `s[:limit]` when `limit > 0`, all of `s` otherwise
      (modules/history.py:161-162). */
  function Take(s: seq<Txn>, limit: int): (r: seq<Txn>)
    ensures limit > 0 ==> |r| == if limit < |s| then limit else |s|
    ensures limit <= 0 ==> r == s
    ensures r == s[..|r|]
  {
    if limit > 0 && limit < |s| then s[..limit] else s
  }

  /** Filter, sort newest first, truncate. */
  function View(log: seq<Txn>, keep: Txn -> bool, limit: int): seq<Txn>
  {
    Take(Reverse(Select(log, keep)), limit)
  }

  lemma {:induction false} ReversePermutes(s: seq<Txn>)
    ensures multiset(Reverse(s)) == multiset(s)
  {
    if s != [] {
      ReversePermutes(s[..|s| - 1]);
      assert s == s[..|s| - 1] + [s[|s| - 1]];
    }
  }

  /** On a log in creation order, reversing is exactly the sort the source
      asks for: the result is newest first and a permutation of its input. */
  lemma {:induction false} ReverseSortsNewestFirst(s: seq<Txn>)
    requires Chronological(s)
    ensures NewestFirst(Reverse(s)) && multiset(Reverse(s)) == multiset(s)
  {
    ReversePermutes(s);
  }

  /** A sort by a key that no two records share has one outcome: two
      newest-first orderings of the same records are equal. So reversing
      agrees with Python's `sorted(..., key=timestamp, reverse=True)`. */
  lemma {:induction false} NewestFirstUnique(a: seq<Txn>, b: seq<Txn>)
    requires NewestFirst(a) && NewestFirst(b) && multiset(a) == multiset(b)
    ensures a == b
    decreases |a|
  {
    if a != [] {
      SameHead(a, b);
      SameTail(a, b);
      NewestFirstTail(a);
      NewestFirstTail(b);
      NewestFirstUnique(a[1..], b[1..]);
      assert a == [a[0]] + a[1..] && b == [b[0]] + b[1..];
    }
  }

  lemma SameHead(a: seq<Txn>, b: seq<Txn>)
    requires NewestFirst(a) && NewestFirst(b) && multiset(a) == multiset(b) && a != []
    ensures b != [] && a[0] == b[0]
  {
    assert a[0] in multiset(b);
    var i :| 0 <= i < |b| && b[i] == a[0];
    assert b[0] in multiset(a);
    var j :| 0 <= j < |a| && a[j] == b[0];
  }

  lemma SameTail(a: seq<Txn>, b: seq<Txn>)
    requires a != [] && b != [] && a[0] == b[0] && multiset(a) == multiset(b)
    ensures multiset(a[1..]) == multiset(b[1..])
  {
    assert a == [a[0]] + a[1..];
    assert b == [b[0]] + b[1..];
    assert multiset(a) == multiset{a[0]} + multiset(a[1..]);
    assert multiset(b) == multiset{a[0]} + multiset(b[1..]);
    forall x ensures multiset(a[1..])[x] == multiset(b[1..])[x] {
      assert multiset(a)[x] == multiset{a[0]}[x] + multiset(a[1..])[x];
      assert multiset(b)[x] == multiset{a[0]}[x] + multiset(b[1..])[x];
    }
  }

  lemma NewestFirstTail(a: seq<Txn>)
    requires NewestFirst(a) && a != []
    ensures NewestFirst(a[1..])
  {
    var t := a[1..];
    forall i, j | 0 <= i < j < |t| ensures t[i].timestamp > t[j].timestamp {
      assert t[i] == a[i + 1] && t[j] == a[j + 1];
    }
  }

  /** What a view is: only records `keep` accepts, at most `limit` of them
      when `limit > 0` and all of them otherwise; on a log in creation order
      it is newest first, and the records it leaves out are older than every
      one it returns. */
  lemma ViewSpec(log: seq<Txn>, keep: Txn -> bool, limit: int)
    ensures var r := View(log, keep, limit);
      && (forall t :: t in r ==> t in log && keep(t))
      && (limit > 0 ==> |r| == if limit < |Select(log, keep)| then limit else |Select(log, keep)|)
      && (limit <= 0 ==> forall t :: t in log && keep(t) ==> t in r)
    ensures var r := View(log, keep, limit);
      Chronological(log) ==>
      && NewestFirst(r)
      && (forall t, u :: t in r && u in log && keep(u) && u !in r ==> u.timestamp < t.timestamp)
  {
    ViewMembers(log, keep, limit);
    if Chronological(log) {
      ViewOrder(log, keep, limit);
    }
  }

  lemma ViewMembers(log: seq<Txn>, keep: Txn -> bool, limit: int)
    ensures var r := View(log, keep, limit);
      && (forall t :: t in r ==> t in log && keep(t))
      && (limit <= 0 ==> forall t :: t in log && keep(t) ==> t in r)
  {
    var s := Select(log, keep);
    var v := Reverse(s);
    var r := View(log, keep, limit);
    ReversePermutes(s);
    assert r == v[..|r|];
    forall t | t in r ensures t in log && keep(t) {
      assert t in multiset(v);
    }
    forall t | t in log && keep(t) && limit <= 0 ensures t in r {
      assert t in multiset(s);
    }
  }

  lemma ViewOrder(log: seq<Txn>, keep: Txn -> bool, limit: int)
    requires Chronological(log)
    ensures var r := View(log, keep, limit);
      && NewestFirst(r)
      && (forall t, u :: t in r && u in log && keep(u) && u !in r ==> u.timestamp < t.timestamp)
  {
    var s := Select(log, keep);
    var v := Reverse(s);
    var r := View(log, keep, limit);
    SelectChronological(log, keep);
    ReverseSortsNewestFirst(s);
    PrefixIsNewest(v, |r|);
    forall u | u in log && keep(u) ensures u in v {
      assert u in multiset(s);
    }
  }

  /** A prefix of a newest-first sequence is newest first and newer than
      everything after it. */
  lemma PrefixIsNewest(v: seq<Txn>, n: nat)
    requires NewestFirst(v) && n <= |v|
    ensures NewestFirst(v[..n])
    ensures forall t, u :: t in v[..n] && u in v && u !in v[..n] ==> u.timestamp < t.timestamp
  {
    var p := v[..n];
    forall t, u | t in p && u in v && u !in p
      ensures u.timestamp < t.timestamp
    {
      var i :| 0 <= i < n && p[i] == t;
      var j :| 0 <= j < |v| && v[j] == u;
      assert v[i] == t;
    }
  }

  /** Appending a record puts it at the head of every unlimited view that
      accepts it, and leaves the other views as they were. */
  lemma ViewAfterAppend(log: seq<Txn>, t: Txn, keep: Txn -> bool)
    ensures View(log + [t], keep, 0) == (if keep(t) then [t] else []) + View(log, keep, 0)
  {
    assert (log + [t])[..|log|] == log;
    var s := Select(log, keep);
    if keep(t) {
      assert Reverse(s + [t]) == [t] + Reverse(s) by {
        assert (s + [t])[..|s|] == s;
      }
    }
  }

  /** The filter of `get_history`: records of one account. */
  function OfAccount(accountId: string): Txn -> bool
  {
    (t: Txn) => t.accountId == accountId
  }

  /** The filter of `get_history_by_type`: records of one account and one type. */
  function OfAccountAndType(accountId: string, txnType: string): Txn -> bool
  {
    (t: Txn) => t.accountId == accountId && t.txnType == txnType
  }

  /** A record as `log_transaction` builds it: the `related_account` key is
      present exactly when a non-empty related account was passed
      (modules/history.py:81). */
  function MakeRecord(transactionId: string, accountId: string, txnType: string, amount: Money,
                      balanceAfter: Money, timestamp: nat, relatedAccount: Option<string>): (t: Txn)
    ensures t.transactionId == transactionId && t.accountId == accountId && t.txnType == txnType
    ensures t.amount == amount && t.balanceAfter == balanceAfter && t.timestamp == timestamp
    ensures t.relatedAccount.Some? <==> relatedAccount.Some? && relatedAccount.value != ""
    ensures t.relatedAccount.Some? ==> t.relatedAccount == relatedAccount
  {
    var related := if relatedAccount.Some? && relatedAccount.value != "" then relatedAccount else None;
    Txn(transactionId, accountId, txnType, amount, balanceAfter, timestamp, related)
  }

  // -------------------------------------------------------------- module

  class HistoryModule {
    const dataManager: DataManager

    constructor (dm: DataManager)
      ensures dataManager == dm
    {
      dataManager := dm;
    }

    /** Appends one record under the next `TXN` identifier and advances the
        transaction counter. Earlier records are unchanged, and the new
        record goes last. */
    method LogTransaction(accountId: string, txnType: string, amount: Money, balanceAfter: Money,
                          relatedAccount: Option<string> := None)
      returns (transactionId: string)
      requires dataManager.Valid()
      modifies dataManager
      ensures dataManager.Valid()
      ensures var n := old(dataManager.GetNextTransactionId());
        && transactionId == TransactionId(n)
        && dataManager.transactions
           == old(dataManager.transactions)
              + [MakeRecord(transactionId, accountId, txnType, amount, balanceAfter,
                            old(dataManager.clock), relatedAccount)]
        && dataManager.config == old(dataManager.config)[NEXT_TRANSACTION_ID := n + 1]
        && dataManager.accounts == old(dataManager.accounts)
        && dataManager.clock == old(dataManager.clock) + 1
    {
      var transactions := dataManager.LoadTransactions();
      var nextId := dataManager.GetNextTransactionId();
      transactionId := TransactionId(nextId);
      var timestamp := dataManager.Now();
      var record := MakeRecord(transactionId, accountId, txnType, amount, balanceAfter, timestamp, relatedAccount);
      AppendWellFormed(transactions, nextId, timestamp, record);
      ghost var accounts, nextAccount := dataManager.accounts, dataManager.GetNextAccountId();
      transactions := transactions + [record];
      var _ := dataManager.SaveTransactions(transactions);
      var _ := dataManager.IncrementTransactionId();
      assert dataManager.transactions == transactions && dataManager.GetNextTransactionId() == nextId + 1;
      assert dataManager.accounts == accounts && dataManager.GetNextAccountId() == nextAccount;
      assert dataManager.clock == timestamp + 1;
    }

    /** One account's records, newest first, at most `limit` of them when
        `limit > 0` (the default is 10) and all of them otherwise; the records
        left out are older than every one returned. */
    function GetHistory(accountId: string, limit: int := 10): (r: seq<Txn>)
      reads dataManager
      ensures forall t :: t in r ==> t in dataManager.transactions && t.accountId == accountId
      ensures var matching := |Select(dataManager.transactions, OfAccount(accountId))|;
        limit > 0 ==> |r| == if limit < matching then limit else matching
      ensures limit <= 0 ==>
        forall t :: t in dataManager.transactions && t.accountId == accountId ==> t in r
      ensures dataManager.Valid() ==>
        var log := dataManager.transactions;
        && NewestFirst(r)
        && (forall t, u :: t in r && u in log && u.accountId == accountId && u !in r
              ==> u.timestamp < t.timestamp)
    {
      var keep := OfAccount(accountId);
      ViewSpec(dataManager.transactions, keep, limit);
      View(dataManager.LoadTransactions(), keep, limit)
    }

    /** One account's records of one type, with the ordering and limit of
        `GetHistory`. */
    function GetHistoryByType(accountId: string, txnType: string, limit: int := 10): (r: seq<Txn>)
      reads dataManager
      ensures forall t :: t in r ==>
        t in dataManager.transactions && t.accountId == accountId && t.txnType == txnType
      ensures var matching := |Select(dataManager.transactions, OfAccountAndType(accountId, txnType))|;
        limit > 0 ==> |r| == if limit < matching then limit else matching
      ensures limit <= 0 ==>
        forall t :: t in dataManager.transactions && t.accountId == accountId && t.txnType == txnType ==> t in r
      ensures dataManager.Valid() ==>
        var log := dataManager.transactions;
        && NewestFirst(r)
        && (forall t, u :: t in r && u in log && u.accountId == accountId && u.txnType == txnType && u !in r
              ==> u.timestamp < t.timestamp)
    {
      var keep := OfAccountAndType(accountId, txnType);
      ViewSpec(dataManager.transactions, keep, limit);
      View(dataManager.LoadTransactions(), keep, limit)
    }

    /** Every record, oldest first, as stored. */
    function GetAllTransactions(): (r: seq<Txn>)
      reads dataManager
      ensures |r| == |dataManager.transactions|
      ensures forall i :: 0 <= i < |r| ==> r[i] == dataManager.transactions[i]
      ensures dataManager.Valid() ==> Chronological(r)
    {
      dataManager.LoadTransactions()
    }
  }
}
