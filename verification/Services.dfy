/** The service layer as it runs: an append-only entry log, snapshots, a balance cache that may
    lose anything at any time, the transaction table and the job queues. Calls run one at a time;
    a call that returns is committed and a call that is refused is rolled back. */
module Services {
  import opened Wrappers
  import opened Decimals
  import opened Ledger
  import opened Plans
  import opened Books
  import opened Snapshots
  import opened Locks
  import opened ServiceState
  import D = Deposits

  /** How a webhook arrived: its signature, and its age if its timestamp can be read. */
  datatype Signature = NoSignature | WrongSignature | RightSignature

  datatype Envelope = Envelope(signature: Signature, age: Option<real>)

  const UNAUTHORIZED: nat := 401

  class Backend {
    // Committed tables.
    var chart: Chart
    var entries: seq<Entry>
    var txns: map<TxnId, Txn>
    var keys: map<string, TxnId>
    var snapshots: seq<Snapshot>
    var nextEntry: nat
    var nextTxn: nat
    var nextAccount: nat
    // The account ids that the running call has asked the database to lock, in order.
    var locks: seq<AccountId>
    // Outside the database.
    var cache: Cache
    var rates: map<(Currency, Currency), real>
    var snapshotQueue: seq<AccountId>
    var depositQueue: seq<D.Job>
    // Registered users.
    var users: set<nat>
    // Configuration.
    const threshold: nat
    const hasSecret: bool
    const tolerance: real
    // Whether a session can still answer queries after the unique index refused its insert.
    const recovers: bool

    ghost function Tables(): Book
      reads this`chart, this`entries, this`txns, this`keys, this`nextEntry, this`nextTxn, this`nextAccount
    {
      Book(chart, entries, txns, keys, nextEntry, nextTxn, nextAccount)
    }

    /** The tables are in order and every snapshot is exact. */
    ghost predicate TablesOk()
      reads this`chart, this`entries, this`txns, this`keys, this`nextEntry, this`nextTxn, this`nextAccount,
            this`snapshots
    {
      0 < threshold && BookOk(Tables()) && SnapshotsOk(entries, snapshots, threshold)
    }

    /** Every cached balance is its account's balance, in its account's currency. */
    ghost predicate CacheOk()
      reads this`chart, this`entries, this`cache
    {
      FreshExcept(entries, cache, {}) && CacheTyped(chart, cache)
    }

    ghost predicate RatesOk()
      reads this`rates
    {
      forall pair | pair in rates :: 0.0 < rates[pair]
    }

    ghost predicate Valid()
      reads this
    {
      TablesOk() && CacheOk() && RatesOk() && locks == []
    }

    predicate Holds(a: AccountId)
      reads this`locks, this`chart
    {
      a in locks && a in chart.accounts
    }

    constructor (chart: Chart, nextAccount: nat, users: set<nat>, threshold: nat, hasSecret: bool, tolerance: real,
                 recovers: bool)
      requires AccountsOk(EmptyBook(chart, nextAccount)) && 0 < threshold
      ensures Valid() && Tables() == EmptyBook(chart, nextAccount)
      ensures snapshots == [] && cache == map[] && rates == map[] && snapshotQueue == [] && depositQueue == []
    {
      this.chart, this.nextAccount, this.users := chart, nextAccount, users;
      this.threshold, this.hasSecret, this.tolerance, this.recovers := threshold, hasSecret, tolerance, recovers;
      entries, txns, keys, snapshots, nextEntry, nextTxn := [], map[], map[], [], 1, 1;
      locks, cache, rates, snapshotQueue, depositQueue := [], map[], map[], [], [];
      new;
      EmptyBookOk(chart, nextAccount);
    }

    /* ---------- lock.py ---------- */

    /** Asks for the locks one by one in ascending order of account id. */
    method LockAccounts(ids: seq<AccountId>)
      modifies this`locks
      ensures locks == old(locks) + Sorted(ids)
      ensures forall a | a in ids && a in chart.accounts :: Holds(a)
    {
      SortedSorts(ids);
      var ordered := Sorted(ids);
      for i := 0 to |ordered|
        invariant locks == old(locks) + ordered[..i]
      {
        locks := locks + [ordered[i]];
      }
    }

    /* ---------- balance_service.py ---------- */

    /** The balance by snapshot and delta, or from the cache when the caller allows it. */
    method GetBalance(a: AccountId, currency: Currency, useLock: bool, force: bool) returns (m: Money)
      requires SnapshotsOk(entries, snapshots, threshold) && LogOrdered(entries, nextEntry)
      requires !useLock && !force && a in cache ==> cache[a].amount == Balance(entries, a)
      modifies this`cache
      ensures m.amount == Balance(entries, a)
      ensures m.currency == if !useLock && !force && a in old(cache) then old(cache)[a].currency else currency
      ensures cache == if useLock && !force then old(cache) else old(cache)[a := m]
    {
      if !useLock && !force && a in cache {
        return cache[a];
      }
      var snapshot := Latest(snapshots, a);
      var balance, last := 0, 0;
      if snapshot.Some? {
        balance, last := snapshot.value.balance, snapshot.value.last;
      }
      var delta := Total(Select(entries, a, After(last)));
      FastBalanceIsBalance(entries, snapshots, a);
      m := Money(balance + delta, currency);
      if !useLock {
        cache := cache[a := m];
      } else if force {
        cache := cache[a := m];
      }
    }

    method RefreshBalanceCache(a: AccountId, currency: Currency)
      requires SnapshotsOk(entries, snapshots, threshold) && LogOrdered(entries, nextEntry)
      modifies this`cache
      ensures cache == old(cache)[a := Money(Balance(entries, a), currency)]
    {
      var _ := GetBalance(a, currency, false, true);
    }

    /** Deletes a cached balance; an expiry or an eviction, at any time, does the same. */
    method InvalidateBalanceCache(a: AccountId)
      requires Valid()
      modifies this`cache
      ensures Valid()
      ensures cache == old(cache) - {a}
    {
      cache := cache - {a};
    }

    /** The background job. It leaves fewer than `threshold` entries of the account beyond the
        newest snapshot, also when it runs twice. */
    method ComputeAndCreateSnapshot(a: AccountId) returns (s: Option<Snapshot>)
      requires Valid()
      modifies this`snapshots
      ensures Valid()
      ensures s.Some? <==> Unsnapshotted(entries, old(snapshots), a) >= threshold
      ensures s.None? ==> snapshots == old(snapshots)
      ensures s.Some? ==> snapshots == old(snapshots) + [s.value]
      ensures s.Some? ==>
                && s.value.account == a && s.value.balance == Balance(entries, a)
                && s.value.count == |Select(entries, a, All)|
      ensures Unsnapshotted(entries, snapshots, a) < threshold
    {
      hide BookOk, SnapshotsOk, FreshExcept, CacheTyped, Balance, MaxId, Latest;
      BookIsOrdered(Tables());
      var base := Base(snapshots, a);
      var count := |Select(entries, a, After(base.last))|;
      if count < threshold {
        return None;
      }
      var rows := Select(entries, a, All);
      JobFindsRows(entries, snapshots, a, threshold);
      if rows == [] {
        return None;
      }
      s := Some(Snapshot(a, Total(rows), count + base.count, MaxId(rows)));
      snapshots := snapshots + [s.value];
    }

    /** Asks for a snapshot when enough entries have come since the last one; the queue may be
        unreachable. */
    method MaybeCreateSnapshot(a: AccountId, queueUp: bool)
      modifies this`snapshotQueue
      ensures snapshotQueue == old(snapshotQueue) + Due(entries, snapshots, threshold, a, queueUp)
      ensures snapshotQueue == old(snapshotQueue)
                + if queueUp && |Select(entries, a, After(Base(snapshots, a).last))| >= threshold then [a] else []
    {
      var count := |Select(entries, a, After(Base(snapshots, a).last))|;
      if count >= threshold {
        if queueUp {
          snapshotQueue := snapshotQueue + [a];
        }
      }
    }

    /* ---------- Rows ---------- */

    /** The unique index refuses a key that is taken; the caller then answers the transaction that
        took it, if its session can. */
    method InsertTransaction(x: Txn) returns (o: Outcome)
      modifies this`txns, this`keys, this`nextTxn
      ensures if x.key.Some? && x.key.value in old(keys) then
                && Tables() == old(Tables())
                && o == if LooksUp(x.key) && recovers then Existing(keys[x.key.value]) else Refused(DuplicateKey)
              else Tables() == Insert(old(Tables()), x) && o == Accepted(old(nextTxn))
    {
      if x.key.Some? && x.key.value in keys {
        return if LooksUp(x.key) && recovers then Existing(keys[x.key.value]) else Refused(DuplicateKey);
      }
      txns := txns[nextTxn := x];
      if x.key.Some? {
        keys := keys[x.key.value := nextTxn];
      }
      nextTxn := nextTxn + 1;
      return Accepted(nextTxn - 1);
    }

    /** Entries are written only on accounts whose lock the call holds. */
    method AddEntry(t: TxnId, p: Posting)
      requires Holds(p.account)
      modifies this`entries, this`nextEntry
      ensures entries == old(entries) + [Entry(old(nextEntry), t, Success, p)]
      ensures nextEntry == old(nextEntry) + 1
    {
      entries := entries + [Entry(nextEntry, t, Success, p)];
      nextEntry := nextEntry + 1;
    }

    /** One debit and one credit, in either order. */
    method AddPair(t: TxnId, p: Posting, q: Posting)
      requires Holds(p.account) && Holds(q.account)
      modifies this`entries, this`nextEntry
      ensures Tables() == AddEntries(old(Tables()), t, [p, q])
    {
      StampPair(p, q, t, nextEntry);
      AddEntry(t, p);
      AddEntry(t, q);
    }

    /** Recomputes both balances and writes them through to the cache. */
    method RefreshPair(a: AccountId, currencyA: Currency, b: AccountId, currencyB: Currency,
                       ghost stale: set<AccountId>, ghost rest: set<AccountId>)
      requires SnapshotsOk(entries, snapshots, threshold) && LogOrdered(entries, nextEntry)
      requires FreshExcept(entries, cache, stale) && CacheTyped(chart, cache) && stale <= rest + {a, b}
      requires IsTyped(chart, Posting(a, 0, Debit, currencyA)) && IsTyped(chart, Posting(b, 0, Debit, currencyB))
      modifies this`cache
      ensures FreshExcept(entries, cache, rest) && CacheTyped(chart, cache)
      ensures cache
           == old(cache)[a := Money(Balance(entries, a), currencyA)][b := Money(Balance(entries, b), currencyB)]
    {
      hide SnapshotsOk, LogOrdered, FreshExcept, CacheTyped, Balance;
      OneRefreshed(entries, chart, cache, stale, a, currencyA);
      RefreshBalanceCache(a, currencyA);
      OneRefreshed(entries, chart, cache, stale - {a}, b, currencyB);
      RefreshBalanceCache(b, currencyB);
      FresherExcept(entries, cache, stale - {a} - {b}, rest);
    }

    /** Two debits and two credits. */
    method AddFour(t: TxnId, p: Posting, q: Posting, u: Posting, v: Posting)
      requires Holds(p.account) && Holds(q.account) && Holds(u.account) && Holds(v.account)
      modifies this`entries, this`nextEntry
      ensures Tables() == AddEntries(old(Tables()), t, [p, q, u, v])
    {
      hide AddEntries;
      AddInTwo(Tables(), t, p, q, u, v);
      AddPair(t, p, q);
      AddPair(t, u, v);
    }

    method RefreshFour(p: Posting, q: Posting, u: Posting, v: Posting)
      requires SnapshotsOk(entries, snapshots, threshold) && LogOrdered(entries, nextEntry) && CacheTyped(chart, cache)
      requires FreshExcept(entries, cache, {p.account, q.account, u.account, v.account})
      requires IsTyped(chart, p) && IsTyped(chart, q) && IsTyped(chart, u) && IsTyped(chart, v)
      modifies this`cache
      ensures FreshExcept(entries, cache, {}) && CacheTyped(chart, cache)
      ensures cache.Keys == old(cache).Keys + {p.account, q.account, u.account, v.account}
    {
      hide SnapshotsOk, LogOrdered, FreshExcept, CacheTyped, Balance;
      RefreshPair(p.account, p.currency, q.account, q.currency, {p.account, q.account, u.account, v.account},
                  {u.account, v.account});
      RefreshPair(u.account, u.currency, v.account, v.currency, {u.account, v.account}, {});
    }

    method MaybeSnapshotPair(a: AccountId, b: AccountId, queueUp: bool)
      modifies this`snapshotQueue
      ensures snapshotQueue == old(snapshotQueue) + DuePair(a, b, queueUp)
    {
      MaybeCreateSnapshot(a, queueUp);
      MaybeCreateSnapshot(b, queueUp);
    }

    method MaybeSnapshotFour(a: AccountId, b: AccountId, c: AccountId, d: AccountId, queueUp: bool)
      modifies this`snapshotQueue
      ensures snapshotQueue == old(snapshotQueue) + DuePair(a, b, queueUp) + DuePair(c, d, queueUp)
    {
      MaybeSnapshotPair(a, b, queueUp);
      MaybeSnapshotPair(c, d, queueUp);
    }

    /** Commit and rollback both release the locks. */
    method Release()
      modifies this`locks
      ensures locks == []
    {
      locks := [];
    }

    /** The tables are in order while a call is running. */
    ghost predicate Running()
      reads this
    {
      TablesOk() && CacheOk() && RatesOk()
    }

    /** The funds check, on the balance that the caller's lock protects. */
    method HasFunds(a: AccountId, amount: real, currency: Currency) returns (ok: bool)
      requires SnapshotsOk(entries, snapshots, threshold) && LogOrdered(entries, nextEntry) && Holds(a)
      modifies this`cache
      ensures ok <==> amount <= Units(Balance(entries, a))
      ensures cache == old(cache)
    {
      hide SnapshotsOk, LogOrdered, Balance;
      var balance := GetBalance(a, currency, true, false);
      return Units(balance.amount) >= amount;
    }

    /** Inserts a transfer or a direct deposit and writes its two entries. */
    method InsertPair(ghost r: Request, kind: TxnKind, key: Option<string>, p: Posting, q: Posting) returns (o: Outcome)
      requires TablesOk() && FreshExcept(entries, cache, {}) && Checked(Tables(), r)
      requires RowOf(r) == Txn(kind, Completed, key, None, None) && Plan(chart, r) == [p, q]
      requires Holds(p.account) && Holds(q.account)
      modifies this`txns, this`keys, this`nextTxn, this`entries, this`nextEntry
      ensures (Tables(), o) == Conclude(old(Tables()), r, recovers)
      ensures if o.Accepted? then Written(Tables(), snapshots, cache, threshold, {p.account, q.account})
              else Tables() == old(Tables())
    {
      hide BookOk, SnapshotsOk, FreshExcept, LogOrdered, Balance, Affords, AddEntries, Insert, Conclude, Plan, Written,
           RowOf;
      ghost var before := Tables();
      CheckedConcludes(before, r, recovers);
      if Conclude(before, r, recovers).1.Accepted? {
        ConcludeWrites(before, r, recovers, snapshots, cache, threshold, {p.account, q.account});
      }
      assert RowOf(r).key == r.key by {
        RowHasKey(r);
      }
      o := InsertTransaction(Txn(kind, Completed, key, None, None));
      if o.Accepted? {
        AddPair(o.id, p, q);
      }
    }

    /** Which snapshot jobs a write to two accounts enqueues, in order. */
    ghost function DuePair(a: AccountId, b: AccountId, queueUp: bool): seq<AccountId>
      reads this`entries, this`snapshots
    {
      Due(entries, snapshots, threshold, a, queueUp) + Due(entries, snapshots, threshold, b, queueUp)
    }

    /** What a transfer or a direct deposit does once its checks are passed: insert the transaction,
        write the two entries, refresh both balances, maybe ask for snapshots; then commit, or give
        up when the key is taken. The source of a transfer comes first, and the account of a deposit. */
    method PostPair(ghost r: Request, kind: TxnKind, key: Option<string>, p: Posting, q: Posting, first: Posting,
                    second: Posting, queueUp: bool)
      returns (o: Outcome)
      requires Running() && Checked(Tables(), r)
      requires RowOf(r) == Txn(kind, Completed, key, None, None) && Plan(chart, r) == [p, q]
      requires (first, second) == (p, q) || (first, second) == (q, p)
      requires Holds(p.account) && Holds(q.account)
      modifies this`txns, this`keys, this`nextTxn, this`entries, this`nextEntry, this`cache, this`snapshotQueue,
               this`locks
      ensures Running() && locks == []
      ensures (Tables(), o) == Conclude(old(Tables()), r, recovers)
      ensures o.Accepted? ==> cache.Keys == old(cache).Keys + {p.account, q.account}
      ensures o.Accepted? ==> snapshotQueue == old(snapshotQueue) + DuePair(first.account, second.account, queueUp)
      ensures !o.Accepted? ==> cache == old(cache) && snapshotQueue == old(snapshotQueue)
    {
      hide BookOk, SnapshotsOk, FreshExcept, CacheTyped, LogOrdered, Balance, Due, Conclude, Plan, RowOf, Checked,
           Affords;
      PlanIsTyped(Tables(), r);
      assert p in [p, q] && q in [p, q];
      o := InsertPair(r, kind, key, p, q);
      if o.Accepted? {
        assert {first.account, second.account} == {p.account, q.account};
        RefreshPair(first.account, first.currency, second.account, second.currency, {p.account, q.account}, {});
        MaybeSnapshotPair(first.account, second.account, queueUp);
      }
      Release();
    }

    /* ---------- transfer_service.py ---------- */

    method ExecuteTransfer(source: AccountId, target: AccountId, amount: real, currency: Currency, key: Option<string>,
                           queueUp: bool) returns (o: Outcome)
      requires Valid()
      modifies this
      ensures Valid() && users == old(users)
      ensures (Tables(), o) == Submit(old(Tables()), Transfer(source, target, amount, currency, key))
      ensures snapshots == old(snapshots) && rates == old(rates) && depositQueue == old(depositQueue)
      ensures o.Accepted? ==> cache.Keys == old(cache).Keys + {source, target}
      ensures o.Accepted? ==> snapshotQueue == old(snapshotQueue) + DuePair(source, target, queueUp)
      ensures !o.Accepted? ==> cache == old(cache) && snapshotQueue == old(snapshotQueue)
    {
      hide BookOk, SnapshotsOk, FreshExcept, CacheTyped, Conclude;
      if source == target {
        return Refused(CurrencyMismatch);
      }
      if amount <= 0.0 {
        return Refused(CurrencyMismatch);
      }
      if LooksUp(key) && key.value in keys {
        return Existing(keys[key.value]);
      }
      ConcludesAtOnce(Tables(), Transfer(source, target, amount, currency, key), recovers);
      o := TransferLocked(source, target, amount, currency, key, queueUp);
    }

    /** The part of a transfer that runs under the account locks. The key may have been committed
        since it was looked up. */
    method TransferLocked(source: AccountId, target: AccountId, amount: real, currency: Currency, key: Option<string>,
                          queueUp: bool) returns (o: Outcome)
      requires Valid() && source != target && 0.0 < amount
      modifies this`txns, this`keys, this`nextTxn, this`entries, this`nextEntry, this`cache, this`snapshotQueue,
               this`locks
      ensures Valid()
      ensures (Tables(), o) == Conclude(old(Tables()), Transfer(source, target, amount, currency, key), recovers)
      ensures o.Accepted? ==> cache.Keys == old(cache).Keys + {source, target}
      ensures o.Accepted? ==> snapshotQueue == old(snapshotQueue) + DuePair(source, target, queueUp)
      ensures !o.Accepted? ==> cache == old(cache) && snapshotQueue == old(snapshotQueue)
    {
      hide BookOk, SnapshotsOk, FreshExcept, CacheTyped, LogOrdered, Balance, Sorted, AddEntries, Insert, Plan;
      BookIsOrdered(Tables());
      TransferPlanIs(chart, source, target, amount, currency, key);
      LockAccounts([source, target]);
      if source !in chart.accounts || target !in chart.accounts {
        Release();
        return Refused(AccountNotFound);
      }
      if chart.accounts[source].currency != currency || chart.accounts[target].currency != currency {
        Release();
        return Refused(CurrencyMismatch);
      }
      var ok := HasFunds(source, amount, currency);
      if !ok {
        Release();
        return Refused(InsufficientFunds);
      }
      var debit := Posting(source, chart.store(-amount), Debit, currency);
      var credit := Posting(target, chart.store(amount), Credit, currency);
      o := PostPair(Transfer(source, target, amount, currency, key), TransferTxn, key, debit, credit, debit, credit,
                    queueUp);
    }

    /* ---------- deposit_service.py ---------- */

    method ExecuteDeposit(account: AccountId, amount: real, currency: Currency, key: Option<string>, queueUp: bool)
      returns (o: Outcome)
      requires Valid()
      modifies this
      ensures Valid() && users == old(users)
      ensures (Tables(), o) == Submit(old(Tables()), Deposit(account, amount, currency, key))
      ensures snapshots == old(snapshots) && rates == old(rates) && depositQueue == old(depositQueue)
      ensures o.Accepted? ==> cache.Keys == old(cache).Keys + {account, chart.clearing(currency)}
      ensures o.Accepted? ==>
                snapshotQueue == old(snapshotQueue) + DuePair(account, chart.clearing(currency), queueUp)
      ensures !o.Accepted? ==> cache == old(cache) && snapshotQueue == old(snapshotQueue)
    {
      hide BookOk, SnapshotsOk, FreshExcept, CacheTyped, Conclude;
      if amount <= 0.0 {
        return Refused(CurrencyMismatch);
      }
      if LooksUp(key) && key.value in keys {
        return Existing(keys[key.value]);
      }
      if account !in chart.accounts {
        return Refused(AccountNotFound);
      }
      if chart.accounts[account].currency != currency {
        return Refused(CurrencyMismatch);
      }
      ConcludesAtOnce(Tables(), Deposit(account, amount, currency, key), recovers);
      o := DepositLocked(account, amount, currency, key, queueUp);
    }

    /** The part of a direct deposit that runs under the account locks. The key may have been
        committed since it was looked up. */
    method DepositLocked(account: AccountId, amount: real, currency: Currency, key: Option<string>, queueUp: bool)
      returns (o: Outcome)
      requires Valid() && 0.0 < amount && account in chart.accounts && chart.accounts[account].currency == currency
      modifies this`txns, this`keys, this`nextTxn, this`entries, this`nextEntry, this`cache, this`snapshotQueue,
               this`locks
      ensures Valid()
      ensures (Tables(), o) == Conclude(old(Tables()), Deposit(account, amount, currency, key), recovers)
      ensures o.Accepted? ==> cache.Keys == old(cache).Keys + {account, chart.clearing(currency)}
      ensures o.Accepted? ==>
                snapshotQueue == old(snapshotQueue) + DuePair(account, chart.clearing(currency), queueUp)
      ensures !o.Accepted? ==> cache == old(cache) && snapshotQueue == old(snapshotQueue)
    {
      hide BookOk, SnapshotsOk, FreshExcept, CacheTyped, LogOrdered, Balance, Sorted, Conclude, Plan;
      var clearing := chart.clearing(currency);
      ClearingExists(Tables(), currency);
      DepositPlanIs(chart, account, amount, currency, key);
      LockAccounts([account, clearing]);
      var debit := Posting(clearing, chart.store(-amount), Debit, currency);
      var credit := Posting(account, chart.store(amount), Credit, currency);
      o := PostPair(Deposit(account, amount, currency, key), DepositTxn, key, debit, credit, credit, debit, queueUp);
    }

    method InitiateDeposit(account: AccountId, amount: real, currency: Currency, key: Option<string>, now: nat)
      returns (o: Outcome)
      requires Valid()
      modifies this`txns, this`keys, this`nextTxn
      ensures Valid()
      ensures (Tables(), o) == Submit(old(Tables()), Initiation(account, amount, currency, key, now))
    {
      hide BookOk, SnapshotsOk, FreshExcept, CacheTyped, Conclude;
      if amount <= 0.0 {
        return Refused(CurrencyMismatch);
      }
      if LooksUp(key) && key.value in keys {
        return Existing(keys[key.value]);
      }
      if account !in chart.accounts {
        return Refused(AccountNotFound);
      }
      if chart.accounts[account].currency != currency {
        return Refused(CurrencyMismatch);
      }
      ConcludesAtOnce(Tables(), Initiation(account, amount, currency, key, now), recovers);
      o := InsertPending(account, amount, currency, key, now);
    }

    /** The insert of a PENDING deposit. The key may have been committed since it was looked up. */
    method InsertPending(account: AccountId, amount: real, currency: Currency, key: Option<string>, now: nat)
      returns (o: Outcome)
      requires Valid() && 0.0 < amount && account in chart.accounts && chart.accounts[account].currency == currency
      modifies this`txns, this`keys, this`nextTxn
      ensures Valid()
      ensures (Tables(), o) == Conclude(old(Tables()), Initiation(account, amount, currency, key, now), recovers)
    {
      hide BookOk, SnapshotsOk, FreshExcept, CacheTyped, Conclude, Submit;
      ghost var before, r := Tables(), Initiation(account, amount, currency, key, now);
      CheckedConcludes(before, r, recovers);
      NoEntriesAdded(Insert(before, RowOf(r)), before.nextTxn);
      if Conclude(before, r, recovers).1.Accepted? {
        AcceptedIsSubmitted(before, r, recovers);
        InitiateKeeps(before, r);
      }
      o := InsertTransaction(Txn(DepositTxn, Pending, key, Some(Intent(account, amount, currency, now)), None));
    }

    /** The credit goes to the recorded account in the recorded amount and currency; the webhook
        only names the transaction. */
    method ConfirmDeposit(t: TxnId, reference: string, queueUp: bool) returns (o: Outcome)
      requires Valid()
      modifies this
      ensures Valid()
      ensures (Tables(), o) == Confirm(old(Tables()), t, reference) && users == old(users)
      ensures o.Accepted? ==>
                var i := old(txns)[t].intent.value;
                && cache.Keys == old(cache).Keys + {i.account, chart.clearing(i.currency)}
                && snapshotQueue == old(snapshotQueue) + DuePair(i.account, chart.clearing(i.currency), queueUp)
      ensures snapshots == old(snapshots) && rates == old(rates) && depositQueue == old(depositQueue)
      ensures !o.Accepted? ==> cache == old(cache) && snapshotQueue == old(snapshotQueue)
    {
      hide BookOk, SnapshotsOk, FreshExcept, CacheTyped, LogOrdered, Balance, Sorted, Due, AddEntries;
      if t !in txns || txns[t].status != Pending {
        return Refused(InvalidState);
      }
      var intent := txns[t].intent;
      if intent.None? || intent.value.account == 0 || intent.value.amount <= 0.0 {
        return Refused(InvalidState);
      }
      var i := intent.value;
      if i.account !in chart.accounts {
        return Refused(AccountNotFound);
      }
      var clearing := chart.clearing(i.currency);
      ClearingExists(Tables(), i.currency);
      IntentIsTyped(Tables(), t);
      LockAccounts([i.account, clearing]);
      CreditDeposit(t, i, reference, queueUp);
      return Accepted(t);
    }

    /** Completes a deposit and writes its two entries. */
    method InsertCredit(t: TxnId, i: Intent, reference: string)
      requires TablesOk() && FreshExcept(entries, cache, {})
      requires Confirm(Tables(), t, reference).1.Accepted? && Some(i) == txns[t].intent
      requires Holds(i.account) && Holds(chart.clearing(i.currency))
      modifies this`txns, this`entries, this`nextEntry
      ensures Tables() == Confirm(old(Tables()), t, reference).0
      ensures Written(Tables(), snapshots, cache, threshold, {i.account, chart.clearing(i.currency)})
    {
      hide BookOk, SnapshotsOk, FreshExcept, LogOrdered, Balance, AddEntries, Written;
      var clearing := chart.clearing(i.currency);
      ConfirmWrites(Tables(), t, reference, snapshots, cache, threshold, {i.account, clearing});
      txns := txns[t := txns[t].(status := Completed, reference := Some(reference))];
      AddPair(t, Posting(clearing, chart.store(-i.amount), Debit, i.currency),
              Posting(i.account, chart.store(i.amount), Credit, i.currency));
    }

    /** The part of a confirmation that runs under the account locks. */
    method CreditDeposit(t: TxnId, i: Intent, reference: string, queueUp: bool)
      requires Running() && Confirm(Tables(), t, reference).1.Accepted? && Some(i) == txns[t].intent
      requires IntentOk(chart, i)
      requires Holds(i.account) && IsClearing(chart, chart.clearing(i.currency), i.currency)
      requires Holds(chart.clearing(i.currency))
      modifies this`txns, this`entries, this`nextEntry, this`cache, this`snapshotQueue, this`locks
      ensures Running() && locks == []
      ensures Tables() == Confirm(old(Tables()), t, reference).0
      ensures cache.Keys == old(cache).Keys + {i.account, chart.clearing(i.currency)}
      ensures snapshotQueue == old(snapshotQueue) + DuePair(i.account, chart.clearing(i.currency), queueUp)
    {
      hide BookOk, SnapshotsOk, FreshExcept, CacheTyped, LogOrdered, Balance, Due, Confirm;
      var clearing := chart.clearing(i.currency);
      InsertCredit(t, i, reference);
      RefreshPair(i.account, i.currency, clearing, i.currency, {i.account, clearing}, {});
      MaybeSnapshotPair(i.account, clearing, queueUp);
      Release();
    }

    method FailDeposit(t: TxnId) returns (o: Outcome)
      requires Valid()
      modifies this`txns
      ensures Valid()
      ensures (Tables(), o) == Fail(old(Tables()), t)
    {
      hide BookOk, SnapshotsOk, FreshExcept, CacheTyped;
      StatusOpsKeep(Tables(), t, "");
      if t !in txns || txns[t].status != Pending {
        return Refused(InvalidState);
      }
      txns := txns[t := txns[t].(status := Failed)];
      return Accepted(t);
    }

    /* ---------- fx_service.py ---------- */

    /** The rate comes from the cache while it is there; `fetched` is the provider's answer. */
    method GetExchangeRate(source: Currency, target: Currency, fetched: Option<real>) returns (rate: Option<real>)
      requires RatesOk() && (fetched.Some? ==> 0.0 < fetched.value)
      modifies this`rates
      ensures RatesOk() && (rate.Some? ==> 0.0 < rate.value)
      ensures source == target ==> rate == Some(1.0) && rates == old(rates)
      ensures source != target && (source, target) in old(rates) ==>
                rate == Some(old(rates)[(source, target)]) && rates == old(rates)
      ensures source != target && (source, target) !in old(rates) ==>
                && rate == fetched
                && rates == if fetched.Some? then old(rates)[(source, target) := fetched.value] else old(rates)
    {
      if source == target {
        return Some(1.0);
      }
      if (source, target) in rates {
        return Some(rates[(source, target)]);
      }
      if fetched.None? {
        return None;
      }
      rates := rates[(source, target) := fetched.value];
      return fetched;
    }

    /** The cached rates may expire at any time. */
    method ExpireRate(source: Currency, target: Currency)
      requires Valid()
      modifies this`rates
      ensures Valid() && rates == old(rates) - {(source, target)}
    {
      rates := rates - {(source, target)};
    }

    /** Inserts an exchange and writes its four entries. */
    method InsertExchange(ghost r: Request, key: Option<string>, p: Posting, q: Posting, u: Posting, v: Posting)
      returns (o: Outcome)
      requires TablesOk() && FreshExcept(entries, cache, {}) && Checked(Tables(), r)
      requires RowOf(r) == Txn(ExchangeTxn, Completed, key, None, None) && Plan(chart, r) == [p, q, u, v]
      requires Holds(p.account) && Holds(q.account) && Holds(u.account) && Holds(v.account)
      modifies this`txns, this`keys, this`nextTxn, this`entries, this`nextEntry
      ensures (Tables(), o) == Conclude(old(Tables()), r, recovers)
      ensures if o.Accepted? then
                Written(Tables(), snapshots, cache, threshold, {p.account, q.account, u.account, v.account})
              else Tables() == old(Tables())
    {
      hide BookOk, SnapshotsOk, FreshExcept, LogOrdered, Balance, Affords, AddEntries, Insert, Conclude, Plan, Written,
           RowOf;
      ghost var before := Tables();
      CheckedConcludes(before, r, recovers);
      if Conclude(before, r, recovers).1.Accepted? {
        ConcludeWrites(before, r, recovers, snapshots, cache, threshold, {p.account, q.account, u.account, v.account});
      }
      assert RowOf(r).key == r.key by {
        RowHasKey(r);
      }
      o := InsertTransaction(Txn(ExchangeTxn, Completed, key, None, None));
      if o.Accepted? {
        AddFour(o.id, p, q, u, v);
      }
    }

    /** What an exchange does once its checks are passed. */
    method PostExchange(ghost r: Request, key: Option<string>, p: Posting, q: Posting, u: Posting, v: Posting,
                        queueUp: bool)
      returns (o: Outcome)
      requires Running() && Checked(Tables(), r)
      requires RowOf(r) == Txn(ExchangeTxn, Completed, key, None, None) && Plan(chart, r) == [p, q, u, v]
      requires Holds(p.account) && Holds(q.account) && Holds(u.account) && Holds(v.account)
      modifies this`txns, this`keys, this`nextTxn, this`entries, this`nextEntry, this`cache, this`snapshotQueue,
               this`locks
      ensures Running() && locks == []
      ensures (Tables(), o) == Conclude(old(Tables()), r, recovers)
      ensures o.Accepted? ==> cache.Keys == old(cache).Keys + {p.account, q.account, u.account, v.account}
      ensures o.Accepted? ==>
                snapshotQueue == old(snapshotQueue) + DuePair(p.account, q.account, queueUp)
                                 + DuePair(u.account, v.account, queueUp)
      ensures !o.Accepted? ==> cache == old(cache) && snapshotQueue == old(snapshotQueue)
    {
      hide BookOk, SnapshotsOk, FreshExcept, CacheTyped, LogOrdered, Balance, Due, Conclude, Plan, RowOf, Checked,
           IsTyped, Affords;
      PlanIsTyped(Tables(), r);
      assert p in [p, q, u, v] && q in [p, q, u, v] && u in [p, q, u, v] && v in [p, q, u, v];
      o := InsertExchange(r, key, p, q, u, v);
      if o.Accepted? {
        RefreshFour(p, q, u, v);
        MaybeSnapshotFour(p.account, q.account, u.account, v.account, queueUp);
      }
      Release();
    }

    method ExecuteFxTransfer(source: AccountId, target: AccountId, amount: real, sourceCurrency: Currency,
                             targetCurrency: Currency, key: Option<string>, fetched: Option<real>, queueUp: bool)
      returns (o: Outcome, ghost rate: Option<real>)
      requires Valid() && (fetched.Some? ==> 0.0 < fetched.value)
      modifies this
      ensures Valid()
      ensures rate
           == if (sourceCurrency, targetCurrency) in old(rates) then Some(old(rates)[(sourceCurrency, targetCurrency)])
              else fetched
      ensures (Tables(), o)
           == Submit(old(Tables()), Exchange(source, target, amount, sourceCurrency, targetCurrency, rate, key))
      ensures rates == if sourceCurrency != targetCurrency && 0.0 < amount && !(LooksUp(key) && key.value in old(keys))
                          && (sourceCurrency, targetCurrency) !in old(rates) && fetched.Some?
                       then old(rates)[(sourceCurrency, targetCurrency) := fetched.value] else old(rates)
      ensures snapshots == old(snapshots) && depositQueue == old(depositQueue) && users == old(users)
      ensures o.Accepted? ==>
                cache.Keys == old(cache).Keys
                              + {source, target, chart.clearing(sourceCurrency), chart.clearing(targetCurrency)}
      ensures o.Accepted? ==>
                snapshotQueue == old(snapshotQueue) + DuePair(source, chart.clearing(sourceCurrency), queueUp)
                                 + DuePair(chart.clearing(targetCurrency), target, queueUp)
      ensures !o.Accepted? ==> cache == old(cache) && snapshotQueue == old(snapshotQueue)
    {
      hide BookOk, SnapshotsOk, FreshExcept, CacheTyped, Conclude, Plan, TargetAmount;
      rate := if (sourceCurrency, targetCurrency) in rates then Some(rates[(sourceCurrency, targetCurrency)])
              else fetched;
      if sourceCurrency == targetCurrency {
        return Refused(CurrencyMismatch), rate;
      }
      if amount <= 0.0 {
        return Refused(CurrencyMismatch), rate;
      }
      if LooksUp(key) && key.value in keys {
        return Existing(keys[key.value]), rate;
      }
      var found := GetExchangeRate(sourceCurrency, targetCurrency, fetched);
      if found.None? {
        return Refused(CurrencyMismatch), rate;
      }
      if source !in chart.accounts || target !in chart.accounts {
        return Refused(AccountNotFound), rate;
      }
      ConcludesAtOnce(Tables(), Exchange(source, target, amount, sourceCurrency, targetCurrency, found, key), recovers);
      o := ExchangeLocked(source, target, amount, sourceCurrency, targetCurrency, key, found.value, queueUp);
    }

    /** The part of an exchange that runs under the account locks. The key may have been committed
        since it was looked up. */
    method ExchangeLocked(source: AccountId, target: AccountId, amount: real, sourceCurrency: Currency,
                          targetCurrency: Currency, key: Option<string>, rate: real, queueUp: bool) returns (o: Outcome)
      requires Valid() && sourceCurrency != targetCurrency && 0.0 < amount && 0.0 < rate
      requires source in chart.accounts && target in chart.accounts
      modifies this`txns, this`keys, this`nextTxn, this`entries, this`nextEntry, this`cache, this`snapshotQueue,
               this`locks
      ensures Valid()
      ensures (Tables(), o) == Conclude(old(Tables()), Exchange(source, target, amount, sourceCurrency, targetCurrency,
                                                                Some(rate), key), recovers)
      ensures o.Accepted? ==>
                cache.Keys == old(cache).Keys
                              + {source, target, chart.clearing(sourceCurrency), chart.clearing(targetCurrency)}
      ensures o.Accepted? ==>
                snapshotQueue == old(snapshotQueue) + DuePair(source, chart.clearing(sourceCurrency), queueUp)
                                 + DuePair(chart.clearing(targetCurrency), target, queueUp)
      ensures !o.Accepted? ==> cache == old(cache) && snapshotQueue == old(snapshotQueue)
    {
      hide BookOk, SnapshotsOk, FreshExcept, CacheTyped, LogOrdered, Balance, Sorted, AddEntries, Insert, Plan,
           TargetAmount;
      BookIsOrdered(Tables());
      var poolSource, poolTarget := chart.clearing(sourceCurrency), chart.clearing(targetCurrency);
      ClearingExists(Tables(), sourceCurrency);
      ClearingExists(Tables(), targetCurrency);
      LockAccounts([source, target, poolSource, poolTarget]);
      if chart.accounts[source].currency != sourceCurrency || chart.accounts[target].currency != targetCurrency {
        Release();
        return Refused(CurrencyMismatch);
      }
      var ok := HasFunds(source, amount, sourceCurrency);
      if !ok {
        Release();
        return Refused(InsufficientFunds);
      }
      o := ExchangeFunded(source, target, amount, sourceCurrency, targetCurrency, key, rate, queueUp);
    }

    /** The part of an exchange that follows its funds check. */
    method ExchangeFunded(source: AccountId, target: AccountId, amount: real, sourceCurrency: Currency,
                          targetCurrency: Currency, key: Option<string>, rate: real, queueUp: bool) returns (o: Outcome)
      requires Running()
      requires Checked(Tables(), Exchange(source, target, amount, sourceCurrency, targetCurrency, Some(rate), key))
      requires Holds(source) && Holds(target) && Holds(chart.clearing(sourceCurrency))
      requires Holds(chart.clearing(targetCurrency))
      modifies this`txns, this`keys, this`nextTxn, this`entries, this`nextEntry, this`cache, this`snapshotQueue,
               this`locks
      ensures Valid()
      ensures (Tables(), o) == Conclude(old(Tables()), Exchange(source, target, amount, sourceCurrency, targetCurrency,
                                                                Some(rate), key), recovers)
      ensures o.Accepted? ==>
                cache.Keys == old(cache).Keys
                              + {source, target, chart.clearing(sourceCurrency), chart.clearing(targetCurrency)}
      ensures o.Accepted? ==>
                snapshotQueue == old(snapshotQueue) + DuePair(source, chart.clearing(sourceCurrency), queueUp)
                                 + DuePair(chart.clearing(targetCurrency), target, queueUp)
      ensures !o.Accepted? ==> cache == old(cache) && snapshotQueue == old(snapshotQueue)
    {
      hide BookOk, SnapshotsOk, FreshExcept, CacheTyped, LogOrdered, Balance, Conclude, Plan, TargetAmount, Checked,
           Affords;
      var received := TargetAmount(amount, rate);
      ExchangePlanIs(chart, source, target, amount, sourceCurrency, targetCurrency, rate, key);
      o := PostExchange(Exchange(source, target, amount, sourceCurrency, targetCurrency, Some(rate), key), key,
                        Posting(source, chart.store(-amount), Debit, sourceCurrency),
                        Posting(chart.clearing(sourceCurrency), chart.store(amount), Credit, sourceCurrency),
                        Posting(chart.clearing(targetCurrency), chart.store(-Units(received)), Debit, targetCurrency),
                        Posting(target, chart.store(Units(received)), Credit, targetCurrency), queueUp);
    }

    /* ---------- account_service.py ---------- */

    /** A currency code outside the enumeration is `None`. */
    method CreateAccount(owner: nat, currency: Option<Currency>) returns (o: Outcome)
      requires Valid()
      modifies this`chart, this`nextAccount
      ensures Valid()
      ensures (Tables(), o) == if currency.None? then (old(Tables()), Refused(UnknownCurrency))
                               else if owner !in users then (old(Tables()), Refused(UserNotFound))
                               else Open(old(Tables()), owner, currency.value)
    {
      hide BookOk, SnapshotsOk, FreshExcept;
      if currency.None? {
        return Refused(UnknownCurrency);
      }
      if owner !in users {
        return Refused(UserNotFound);
      }
      OpenKeeps(Tables(), owner, currency.value);
      AccountsAreOk(Tables());
      if exists a | a in chart.accounts ::
           chart.accounts[a].owner == owner && chart.accounts[a].currency == currency.value {
        return Refused(Conflict);
      }
      chart := chart.(accounts := chart.accounts[nextAccount := Account(owner, currency.value, false)]);
      nextAccount := nextAccount + 1;
      return Accepted(nextAccount - 1);
    }

    /* ---------- webhooks.py ---------- */

    /** The signature is verified if a secret is configured, and the timestamp always. */
    method PaymentWebhook(m: D.Webhook, envelope: Envelope, queueUp: bool) returns (code: nat)
      requires Valid()
      modifies this
      ensures Valid() && users == old(users)
      ensures (Tables(), code)
           == if hasSecret && envelope.signature != RightSignature then (old(Tables()), 401)
              else if envelope.age.None? then (old(Tables()), 400)
              else if envelope.age.value > tolerance then (old(Tables()), 401)
              else D.HandleWebhook(old(Tables()), m)
      ensures snapshots == old(snapshots) && rates == old(rates) && depositQueue == old(depositQueue)
      ensures if code == 200 && m.event == D.DepositCompleted then
                && m.reference.Number? && 0 <= m.reference.n && m.reference.n in old(txns)
                && old(txns)[m.reference.n].intent.Some?
                && var i := old(txns)[m.reference.n].intent.value;
                   && cache.Keys == old(cache).Keys + {i.account, chart.clearing(i.currency)}
                   && snapshotQueue == old(snapshotQueue) + DuePair(i.account, chart.clearing(i.currency), queueUp)
              else cache == old(cache) && snapshotQueue == old(snapshotQueue)
    {
      hide BookOk, SnapshotsOk, FreshExcept, CacheTyped;
      if hasSecret {
        if envelope.signature == NoSignature {
          return UNAUTHORIZED;
        }
        if envelope.signature == WrongSignature {
          return UNAUTHORIZED;
        }
      }
      if envelope.age.None? {
        return D.BAD_REQUEST;
      }
      if envelope.age.value > tolerance {
        return UNAUTHORIZED;
      }
      code := DispatchWebhook(m, queueUp);
    }

    method DispatchWebhook(m: D.Webhook, queueUp: bool) returns (code: nat)
      requires Valid()
      modifies this
      ensures Valid()
      ensures (Tables(), code) == D.HandleWebhook(old(Tables()), m) && users == old(users)
      ensures snapshots == old(snapshots) && rates == old(rates) && depositQueue == old(depositQueue)
      ensures if code == 200 && m.event == D.DepositCompleted then
                && m.reference.Number? && 0 <= m.reference.n && m.reference.n in old(txns)
                && old(txns)[m.reference.n].intent.Some?
                && var i := old(txns)[m.reference.n].intent.value;
                   && cache.Keys == old(cache).Keys + {i.account, chart.clearing(i.currency)}
                   && snapshotQueue == old(snapshotQueue) + DuePair(i.account, chart.clearing(i.currency), queueUp)
              else cache == old(cache) && snapshotQueue == old(snapshotQueue)
    {
      hide BookOk, SnapshotsOk, FreshExcept, CacheTyped, Confirm, Fail;
      RefusalsChangeNothing(Tables(), m);
      if m.reference.NotANumber? {
        return D.BAD_REQUEST;
      }
      if m.event == D.DepositCompleted {
        if m.reference.n < 0 {
          return D.UNPROCESSABLE;
        }
        var o := ConfirmDeposit(m.reference.n, m.provider, queueUp);
        return if o.Accepted? then D.OK else D.UNPROCESSABLE;
      } else if m.event == D.DepositFailed {
        if m.reference.n < 0 {
          return D.UNPROCESSABLE;
        }
        var o := FailDeposit(m.reference.n);
        return if o.Accepted? then D.OK else D.UNPROCESSABLE;
      } else {
        return D.BAD_REQUEST;
      }
    }

    /* ---------- deposits.py ---------- */

    /** Check the owner, initiate, commit, then try to enqueue the notification. */
    method CreateDeposit(caller: nat, account: AccountId, amount: real, currency: Currency, now: nat, queueUp: bool)
      returns (o: Outcome)
      requires Valid()
      modifies this`txns, this`keys, this`nextTxn, this`depositQueue
      ensures Valid()
      ensures (Tables(), o) == if account !in chart.accounts then (old(Tables()), Refused(AccountNotFound))
                               else if chart.accounts[account].owner != caller then (old(Tables()), Refused(Forbidden))
                               else Submit(old(Tables()), Initiation(account, amount, currency, None, now))
      ensures depositQueue == old(depositQueue) + if o.Accepted? && queueUp then [D.Job(o.id, amount, currency)] else []
    {
      hide BookOk, SnapshotsOk, FreshExcept, CacheTyped, Submit;
      if account !in chart.accounts {
        return Refused(AccountNotFound);
      }
      if chart.accounts[account].owner != caller {
        return Refused(Forbidden);
      }
      o := InitiateDeposit(account, amount, currency, None, now);
      if o.Accepted? {
        if queueUp {
          depositQueue := depositQueue + [D.Job(o.id, amount, currency)];
        }
      }
    }

    /* ---------- deposit_jobs.py ---------- */

    /** The worker's job after posting to the provider: no answer, or a bad one, makes the queue
        retry the job; the payment id of a good answer is stored. */
    method NotifyProvider(t: TxnId, payment: Option<string>) returns (retry: bool)
      requires Valid()
      modifies this`txns
      ensures Valid()
      ensures retry == payment.None?
      ensures Tables() == if retry then old(Tables()) else Acknowledge(old(Tables()), t, payment.value).0
    {
      hide BookOk, SnapshotsOk, FreshExcept, CacheTyped;
      if payment.None? {
        return true;
      }
      StatusOpsKeep(Tables(), t, payment.value);
      if t !in txns {
        return false;
      }
      txns := txns[t := txns[t].(reference := payment)];
      return false;
    }

    /** Enqueues one notification for every orphan, in whatever order the query lists them. The queue
        takes `room` jobs before it fails; a failure ends the run without an answer. */
    method RecoverOrphanDeposits(cutoff: nat, room: nat) returns (count: Option<nat>, ghost enqueued: set<TxnId>)
      requires Valid()
      modifies this`depositQueue
      ensures Valid()
      ensures enqueued <= D.Orphans(Tables(), cutoff)
      ensures multiset(depositQueue) == multiset(old(depositQueue)) + multiset(D.JobsOf(Tables(), enqueued))
      ensures if |D.Orphans(Tables(), cutoff)| <= room then
                enqueued == D.Orphans(Tables(), cutoff) && count == Some(|enqueued|)
              else |enqueued| == room && count == None
    {
      hide BookOk, SnapshotsOk, FreshExcept, CacheTyped, D.JobsOf;
      var orphans := set t | t in txns && D.IsOrphan(txns[t], cutoff);
      assert orphans == D.Orphans(Tables(), cutoff);
      count, enqueued := EnqueueAll(orphans, room);
    }

    method EnqueueAll(ts: set<TxnId>, room: nat) returns (count: Option<nat>, ghost enqueued: set<TxnId>)
      requires forall t | t in ts :: t in txns && txns[t].intent.Some?
      modifies this`depositQueue
      ensures enqueued <= ts && AreQueued(Tables(), enqueued, old(depositQueue), depositQueue)
      ensures if |ts| <= room then enqueued == ts && count == Some(|enqueued|) else |enqueued| == room && count == None
    {
      hide AreQueued, D.JobOf;
      ghost var b := Tables();
      var rest, left := ts, room;
      enqueued := {};
      NoneIsQueued(b, depositQueue);
      while rest != {}
        invariant enqueued + rest == ts && enqueued !! rest && |enqueued| + left == room
        invariant Tables() == b && AreQueued(b, enqueued, old(depositQueue), depositQueue)
        decreases rest
      {
        var t :| t in rest;
        if left == 0 {
          SmallerSubset(enqueued, t, ts);
          return None, enqueued;
        }
        OneMoreIsQueued(b, enqueued, t, old(depositQueue), depositQueue);
        EnqueueNotification(t);
        rest, left, enqueued := rest - {t}, left - 1, enqueued + {t};
      }
      assert enqueued == ts;
      return Some(|ts|), enqueued;
    }

    method EnqueueNotification(t: TxnId)
      requires t in txns && txns[t].intent.Some?
      modifies this`depositQueue
      ensures depositQueue == old(depositQueue) + [D.JobOf(Tables(), t)]
    {
      var i := txns[t].intent.value;
      depositQueue := depositQueue + [D.Job(t, i.amount, i.currency)];
    }
  }
}
