/** What the services keep about snapshots and cached balances, on values. */
module ServiceState {
  import opened Wrappers
  import opened Decimals
  import opened Ledger
  import opened Sums
  import opened Plans
  import opened Books
  import opened Snapshots
  import D = Deposits

  /** A cached balance. */
  datatype Money = Money(amount: int, currency: Currency)

  type Cache = map<AccountId, Money>

  /** Every cached balance is the plain sum of the account's SUCCESS entries, except perhaps those
      of the accounts just written to. */
  ghost predicate FreshExcept(log: seq<Entry>, cache: Cache, stale: set<AccountId>) {
    forall a | a in cache && a !in stale :: cache[a].amount == Balance(log, a)
  }

  /** Every cached balance carries its account's currency. */
  ghost predicate CacheTyped(ch: Chart, cache: Cache) {
    forall a | a in cache :: a in ch.accounts && ch.accounts[a].currency == cache[a].currency
  }

  /** Every snapshot is exact, and the snapshots of one account have strictly growing marks and
      lie at least `threshold` entries apart. */
  ghost predicate SnapshotsOk(log: seq<Entry>, snaps: seq<Snapshot>, threshold: nat) {
    && (forall s | s in snaps :: IsExact(log, s))
    && (forall i, j | 0 <= i < j < |snaps| && snaps[i].account == snaps[j].account ::
          snaps[i].last < snaps[j].last && snaps[i].count + threshold <= snaps[j].count)
  }

  ghost predicate LogOrdered(log: seq<Entry>, nextEntry: nat) {
    && 0 < nextEntry
    && (forall e | e in log :: 0 < e.id < nextEntry)
    && (forall i, j | 0 <= i < j < |log| :: log[i].id < log[j].id)
  }

  /** New entries, with new ids, leave every snapshot exact. */
  lemma AppendKeepsSnapshots(log: seq<Entry>, more: seq<Entry>, snaps: seq<Snapshot>, threshold: nat, nextEntry: nat)
    requires SnapshotsOk(log, snaps, threshold) && LogOrdered(log, nextEntry)
    requires forall e | e in more :: nextEntry <= e.id
    ensures SnapshotsOk(log + more, snaps, threshold)
  {
    forall s | s in snaps ensures IsExact(log + more, s) {
      ExactStaysExact(log, more, s);
    }
  }

  /** Writing to some accounts spoils at most their own cached balances. */
  lemma AppendStales(log: seq<Entry>, more: seq<Entry>, cache: Cache, stale: set<AccountId>)
    requires FreshExcept(log, cache, {}) && forall e | e in more :: e.post.account in stale
    ensures FreshExcept(log + more, cache, stale)
  {
    forall a | a in cache && a !in stale ensures cache[a].amount == Balance(log + more, a) {
      UntouchedSelect(log, more, a, All);
    }
  }

  predicate IsLatestAt(snaps: seq<Snapshot>, a: AccountId, i: nat) {
    i < |snaps| && Latest(snaps, a) == Some(snaps[i]) && forall j | i < j < |snaps| :: snaps[j].account != a
  }

  lemma {:induction false} LatestIsLast(snaps: seq<Snapshot>, a: AccountId)
    ensures Latest(snaps, a).Some? ==> exists i: nat :: IsLatestAt(snaps, a, i)
  {
    if snaps != [] {
      var init := snaps[..|snaps| - 1];
      LatestIsLast(init, a);
      if snaps[|snaps| - 1].account == a {
        assert IsLatestAt(snaps, a, |snaps| - 1);
      } else if Latest(init, a).Some? {
        var i: nat :| IsLatestAt(init, a, i);
        forall j | i < j < |snaps| ensures snaps[j].account != a {
          assert j < |init| ==> snaps[j] == init[j];
        }
        assert IsLatestAt(snaps, a, i);
      }
    }
  }

  lemma {:induction false} CountUpToGrows(log: seq<Entry>, a: AccountId, less: nat, more: nat)
    requires less <= more
    ensures |Select(log, a, UpTo(less))| <= |Select(log, a, UpTo(more))|
  {
    if log != [] {
      CountUpToGrows(log[..|log| - 1], a, less, more);
    }
  }

  /** The job's proposal lies beyond the newest snapshot of its account, at least `threshold`
      entries away, and nothing of the account is left beyond it. */
  lemma ProposalAdvances(log: seq<Entry>, snaps: seq<Snapshot>, a: AccountId, threshold: nat)
    requires 0 < threshold && forall e | e in log :: 0 < e.id
    requires SnapshotsOk(log, snaps, threshold) && Proposal(log, snaps, a, threshold).Some?
    ensures var s := Proposal(log, snaps, a, threshold).value;
            && s.account == a && IsExact(log, s)
            && Base(snaps, a).last < s.last && Base(snaps, a).count + threshold <= s.count
            && Select(log, a, After(s.last)) == []
  {
    var s := Proposal(log, snaps, a, threshold).value;
    ProposalIsExact(log, snaps, a, threshold);
    BaseIsExact(log, snaps, a);
    MaxIdBounds(Select(log, a, All));
    SelectedRows(log, a, All);
    if s.last <= Base(snaps, a).last {
      CountUpToGrows(log, a, s.last, Base(snaps, a).last);
    }
    NothingSelected(log, a, After(s.last));
  }

  /** Storing the proposal keeps the snapshot history in order. */
  lemma StoreKeepsSnapshots(log: seq<Entry>, snaps: seq<Snapshot>, a: AccountId, threshold: nat)
    requires 0 < threshold && forall e | e in log :: 0 < e.id
    requires SnapshotsOk(log, snaps, threshold) && Proposal(log, snaps, a, threshold).Some?
    ensures SnapshotsOk(log, snaps + [Proposal(log, snaps, a, threshold).value], threshold)
    ensures Unsnapshotted(log, snaps + [Proposal(log, snaps, a, threshold).value], a) == 0
  {
    var s := Proposal(log, snaps, a, threshold).value;
    var snaps' := snaps + [s];
    ProposalAdvances(log, snaps, a, threshold);
    assert snaps'[..|snaps'| - 1] == snaps;
    LatestIsListed(snaps, a);
    LatestIsLast(snaps, a);
    forall i | 0 <= i < |snaps| && snaps[i].account == a
      ensures snaps[i].last < s.last && snaps[i].count + threshold <= s.count
    {
      assert snaps[i] in snaps;
      var k: nat :| IsLatestAt(snaps, a, k);
    }
  }

  /** What a book guarantees about the ids in its log. */
  lemma BookIsOrdered(b: Book)
    requires BookOk(b)
    ensures LogOrdered(b.entries, b.nextEntry)
  {
  }

  /** All that has to be known after the entries of a transaction have been added. */
  ghost predicate Written(b: Book, snaps: seq<Snapshot>, cache: Cache, threshold: nat, stale: set<AccountId>) {
    && BookOk(b) && LogOrdered(b.entries, b.nextEntry)
    && SnapshotsOk(b.entries, snaps, threshold) && FreshExcept(b.entries, cache, stale)
  }

  lemma AddedEntries(b: Book, mid: Book, t: TxnId, ps: seq<Posting>, snaps: seq<Snapshot>, cache: Cache,
                     threshold: nat, stale: set<AccountId>)
    requires LogOrdered(b.entries, b.nextEntry) && SnapshotsOk(b.entries, snaps, threshold)
    requires FreshExcept(b.entries, cache, {})
    requires mid.entries == b.entries && mid.nextEntry == b.nextEntry
    requires forall p | p in ps :: p.account in stale
    ensures SnapshotsOk(AddEntries(mid, t, ps).entries, snaps, threshold)
    ensures FreshExcept(AddEntries(mid, t, ps).entries, cache, stale)
  {
    StampRows(ps, t, b.nextEntry);
    AppendKeepsSnapshots(b.entries, Stamp(ps, t, b.nextEntry), snaps, threshold, b.nextEntry);
    AppendStales(b.entries, Stamp(ps, t, b.nextEntry), cache, stale);
  }

  /** A request that has passed all its checks. */
  ghost predicate Checked(b: Book, r: Request) {
    && RateOk(r) && ArgumentError(r).None? && StaticError(b.chart, r).None?
    && (ChecksFunds(r) ==> Affords(Balance(b.entries, r.source), r))
  }

  lemma ConcludeWrites(b: Book, r: Request, recovers: bool, snaps: seq<Snapshot>, cache: Cache, threshold: nat,
                       stale: set<AccountId>)
    requires BookOk(b) && SnapshotsOk(b.entries, snaps, threshold) && FreshExcept(b.entries, cache, {})
    requires Checked(b, r) && Conclude(b, r, recovers).1.Accepted?
    requires forall p | p in Plan(b.chart, r) :: p.account in stale
    ensures Written(Conclude(b, r, recovers).0, snaps, cache, threshold, stale)
  {
    hide BookOk, SnapshotsOk, FreshExcept, LogOrdered, Plan, Submit, Conclude, AddEntries, Affords, Balance;
    AcceptedIsSubmitted(b, r, recovers);
    SubmitIsInsert(b, r);
    SubmitKeeps(b, r);
    BookIsOrdered(b);
    BookIsOrdered(Submit(b, r).0);
    AddedEntries(b, Insert(b, RowOf(r)), b.nextTxn, Plan(b.chart, r), snaps, cache, threshold, stale);
  }

  lemma ConfirmWrites(b: Book, t: TxnId, reference: string, snaps: seq<Snapshot>, cache: Cache, threshold: nat,
                      stale: set<AccountId>)
    requires BookOk(b) && SnapshotsOk(b.entries, snaps, threshold) && FreshExcept(b.entries, cache, {})
    requires Confirm(b, t, reference).1.Accepted?
    requires var i := b.txns[t].intent.value; i.account in stale && b.chart.clearing(i.currency) in stale
    ensures Written(Confirm(b, t, reference).0, snaps, cache, threshold, stale)
  {
    hide BookOk, SnapshotsOk, FreshExcept, LogOrdered, AddEntries;
    var i := b.txns[t].intent.value;
    ConfirmKeeps(b, t, reference);
    BookIsOrdered(b);
    BookIsOrdered(Confirm(b, t, reference).0);
    AddedEntries(b, Completing(b, t, reference), t, IntentPlan(b.chart, i), snaps, cache, threshold, stale);
  }

  lemma PlanIsTyped(b: Book, r: Request)
    requires BookOk(b) && Checked(b, r)
    ensures forall p | p in Plan(b.chart, r) :: IsTyped(b.chart, p)
  {
    hide EntriesOk, KeysOk, TxnsOk, FundsOk, ZeroSum, Affords, Balance;
    PlanIsBalanced(b.chart, r);
  }

  lemma TransferPlanIs(ch: Chart, s: AccountId, t: AccountId, amount: real, cur: Currency, key: Option<string>)
    ensures Plan(ch, Transfer(s, t, amount, cur, key))
         == [Posting(s, ch.store(-amount), Debit, cur), Posting(t, ch.store(amount), Credit, cur)]
  {
  }

  lemma DepositPlanIs(ch: Chart, a: AccountId, amount: real, cur: Currency, key: Option<string>)
    ensures Plan(ch, Deposit(a, amount, cur, key))
         == [Posting(ch.clearing(cur), ch.store(-amount), Debit, cur), Posting(a, ch.store(amount), Credit, cur)]
  {
  }

  lemma ExchangePlanIs(ch: Chart, s: AccountId, t: AccountId, amount: real, sc: Currency, tc: Currency, rate: real,
                       key: Option<string>)
    ensures Plan(ch, Exchange(s, t, amount, sc, tc, Some(rate), key))
         == [Posting(s, ch.store(-amount), Debit, sc), Posting(ch.clearing(sc), ch.store(amount), Credit, sc),
             Posting(ch.clearing(tc), ch.store(-Units(TargetAmount(amount, rate))), Debit, tc),
             Posting(t, ch.store(Units(TargetAmount(amount, rate))), Credit, tc)]
  {
  }

  lemma ClearingExists(b: Book, cur: Currency)
    requires BookOk(b)
    ensures IsClearing(b.chart, b.chart.clearing(cur), cur)
  {
  }

  lemma IntentIsTyped(b: Book, t: TxnId)
    requires BookOk(b) && t in b.txns && b.txns[t].intent.Some?
    ensures IntentOk(b.chart, b.txns[t].intent.value)
  {
    assert TxnOk(b, t);
  }

  lemma AccountsAreOk(b: Book)
    requires BookOk(b)
    ensures b.nextAccount !in b.chart.accounts
  {
  }

  lemma AddInTwo(b: Book, t: TxnId, p: Posting, q: Posting, u: Posting, v: Posting)
    ensures AddEntries(AddEntries(b, t, [p, q]), t, [u, v]) == AddEntries(b, t, [p, q, u, v])
  {
    assert b.entries + Stamp([p, q], t, b.nextEntry) + Stamp([u, v], t, b.nextEntry + 2)
        == b.entries + Stamp([p, q, u, v], t, b.nextEntry);
  }

  lemma RefusalsChangeNothing(b: Book, m: D.Webhook)
    ensures m.reference.Number? && m.reference.n >= 0 ==>
              && (!Confirm(b, m.reference.n, m.provider).1.Accepted? ==> Confirm(b, m.reference.n, m.provider).0 == b)
              && (!Fail(b, m.reference.n).1.Accepted? ==> Fail(b, m.reference.n).0 == b)
              && (Confirm(b, m.reference.n, m.provider).1.Accepted? ==>
                    m.reference.n in b.txns && b.txns[m.reference.n].intent.Some?)
  {
  }

  lemma JobSplitsOff(b: Book, ts: set<TxnId>, t: TxnId)
    requires t in ts
    ensures multiset(D.JobsOf(b, ts)) == multiset(D.JobsOf(b, ts - {t})) + multiset{D.JobOf(b, t)}
  {
    assert D.JobsOf(b, ts) == D.JobsOf(b, ts - {t}) + {D.JobOf(b, t)};
    assert D.JobOf(b, t) !in D.JobsOf(b, ts - {t});
  }

  /** A duplicated job finds nothing to do. */
  lemma JobIsIdempotent(log: seq<Entry>, snaps: seq<Snapshot>, a: AccountId, threshold: nat)
    requires 0 < threshold && forall e | e in log :: 0 < e.id
    requires SnapshotsOk(log, snaps, threshold) && Proposal(log, snaps, a, threshold).Some?
    ensures Proposal(log, snaps + [Proposal(log, snaps, a, threshold).value], a, threshold) == None
  {
    StoreKeepsSnapshots(log, snaps, a, threshold);
  }

  /** Refreshing one stale account. */
  lemma OneRefreshed(log: seq<Entry>, ch: Chart, cache: Cache, stale: set<AccountId>, a: AccountId, cur: Currency)
    requires FreshExcept(log, cache, stale) && CacheTyped(ch, cache) && a in ch.accounts
    requires ch.accounts[a].currency == cur
    ensures FreshExcept(log, cache[a := Money(Balance(log, a), cur)], stale - {a})
    ensures CacheTyped(ch, cache[a := Money(Balance(log, a), cur)])
  {
  }

  lemma FresherExcept(log: seq<Entry>, cache: Cache, stale: set<AccountId>, rest: set<AccountId>)
    requires FreshExcept(log, cache, stale) && stale <= rest
    ensures FreshExcept(log, cache, rest)
  {
  }

  /** What the snapshot job finds and what storing its snapshot does. */
  lemma JobFindsRows(log: seq<Entry>, snaps: seq<Snapshot>, a: AccountId, threshold: nat)
    requires 0 < threshold && forall e | e in log :: 0 < e.id
    requires SnapshotsOk(log, snaps, threshold) && Unsnapshotted(log, snaps, a) >= threshold
    ensures Proposal(log, snaps, a, threshold).Some?
    ensures var s := Proposal(log, snaps, a, threshold).value;
            && s.account == a && s.balance == Balance(log, a) && s.count == |Select(log, a, All)|
            && SnapshotsOk(log, snaps + [s], threshold) && Unsnapshotted(log, snaps + [s], a) == 0
  {
    BaseIsExact(log, snaps, a);
    CutSplits(log, a, Base(snaps, a).last);
    StoreKeepsSnapshots(log, snaps, a, threshold);
  }

  /** The snapshot job that a write asks for, if any. */
  function Due(log: seq<Entry>, snaps: seq<Snapshot>, threshold: nat, a: AccountId, queueUp: bool): seq<AccountId> {
    if queueUp && Unsnapshotted(log, snaps, a) >= threshold then [a] else []
  }

  lemma StampPair(p: Posting, q: Posting, t: TxnId, first: nat)
    ensures Stamp([p, q], t, first) == [Entry(first, t, Success, p), Entry(first + 1, t, Success, q)]
  {
  }

  /** One job for each of the deposits has joined the queue, in whatever order. */
  ghost predicate AreQueued(b: Book, done: set<TxnId>, before: seq<D.Job>, queue: seq<D.Job>) {
    multiset(queue) == multiset(before) + multiset(D.JobsOf(b, done))
  }

  lemma OneMoreIsQueued(b: Book, done: set<TxnId>, t: TxnId, before: seq<D.Job>, queue: seq<D.Job>)
    requires t !in done && AreQueued(b, done, before, queue)
    ensures AreQueued(b, done + {t}, before, queue + [D.JobOf(b, t)]) && |done + {t}| == |done| + 1
  {
    hide D.JobsOf, D.JobOf;
    JobSplitsOff(b, done + {t}, t);
    assert done + {t} - {t} == done;
  }

  lemma NoneIsQueued(b: Book, queue: seq<D.Job>)
    ensures AreQueued(b, {}, queue, queue)
  {
    assert D.JobsOf(b, {}) == {};
  }

  lemma NoEntriesAdded(b: Book, t: TxnId)
    ensures AddEntries(b, t, []) == b
  {
    assert b.entries + Stamp([], t, b.nextEntry) == b.entries;
  }

  lemma RowHasKey(r: Request)
    ensures RowOf(r).key == r.key
  {
  }

  lemma SmallerSubset(s: set<TxnId>, t: TxnId, whole: set<TxnId>)
    requires s <= whole && t in whole && t !in s
    ensures |s| < |whole|
  {
    assert whole == s + (whole - s) && t in whole - s;
  }
}
