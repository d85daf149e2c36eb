/** What each operation answers and records, spelled out case by case: which calls are accepted,
    which error refuses each of the others, and every row that an accepted call writes. */
module Answers {
  import opened Wrappers
  import opened Decimals
  import opened Ledger
  import opened Books
  import opened Deposits

  /** One new transaction row, and its entries, have been added, and nothing else has changed. */
  ghost predicate Records(b: Book, b': Book, row: Txn, posts: seq<Posting>) {
    && |b'.entries| == |b.entries| + |posts| && b'.entries[..|b.entries|] == b.entries
    && (forall i | 0 <= i < |posts| ::
          b'.entries[|b.entries| + i] == Entry(b.nextEntry + i, b.nextTxn, Success, posts[i]))
    && b'.txns == b.txns[b.nextTxn := row]
    && b'.keys == (if row.key.Some? then b.keys[row.key.value := b.nextTxn] else b.keys)
    && b'.chart == b.chart
    && b'.nextEntry == b.nextEntry + |posts| && b'.nextTxn == b.nextTxn + 1 && b'.nextAccount == b.nextAccount
  }

  predicate IsIn(ch: Chart, a: AccountId, cur: Currency) {
    a in ch.accounts && ch.accounts[a].currency == cur
  }

  lemma AppendedRows(log: seq<Entry>, posts: seq<Posting>, t: TxnId, first: nat)
    ensures |log + Stamp(posts, t, first)| == |log| + |posts|
    ensures (log + Stamp(posts, t, first))[..|log|] == log
    ensures forall i | 0 <= i < |posts| ::
              (log + Stamp(posts, t, first))[|log| + i] == Entry(first + i, t, Success, posts[i])
  {
  }

  lemma InsertedRecords(b: Book, row: Txn, posts: seq<Posting>)
    ensures Records(b, AddEntries(Insert(b, row), b.nextTxn, posts), row, posts)
  {
    hide Stamp;
    AppendedRows(b.entries, posts, b.nextTxn, b.nextEntry);
  }

  /* ---------- Transfers ---------- */

  lemma TransferIsAnswered(b: Book, s: AccountId, t: AccountId, amount: real, cur: Currency, key: Option<string>)
    ensures var o := Submit(b, Transfer(s, t, amount, cur, key)).1;
            o.Accepted? <==>
              && s != t && 0.0 < amount && IsIn(b.chart, s, cur) && IsIn(b.chart, t, cur)
              && (key.Some? ==> key.value !in b.keys) && amount <= Balance(b.entries, s) as real
    ensures Submit(b, Transfer(s, t, amount, cur, key)).1
         == if s == t || amount <= 0.0 then Refused(CurrencyMismatch)
            else if key.Some? && key.value != "" && key.value in b.keys then Existing(b.keys[key.value])
            else if s !in b.chart.accounts || t !in b.chart.accounts then Refused(AccountNotFound)
            else if !IsIn(b.chart, s, cur) || !IsIn(b.chart, t, cur) then Refused(CurrencyMismatch)
            else if Balance(b.entries, s) as real < amount then Refused(InsufficientFunds)
            else if key == Some("") && "" in b.keys then Refused(DuplicateKey)
            else Accepted(b.nextTxn)
    ensures var (b', o) := Submit(b, Transfer(s, t, amount, cur, key));
            if !o.Accepted? then b' == b
            else Records(b, b', Txn(TransferTxn, Completed, key, None, None),
                         [Posting(s, b.chart.store(-amount), Debit, cur),
                          Posting(t, b.chart.store(amount), Credit, cur)])
  {
    hide Balance, AddEntries, Insert, Records;
    InsertedRecords(b, Txn(TransferTxn, Completed, key, None, None), TransferPlan(b.chart, s, t, amount, cur));
  }

  /** What a transfer answers under its locks, when its key may have been committed meanwhile. */
  lemma TransferConcludes(b: Book, s: AccountId, t: AccountId, amount: real, cur: Currency, key: Option<string>,
                          recovers: bool)
    ensures Conclude(b, Transfer(s, t, amount, cur, key), recovers).1
         == if s !in b.chart.accounts || t !in b.chart.accounts then Refused(AccountNotFound)
            else if !IsIn(b.chart, s, cur) || !IsIn(b.chart, t, cur) then Refused(CurrencyMismatch)
            else if Balance(b.entries, s) as real < amount then Refused(InsufficientFunds)
            else if key.Some? && key.value in b.keys then
              if key.value != "" && recovers then Existing(b.keys[key.value]) else Refused(DuplicateKey)
            else Accepted(b.nextTxn)
    ensures var (b', o) := Conclude(b, Transfer(s, t, amount, cur, key), recovers);
            if !o.Accepted? then b' == b
            else Records(b, b', Txn(TransferTxn, Completed, key, None, None),
                         [Posting(s, b.chart.store(-amount), Debit, cur),
                          Posting(t, b.chart.store(amount), Credit, cur)])
  {
    hide Balance, AddEntries, Insert, Records;
    InsertedRecords(b, Txn(TransferTxn, Completed, key, None, None), TransferPlan(b.chart, s, t, amount, cur));
  }

  /* ---------- Direct and initiated deposits ---------- */

  lemma DepositIsAnswered(b: Book, a: AccountId, amount: real, cur: Currency, key: Option<string>)
    ensures var o := Submit(b, Deposit(a, amount, cur, key)).1;
            o.Accepted? <==> 0.0 < amount && IsIn(b.chart, a, cur) && (key.Some? ==> key.value !in b.keys)
    ensures Submit(b, Deposit(a, amount, cur, key)).1
         == if amount <= 0.0 then Refused(CurrencyMismatch)
            else if key.Some? && key.value != "" && key.value in b.keys then Existing(b.keys[key.value])
            else if a !in b.chart.accounts then Refused(AccountNotFound)
            else if !IsIn(b.chart, a, cur) then Refused(CurrencyMismatch)
            else if key == Some("") && "" in b.keys then Refused(DuplicateKey)
            else Accepted(b.nextTxn)
    ensures var (b', o) := Submit(b, Deposit(a, amount, cur, key));
            if !o.Accepted? then b' == b
            else Records(b, b', Txn(DepositTxn, Completed, key, None, None),
                         [Posting(b.chart.clearing(cur), b.chart.store(-amount), Debit, cur),
                          Posting(a, b.chart.store(amount), Credit, cur)])
  {
    hide Balance, AddEntries, Insert, Records;
    InsertedRecords(b, Txn(DepositTxn, Completed, key, None, None), DepositPlan(b.chart, a, amount, cur));
  }

  lemma DepositConcludes(b: Book, a: AccountId, amount: real, cur: Currency, key: Option<string>, recovers: bool)
    ensures Conclude(b, Deposit(a, amount, cur, key), recovers).1
         == if key.Some? && key.value in b.keys then
              if key.value != "" && recovers then Existing(b.keys[key.value]) else Refused(DuplicateKey)
            else Accepted(b.nextTxn)
    ensures var (b', o) := Conclude(b, Deposit(a, amount, cur, key), recovers);
            if !o.Accepted? then b' == b
            else Records(b, b', Txn(DepositTxn, Completed, key, None, None),
                         [Posting(b.chart.clearing(cur), b.chart.store(-amount), Debit, cur),
                          Posting(a, b.chart.store(amount), Credit, cur)])
  {
    hide Balance, AddEntries, Insert, Records;
    InsertedRecords(b, Txn(DepositTxn, Completed, key, None, None), DepositPlan(b.chart, a, amount, cur));
  }

  lemma InitiationIsAnswered(b: Book, a: AccountId, amount: real, cur: Currency, key: Option<string>, now: nat)
    ensures var o := Submit(b, Initiation(a, amount, cur, key, now)).1;
            o.Accepted? <==> 0.0 < amount && IsIn(b.chart, a, cur) && (key.Some? ==> key.value !in b.keys)
    ensures Submit(b, Initiation(a, amount, cur, key, now)).1
         == if amount <= 0.0 then Refused(CurrencyMismatch)
            else if key.Some? && key.value != "" && key.value in b.keys then Existing(b.keys[key.value])
            else if a !in b.chart.accounts then Refused(AccountNotFound)
            else if !IsIn(b.chart, a, cur) then Refused(CurrencyMismatch)
            else if key == Some("") && "" in b.keys then Refused(DuplicateKey)
            else Accepted(b.nextTxn)
    ensures var (b', o) := Submit(b, Initiation(a, amount, cur, key, now));
            if !o.Accepted? then b' == b
            else Records(b, b', Txn(DepositTxn, Pending, key, Some(Intent(a, amount, cur, now)), None), [])
  {
    hide Balance, AddEntries, Insert, Records;
    InsertedRecords(b, Txn(DepositTxn, Pending, key, Some(Intent(a, amount, cur, now)), None), []);
  }

  lemma InitiationConcludes(b: Book, a: AccountId, amount: real, cur: Currency, key: Option<string>, now: nat,
                            recovers: bool)
    ensures Conclude(b, Initiation(a, amount, cur, key, now), recovers).1
         == if key.Some? && key.value in b.keys then
              if key.value != "" && recovers then Existing(b.keys[key.value]) else Refused(DuplicateKey)
            else Accepted(b.nextTxn)
    ensures var (b', o) := Conclude(b, Initiation(a, amount, cur, key, now), recovers);
            if !o.Accepted? then b' == b
            else Records(b, b', Txn(DepositTxn, Pending, key, Some(Intent(a, amount, cur, now)), None), [])
  {
    hide Balance, AddEntries, Insert, Records;
    InsertedRecords(b, Txn(DepositTxn, Pending, key, Some(Intent(a, amount, cur, now)), None), []);
  }

  /* ---------- Exchanges ---------- */

  /** The entries of an exchange that pays out `paid` units. */
  function ExchangePosts(ch: Chart, s: AccountId, t: AccountId, amount: real, sc: Currency, tc: Currency, paid: int)
    : seq<Posting>
  {
    [Posting(s, ch.store(-amount), Debit, sc), Posting(ch.clearing(sc), ch.store(amount), Credit, sc),
     Posting(ch.clearing(tc), -paid, Debit, tc), Posting(t, paid, Credit, tc)]
  }

  /** An exchange pays out the unit nearest to amount times rate, and the even one of two. */
  lemma PlanPaysNearest(ch: Chart, s: AccountId, t: AccountId, amount: real, sc: Currency, tc: Currency, rate: real,
                        key: Option<string>, paid: int)
    requires IsStorageRounding(ch.store) && IsNearestTiesToEven(paid, amount * rate)
    ensures Plan(ch, Exchange(s, t, amount, sc, tc, Some(rate), key)) == ExchangePosts(ch, s, t, amount, sc, tc, paid)
  {
    hide IsNearestTiesToEven, HalfEven;
    HalfEvenIsTheNearest(amount * rate, paid);
    assert TargetAmount(amount, rate) == paid;
    assert ch.store(-Units(paid)) == -ch.store(Units(paid)) == -paid;
  }

  lemma ExchangeIsAnswered(b: Book, s: AccountId, t: AccountId, amount: real, sc: Currency, tc: Currency,
                           rate: Option<real>, key: Option<string>)
    ensures var o := Submit(b, Exchange(s, t, amount, sc, tc, rate, key)).1;
            o.Accepted? <==>
              && sc != tc && 0.0 < amount && rate.Some? && IsIn(b.chart, s, sc) && IsIn(b.chart, t, tc)
              && (key.Some? ==> key.value !in b.keys) && amount <= Balance(b.entries, s) as real
    ensures Submit(b, Exchange(s, t, amount, sc, tc, rate, key)).1
         == if sc == tc || amount <= 0.0 then Refused(CurrencyMismatch)
            else if key.Some? && key.value != "" && key.value in b.keys then Existing(b.keys[key.value])
            else if rate.None? then Refused(CurrencyMismatch)
            else if s !in b.chart.accounts || t !in b.chart.accounts then Refused(AccountNotFound)
            else if !IsIn(b.chart, s, sc) || !IsIn(b.chart, t, tc) then Refused(CurrencyMismatch)
            else if Balance(b.entries, s) as real < amount then Refused(InsufficientFunds)
            else if key == Some("") && "" in b.keys then Refused(DuplicateKey)
            else Accepted(b.nextTxn)
    ensures var (b', o) := Submit(b, Exchange(s, t, amount, sc, tc, rate, key));
            !o.Accepted? ==> b' == b
  {
    hide Balance, AddEntries, Insert, Plan;
  }

  lemma ExchangeConcludes(b: Book, s: AccountId, t: AccountId, amount: real, sc: Currency, tc: Currency,
                          rate: Option<real>, key: Option<string>, recovers: bool)
    ensures Conclude(b, Exchange(s, t, amount, sc, tc, rate, key), recovers).1
         == if s !in b.chart.accounts || t !in b.chart.accounts then Refused(AccountNotFound)
            else if !IsIn(b.chart, s, sc) || !IsIn(b.chart, t, tc) then Refused(CurrencyMismatch)
            else if Balance(b.entries, s) as real < amount then Refused(InsufficientFunds)
            else if key.Some? && key.value in b.keys then
              if key.value != "" && recovers then Existing(b.keys[key.value]) else Refused(DuplicateKey)
            else Accepted(b.nextTxn)
    ensures var (b', o) := Conclude(b, Exchange(s, t, amount, sc, tc, rate, key), recovers);
            !o.Accepted? ==> b' == b
  {
    hide Balance, AddEntries, Insert, Plan;
  }

  /** What an exchange that goes through records, whether or not its key was looked up just before. */
  lemma ExchangeRecords(b: Book, s: AccountId, t: AccountId, amount: real, sc: Currency, tc: Currency, rate: real,
                        key: Option<string>, recovers: bool, paid: int)
    requires IsStorageRounding(b.chart.store) && IsNearestTiesToEven(paid, amount * rate)
    ensures var (b', o) := Conclude(b, Exchange(s, t, amount, sc, tc, Some(rate), key), recovers);
            o.Accepted? ==>
              Records(b, b', Txn(ExchangeTxn, Completed, key, None, None),
                      ExchangePosts(b.chart, s, t, amount, sc, tc, paid))
    ensures var (b', o) := Submit(b, Exchange(s, t, amount, sc, tc, Some(rate), key));
            o.Accepted? ==>
              Records(b, b', Txn(ExchangeTxn, Completed, key, None, None),
                      ExchangePosts(b.chart, s, t, amount, sc, tc, paid))
  {
    hide Balance, AddEntries, Insert, Records, Plan, IsNearestTiesToEven, IsStorageRounding, ExchangePosts;
    PlanPaysNearest(b.chart, s, t, amount, sc, tc, rate, key, paid);
    InsertedRecords(b, Txn(ExchangeTxn, Completed, key, None, None),
                    ExchangePosts(b.chart, s, t, amount, sc, tc, paid));
  }

  /** The credit posting of an accepted exchange's group pays the target account the unit nearest to
      amount times rate, the even one of two; the pool's debit is its opposite. */
  lemma ExchangePaysNearest(b: Book, s: AccountId, t: AccountId, amount: real, sc: Currency, tc: Currency, rate: real,
                            key: Option<string>)
    requires BookOk(b) && 0.0 < rate && Submit(b, Exchange(s, t, amount, sc, tc, Some(rate), key)).1.Accepted?
    ensures var (b', o) := Submit(b, Exchange(s, t, amount, sc, tc, Some(rate), key));
            var g := Group(b'.entries, o.id);
            && |g| == 4
            && g[0] == Posting(s, b.chart.store(-amount), Debit, sc)
            && g[1] == Posting(b.chart.clearing(sc), b.chart.store(amount), Credit, sc)
            && g[2] == Posting(b.chart.clearing(tc), -g[3].amount, Debit, tc)
            && g[3].account == t && g[3].side == Credit && g[3].currency == tc
            && IsNearestTiesToEven(g[3].amount, amount * rate)
  {
    hide EntriesOk, KeysOk, TxnsOk, FundsOk, ZeroSum, Submit, Conclude, Plan, AddEntries, Insert, Group;
    hide IsNearestTiesToEven, HalfEven, IsStorageRounding;
    var r := Exchange(s, t, amount, sc, tc, Some(rate), key);
    var paid := HalfEven(amount * rate);
    HalfEvenIsTheNearest(amount * rate, paid);
    PlanPaysNearest(b.chart, s, t, amount, sc, tc, rate, key, paid);
    SubmitIsInsert(b, r);
    NoEntriesYet(b);
    InsertKeepsGroup(b, RowOf(r));
    AddEntriesGroups(Insert(b, RowOf(r)), b.nextTxn, Plan(b.chart, r));
  }

  lemma InsertKeepsGroup(b: Book, row: Txn)
    ensures Insert(b, row).entries == b.entries
  {
  }

  /* ---------- The second phase of a deposit ---------- */

  /** Transaction `t` has been given a new row, and nothing else has changed but the entries. */
  ghost predicate Rewrites(b: Book, b': Book, t: TxnId, row: Txn, posts: seq<Posting>) {
    && |b'.entries| == |b.entries| + |posts| && b'.entries[..|b.entries|] == b.entries
    && (forall i | 0 <= i < |posts| ::
          b'.entries[|b.entries| + i] == Entry(b.nextEntry + i, t, Success, posts[i]))
    && b'.txns == b.txns[t := row] && b'.keys == b.keys && b'.chart == b.chart
    && b'.nextEntry == b.nextEntry + |posts| && b'.nextTxn == b.nextTxn && b'.nextAccount == b.nextAccount
  }

  lemma ConfirmIsAnswered(b: Book, t: TxnId, reference: string)
    ensures Confirm(b, t, reference).1
         == if t !in b.txns || b.txns[t].status != Pending || b.txns[t].intent.None? then Refused(InvalidState)
            else if b.txns[t].intent.value.account == 0 then Refused(InvalidState)
            else if b.txns[t].intent.value.amount <= 0.0 then Refused(InvalidState)
            else if b.txns[t].intent.value.account !in b.chart.accounts then Refused(AccountNotFound)
            else Accepted(t)
    ensures var (b', o) := Confirm(b, t, reference);
            if !o.Accepted? then b' == b
            else
              var i := b.txns[t].intent.value;
              Rewrites(b, b', t, b.txns[t].(status := Completed, reference := Some(reference)),
                       [Posting(b.chart.clearing(i.currency), b.chart.store(-i.amount), Debit, i.currency),
                        Posting(i.account, b.chart.store(i.amount), Credit, i.currency)])
  {
  }

  lemma FailIsAnswered(b: Book, t: TxnId)
    ensures Fail(b, t).1 == if t in b.txns && b.txns[t].status == Pending then Accepted(t) else Refused(InvalidState)
    ensures if t in b.txns && b.txns[t].status == Pending then
              Rewrites(b, Fail(b, t).0, t, b.txns[t].(status := Failed), [])
            else Fail(b, t).0 == b
  {
  }

  lemma AcknowledgeIsAnswered(b: Book, t: TxnId, payment: string)
    ensures Acknowledge(b, t, payment).1 == if t in b.txns then Accepted(t) else Refused(InvalidState)
    ensures if t in b.txns then
              Rewrites(b, Acknowledge(b, t, payment).0, t, b.txns[t].(reference := Some(payment)), [])
            else Acknowledge(b, t, payment).0 == b
  {
  }

  /** The transaction that a webhook names, if it can be decided: it exists and is PENDING. */
  predicate NamesPending(b: Book, m: Webhook) {
    && m.reference.Number? && 0 <= m.reference.n
    && m.reference.n in b.txns && b.txns[m.reference.n].status == Pending
  }

  /** The endpoint answers 200 if and only if the webhook says that a PENDING transaction has completed
      or failed. A failure then changes the status and nothing else; a success completes the deposit,
      stores the reference and credits what was recorded. */
  lemma WebhookIsAnswered(b: Book, m: Webhook)
    requires BookOk(b)
    ensures HandleWebhook(b, m).1 == 200 <==> !m.event.UnknownEvent? && NamesPending(b, m)
    ensures HandleWebhook(b, m).1
         == if m.reference.NotANumber? || m.event.UnknownEvent? then 400
            else if NamesPending(b, m) then 200 else 422
    ensures HandleWebhook(b, m).1 != 200 ==> HandleWebhook(b, m).0 == b
    ensures m.event == DepositFailed && NamesPending(b, m) ==>
              Rewrites(b, HandleWebhook(b, m).0, m.reference.n, b.txns[m.reference.n].(status := Failed), [])
    ensures m.event == DepositCompleted && NamesPending(b, m) ==>
              && b.txns[m.reference.n].intent.Some?
              && var i := b.txns[m.reference.n].intent.value;
                 Rewrites(b, HandleWebhook(b, m).0, m.reference.n,
                          b.txns[m.reference.n].(status := Completed, reference := Some(m.provider)),
                          [Posting(b.chart.clearing(i.currency), b.chart.store(-i.amount), Debit, i.currency),
                           Posting(i.account, b.chart.store(i.amount), Credit, i.currency)])
  {
    hide BookOk, Confirm, Fail, Rewrites;
    if m.reference.Number? && 0 <= m.reference.n {
      ConfirmIsAnswered(b, m.reference.n, m.provider);
      FailIsAnswered(b, m.reference.n);
      if NamesPending(b, m) {
        PendingIsComplete(b, m.reference.n);
      }
    }
  }

  lemma PendingIsComplete(b: Book, t: TxnId)
    requires BookOk(b) && t in b.txns && b.txns[t].status == Pending
    ensures b.txns[t].intent.Some?
    ensures b.txns[t].intent.value.account in b.chart.accounts && b.txns[t].intent.value.account != 0
    ensures 0.0 < b.txns[t].intent.value.amount
  {
    assert TxnOk(b, t);
  }

  /* ---------- Recovery ---------- */

  /** Recovery finds exactly the PENDING deposits without a reference that are older than the cutoff,
      and enqueues for each of them its own id, amount and currency. */
  lemma RecoveryFinds(b: Book, cutoff: nat, t: TxnId)
    requires BookOk(b)
    ensures t in Orphans(b, cutoff) <==>
              && t in b.txns && b.txns[t].status == Pending && b.txns[t].reference.None?
              && b.txns[t].intent.Some? && b.txns[t].intent.value.created < cutoff
    ensures t in Orphans(b, cutoff) ==>
              var i := b.txns[t].intent.value;
              Job(t, i.amount, i.currency) in JobsOf(b, Orphans(b, cutoff))
  {
    if t in b.txns {
      assert TxnOk(b, t);
    }
    if t in Orphans(b, cutoff) {
      assert JobOf(b, t) in JobsOf(b, Orphans(b, cutoff));
    }
  }

  /* ---------- The provider ---------- */

  /** What the provider stores and sends: a payment is what the job asked for and PENDING; a webhook
      reports the outcome with the payment's own reference, amount and currency; a timer decides only
      a pending payment, a trigger any. */
  lemma ProviderActs(payments: map<string, Payment>, job: Job, id: string, failed: bool, provider: string)
    ensures CreatePayment(payments, job, id)
         == payments[id := Payment(job.txn, job.amount, job.currency, PaymentPending)]
    ensures id in payments ==>
              var p, status := payments[id], if failed then PaymentFailed else PaymentCompleted;
              && WebhookFor(p, failed, provider)
                 == Webhook(if failed then DepositFailed else DepositCompleted, Number(p.reference), provider,
                            p.amount, p.currency)
              && Override(payments, id, failed) == payments[id := p.(status := status)]
              && Settle(payments, id, failed)
                 == if p.status == PaymentPending then payments[id := p.(status := status)] else payments
  {
  }

  /* ---------- Accounts ---------- */

  /** A user gets an account in a currency if and only if they have none in it: one account, theirs, in
      that currency, no system account, under a new id, everything else staying as it is. */
  lemma OpeningIsAnswered(b: Book, owner: nat, cur: Currency)
    requires AccountsOk(b)
    ensures var o := Open(b, owner, cur).1;
            o.Accepted? <==>
              forall a | a in b.chart.accounts ::
                b.chart.accounts[a].owner != owner || b.chart.accounts[a].currency != cur
    ensures var (b', o) := Open(b, owner, cur);
            if o.Accepted? then
              && o == Accepted(b.nextAccount) && b.nextAccount !in b.chart.accounts
              && b'.chart.accounts == b.chart.accounts[b.nextAccount := Account(owner, cur, false)]
              && b'.chart.clearing == b.chart.clearing && b'.chart.store == b.chart.store
              && b'.nextAccount == b.nextAccount + 1
              && b'.(chart := b.chart, nextAccount := b.nextAccount) == b
            else o == Refused(Conflict) && b' == b
  {
  }
}
