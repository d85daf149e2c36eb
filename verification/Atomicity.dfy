/** What two steps that are taken as atomic elsewhere are worth when something comes in between:
    the reads of the snapshot job, and the status check of a confirmation. */
module Atomicity {
  import opened Example
  import opened Wrappers
  import opened Ledger
  import opened Sums
  import opened Books
  import opened Snapshots

  /* ---------- The snapshot job ---------- */

  /** The job's snapshot when its count, its newest entry and its sum are read from different
      states of the log. */
  function SplitSnapshot(base: Snapshot, counted: seq<Entry>, newest: seq<Entry>, summed: seq<Entry>): Snapshot {
    var a := base.account;
    Snapshot(a, Total(Select(summed, a, All)), |Select(counted, a, After(base.last))| + base.count,
             MaxId(Select(newest, a, All)))
  }

  /** The ids of an account grow along the log. */
  ghost predicate Growing(log: seq<Entry>, a: AccountId) {
    && (forall e | e in log :: 0 < e.id)
    && (forall i, j | 0 <= i < j < |log| && log[i].post.account == a && log[j].post.account == a ::
          log[i].id < log[j].id)
  }

  /** What the newest entry's id cuts off is what was there when it was read. */
  lemma NewestCutsThere(log: seq<Entry>, more: seq<Entry>, a: AccountId)
    requires Growing(log + more, a) && Select(log, a, All) != []
    ensures Select(log + more, a, UpTo(MaxId(Select(log, a, All)))) == Select(log, a, All)
    ensures IsMark(log + more, a, MaxId(Select(log, a, All)))
  {
    var last := MaxId(Select(log, a, All));
    MaxIdBounds(Select(log, a, All));
    SelectedRows(log, a, All);
    var newest :| newest in Select(log, a, All) && newest.id == last;
    var i :| 0 <= i < |log| && log[i] == newest;
    forall e | e in more ensures !Picks(e, a, UpTo(last)) {
      var j :| 0 <= j < |more| && more[j] == e;
      assert (log + more)[i] == newest && (log + more)[|log| + j] == e;
    }
    UntouchedSelect(log, more, a, UpTo(last));
    UpToMaxIsAll(log, a, last);
    assert newest in log + more;
  }

  /** The snapshot is exact if and only if no entry of the account was committed between the count
      and the reading of the newest entry, and those committed after that sum to zero. */
  lemma SplitSnapshotIsExact(base: Snapshot, log: seq<Entry>, between: seq<Entry>, after: seq<Entry>)
    requires Growing(log + between + after, base.account) && IsExact(log, base)
    requires Select(log + between, base.account, All) != []
    ensures IsExact(log + between + after, SplitSnapshot(base, log, log + between, log + between + after))
       <==> Select(between, base.account, All) == [] && Total(Select(after, base.account, All)) == 0
  {
    hide IsMark, MaxId, Growing;
    var a := base.account;
    NewestCutsThere(log + between, after, a);
    CutSplits(log, a, base.last);
    SelectConcat(log, between, a, All);
    SelectConcat(log + between, after, a, All);
    TotalConcat(Select(log + between, a, All), Select(after, a, All));
  }

  /** A ten-dollar credit that the job counts, and another one committed before it sums. */
  function Counted(): seq<Entry> {
    [Entry(1, 1, Success, Posting(6, 100000, Credit, USD))]
  }

  function Late(): seq<Entry> {
    [Entry(2, 2, Success, Posting(6, 100000, Credit, USD))]
  }

  /** A log on which the split job goes wrong: its snapshot is not exact, and a balance that starts
      from it counts the late credit twice. */
  lemma SplitSnapshotGoesWrong()
    ensures var base := Snapshot(6, 0, 0, 0);
            var s := SplitSnapshot(base, Counted(), Counted(), Counted() + Late());
            && Growing(Counted() + Late(), 6) && IsExact(Counted(), base)
            && s == Snapshot(6, 200000, 1, 1) && !IsExact(Counted() + Late(), s)
            && Balance(Counted() + Late(), 6) == 200000 && FastBalance(Counted() + Late(), [s], 6) == 300000
  {
    var log := Counted() + Late();
    assert log[..1] == Counted() && Counted()[..0] == [] && Late()[..0] == [];
    RowsOfOne(Counted()[0], All);
    RowsOfOne(Counted()[0], UpTo(0));
    RowsOfOne(Counted()[0], After(0));
    RowsOfOne(Counted()[0], UpTo(1));
    RowsOfOne(Counted()[0], After(1));
    RowsOfOne(Late()[0], All);
    RowsOfOne(Late()[0], UpTo(1));
    RowsOfOne(Late()[0], After(1));
    forall cut ensures Select(log, 6, cut) == Select(Counted(), 6, cut) + Select(Late(), 6, cut) {
      SelectConcat(Counted(), Late(), 6, cut);
    }
    TotalConcat(Counted(), Late());
  }

  lemma RowsOfOne(e: Entry, cut: Cut)
    ensures Select([e], e.post.account, cut) == if Picks(e, e.post.account, cut) then [e] else []
    ensures Total([e]) == e.post.amount && MaxId([e]) == e.id
  {
    assert [e][..0] == [];
  }

  /* ---------- The confirmation ---------- */

  /** What a confirmation does once its check has passed, whatever has happened since. */
  function PostConfirmation(b: Book, t: TxnId, reference: string): Book
    requires t in b.txns && b.txns[t].intent.Some?
  {
    AddEntries(Completing(b, t, reference), t, PlanOf(b, t))
  }

  lemma ConfirmationPosts(b: Book, t: TxnId, reference: string)
    requires BookOk(b) && IsPending(b, t)
    ensures b.txns[t].intent.Some? && Confirm(b, t, reference) == (PostConfirmation(b, t, reference), Accepted(t))
  {
    assert TxnOk(b, t);
  }

  /** A confirmation whose check passed before other operations ran keeps what they decided -- the
      final statuses and the entries of decided deposits -- if and only if the deposit is still
      PENDING when it posts, and then it is the atomic confirmation. Otherwise a FAILED deposit is
      credited after all, and a COMPLETED one a second time. */
  lemma LateConfirmation(b: Book, t: TxnId, reference: string, ops: seq<Op>)
    requires BookOk(b) && IsPending(b, t) && forall op | op in ops :: OpOk(op)
    ensures var now := Run(b, ops);
            && t in now.txns && now.txns[t].intent == b.txns[t].intent && b.txns[t].intent.Some?
            && (Extends(now, PostConfirmation(now, t, reference)) <==> IsPending(now, t))
            && (IsPending(now, t) ==> PostConfirmation(now, t, reference) == Confirm(now, t, reference).0)
            && Group(PostConfirmation(now, t, reference).entries, t)
               == if now.txns[t].status == Completed then PlanOf(now, t) + PlanOf(now, t) else PlanOf(now, t)
  {
    hide AddEntries, BookOk, Extends, Run, IsPending;
    var now := Run(b, ops);
    AfterTheCheck(b, t, ops);
    AddEntriesGroups(Completing(now, t, reference), t, PlanOf(now, t));
    assert Group(now.entries, t) + PlanOf(now, t) == PlanOf(now, t) || now.txns[t].status == Completed;
    if IsPending(now, t) {
      ConfirmationPosts(now, t, reference);
      ConfirmExtends(now, t, reference);
    } else {
      DecidedIsOverwritten(now, t, reference);
    }
  }

  /** What may have become of a deposit since it was seen to be PENDING. */
  lemma AfterTheCheck(b: Book, t: TxnId, ops: seq<Op>)
    requires BookOk(b) && IsPending(b, t) && forall op | op in ops :: OpOk(op)
    ensures var now := Run(b, ops);
            && BookOk(now) && t in now.txns && now.txns[t].intent == b.txns[t].intent && b.txns[t].intent.Some?
            && (IsPending(now, t) <==> now.txns[t].status == Pending)
            && Group(now.entries, t) == if now.txns[t].status == Completed then PlanOf(now, t) else []
  {
    hide Run, TxnOk, AccountsOk, EntriesOk, KeysOk, FundsOk, ZeroSum, Extends, TxnsOk;
    RunKeeps(b, ops);
    RunExtends(b, ops);
    OneTransaction(b, Run(b, ops), t);
  }

  lemma OneTransaction(b: Book, now: Book, t: TxnId)
    requires TxnsOk(b) && TxnsOk(now) && Extends(b, now) && IsPending(b, t)
    ensures t in now.txns && now.txns[t].intent == b.txns[t].intent && b.txns[t].intent.Some?
    ensures Group(now.entries, t) == if now.txns[t].status == Completed then PlanOf(now, t) else []
  {
    assert TxnOk(b, t) && KeepsTxn(b, now, t) && TxnOk(now, t);
  }

  function PlanOf(b: Book, t: TxnId): seq<Posting>
    requires t in b.txns && b.txns[t].intent.Some?
  {
    var i := b.txns[t].intent.value;
    IntentPlan(b.chart, i)
  }

  /** The book after a user has asked for a deposit of ten dollars. */
  function Asked(): Book {
    Submit(EmptyBook(Ch(), 8), Initiation(6, 100000.0, USD, None, 0)).0
  }

  /** Two confirmations of one deposit that both pass the check before either posts credit the user
      twice: twenty dollars for ten. */
  lemma TwoConfirmationsCreditTwice()
    ensures BookOk(Asked()) && IsPending(Asked(), 1)
    ensures var now := Run(Asked(), [ConfirmOp(1, "first")]);
            && 1 in now.txns && now.txns[1].status == Completed && now.txns[1].intent.Some?
            && Balance(now.entries, 6) == 100000
            && Balance(PostConfirmation(now, 1, "second").entries, 6) == 200000
  {
    hide BookOk, AddEntries, Submit, Conclude, Confirm, Balance;
    AskedIsOk();
    assert [ConfirmOp(1, "first")][..0] == [];
    ConfirmationPosts(Asked(), 1, "first");
    var now := PostConfirmation(Asked(), 1, "first");
    assert Run(Asked(), []) == Asked() && Run(Asked(), [ConfirmOp(1, "first")]) == now;
    PostingCredits(Asked(), 1, "first");
    PostingCredits(now, 1, "second");
  }

  lemma AskedIsOk()
    ensures BookOk(Asked()) && IsPending(Asked(), 1) && Balance(Asked().entries, 6) == 0
    ensures Asked().chart == Ch() && Asked().txns[1].intent == Some(Intent(6, 100000.0, USD, 0))
  {
    hide BookOk, AccountsOk;
    var empty, r := EmptyBook(Ch(), 8), Initiation(6, 100000.0, USD, None, 0);
    ExampleIsOk();
    EmptyBookOk(Ch(), 8);
    assert Submit(empty, r).1 == Accepted(1);
    InitiateKeeps(empty, r);
  }

  lemma PostingCredits(b: Book, t: TxnId, reference: string)
    requires t in b.txns && b.chart == Ch() && b.txns[t].intent == Some(Intent(6, 100000.0, USD, 0))
    ensures Balance(PostConfirmation(b, t, reference).entries, 6) == Balance(b.entries, 6) + 100000
    ensures t in PostConfirmation(b, t, reference).txns && PostConfirmation(b, t, reference).chart == Ch()
    ensures PostConfirmation(b, t, reference).txns[t] == b.txns[t].(status := Completed, reference := Some(reference))
  {
    TenDollars();
    var ps := DepositPlan(Ch(), 6, 100000.0, USD);
    AddEntriesBalance(Completing(b, t, reference), t, ps, 6);
    SumPair(ps[0], ps[1], OnAccount(6));
  }

  lemma DecidedIsOverwritten(b: Book, t: TxnId, reference: string)
    requires t in b.txns && b.txns[t].intent.Some? && b.txns[t].status != Pending
    ensures !Extends(b, PostConfirmation(b, t, reference))
  {
    var plan := PlanOf(b, t);
    AddEntriesGroups(Completing(b, t, reference), t, plan);
    assert |Group(b.entries, t) + plan| == |Group(b.entries, t)| + 2;
    assert !KeepsTxn(b, PostConfirmation(b, t, reference), t);
  }
}
