/** Every interleaving of writers answers its callers as a run of the same requests one at a
    time would, in the order in which the answers were decided. */
module Serializability {
  import opened Ledger
  import opened Sums
  import opened Plans
  import opened Snapshots
  import opened Writers
  import opened WritersSafety
  import B = Books

  function Submits(history: seq<Event>): seq<Op> {
    seq(|history|, i requires 0 <= i < |history| => SubmitOp(history[i].req))
  }

  /** The book that results from submitting the answered requests one at a time. */
  function Serial(ch: Chart, nextAccount: nat, history: seq<Event>): Book {
    Run(EmptyBook(ch, nextAccount), Submits(history))
  }

  /** The interleaved tables and the serial book hold the same postings in the same order, and
      the same idempotency keys. */
  ghost predicate Matches(w: World, b: Book) {
    && b.chart == w.chart
    && Posts(b.entries) == Posts(w.log)
    && b.keys.Keys == w.used.Keys
  }

  /** The request's key is already committed when its answer is decided. */
  predicate KeyTaken(b: Book, r: Request) {
    ArgumentError(r).None? && LooksUp(r.key) && r.key.value in b.keys
  }

  predicate SameAnswer(outcome: Outcome, answer: Answer) {
    match answer
    case Committed => outcome.Accepted?
    case AlreadyThere(_) => outcome.Existing?
    case Rejected(error) => outcome == Refused(error)
    case Aborted => false
  }

  /** The serial run answers alike, except that it finds the existing transaction where the
      interleaved writer was refused although its key had been committed in the meantime. */
  ghost predicate EventOk(b: Book, e: Event) {
    if e.answer.Rejected? && KeyTaken(b, e.req) then Submit(b, e.req).1.Existing?
    else SameAnswer(Submit(b, e.req).1, e.answer)
  }

  ghost predicate Serializes(w: World, nextAccount: nat) {
    && B.AccountsOk(EmptyBook(w.chart, nextAccount))
    && (forall e | e in w.history :: RateOk(e.req))
    && Matches(w, Serial(w.chart, nextAccount, w.history))
    && (forall k | 0 <= k < |w.history| :: EventOk(Serial(w.chart, nextAccount, w.history[..k]), w.history[k]))
  }

  lemma SerialGrows(ch: Chart, nextAccount: nat, history: seq<Event>, e: Event)
    ensures Serial(ch, nextAccount, history + [e]) == Submit(Serial(ch, nextAccount, history), e.req).0
  {
    var ops := Submits(history + [e]);
    assert ops == Submits(history) + [SubmitOp(e.req)];
    assert ops[..|ops| - 1] == Submits(history);
  }

  lemma SameBalances(w: World, b: Book, a: AccountId)
    requires Matches(w, b)
    ensures Balance(w.log, a) == Balance(b.entries, a)
  {
    BalanceIsSum(w.log, a);
    BalanceIsSum(b.entries, a);
  }

  /** Adding one answered event. */
  lemma EventAdded(w: World, w': World, nextAccount: nat, e: Event)
    requires Serializes(w, nextAccount) && RateOk(e.req)
    requires w'.chart == w.chart && w'.history == w.history + [e]
    requires EventOk(Serial(w.chart, nextAccount, w.history), e)
    requires Matches(w', Submit(Serial(w.chart, nextAccount, w.history), e.req).0)
    ensures Serializes(w', nextAccount)
  {
    SerialGrows(w.chart, nextAccount, w.history, e);
    forall k | 0 <= k < |w'.history| ensures EventOk(Serial(w'.chart, nextAccount, w'.history[..k]), w'.history[k]) {
      if k < |w.history| {
        assert w'.history[..k] == w.history[..k];
      } else {
        assert w'.history[..k] == w.history;
      }
    }
  }

  /** A reply that matches what the serial book would answer now. */
  lemma ReplySerializes(w: World, nextAccount: nat, i: nat, answer: Answer)
    requires Serializes(w, nextAccount) && i < |w.writers| && RateOk(w.writers[i].req) && answer != Committed
    requires EventOk(Serial(w.chart, nextAccount, w.history), Event(i, w.writers[i].req, answer))
    ensures Serializes(Reply(w, i, answer), nextAccount)
  {
    hide EventOk, Serial, Submit, Posts;
    UncommittedLeavesBook(Serial(w.chart, nextAccount, w.history), Event(i, w.writers[i].req, answer));
    EventAdded(w, Reply(w, i, answer), nextAccount, Event(i, w.writers[i].req, answer));
  }

  /** A step that answers nobody and commits nothing. */
  lemma SilentStep(w: World, w': World, nextAccount: nat)
    requires Serializes(w, nextAccount)
    requires w'.chart == w.chart && w'.log == w.log && w'.used == w.used && w'.history == w.history
    ensures Serializes(w', nextAccount)
  {
  }

  lemma AddEntriesPosts(b: Book, t: TxnId, ps: seq<Posting>)
    ensures Posts(AddEntries(b, t, ps).entries) == Posts(b.entries) + ps
  {
    StampRows(ps, t, b.nextEntry);
    PostsConcat(b.entries, Stamp(ps, t, b.nextEntry));
  }

  lemma SubmitAppends(b: Book, r: Request)
    requires Submit(b, r).1.Accepted?
    ensures Posts(Submit(b, r).0.entries) == Posts(b.entries) + Plan(b.chart, r)
    ensures Submit(b, r).0.keys.Keys == b.keys.Keys + if r.key.Some? then {r.key.value} else {}
    ensures Submit(b, r).0.chart == b.chart
  {
    hide Submit, Conclude, Posts, Plan;
    B.SubmitIsInsert(b, r);
    AddEntriesPosts(Insert(b, RowOf(r)), b.nextTxn, Plan(b.chart, r));
  }

  lemma CommitAnswers(w: World, b: Book, i: nat)
    requires Matches(w, b) && i < |w.writers| && Posts(w.writers[i].pending) == Plan(w.chart, w.writers[i].req)
    requires Admissible(w.chart, w.writers[i].req) && Covered(w.log, w.writers[i].req)
    requires w.writers[i].req.key.Some? ==> w.writers[i].req.key.value !in w.used
    ensures Submit(b, w.writers[i].req).1.Accepted?
    ensures Matches(Commit(w, i), Submit(b, w.writers[i].req).0)
  {
    var r := w.writers[i].req;
    if ChecksFunds(r) {
      SameBalances(w, b, r.source);
    }
    SubmitAppends(b, r);
    PostsConcat(w.log, w.writers[i].pending);
  }

  lemma CommitSerializes(w: World, nextAccount: nat, i: nat)
    requires Safe(w) && Serializes(w, nextAccount) && ReadyToCommit(w, i)
    ensures Serializes(Commit(w, i), nextAccount)
  {
    assert WriterOk(w.chart, w.log, w.used, w.nextId, i, w.writers[i]);
    PendingRows(w, i);
    CommitAnswers(w, Serial(w.chart, nextAccount, w.history), i);
    EventAdded(w, Commit(w, i), nextAccount, Event(i, w.writers[i].req, Committed));
  }

  lemma ReadySerializes(w: World, nextAccount: nat, i: nat)
    requires Serializes(w, nextAccount) && i < |w.writers| && RateOk(w.writers[i].req)
    ensures Serializes(StepReady(w, i), nextAccount)
  {
    hide Serial, AddEntries, Plan, Posts, LateError, Affords, Balance, LockList;
    var w' := StepReady(w, i);
    if w'.writers[i].phase.Done? {
      ReplySerializes(w, nextAccount, i, w'.writers[i].phase.answer);
    } else {
      SilentStep(w, w', nextAccount);
    }
  }

  lemma LockingSerializes(w: World, nextAccount: nat, i: nat, n: nat)
    requires Serializes(w, nextAccount) && i < |w.writers| && StepLocking(w, i, n).Some?
    requires RateOk(w.writers[i].req) && w.writers[i].phase == Locking(n)
    requires ArgumentError(w.writers[i].req).None? && EarlyError(w.chart, w.writers[i].req).None?
    ensures Serializes(StepLocking(w, i, n).value, nextAccount)
  {
    hide Serial, Posts, AddEntries, Plan, LockList, LockedByOther, Base;
    var w' := StepLocking(w, i, n).value;
    if w'.writers[i].phase.Done? {
      ReplySerializes(w, nextAccount, i, w'.writers[i].phase.answer);
    } else {
      SilentStep(w, w', nextAccount);
    }
  }

  lemma UnfundedAnswers(w: World, b: Book, i: nat)
    requires Matches(w, b) && i < |w.writers| && Admissible(w.chart, w.writers[i].req)
    requires ChecksFunds(w.writers[i].req) && !Affords(Balance(w.log, w.writers[i].req.source), w.writers[i].req)
    ensures EventOk(b, Event(i, w.writers[i].req, Rejected(InsufficientFunds)))
  {
    hide AddEntries, Insert, Plan, Balance, Affords;
    SameBalances(w, b, w.writers[i].req.source);
  }

  lemma CuttingSerializes(w: World, nextAccount: nat, i: nat, balance: int, last: nat)
    requires Serializes(w, nextAccount) && i < |w.writers| && w.writers[i].phase == Cutting(balance, last)
    requires RateOk(w.writers[i].req) && Admissible(w.chart, w.writers[i].req) && ChecksFunds(w.writers[i].req)
    requires CutOk(w.log, w.writers[i].req.source, balance, last)
    ensures Serializes(StepCutting(w, i, balance, last), nextAccount)
  {
    hide Admissible, EventOk, Matches, IsMark, Serial;
    var r := w.writers[i].req;
    CutSplits(w.log, r.source, last);
    if !Affords(Balance(w.log, r.source), r) {
      UnfundedAnswers(w, Serial(w.chart, nextAccount, w.history), i);
      ReplySerializes(w, nextAccount, i, Rejected(InsufficientFunds));
    } else {
      SilentStep(w, StepCutting(w, i, balance, last), nextAccount);
    }
  }

  lemma TakenKeyAnswers(w: World, b: Book, r: Request)
    requires Matches(w, b) && Admissible(w.chart, r) && Covered(w.log, r) && r.key.Some? && r.key.value in w.used
    ensures LooksUp(r.key) ==> Submit(b, r).1.Existing?
    ensures !LooksUp(r.key) ==> Submit(b, r).1 == Refused(DuplicateKey)
  {
    if ChecksFunds(r) {
      SameBalances(w, b, r.source);
    }
  }

  lemma FundedSerializes(w: World, nextAccount: nat, i: nat)
    requires Serializes(w, nextAccount) && i < |w.writers| && StepFunded(w, i).Some?
    requires WriterOk(w.chart, w.log, w.used, w.nextId, i, w.writers[i]) && w.writers[i].phase == Funded
    ensures Serializes(StepFunded(w, i).value, nextAccount)
  {
    var r := w.writers[i].req;
    if r.key.Some? && r.key.value in w.used {
      TakenKeyAnswers(w, Serial(w.chart, nextAccount, w.history), r);
      var answer := if LooksUp(r.key) && w.recovers then AlreadyThere(w.used[r.key.value]) else Rejected(DuplicateKey);
      ReplySerializes(w, nextAccount, i, answer);
    } else {
      SilentStep(w, Enter(w, i, Writing), nextAccount);
    }
  }

  lemma MoveSerializes(w: World, nextAccount: nat, i: nat)
    requires Safe(w) && Serializes(w, nextAccount) && i < |w.writers| && Step(w, i).Some?
    ensures Serializes(Step(w, i).value, nextAccount)
  {
    var p := w.writers[i];
    assert WriterOk(w.chart, w.log, w.used, w.nextId, i, p);
    match p.phase
    case Ready => ReadySerializes(w, nextAccount, i);
    case Locking(n) => LockingSerializes(w, nextAccount, i, n);
    case Cutting(balance, last) => CuttingSerializes(w, nextAccount, i, balance, last);
    case Funded => FundedSerializes(w, nextAccount, i);
    case Writing =>
      if |p.pending| < |Plan(w.chart, p.req)| {
        SilentStep(w, WriteOne(w, i), nextAccount);
      } else {
        CommitSerializes(w, nextAccount, i);
      }
  }

  lemma OthersAreSilent(w: World, l: Label)
    requires Enabled(w, l) && !l.Move?
    ensures Fire(w, l).chart == w.chart && Fire(w, l).log == w.log
    ensures Fire(w, l).used == w.used && Fire(w, l).history == w.history
  {
  }

  lemma FireSerializes(w: World, nextAccount: nat, l: Label)
    requires Safe(w) && Serializes(w, nextAccount) && Enabled(w, l)
    ensures Serializes(Fire(w, l), nextAccount)
  {
    if l.Move? {
      MoveSerializes(w, nextAccount, l.writer);
    } else {
      OthersAreSilent(w, l);
      SilentStep(w, Fire(w, l), nextAccount);
    }
  }

  lemma {:induction false} PlaySerializes(w: World, nextAccount: nat, schedule: seq<Label>)
    requires Safe(w) && Serializes(w, nextAccount) && Fits(w, schedule)
    ensures Serializes(Play(w, schedule), nextAccount)
    decreases |schedule|
  {
    if schedule != [] {
      FireKeeps(w, schedule[0]);
      FireSerializes(w, nextAccount, schedule[0]);
      PlaySerializes(Fire(w, schedule[0]), nextAccount, schedule[1..]);
    }
  }

  lemma InitialSerializes(w: World, nextAccount: nat)
    requires Initial(w) && B.AccountsOk(EmptyBook(w.chart, nextAccount))
    ensures Serializes(w, nextAccount)
  {
    assert Submits([]) == [];
  }

  /* ---------- The main results ---------- */

  function CommittedOnly(history: seq<Event>): seq<Event> {
    if history == [] then []
    else CommittedOnly(history[..|history| - 1])
         + if history[|history| - 1].answer == Committed then [history[|history| - 1]] else []
  }

  lemma UncommittedLeavesBook(b: Book, e: Event)
    requires EventOk(b, e) && e.answer != Committed
    ensures Submit(b, e.req).0 == b
  {
  }

  /** Requests that were not committed leave the serial book alone. */
  lemma {:induction false} OnlyCommitsCount(ch: Chart, nextAccount: nat, history: seq<Event>)
    requires forall k | 0 <= k < |history| :: EventOk(Serial(ch, nextAccount, history[..k]), history[k])
    ensures Serial(ch, nextAccount, CommittedOnly(history)) == Serial(ch, nextAccount, history)
  {
    hide Serial, EventOk, Submit;
    if history != [] {
      var init, e := history[..|history| - 1], history[|history| - 1];
      forall k | 0 <= k < |init| ensures EventOk(Serial(ch, nextAccount, init[..k]), init[k]) {
        assert init[..k] == history[..k];
      }
      OnlyCommitsCount(ch, nextAccount, init);
      assert history == init + [e];
      SerialGrows(ch, nextAccount, init, e);
      SerialGrows(ch, nextAccount, CommittedOnly(init), e);
      assert EventOk(Serial(ch, nextAccount, init), e);
      if e.answer != Committed {
        UncommittedLeavesBook(Serial(ch, nextAccount, init), e);
        assert CommittedOnly(history) == CommittedOnly(init);
      }
    } else {
      assert CommittedOnly(history) == history;
    }
  }

  /** The rows of one account, in id order. */
  ghost predicate InIdOrder(rows: seq<Entry>) {
    forall i, j | 0 <= i < j < |rows| :: rows[i].id < rows[j].id
  }

  lemma {:induction false} AccountInIdOrder(log: seq<Entry>, a: AccountId)
    requires forall i, j | 0 <= i < j < |log| :: log[i].post.account == log[j].post.account ==> log[i].id < log[j].id
    ensures InIdOrder(Select(log, a, All))
  {
    if log != [] {
      var init, e := log[..|log| - 1], log[|log| - 1];
      AccountInIdOrder(init, a);
      SelectedRows(init, a, All);
      var rows := Select(init, a, All);
      forall i | 0 <= i < |rows| && Picks(e, a, All) ensures rows[i].id < e.id {
        assert rows[i] in rows;
        var k :| 0 <= k < |init| && init[k] == rows[i];
      }
    }
  }

  function PostsOn(ps: seq<Posting>, a: AccountId): seq<Posting> {
    if ps == [] then []
    else PostsOn(ps[..|ps| - 1], a) + if ps[|ps| - 1].account == a then [ps[|ps| - 1]] else []
  }

  lemma PostsOnAppends(ps: seq<Posting>, p: Posting, a: AccountId)
    ensures PostsOn(ps + [p], a) == PostsOn(ps, a) + if p.account == a then [p] else []
  {
    assert (ps + [p])[..|ps + [p]| - 1] == ps;
  }

  lemma {:induction false} SelectShowsPosts(log: seq<Entry>, a: AccountId)
    ensures Posts(Select(log, a, All)) == PostsOn(Posts(log), a)
  {
    if log != [] {
      var init, e := log[..|log| - 1], log[|log| - 1];
      SelectShowsPosts(init, a);
      if e.status == Success {
        PostsOnAppends(Posts(init), e.post, a);
        assert Posts(log) == Posts(init) + [e.post];
      } else {
        assert Posts(log) == Posts(init);
      }
      if Picks(e, a, All) {
        PostsConcat(Select(init, a, All), [e]);
        assert [e][..0] == [] && Posts([e]) == [e.post];
        assert Select(log, a, All) == Select(init, a, All) + [e];
      } else {
        assert Select(log, a, All) == Select(init, a, All);
      }
    }
  }

  lemma SameAccounts(w: World, b: Book, a: AccountId)
    requires LogOk(w) && Matches(w, b)
    ensures InIdOrder(Select(w.log, a, All))
    ensures Posts(Select(w.log, a, All)) == Posts(Select(b.entries, a, All))
  {
    hide Posts, Select, InIdOrder, IsTyped;
    AccountInIdOrder(w.log, a);
    SelectShowsPosts(w.log, a);
    SelectShowsPosts(b.entries, a);
  }

  lemma CommittedIsAccepted(ch: Chart, nextAccount: nat, history: seq<Event>, k: nat)
    requires k < |history| && history[k].answer == Committed
    requires forall j | 0 <= j < |history| :: EventOk(Serial(ch, nextAccount, history[..j]), history[j])
    ensures Submit(Serial(ch, nextAccount, CommittedOnly(history[..k])), history[k].req).1.Accepted?
  {
    hide Serial, Submit;
    var before := history[..k];
    forall j | 0 <= j < |before| ensures EventOk(Serial(ch, nextAccount, before[..j]), before[j]) {
      assert before[..j] == history[..j];
    }
    OnlyCommitsCount(ch, nextAccount, before);
    assert EventOk(Serial(ch, nextAccount, before), history[k]);
  }

  /** Serializability. Whatever the schedule, running the committed requests one at a time in
      commit order accepts every one of them, and gives every account the same entries in id
      order. */
  lemma Serializable(w: World, nextAccount: nat, schedule: seq<Label>)
    requires Initial(w) && B.AccountsOk(EmptyBook(w.chart, nextAccount)) && Fits(w, schedule)
    ensures var end := Play(w, schedule);
            var book := Serial(end.chart, nextAccount, CommittedOnly(end.history));
            forall a :: InIdOrder(Select(end.log, a, All))
                        && Posts(Select(end.log, a, All)) == Posts(Select(book.entries, a, All))
    ensures var end := Play(w, schedule);
            forall k | 0 <= k < |end.history| && end.history[k].answer == Committed ::
              Submit(Serial(end.chart, nextAccount, CommittedOnly(end.history[..k])), end.history[k].req).1.Accepted?
  {
    hide EventOk, Matches, Submit, Serial, CommittedOnly;
    hide ChartOk, LogOk, WritersOk, Exclusive, UsedOk, SnapsOk, ReadersOk, FundsOk;
    InitialIsSafe(w);
    InitialSerializes(w, nextAccount);
    PlayKeeps(w, schedule);
    PlaySerializes(w, nextAccount, schedule);
    var end := Play(w, schedule);
    var book := Serial(end.chart, nextAccount, end.history);
    OnlyCommitsCount(end.chart, nextAccount, end.history);
    forall a
      ensures InIdOrder(Select(end.log, a, All))
      ensures Posts(Select(end.log, a, All)) == Posts(Select(book.entries, a, All))
    {
      SameAccounts(end, book, a);
    }
    forall k | 0 <= k < |end.history| && end.history[k].answer == Committed
      ensures Submit(Serial(end.chart, nextAccount, CommittedOnly(end.history[..k])), end.history[k].req).1.Accepted?
    {
      CommittedIsAccepted(end.chart, nextAccount, end.history, k);
    }
  }

  /* ---------- Which answers are serial ---------- */

  /** A writer past its key lookup whose key has been committed since, and whom something else than
      the key stops: a check under the locks, the funds check, or a session that does not survive
      the refused insert. All of it can be told before the writer's step. */
  predicate RefusedInRace(w: World, i: nat)
    requires i < |w.writers|
  {
    var r := w.writers[i].req;
    && !w.writers[i].phase.Ready?
    && LooksUp(r.key) && r.key.value in w.used
    && (LateError(w.chart, r).Some? || (ChecksFunds(r) && !Affords(Balance(w.log, r.source), r)) || !w.recovers)
  }

  /** The next step of the writer decides its answer. */
  predicate Answers(w: World, i: nat) {
    i < |w.writers| && Step(w, i).Some? && Step(w, i).value.writers[i].phase.Done?
  }

  function AnswerOf(w: World, i: nat): Answer
    requires Answers(w, i)
  {
    Step(w, i).value.writers[i].phase.answer
  }

  ghost predicate SerialUnlessRaced(w: World, b: Book, i: nat)
    requires Answers(w, i)
  {
    SameAnswer(Submit(b, w.writers[i].req).1, AnswerOf(w, i)) <==> !RefusedInRace(w, i)
  }

  lemma ReadyAnswers(w: World, b: Book, i: nat)
    requires Matches(w, b) && Answers(w, i) && w.writers[i].phase == Ready
    ensures SerialUnlessRaced(w, b, i)
  {
    hide Posts, AddEntries, Plan, Balance, Affords;
  }

  lemma LockingAnswers(w: World, b: Book, i: nat, n: nat)
    requires Matches(w, b) && Answers(w, i) && w.writers[i].phase == Locking(n)
    requires ArgumentError(w.writers[i].req).None? && EarlyError(w.chart, w.writers[i].req).None?
    ensures SerialUnlessRaced(w, b, i)
  {
    hide Posts, AddEntries, Plan, Balance, Affords, LockList, LockedByOther, Base;
  }

  lemma CuttingAnswers(w: World, b: Book, i: nat, balance: int, last: nat)
    requires Matches(w, b) && Answers(w, i) && w.writers[i].phase == Cutting(balance, last)
    requires Admissible(w.chart, w.writers[i].req) && CutOk(w.log, w.writers[i].req.source, balance, last)
    ensures SerialUnlessRaced(w, b, i)
  {
    hide AddEntries, Plan, IsMark;
    var a := w.writers[i].req.source;
    CutSplits(w.log, a, last);
    SameBalances(w, b, a);
  }

  lemma FundedAnswers(w: World, b: Book, i: nat)
    requires Matches(w, b) && Answers(w, i) && w.writers[i].phase == Funded
    requires Admissible(w.chart, w.writers[i].req) && Covered(w.log, w.writers[i].req)
    ensures SerialUnlessRaced(w, b, i)
  {
    hide AddEntries, Plan, Posts, KeyHeldByOther, Submit;
    TakenKeyAnswers(w, b, w.writers[i].req);
  }

  lemma WritingAnswers(w: World, b: Book, i: nat)
    requires Safe(w) && Matches(w, b) && Answers(w, i) && w.writers[i].phase == Writing
    ensures SerialUnlessRaced(w, b, i)
  {
    hide LogOk, WritersOk, Exclusive, UsedOk, SnapsOk, ReadersOk, FundsOk, ChartOk, Submit, Posts, Plan, Matches;
    WriterIsOk(w, i);
    PendingRows(w, i);
    CommitAnswers(w, b, i);
  }

  lemma AnswerIsSerialUnlessRaced(w: World, b: Book, i: nat)
    requires Safe(w) && Matches(w, b) && Answers(w, i)
    ensures SerialUnlessRaced(w, b, i)
  {
    hide LogOk, WritersOk, Exclusive, UsedOk, SnapsOk, ReadersOk, FundsOk, ChartOk, Matches, SerialUnlessRaced,
         Admissible;
    WriterIsOk(w, i);
    match w.writers[i].phase
    case Ready => ReadyAnswers(w, b, i);
    case Locking(n) => LockingAnswers(w, b, i, n);
    case Cutting(balance, last) => CuttingAnswers(w, b, i, balance, last);
    case Funded => FundedAnswers(w, b, i);
    case Writing => WritingAnswers(w, b, i);
  }

  /** In every reachable world, the answer that a writer's next step gives is the one the serial run
      of all requests answered so far gives -- if and only if the writer is not refused in a race:
      its key was committed between its lookup and now, and it fails a check under its locks, its
      funds check, or the session that a refused insert leaves behind. */
  lemma AnswersAreSerial(w: World, nextAccount: nat, schedule: seq<Label>, i: nat)
    requires Initial(w) && B.AccountsOk(EmptyBook(w.chart, nextAccount)) && Fits(w, schedule)
    requires Answers(Play(w, schedule), i)
    ensures var now := Play(w, schedule);
            var r := now.writers[i].req;
            && Fire(now, Move(i)).history == now.history + [Event(i, r, AnswerOf(now, i))]
            && (SameAnswer(Submit(Serial(now.chart, nextAccount, now.history), r).1, AnswerOf(now, i))
                <==> !RefusedInRace(now, i))
  {
    hide Safe, Submit, Serial, RefusedInRace;
    InitialIsSafe(w);
    InitialSerializes(w, nextAccount);
    PlayKeeps(w, schedule);
    PlaySerializes(w, nextAccount, schedule);
    var now := Play(w, schedule);
    AnswerIsRecorded(now, i);
    AnswerIsSerialUnlessRaced(now, Serial(now.chart, nextAccount, now.history), i);
  }

  /** An answer that the transaction exists names the writer that committed under the key. */
  lemma ExistingIsTheOwner(w: World, schedule: seq<Label>, i: nat)
    requires Initial(w) && Fits(w, schedule) && Answers(Play(w, schedule), i)
    requires AnswerOf(Play(w, schedule), i).AlreadyThere?
    ensures var now := Play(w, schedule);
            var j := AnswerOf(now, i).owner;
            && now.writers[i].req.key.Some? && now.writers[i].req.key.value != ""
            && j < |now.writers| && now.writers[j].phase == Done(Committed)
            && now.writers[j].req.key == now.writers[i].req.key
  {
    hide ChartOk, LogOk, WritersOk, Exclusive, SnapsOk, ReadersOk, FundsOk;
    InitialIsSafe(w);
    PlayKeeps(w, schedule);
    ExistingIsUsed(Play(w, schedule), i);
  }

  lemma ExistingIsUsed(w: World, i: nat)
    requires Answers(w, i) && AnswerOf(w, i).AlreadyThere?
    ensures var key := w.writers[i].req.key;
            key.Some? && key.value != "" && key.value in w.used && AnswerOf(w, i).owner == w.used[key.value]
  {
    hide LockList, LockedByOther, KeyHeldByOther, Plan, Base, Select, Total, Affords;
  }

  lemma AnswerIsRecorded(w: World, i: nat)
    requires Answers(w, i)
    ensures Step(w, i).value.history == w.history + [Event(i, w.writers[i].req, AnswerOf(w, i))]
  {
    hide LockList, LockedByOther, KeyHeldByOther, Plan, Base, Select, Total, Affords;
  }

  lemma SilentMove(w: World, i: nat)
    requires i < |w.writers| && Step(w, i).Some? && !Answers(w, i)
    ensures Step(w, i).value.history == w.history
  {
    hide LockList, LockedByOther, KeyHeldByOther, Plan, Base, Select, Total, Affords;
  }

  /** Only a deciding step adds an event. */
  lemma OnlyAnswersAreRecorded(w: World, l: Label)
    requires Enabled(w, l)
    ensures Fire(w, l).history == w.history || (l.Move? && Answers(w, l.writer))
  {
    hide Step;
    if l.Move? {
      if !Answers(w, l.writer) {
        SilentMove(w, l.writer);
      }
    } else {
      OthersAreSilent(w, l);
    }
  }

  lemma {:induction false} HistoryGrows(w: World, schedule: seq<Label>)
    requires Fits(w, schedule)
    ensures w.history <= Play(w, schedule).history
    decreases |schedule|
  {
    if schedule != [] {
      FireRecordsAtMostOne(w, schedule[0]);
      HistoryGrows(Fire(w, schedule[0]), schedule[1..]);
    }
  }

  lemma FireRecordsAtMostOne(w: World, l: Label)
    requires Enabled(w, l)
    ensures w.history <= Fire(w, l).history && |Fire(w, l).history| <= |w.history| + 1
  {
    hide Step;
    OnlyAnswersAreRecorded(w, l);
    if l.Move? && Answers(w, l.writer) {
      AnswerIsRecorded(w, l.writer);
    }
  }

  /** Every event of a history was decided by one step of the schedule, to which the result above
      applies. */
  lemma {:induction false} EveryEventWasDecided(w: World, schedule: seq<Label>, k: nat) returns (n: nat)
    requires Fits(w, schedule) && |w.history| <= k < |Play(w, schedule).history|
    ensures n < |schedule| && schedule[n].Move? && Fits(w, schedule[..n])
    ensures var before, i := Play(w, schedule[..n]), schedule[n].writer;
            && before.history == Play(w, schedule).history[..k] && Answers(before, i)
            && Play(w, schedule).history[k] == Event(i, before.writers[i].req, AnswerOf(before, i))
    decreases |schedule|
  {
    hide Step, Answers, AnswerOf;
    var l, next, rest := schedule[0], Fire(w, schedule[0]), schedule[1..];
    FireRecordsAtMostOne(w, l);
    HistoryGrows(next, rest);
    if |next.history| > k {
      n := 0;
      OnlyAnswersAreRecorded(w, l);
      AnswerIsRecorded(w, l.writer);
      assert schedule[..0] == [];
    } else {
      var m := EveryEventWasDecided(next, rest, k);
      n := m + 1;
      assert schedule[..n][1..] == rest[..m] && schedule[..n][0] == l;
    }
  }
}
