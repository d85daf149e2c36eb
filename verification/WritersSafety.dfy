/** What every step of the interleaved writers keeps, and so what holds in every reachable world:
    locks exclude, ids of an account commit in increasing order, every snapshot and every balance
    read is exact, no user is overdrawn, and a key is committed at most once. */
module WritersSafety {
  import opened Wrappers
  import opened Ledger
  import opened Sums
  import opened Plans
  import opened Snapshots
  import opened Locks
  import opened Writers

  ghost predicate LogOk(w: World) {
    && 0 < w.nextId
    && (forall e | e in w.log ::
          e.status == Success && 0 < e.id < w.nextId && e.txn < |w.writers| && IsTyped(w.chart, e.post))
    && (forall i, j | 0 <= i < j < |w.log| ::
          w.log[i].post.account == w.log[j].post.account ==> w.log[i].id < w.log[j].id)
  }

  /** A balance and a mark read from a snapshot fit the log. */
  ghost predicate CutOk(log: seq<Entry>, a: AccountId, balance: int, last: nat) {
    IsMark(log, a, last) && balance == Total(Select(log, a, UpTo(last)))
  }

  /** The pending entries of a writer: a prefix of its plan, with ids beyond every committed id
      of the same account. */
  ghost predicate PendingOk(ch: Chart, log: seq<Entry>, nextId: nat, i: nat, p: Writer) {
    && |p.pending| <= |Plan(ch, p.req)|
    && (forall k | 0 <= k < |p.pending| ::
          p.pending[k] == Entry(p.pending[k].id, i, Success, Plan(ch, p.req)[k]) && 0 < p.pending[k].id < nextId)
    && (forall j, k | 0 <= j < k < |p.pending| :: p.pending[j].id < p.pending[k].id)
    && (forall k, e | 0 <= k < |p.pending| && e in log ::
          e.post.account == p.pending[k].post.account ==> e.id < p.pending[k].id)
  }

  /** The source of a writer that passed its funds check still affords the request. */
  ghost predicate Covered(log: seq<Entry>, r: Request) {
    ChecksFunds(r) ==> Affords(Balance(log, r.source), r)
  }

  ghost predicate PhaseOk(ch: Chart, log: seq<Entry>, used: map<string, nat>, nextId: nat, i: nat, p: Writer) {
    match p.phase
    case Ready => true
    case Locking(n) => n <= |LockList(ch, p.req)| && ArgumentError(p.req) == None && EarlyError(ch, p.req) == None
    case Cutting(balance, last) =>
      Admissible(ch, p.req) && ChecksFunds(p.req) && CutOk(log, p.req.source, balance, last)
    case Funded => Admissible(ch, p.req) && Covered(log, p.req)
    case Writing =>
      && Admissible(ch, p.req) && Covered(log, p.req)
      && (p.req.key.Some? ==> p.req.key.value !in used)
      && PendingOk(ch, log, nextId, i, p)
    case Done(_) => true
  }

  ghost predicate WriterOk(ch: Chart, log: seq<Entry>, used: map<string, nat>, nextId: nat, i: nat, p: Writer) {
    && RateOk(p.req)
    && (!p.phase.Writing? ==> p.pending == [])
    && PhaseOk(ch, log, used, nextId, i, p)
    && Group(log, i) == (if p.phase == Done(Committed) then Plan(ch, p.req) else [])
    && (p.phase == Done(Committed) ==> Admissible(ch, p.req))
  }

  ghost predicate WritersOk(w: World) {
    forall i | 0 <= i < |w.writers| :: WriterOk(w.chart, w.log, w.used, w.nextId, i, w.writers[i])
  }

  /** No two writers hold the same account or the same key. */
  ghost predicate Exclusive(w: World) {
    forall i, j | 0 <= i < |w.writers| && 0 <= j < |w.writers| && i != j :: Apart(w.chart, w.writers[i], w.writers[j])
  }

  ghost predicate Apart(ch: Chart, p: Writer, q: Writer) {
    && Held(ch, p) !! Held(ch, q)
    && !(p.phase.Writing? && q.phase.Writing? && p.req.key.Some? && p.req.key == q.req.key)
  }

  ghost predicate UsedOk(w: World) {
    && (forall k | k in w.used :: w.used[k] < |w.writers| && w.writers[w.used[k]].phase == Done(Committed)
                                  && w.writers[w.used[k]].req.key == Some(k))
    && (forall i | 0 <= i < |w.writers| :: w.writers[i].phase == Done(Committed) && w.writers[i].req.key.Some?
          ==> w.writers[i].req.key.value in w.used && w.used[w.writers[i].req.key.value] == i)
  }

  ghost predicate SnapsOk(w: World) {
    && (forall s | s in w.snaps :: IsExact(w.log, s))
    && (forall s | s in w.drafts :: IsExact(w.log, s))
  }

  ghost predicate ReaderOk(log: seq<Entry>, q: Reader) {
    match q
    case Idle(_) => true
    case Halfway(a, balance, last) => CutOk(log, a, balance, last)
    case Answered(a, balance, seen) => seen <= |log| && balance == Balance(log[..seen], a)
  }

  ghost predicate ReadersOk(w: World) {
    forall q | q in w.readers :: ReaderOk(w.log, q)
  }

  ghost predicate FundsOk(w: World) {
    forall a | IsUser(w.chart, a) :: Balance(w.log, a) >= 0
  }

  ghost predicate Safe(w: World) {
    && ChartOk(w.chart) && LogOk(w) && WritersOk(w) && Exclusive(w)
    && UsedOk(w) && SnapsOk(w) && ReadersOk(w) && FundsOk(w)
  }

  lemma InitialIsSafe(w: World)
    requires Initial(w)
    ensures Safe(w)
  {
    forall i | 0 <= i < |w.writers| ensures WriterOk(w.chart, w.log, w.used, w.nextId, i, w.writers[i]) {
      assert w.writers[i] in w.writers;
    }
    forall i, j | 0 <= i < |w.writers| && 0 <= j < |w.writers| && i != j
      ensures Apart(w.chart, w.writers[i], w.writers[j])
    {
      assert w.writers[i] in w.writers;
    }
    forall i | 0 <= i < |w.writers| ensures w.writers[i].phase == Ready {
      assert w.writers[i] in w.writers;
    }
  }

  lemma WriterIsOk(w: World, i: nat)
    requires WritersOk(w) && i < |w.writers|
    ensures WriterOk(w.chart, w.log, w.used, w.nextId, i, w.writers[i])
  {
  }

  /* ---------- Steps that change one writer's phase ---------- */

  lemma ReplaceKeepsExclusion(w: World, i: nat, p: Writer)
    requires Exclusive(w) && i < |w.writers|
    requires forall j | 0 <= j < |w.writers| && j != i :: Apart(w.chart, p, w.writers[j])
    ensures Exclusive(w.(writers := w.writers[i := p]))
  {
    hide Held;
    var writers := w.writers[i := p];
    forall j, k | 0 <= j < |writers| && 0 <= k < |writers| && j != k ensures Apart(w.chart, writers[j], writers[k]) {
      assert j != i && k != i ==> Apart(w.chart, w.writers[j], w.writers[k]);
    }
  }

  lemma ReplaceKeepsUsed(w: World, i: nat, p: Writer)
    requires UsedOk(w) && i < |w.writers| && w.writers[i].phase != Done(Committed) && p.phase != Done(Committed)
    ensures UsedOk(w.(writers := w.writers[i := p]))
  {
  }

  lemma ReplaceKeepsWriters(w: World, i: nat, p: Writer)
    requires WritersOk(w) && i < |w.writers| && WriterOk(w.chart, w.log, w.used, w.nextId, i, p)
    ensures WritersOk(w.(writers := w.writers[i := p]))
  {
    hide WriterOk;
  }

  /** Replacing one writer that has not committed keeps the world safe. */
  lemma ReplaceKeeps(w: World, w': World, i: nat, p: Writer)
    requires Safe(w) && i < |w.writers| && w.writers[i].phase != Done(Committed) && p.phase != Done(Committed)
    requires w' == w.(writers := w.writers[i := p], history := w'.history)
    requires WriterOk(w.chart, w.log, w.used, w.nextId, i, p)
    requires forall j | 0 <= j < |w.writers| && j != i :: Apart(w.chart, p, w.writers[j])
    ensures Safe(w')
  {
    hide WriterOk, Apart, IsExact, ReaderOk, ChartOk, IsTyped, Balance;
    ReplaceKeepsExclusion(w, i, p);
    ReplaceKeepsUsed(w, i, p);
    ReplaceKeepsWriters(w, i, p);
  }

  /** A writer that takes no new lock and no key stays apart from the others. */
  lemma NoNewLocks(w: World, i: nat, p: Writer)
    requires Exclusive(w) && i < |w.writers|
    requires Held(w.chart, p) <= Held(w.chart, w.writers[i])
    requires p.phase.Writing? ==> w.writers[i].phase.Writing? && p.req == w.writers[i].req
    ensures forall j | 0 <= j < |w.writers| && j != i :: Apart(w.chart, p, w.writers[j])
  {
    forall j | 0 <= j < |w.writers| && j != i ensures Apart(w.chart, p, w.writers[j]) {
      assert Apart(w.chart, w.writers[i], w.writers[j]);
    }
  }

  lemma ReplyKeeps(w: World, i: nat, answer: Answer)
    requires Safe(w) && i < |w.writers| && answer != Committed
    requires !w.writers[i].phase.Done? && !w.writers[i].phase.Writing?
    ensures Safe(Reply(w, i, answer))
  {
    hide LogOk, WritersOk, Exclusive, UsedOk, SnapsOk, ReadersOk, FundsOk, Plan, LockList;
    var p := w.writers[i].(phase := Done(answer));
    WriterIsOk(w, i);
    NoNewLocks(w, i, p);
    ReplaceKeeps(w, Reply(w, i, answer), i, p);
  }

  lemma AbortKeeps(w: World, i: nat)
    requires Safe(w) && i < |w.writers| && !w.writers[i].phase.Done?
    ensures Safe(Abort(w, i))
  {
    hide LogOk, WritersOk, Exclusive, UsedOk, SnapsOk, ReadersOk, FundsOk, Plan, LockList;
    var p := Writer(w.writers[i].req, Done(Aborted), []);
    WriterIsOk(w, i);
    NoNewLocks(w, i, p);
    ReplaceKeeps(w, Abort(w, i), i, p);
  }

  lemma StepReadyKeeps(w: World, i: nat)
    requires Safe(w) && i < |w.writers| && w.writers[i].phase == Ready
    ensures Safe(StepReady(w, i))
  {
    hide LogOk, WritersOk, Exclusive, UsedOk, SnapsOk, ReadersOk, FundsOk, Plan, LockList;
    var r := w.writers[i].req;
    WriterIsOk(w, i);
    if ArgumentError(r).None? && !(LooksUp(r.key) && r.key.value in w.used) && EarlyError(w.chart, r).None? {
      var p := w.writers[i].(phase := Locking(0));
      NoNewLocks(w, i, p);
      ReplaceKeeps(w, StepReady(w, i), i, p);
    } else {
      var answer := StepReady(w, i).writers[i].phase.answer;
      ReplyKeeps(w, i, answer);
    }
  }

  lemma BaseCut(w: World, a: AccountId)
    requires LogOk(w) && SnapsOk(w)
    ensures CutOk(w.log, a, Base(w.snaps, a).balance, Base(w.snaps, a).last)
  {
    BaseIsExact(w.log, w.snaps, a);
  }

  lemma TakeLockKeeps(w: World, i: nat, n: nat)
    requires Safe(w) && i < |w.writers| && w.writers[i].phase == Locking(n) && n < |LockList(w.chart, w.writers[i].req)|
    requires StepLocking(w, i, n).Some?
    ensures Safe(StepLocking(w, i, n).value)
  {
    hide LogOk, WritersOk, UsedOk, SnapsOk, ReadersOk, FundsOk, ChartOk, Plan, Admissible, Sorted;
    var locks := LockList(w.chart, w.writers[i].req);
    var p := w.writers[i].(phase := Locking(n + 1));
    WriterIsOk(w, i);
    assert locks[..n + 1] == locks[..n] + [locks[n]];
    forall j | 0 <= j < |w.writers| && j != i ensures Apart(w.chart, p, w.writers[j]) {
      assert Apart(w.chart, w.writers[i], w.writers[j]);
      assert locks[n] in w.chart.accounts ==> locks[n] !in Held(w.chart, w.writers[j]);
    }
    ReplaceKeeps(w, StepLocking(w, i, n).value, i, p);
  }

  lemma StepLockingKeeps(w: World, i: nat, n: nat)
    requires Safe(w) && i < |w.writers| && w.writers[i].phase == Locking(n) && StepLocking(w, i, n).Some?
    ensures Safe(StepLocking(w, i, n).value)
  {
    var r := w.writers[i].req;
    var locks := LockList(w.chart, r);
    WriterIsOk(w, i);
    if n < |locks| {
      TakeLockKeeps(w, i, n);
    } else if LateError(w.chart, r).Some? {
      ReplyKeeps(w, i, Rejected(LateError(w.chart, r).value));
    } else {
      var p := StepLocking(w, i, n).value.writers[i];
      assert locks[..n] == locks;
      if ChecksFunds(r) {
        BaseCut(w, r.source);
      }
      NoNewLocks(w, i, p);
      ReplaceKeeps(w, StepLocking(w, i, n).value, i, p);
    }
  }

  lemma StepCuttingKeeps(w: World, i: nat, balance: int, last: nat)
    requires Safe(w) && i < |w.writers| && w.writers[i].phase == Cutting(balance, last)
    ensures Safe(StepCutting(w, i, balance, last))
  {
    hide LogOk, WritersOk, Exclusive, UsedOk, SnapsOk, ReadersOk, FundsOk, Plan, LockList, Admissible;
    var r := w.writers[i].req;
    WriterIsOk(w, i);
    CutSplits(w.log, r.source, last);
    if !Affords(Balance(w.log, r.source), r) {
      ReplyKeeps(w, i, Rejected(InsufficientFunds));
    } else {
      var p := w.writers[i].(phase := Funded);
      NoNewLocks(w, i, p);
      ReplaceKeeps(w, StepCutting(w, i, balance, last), i, p);
    }
  }

  lemma TakeKeyApart(w: World, i: nat, j: nat)
    requires i < |w.writers| && j < |w.writers| && i != j && w.writers[i].phase == Funded
    requires Apart(w.chart, w.writers[i], w.writers[j])
    requires w.writers[i].req.key.Some? ==> !KeyHeldByOther(w, i, w.writers[i].req.key.value)
    ensures Apart(w.chart, w.writers[i].(phase := Writing), w.writers[j])
  {
    assert w.writers[i].req.key.Some? ==> !HoldsKey(w.writers[j], w.writers[i].req.key.value);
  }

  lemma TakeKeyKeeps(w: World, i: nat)
    requires Safe(w) && i < |w.writers| && w.writers[i].phase == Funded
    requires w.writers[i].req.key.Some? ==>
               w.writers[i].req.key.value !in w.used && !KeyHeldByOther(w, i, w.writers[i].req.key.value)
    ensures Safe(Enter(w, i, Writing))
  {
    hide LogOk, WritersOk, UsedOk, SnapsOk, ReadersOk, FundsOk, ChartOk, Plan, LockList, Admissible, Apart;
    var p := w.writers[i].(phase := Writing);
    WriterIsOk(w, i);
    forall j | 0 <= j < |w.writers| && j != i ensures Apart(w.chart, p, w.writers[j]) {
      TakeKeyApart(w, i, j);
    }
    ReplaceKeeps(w, Enter(w, i, Writing), i, p);
  }

  lemma StepFundedKeeps(w: World, i: nat)
    requires Safe(w) && i < |w.writers| && w.writers[i].phase == Funded && StepFunded(w, i).Some?
    ensures Safe(StepFunded(w, i).value)
  {
    hide LogOk, WritersOk, Exclusive, UsedOk, SnapsOk, ReadersOk, FundsOk, Plan, LockList, Admissible, WriterOk;
    var r := w.writers[i].req;
    if r.key.Some? && r.key.value in w.used {
      ReplyKeeps(w, i, StepFunded(w, i).value.writers[i].phase.answer);
    } else {
      TakeKeyKeeps(w, i);
    }
  }

  /* ---------- Writing and committing ---------- */

  lemma MoreIdsKeepWriter(ch: Chart, log: seq<Entry>, used: map<string, nat>, nextId: nat, i: nat, p: Writer)
    requires WriterOk(ch, log, used, nextId, i, p)
    ensures WriterOk(ch, log, used, nextId + 1, i, p)
  {
    hide Plan, Admissible, Covered, LockList;
  }

  lemma WriteOnePending(w: World, i: nat)
    requires LogOk(w) && i < |w.writers| && |w.writers[i].pending| < |Plan(w.chart, w.writers[i].req)|
    requires PendingOk(w.chart, w.log, w.nextId, i, w.writers[i])
    ensures PendingOk(w.chart, w.log, w.nextId + 1, i, WriteOne(w, i).writers[i])
  {
    hide Plan, IsTyped;
  }

  lemma WriteOneKeepsWriter(w: World, i: nat)
    requires LogOk(w) && i < |w.writers| && w.writers[i].phase == Writing
    requires WriterOk(w.chart, w.log, w.used, w.nextId, i, w.writers[i])
    requires |w.writers[i].pending| < |Plan(w.chart, w.writers[i].req)|
    ensures WriterOk(w.chart, w.log, w.used, w.nextId + 1, i, WriteOne(w, i).writers[i])
  {
    hide Admissible, Plan, PendingOk, Covered, LogOk;
    WriteOnePending(w, i);
  }

  lemma WriteOneKeepsWriters(w: World, i: nat)
    requires LogOk(w) && WritersOk(w) && i < |w.writers| && w.writers[i].phase == Writing
    requires |w.writers[i].pending| < |Plan(w.chart, w.writers[i].req)|
    ensures WritersOk(WriteOne(w, i))
  {
    hide LogOk, Plan, WriterOk;
    var w' := WriteOne(w, i);
    WriteOneKeepsWriter(w, i);
    forall j | 0 <= j < |w'.writers| ensures WriterOk(w'.chart, w'.log, w'.used, w'.nextId, j, w'.writers[j]) {
      MoreIdsKeepWriter(w.chart, w.log, w.used, w.nextId, j, w.writers[j]);
    }
  }

  lemma WriteOneKeepsExclusion(w: World, i: nat)
    requires Exclusive(w) && i < |w.writers| && w.writers[i].phase == Writing
    requires |w.writers[i].pending| < |Plan(w.chart, w.writers[i].req)|
    ensures Exclusive(WriteOne(w, i))
  {
    var w' := WriteOne(w, i);
    NoNewLocks(w, i, w'.writers[i]);
    forall j, k | 0 <= j < |w'.writers| && 0 <= k < |w'.writers| && j != k
      ensures Apart(w'.chart, w'.writers[j], w'.writers[k])
    {
      assert j != i && k != i ==> Apart(w.chart, w.writers[j], w.writers[k]);
    }
  }

  lemma WriteOneKeeps(w: World, i: nat)
    requires Safe(w) && i < |w.writers| && w.writers[i].phase == Writing
    requires |w.writers[i].pending| < |Plan(w.chart, w.writers[i].req)|
    ensures Safe(WriteOne(w, i))
  {
    hide WritersOk, Exclusive, Plan, Admissible, ChartOk, IsExact, ReaderOk;
    WriteOneKeepsWriters(w, i);
    WriteOneKeepsExclusion(w, i);
  }

  /** What a committing writer brings: the whole plan, on accounts it holds. */
  ghost predicate ReadyToCommit(w: World, i: nat) {
    && i < |w.writers| && w.writers[i].phase == Writing
    && |w.writers[i].pending| == |Plan(w.chart, w.writers[i].req)|
  }

  /** The pending entries of a writer that has written its whole plan show that plan. */
  lemma PendingShowsPlan(ch: Chart, log: seq<Entry>, nextId: nat, i: nat, p: Writer)
    requires PendingOk(ch, log, nextId, i, p) && |p.pending| == |Plan(ch, p.req)|
    ensures Posts(p.pending) == Plan(ch, p.req) && Group(p.pending, i) == Plan(ch, p.req)
    ensures forall e | e in p.pending ::
              e.status == Success && 0 < e.id < nextId && e.txn == i && e.post in Plan(ch, p.req)
  {
    var plan := Plan(ch, p.req);
    hide Plan;
    forall k | 0 <= k < |p.pending|
      ensures p.pending[k].status == Success && p.pending[k].post == plan[k] && p.pending[k].txn == i
    {
      assert p.pending[k] == Entry(p.pending[k].id, i, Success, plan[k]);
    }
    PostsOfSuccesses(p.pending, plan);
    GroupOfOwn(p.pending, plan, i);
  }

  lemma PendingRows(w: World, i: nat)
    requires Safe(w) && ReadyToCommit(w, i)
    ensures Posts(w.writers[i].pending) == Plan(w.chart, w.writers[i].req)
    ensures Group(w.writers[i].pending, i) == Plan(w.chart, w.writers[i].req)
    ensures forall e | e in w.writers[i].pending :: e.status == Success && 0 < e.id < w.nextId && e.txn == i
              && IsTyped(w.chart, e.post) && e.post.account in Held(w.chart, w.writers[i])
    ensures forall e, f | e in w.log && f in w.writers[i].pending :: e.post.account == f.post.account ==> e.id < f.id
    ensures forall j, k | 0 <= j < k < |w.writers[i].pending| :: w.writers[i].pending[j].id < w.writers[i].pending[k].id
  {
    hide LogOk, Exclusive, UsedOk, SnapsOk, ReadersOk, FundsOk, ChartOk, Plan, Admissible, Held, Covered;
    var p := w.writers[i];
    WriterIsOk(w, i);
    PendingShowsPlan(w.chart, w.log, w.nextId, i, p);
    PlanIsBalanced(w.chart, p.req);
    PendingIsHeld(w.chart, w.log, w.nextId, i, p);
  }

  lemma CommitKeepsLog(w: World, i: nat)
    requires Safe(w) && ReadyToCommit(w, i)
    ensures LogOk(Commit(w, i))
  {
    hide WritersOk, Exclusive, UsedOk, SnapsOk, ReadersOk, FundsOk, ChartOk, Plan;
    PendingRows(w, i);
    var p, w' := w.writers[i], Commit(w, i);
    forall e | e in w'.log
      ensures e.status == Success && 0 < e.id < w'.nextId && e.txn < |w'.writers| && IsTyped(w'.chart, e.post)
    {
      assert e in w.log || e in p.pending;
    }
    forall j, k | 0 <= j < k < |w'.log| && w'.log[j].post.account == w'.log[k].post.account
      ensures w'.log[j].id < w'.log[k].id
    {
      if j < |w.log| <= k {
        assert w.log[j] in w.log && p.pending[k - |w.log|] in p.pending;
      }
    }
  }

  /** An account the committing writer does not hold keeps its rows and its balance. */
  lemma CommitSparesOthers(w: World, i: nat, a: AccountId)
    requires Safe(w) && ReadyToCommit(w, i) && a !in Held(w.chart, w.writers[i])
    ensures forall cut :: Select(Commit(w, i).log, a, cut) == Select(w.log, a, cut)
  {
    PendingRows(w, i);
    forall cut ensures Select(w.log + w.writers[i].pending, a, cut) == Select(w.log, a, cut) {
      UntouchedSelect(w.log, w.writers[i].pending, a, cut);
    }
  }

  /** Nothing appears at or below a mark. */
  lemma CommitRespectsMarks(w: World, i: nat, a: AccountId, last: nat)
    requires Safe(w) && ReadyToCommit(w, i) && IsMark(w.log, a, last)
    ensures forall e | e in w.writers[i].pending && e.post.account == a :: last < e.id
    ensures IsMark(Commit(w, i).log, a, last)
    ensures Select(Commit(w, i).log, a, UpTo(last)) == Select(w.log, a, UpTo(last))
  {
    PendingRows(w, i);
    UntouchedSelect(w.log, w.writers[i].pending, a, UpTo(last));
    if last != 0 {
      var e :| e in w.log && e.post.account == a && e.id == last;
      assert e in Commit(w, i).log;
    }
  }

  lemma CommitKeepsCuts(w: World, i: nat)
    requires Safe(w) && ReadyToCommit(w, i)
    ensures SnapsOk(Commit(w, i))
    ensures ReadersOk(Commit(w, i))
  {
    var w' := Commit(w, i);
    forall s | s in w.snaps || s in w.drafts ensures IsExact(w'.log, s) {
      CommitRespectsMarks(w, i, s.account, s.last);
    }
    forall q | q in w.readers ensures ReaderOk(w'.log, q) {
      assert ReaderOk(w.log, q);
      match q
      case Idle(_) =>
      case Halfway(a, balance, last) => CommitRespectsMarks(w, i, a, last);
      case Answered(a, balance, seen) => assert w'.log[..seen] == w.log[..seen];
    }
  }

  /** A writer that may commit leaves a user with funds, however much of its plan is written. */
  lemma CoveredKeepsFunds(ch: Chart, log: seq<Entry>, r: Request, pending: seq<Entry>, a: AccountId)
    requires Admissible(ch, r) && Covered(log, r) && IsUser(ch, a) && Balance(log, a) >= 0
    requires |pending| <= |Plan(ch, r)| && Posts(pending) == Plan(ch, r)[..|pending|]
    ensures Balance(log + pending, a) >= 0
  {
    BalanceConcat(log, pending, a);
    AffordedPrefixKeepsFunds(ch, r, log, a, |pending|);
  }

  lemma CommitKeepsFunds(w: World, i: nat)
    requires Safe(w) && ReadyToCommit(w, i)
    ensures FundsOk(Commit(w, i))
  {
    var p := w.writers[i];
    WriterIsOk(w, i);
    PendingRows(w, i);
    var plan := Plan(w.chart, p.req);
    assert plan[..|p.pending|] == plan;
    forall a | IsUser(w.chart, a) ensures Balance(w.log + p.pending, a) >= 0 {
      CoveredKeepsFunds(w.chart, w.log, p.req, p.pending, a);
    }
  }

  lemma CommitKeepsGroup(w: World, i: nat, j: nat)
    requires Safe(w) && ReadyToCommit(w, i)
    ensures Group(Commit(w, i).log, j) == Group(w.log, j) + if j == i then Plan(w.chart, w.writers[i].req) else []
  {
    PendingRows(w, i);
    GroupConcat(w.log, w.writers[i].pending, j);
    if j != i {
      GroupOfOthers(w.writers[i].pending, j);
    }
  }

  lemma SourceExists(ch: Chart, r: Request)
    requires Admissible(ch, r) && ChecksFunds(r)
    ensures r.source in ch.accounts
  {
  }

  /** The source of a waiting writer is a locked account, if it exists. */
  lemma SourceIsHeld(ch: Chart, p: Writer)
    requires Admissible(ch, p.req) && ChecksFunds(p.req) && (p.phase.Funded? || p.phase.Writing? || p.phase.Cutting?)
    ensures p.req.source in Held(ch, p)
  {
    hide Admissible, Sorted, LockIds, Plan, Ascending;
    SourceExists(ch, p.req);
    PlanIsOnLockedAccounts(ch, p.req);
    SortedSorts(LockIds(ch, p.req));
  }

  /** A writer holds the accounts of all entries it has written. */
  lemma PendingIsHeld(ch: Chart, log: seq<Entry>, nextId: nat, i: nat, p: Writer)
    requires p.phase == Writing && Admissible(ch, p.req) && PendingOk(ch, log, nextId, i, p)
    ensures forall k | 0 <= k < |p.pending| :: p.pending[k].post.account in Held(ch, p)
  {
    hide Admissible, Sorted, LockIds, Plan, Ascending;
    PlanIsBalanced(ch, p.req);
    PlanIsOnLockedAccounts(ch, p.req);
    SortedSorts(LockIds(ch, p.req));
    forall k | 0 <= k < |p.pending| ensures p.pending[k].post.account in Held(ch, p) {
      assert p.pending[k].post == Plan(ch, p.req)[k] && Plan(ch, p.req)[k] in Plan(ch, p.req);
    }
  }

  lemma CommitKeepsPending(w: World, i: nat, j: nat)
    requires Safe(w) && ReadyToCommit(w, i) && j < |w.writers| && j != i && w.writers[j].phase == Writing
    ensures PendingOk(w.chart, Commit(w, i).log, w.nextId, j, w.writers[j])
  {
    var q := w.writers[j];
    WriterIsOk(w, j);
    assert Apart(w.chart, w.writers[i], q);
    PendingRows(w, i);
    PendingIsHeld(w.chart, w.log, w.nextId, j, q);
    PendingGrows(w.chart, w.log, w.writers[i].pending, w.nextId, j, q);
  }

  /** Rows on accounts that a writer does not hold leave its pending entries in order. */
  lemma PendingGrows(ch: Chart, log: seq<Entry>, more: seq<Entry>, nextId: nat, i: nat, p: Writer)
    requires PendingOk(ch, log, nextId, i, p)
    requires forall k | 0 <= k < |p.pending| :: p.pending[k].post.account in Held(ch, p)
    requires forall e | e in more :: e.post.account !in Held(ch, p)
    ensures PendingOk(ch, log + more, nextId, i, p)
  {
  }

  lemma CommitKeepsOther(w: World, i: nat, j: nat)
    requires Safe(w) && ReadyToCommit(w, i) && j < |w.writers| && j != i
    ensures WriterOk(w.chart, Commit(w, i).log, Commit(w, i).used, w.nextId, j, w.writers[j])
  {
    var q := w.writers[j];
    WriterIsOk(w, j);
    assert Apart(w.chart, w.writers[i], q);
    CommitKeepsGroup(w, i, j);
    match q.phase
    case Cutting(balance, last) => CommitRespectsMarks(w, i, q.req.source, last);
    case Funded =>
      if ChecksFunds(q.req) {
        SourceIsHeld(w.chart, q);
        CommitSparesOthers(w, i, q.req.source);
      }
    case Writing =>
      if ChecksFunds(q.req) {
        SourceIsHeld(w.chart, q);
        CommitSparesOthers(w, i, q.req.source);
      }
      CommitKeepsPending(w, i, j);
    case _ =>
  }

  lemma CommitKeepsOwn(w: World, i: nat)
    requires Safe(w) && ReadyToCommit(w, i)
    ensures WriterOk(w.chart, Commit(w, i).log, Commit(w, i).used, w.nextId, i, Commit(w, i).writers[i])
  {
    hide LogOk, Exclusive, UsedOk, SnapsOk, ReadersOk, FundsOk, ChartOk, Plan, Admissible;
    WriterIsOk(w, i);
    CommitKeepsGroup(w, i, i);
  }

  lemma CommitKeeps(w: World, i: nat)
    requires Safe(w) && ReadyToCommit(w, i)
    ensures Safe(Commit(w, i))
  {
    hide LogOk, Exclusive, UsedOk, SnapsOk, ReadersOk, FundsOk, ChartOk, Plan, WriterOk;
    var w' := Commit(w, i);
    CommitKeepsLog(w, i);
    CommitKeepsCuts(w, i);
    CommitKeepsFunds(w, i);
    forall j | 0 <= j < |w'.writers| ensures WriterOk(w'.chart, w'.log, w'.used, w'.nextId, j, w'.writers[j]) {
      if j == i {
        CommitKeepsOwn(w, i);
      } else {
        CommitKeepsOther(w, i, j);
      }
    }
    CommitKeepsExclusion(w, i);
  }

  lemma CommitKeepsUsed(w: World, i: nat)
    requires UsedOk(w) && i < |w.writers| && w.writers[i].phase == Writing
    requires w.writers[i].req.key.Some? ==> w.writers[i].req.key.value !in w.used
    ensures UsedOk(Commit(w, i))
  {
  }

  lemma CommitKeepsExclusion(w: World, i: nat)
    requires Safe(w) && ReadyToCommit(w, i)
    ensures Exclusive(Commit(w, i)) && UsedOk(Commit(w, i))
  {
    hide LogOk, Exclusive, UsedOk, SnapsOk, ReadersOk, FundsOk, ChartOk, Plan, PendingOk, Admissible, Apart;
    WriterIsOk(w, i);
    NoNewLocks(w, i, Commit(w, i).writers[i]);
    ReplaceKeepsExclusion(w, i, Commit(w, i).writers[i]);
    SameWriters(w.(writers := w.writers[i := Commit(w, i).writers[i]]), Commit(w, i));
    CommitKeepsUsed(w, i);
  }

  lemma SameWriters(w: World, w': World)
    requires Exclusive(w) && w'.chart == w.chart && w'.writers == w.writers
    ensures Exclusive(w')
  {
  }

  /* ---------- Every step, every schedule ---------- */

  lemma MoveKeeps(w: World, i: nat)
    requires Safe(w) && i < |w.writers| && Step(w, i).Some?
    ensures Safe(Step(w, i).value)
  {
    WriterIsOk(w, i);
    match w.writers[i].phase
    case Ready => StepReadyKeeps(w, i);
    case Locking(n) => StepLockingKeeps(w, i, n);
    case Cutting(balance, last) => StepCuttingKeeps(w, i, balance, last);
    case Funded => StepFundedKeeps(w, i);
    case Writing =>
      if |w.writers[i].pending| < |Plan(w.chart, w.writers[i].req)| {
        WriteOneKeeps(w, i);
      } else {
        CommitKeeps(w, i);
      }
  }

  lemma StepReaderAnswers(w: World, i: nat)
    requires LogOk(w) && SnapsOk(w) && i < |w.readers| && ReaderOk(w.log, w.readers[i])
    ensures ReaderOk(w.log, StepReader(w, i).readers[i])
  {
    hide LogOk, SnapsOk;
    match w.readers[i]
    case Idle(a) => BaseCut(w, a);
    case Halfway(a, balance, last) =>
      CutSplits(w.log, a, last);
      assert w.log[..|w.log|] == w.log;
    case Answered(_, _, _) =>
  }

  lemma StepReaderKeeps(w: World, i: nat)
    requires Safe(w) && i < |w.readers|
    ensures Safe(StepReader(w, i))
  {
    hide WriterOk, Apart, IsExact, ReaderOk, ChartOk, IsTyped, Balance;
    var w' := StepReader(w, i);
    assert w.readers[i] in w.readers;
    StepReaderAnswers(w, i);
    forall q | q in w'.readers ensures ReaderOk(w'.log, q) {
      assert q == w'.readers[i] || q in w.readers;
    }
  }

  lemma SnapshotStepsKeep(w: World, l: Label)
    requires Safe(w) && Enabled(w, l) && (l.Draft? || l.Store?)
    ensures Safe(Fire(w, l))
  {
    hide WriterOk, Apart, IsExact, ReaderOk, ChartOk, IsTyped, Balance;
    if l.Draft? {
      ProposalIsExact(w.log, w.snaps, l.account, w.threshold);
    }
  }

  lemma FireKeeps(w: World, l: Label)
    requires Safe(w) && Enabled(w, l)
    ensures Safe(Fire(w, l))
  {
    match l
    case Move(i) => MoveKeeps(w, i);
    case Crash(i) => AbortKeeps(w, i);
    case Read(i) => StepReaderKeeps(w, i);
    case Draft(_) => SnapshotStepsKeep(w, l);
    case Store(_) => SnapshotStepsKeep(w, l);
  }

  lemma {:induction false} PlayKeeps(w: World, schedule: seq<Label>)
    requires Safe(w) && Fits(w, schedule)
    ensures Safe(Play(w, schedule))
    decreases |schedule|
  {
    if schedule != [] {
      FireKeeps(w, schedule[0]);
      PlayKeeps(Fire(w, schedule[0]), schedule[1..]);
    }
  }
}
