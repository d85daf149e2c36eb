/** What the reachable worlds guarantee, stated for every schedule. */
module WritersResults {
  import opened Ledger
  import opened Sums
  import opened Plans
  import opened Snapshots
  import opened Writers
  import opened WritersSafety

  lemma ReachableIsSafe(w: World, schedule: seq<Label>)
    requires Initial(w) && Fits(w, schedule)
    ensures Safe(Play(w, schedule))
  {
    InitialIsSafe(w);
    PlayKeeps(w, schedule);
  }

  /** No user is ever overdrawn, neither in the committed tables nor as the holder of the
      account's lock sees them with its own pending entries. */
  lemma NoOverdraft(w: World, schedule: seq<Label>, a: AccountId, i: nat)
    requires Initial(w) && Fits(w, schedule) && IsUser(w.chart, a) && i < |w.writers|
    ensures Play(w, schedule).chart == w.chart && |Play(w, schedule).writers| == |w.writers|
    ensures Balance(Play(w, schedule).log, a) >= 0
    ensures Balance(Play(w, schedule).log + Play(w, schedule).writers[i].pending, a) >= 0
  {
    var end := Play(w, schedule);
    ReachableIsSafe(w, schedule);
    PlayKeepsBatch(w, schedule);
    var p := end.writers[i];
    assert WriterOk(end.chart, end.log, end.used, end.nextId, i, p);
    if p.phase == Writing {
      var plan := Plan(end.chart, p.req);
      PostsOfSuccesses(p.pending, plan[..|p.pending|]);
      CoveredKeepsFunds(end.chart, end.log, p.req, p.pending, a);
    } else {
      assert end.log + [] == end.log;
    }
  }

  lemma StepKeepsBatch(w: World, i: nat)
    requires i < |w.writers| && Step(w, i).Some?
    ensures var w' := Step(w, i).value;
            w'.chart == w.chart && |w'.writers| == |w.writers| && |w'.readers| == |w.readers|
  {
    hide Plan, LockList, LockedByOther, KeyHeldByOther, Affords, Select, Total, ArgumentError, EarlyError, LateError;
  }

  lemma FireKeepsBatch(w: World, l: Label)
    requires Enabled(w, l)
    ensures Fire(w, l).chart == w.chart && |Fire(w, l).writers| == |w.writers| && |Fire(w, l).readers| == |w.readers|
  {
    hide Step, Proposal;
    if l.Move? {
      StepKeepsBatch(w, l.writer);
    }
  }

  lemma {:induction false} PlayKeepsBatch(w: World, schedule: seq<Label>)
    requires Fits(w, schedule)
    ensures Play(w, schedule).chart == w.chart && |Play(w, schedule).writers| == |w.writers|
    decreases |schedule|
  {
    if schedule != [] {
      FireKeepsBatch(w, schedule[0]);
      PlayKeepsBatch(Fire(w, schedule[0]), schedule[1..]);
    }
  }

  /** A writer's entries are on accounts it holds the locks of, so ids are allocated under lock. */
  lemma IdsAreAllocatedUnderLock(w: World, schedule: seq<Label>, i: nat, e: Entry)
    requires Initial(w) && Fits(w, schedule) && i < |Play(w, schedule).writers|
    requires e in Play(w, schedule).writers[i].pending
    ensures e.post.account in Held(w.chart, Play(w, schedule).writers[i])
    ensures forall f | f in Play(w, schedule).log && f.post.account == e.post.account :: f.id < e.id
    ensures forall j | 0 <= j < |Play(w, schedule).writers| && j != i ::
              e.post.account !in Held(w.chart, Play(w, schedule).writers[j])
  {
    var end := Play(w, schedule);
    ReachableIsSafe(w, schedule);
    PlayKeepsBatch(w, schedule);
    assert WriterOk(end.chart, end.log, end.used, end.nextId, i, end.writers[i]);
    PendingIsHeld(end.chart, end.log, end.nextId, i, end.writers[i]);
    forall j | 0 <= j < |end.writers| && j != i ensures e.post.account !in Held(w.chart, end.writers[j]) {
      assert Apart(end.chart, end.writers[i], end.writers[j]);
    }
  }

  /* ---------- The snapshot cut ---------- */

  /** The committed log changes only at a commit. */
  lemma LogChangesAtCommit(w: World, l: Label)
    requires WritersOk(w) && Enabled(w, l)
    ensures Fire(w, l).log == w.log
         || (l.Move? && ReadyToCommit(w, l.writer) && Fire(w, l) == Commit(w, l.writer))
  {
    if l.Move? {
      assert WriterOk(w.chart, w.log, w.used, w.nextId, l.writer, w.writers[l.writer]);
    }
  }

  /** Entries at or below a mark are never joined by another one of the account: whatever the
      schedule, the `id > last_entry_id` cut loses nothing. */
  lemma {:induction false} CutLosesNothing(w: World, schedule: seq<Label>, a: AccountId, last: nat)
    requires Safe(w) && Fits(w, schedule) && IsMark(w.log, a, last)
    ensures Select(Play(w, schedule).log, a, UpTo(last)) == Select(w.log, a, UpTo(last))
    decreases |schedule|
  {
    if schedule != [] {
      var l := schedule[0];
      LogChangesAtCommit(w, l);
      if Fire(w, l).log != w.log {
        CommitRespectsMarks(w, l.writer, a, last);
      }
      FireKeeps(w, l);
      CutLosesNothing(Fire(w, l), schedule[1..], a, last);
    }
  }

  /** A balance read in two queries, with anything happening in between, answers the committed
      balance of the moment of its second query. */
  lemma ReadsAreExact(w: World, schedule: seq<Label>, i: nat)
    requires Initial(w) && Fits(w, schedule) && i < |Play(w, schedule).readers| && Play(w, schedule).readers[i].Halfway?
    ensures var end := Play(w, schedule);
            var a := end.readers[i].account;
            StepReader(end, i).readers[i] == Answered(a, Balance(end.log, a), |end.log|)
  {
    var end := Play(w, schedule);
    ReachableIsSafe(w, schedule);
    assert end.readers[i] in end.readers;
    CutSplits(end.log, end.readers[i].account, end.readers[i].last);
  }

  /** Every stored snapshot holds the sum and the count, from scratch, of its account's committed
      entries up to its mark. */
  lemma SnapshotsAreExact(w: World, schedule: seq<Label>, s: Snapshot)
    requires Initial(w) && Fits(w, schedule) && s in Play(w, schedule).snaps
    ensures IsExact(Play(w, schedule).log, s)
  {
    ReachableIsSafe(w, schedule);
  }

  /* ---------- The funds check ---------- */

  /** The funds check reads the committed balance, and no other writer, snapshot job or reader
      can change that balance until the checking writer itself moves. */
  lemma CheckedBalanceIsStable(w: World, schedule: seq<Label>, i: nat, l: Label)
    requires Initial(w) && Fits(w, schedule) && i < |Play(w, schedule).writers|
    requires var p := Play(w, schedule).writers[i];
             (p.phase.Cutting? || p.phase.Funded? || p.phase.Writing?) && ChecksFunds(p.req)
    requires Enabled(Play(w, schedule), l) && l != Move(i)
    ensures var end := Play(w, schedule);
            var p := end.writers[i];
            && (p.phase.Cutting? ==> p.phase.balance + Total(Select(end.log, p.req.source, After(p.phase.last)))
                                     == Balance(end.log, p.req.source))
            && (!p.phase.Cutting? ==> Affords(Balance(end.log, p.req.source), p.req))
            && Balance(Fire(end, l).log, p.req.source) == Balance(end.log, p.req.source)
  {
    var end := Play(w, schedule);
    ReachableIsSafe(w, schedule);
    var p := end.writers[i];
    assert WriterOk(end.chart, end.log, end.used, end.nextId, i, p);
    if p.phase.Cutting? {
      CutSplits(end.log, p.req.source, p.phase.last);
    }
    LogChangesAtCommit(end, l);
    if Fire(end, l).log != end.log {
      SourceIsHeld(end.chart, p);
      assert Apart(end.chart, end.writers[l.writer], p);
      CommitSparesOthers(end, l.writer, p.req.source);
    }
  }

  /* ---------- Idempotency ---------- */

  /** For each key at most one writer ever commits, it commits exactly its one balanced group of
      entries -- none if it only initiated a deposit -- and a writer that lost the race or was refused
      or aborted adds none. */
  lemma KeyCommitsOnce(w: World, schedule: seq<Label>, i: nat, j: nat)
    requires Initial(w) && Fits(w, schedule)
    requires i < |Play(w, schedule).writers| && j < |Play(w, schedule).writers|
    ensures var end := Play(w, schedule);
            var p, q := end.writers[i], end.writers[j];
            && (p.phase == q.phase == Done(Committed) && p.req.key.Some? && p.req.key == q.req.key ==> i == j)
            && (p.phase == Done(Committed) ==>
                  Group(end.log, i) == Plan(end.chart, p.req)
                  && if p.req.Initiation? then Group(end.log, i) == []
                     else IsBalancedGroup(KindOf(p.req), Group(end.log, i)))
            && (p.phase != Done(Committed) ==> Group(end.log, i) == [])
  {
    ReachableIsSafe(w, schedule);
    var end := Play(w, schedule);
    var p := end.writers[i];
    assert WriterOk(end.chart, end.log, end.used, end.nextId, i, p);
    if p.phase == Done(Committed) {
      PlanIsBalanced(end.chart, p.req);
    }
  }
}
