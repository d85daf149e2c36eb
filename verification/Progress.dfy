/** The interleaved writers never deadlock, and every batch of them finishes. */
module Progress {
  import opened Ledger
  import opened Plans
  import opened Locks
  import opened Writers
  import opened WritersSafety

  /** `i` cannot step because `j` holds the account or the key it needs next. */
  predicate WaitsFor(w: World, i: nat, j: nat) {
    && i < |w.writers| && j < |w.writers| && i != j
    && match w.writers[i].phase
       case Locking(n) =>
         var locks := LockList(w.chart, w.writers[i].req);
         n < |locks| && locks[n] in w.chart.accounts && locks[n] in Held(w.chart, w.writers[j])
       case Funded =>
         var key := w.writers[i].req.key;
         key.Some? && key.value !in w.used && HoldsKey(w.writers[j], key.value)
       case _ => false
  }

  /** A writer is stuck exactly when another one holds what it needs. */
  lemma StuckMeansWaiting(w: World, i: nat)
    requires i < |w.writers| && !w.writers[i].phase.Done?
    ensures Step(w, i).None? <==> exists j :: WaitsFor(w, i, j)
  {
    if j :| WaitsFor(w, i, j) {
      match w.writers[i].phase
      case Locking(n) => assert LockedByOther(w, i, LockList(w.chart, w.writers[i].req)[n]);
      case Funded => assert KeyHeldByOther(w, i, w.writers[i].req.key.value);
    }
    if Step(w, i).None? {
      match w.writers[i].phase
      case Locking(n) =>
        var a := LockList(w.chart, w.writers[i].req)[n];
        var j :| 0 <= j < |w.writers| && j != i && a in Held(w.chart, w.writers[j]);
        assert WaitsFor(w, i, j);
      case Funded =>
        var j :| 0 <= j < |w.writers| && j != i && HoldsKey(w.writers[j], w.writers[i].req.key.value);
        assert WaitsFor(w, i, j);
    }
  }

  function Above(ids: seq<nat>): nat {
    if ids == [] then 0
    else if Above(ids[..|ids| - 1]) <= ids[|ids| - 1] then ids[|ids| - 1] + 1
    else Above(ids[..|ids| - 1])
  }

  lemma {:induction false} AboveBounds(ids: seq<nat>)
    ensures forall i | 0 <= i < |ids| :: ids[i] < Above(ids)
  {
    if ids != [] {
      AboveBounds(ids[..|ids| - 1]);
      assert forall i | 0 <= i < |ids| - 1 :: ids[i] == ids[..|ids| - 1][i];
    }
  }

  /** A number above every account id that any writer locks. */
  function Top(ch: Chart, writers: seq<Writer>): nat {
    if writers == [] then 0
    else
      var mine := Above(LockList(ch, writers[|writers| - 1].req));
      var rest := Top(ch, writers[..|writers| - 1]);
      if rest < mine then mine else rest
  }

  lemma {:induction false} TopBounds(ch: Chart, writers: seq<Writer>, i: nat)
    requires i < |writers|
    ensures Above(LockList(ch, writers[i].req)) <= Top(ch, writers)
  {
    if i < |writers| - 1 {
      TopBounds(ch, writers[..|writers| - 1], i);
    }
  }

  /** What a waiting writer waits for: an account id, or the key, which comes after all of them. */
  function Awaited(w: World, i: nat): nat
    requires i < |w.writers|
  {
    match w.writers[i].phase
    case Locking(n) =>
      var locks := LockList(w.chart, w.writers[i].req);
      if n < |locks| then locks[n] else 0
    case _ => Top(w.chart, w.writers)
  }

  lemma AwaitedIsBounded(w: World, i: nat)
    requires i < |w.writers|
    ensures Awaited(w, i) <= Top(w.chart, w.writers)
    ensures w.writers[i].phase.Locking? && w.writers[i].phase.taken < |LockList(w.chart, w.writers[i].req)|
            ==> Awaited(w, i) < Top(w.chart, w.writers)
  {
    hide Above, LockList;
    AboveBounds(LockList(w.chart, w.writers[i].req));
    TopBounds(w.chart, w.writers, i);
  }

  /** The next lock of a writer comes after every lock it holds. */
  lemma LocksClimb(ch: Chart, p: Writer, a: AccountId)
    requires p.phase.Locking? && p.phase.taken < |LockList(ch, p.req)|
    requires a in Held(ch, p) && LockList(ch, p.req)[p.phase.taken] !in Held(ch, p)
    ensures a < LockList(ch, p.req)[p.phase.taken]
  {
    hide Sorted, LockIds;
    var locks, m := LockList(ch, p.req), p.phase.taken;
    SortedSorts(LockIds(ch, p.req));
    var x :| 0 <= x < m && locks[..m][x] == a;
    assert locks[x] <= locks[m];
  }

  /** Whoever is waited for waits, if at all, for something later in the lock order. */
  lemma WaitingClimbs(w: World, i: nat, j: nat, k: nat)
    requires Exclusive(w) && WaitsFor(w, i, j) && WaitsFor(w, j, k)
    ensures Awaited(w, i) < Awaited(w, j)
  {
    hide Top, Above;
    if w.writers[j].phase.Locking? {
      assert Apart(w.chart, w.writers[j], w.writers[k]);
      LocksClimb(w.chart, w.writers[j], Awaited(w, i));
    } else {
      AwaitedIsBounded(w, i);
    }
  }

  ghost predicate IsWaitingPath(w: World, path: seq<nat>) {
    |path| >= 2 && forall k | 0 <= k < |path| - 1 :: WaitsFor(w, path[k], path[k + 1])
  }

  lemma {:induction false} PathClimbs(w: World, path: seq<nat>, next: nat)
    requires Exclusive(w) && IsWaitingPath(w, path) && WaitsFor(w, path[|path| - 1], next)
    ensures path[0] < |w.writers| && path[|path| - 1] < |w.writers|
    ensures Awaited(w, path[0]) < Awaited(w, path[|path| - 1])
  {
    var init := path[..|path| - 1];
    assert WaitsFor(w, path[|path| - 2], path[|path| - 1]);
    WaitingClimbs(w, path[|path| - 2], path[|path| - 1], next);
    if |path| > 2 {
      PathClimbs(w, init, path[|path| - 1]);
    }
  }

  /** Nobody ever waits for itself, however long the chain: in no reachable world is there a
      cycle of writers waiting for each other. */
  lemma NoWaitingCycle(w: World, schedule: seq<Label>, path: seq<nat>)
    requires Initial(w) && Fits(w, schedule) && IsWaitingPath(Play(w, schedule), path)
    ensures path[0] != path[|path| - 1]
  {
    InitialIsSafe(w);
    PlayKeeps(w, schedule);
    if path[0] == path[|path| - 1] {
      PathClimbs(Play(w, schedule), path, path[1]);
      assert false;
    }
  }

  lemma {:induction false} SomeoneSteps(w: World, i: nat)
    requires Exclusive(w) && i < |w.writers| && !w.writers[i].phase.Done?
    ensures exists j | 0 <= j < |w.writers| :: Step(w, j).Some?
    decreases Top(w.chart, w.writers) - Awaited(w, i)
  {
    if Step(w, i).None? {
      StuckMeansWaiting(w, i);
      var j :| WaitsFor(w, i, j);
      if Step(w, j).None? {
        StuckMeansWaiting(w, j);
        var k :| WaitsFor(w, j, k);
        WaitingClimbs(w, i, j, k);
        AwaitedIsBounded(w, j);
        SomeoneSteps(w, j);
      }
    }
  }

  /* ---------- Termination ---------- */

  /** An upper bound on the steps a writer still takes. */
  function Remaining(ch: Chart, p: Writer): int {
    var locks, entries := |LockList(ch, p.req)|, |Plan(ch, p.req)|;
    match p.phase
    case Ready => 5 + entries + locks
    case Locking(n) => 4 + entries + locks - n
    case Cutting(_, _) => 3 + entries
    case Funded => 2 + entries
    case Writing => 1 + entries - |p.pending|
    case Done(_) => 0
  }

  function Measure(ch: Chart, writers: seq<Writer>): int {
    if writers == [] then 0
    else Measure(ch, writers[..|writers| - 1]) + Remaining(ch, writers[|writers| - 1])
  }

  lemma {:induction false} MeasureReplaced(ch: Chart, writers: seq<Writer>, i: nat, p: Writer)
    requires i < |writers|
    ensures Measure(ch, writers[i := p]) == Measure(ch, writers) - Remaining(ch, writers[i]) + Remaining(ch, p)
  {
    var init := writers[..|writers| - 1];
    if i == |writers| - 1 {
      assert writers[i := p][..|writers| - 1] == init;
    } else {
      assert writers[i := p][..|writers| - 1] == init[i := p];
      MeasureReplaced(ch, init, i, p);
    }
  }

  lemma RemainingIsPositive(w: World, i: nat)
    requires WritersOk(w) && i < |w.writers|
    ensures Remaining(w.chart, w.writers[i]) >= 0
    ensures !w.writers[i].phase.Done? ==> Remaining(w.chart, w.writers[i]) > 0
  {
    WriterIsOk(w, i);
  }

  lemma {:induction false} MeasureIsPositive(w: World, n: nat)
    requires WritersOk(w) && n <= |w.writers|
    ensures Measure(w.chart, w.writers[..n]) >= 0
  {
    if n > 0 {
      MeasureIsPositive(w, n - 1);
      RemainingIsPositive(w, n - 1);
      assert w.writers[..n][..n - 1] == w.writers[..n - 1];
    }
  }

  /** `w'` differs from `w` in the writers only at `i`, which has fewer steps left. */
  ghost predicate Shortens(w: World, w': World, i: nat)
    requires i < |w.writers|
  {
    && w'.chart == w.chart
    && |w'.writers| == |w.writers| && w'.writers == w.writers[i := w'.writers[i]]
    && Remaining(w.chart, w'.writers[i]) < Remaining(w.chart, w.writers[i])
  }

  lemma LockingShortens(w: World, i: nat, n: nat)
    requires i < |w.writers| && w.writers[i].phase == Locking(n) && n <= |LockList(w.chart, w.writers[i].req)|
    requires StepLocking(w, i, n).Some?
    ensures Shortens(w, StepLocking(w, i, n).value, i)
  {
    hide Plan, LockList, LockedByOther, LateError, ChecksFunds;
  }

  lemma FundedShortens(w: World, i: nat)
    requires i < |w.writers| && w.writers[i].phase == Funded && w.writers[i].pending == [] && StepFunded(w, i).Some?
    ensures Shortens(w, StepFunded(w, i).value, i)
  {
    hide Plan, LockList, KeyHeldByOther, LooksUp;
  }

  lemma WritingShortens(w: World, i: nat)
    requires i < |w.writers| && w.writers[i].phase == Writing
    requires |w.writers[i].pending| <= |Plan(w.chart, w.writers[i].req)|
    ensures Shortens(w, StepWriting(w, i), i)
  {
  }

  lemma ReadyShortens(w: World, i: nat)
    requires i < |w.writers| && w.writers[i].phase == Ready
    ensures Shortens(w, StepReady(w, i), i)
  {
  }

  lemma CuttingShortens(w: World, i: nat, balance: int, last: nat)
    requires i < |w.writers| && w.writers[i].phase == Cutting(balance, last) && w.writers[i].pending == []
    ensures Shortens(w, StepCutting(w, i, balance, last), i)
  {
  }

  /** How far a writer has come never exceeds what it has to do. */
  predicate InBounds(ch: Chart, p: Writer) {
    && (p.phase.Locking? ==> p.phase.taken <= |LockList(ch, p.req)|)
    && (if p.phase.Writing? then |p.pending| <= |Plan(ch, p.req)| else p.pending == [])
  }

  lemma WriterInBounds(w: World, i: nat)
    requires WritersOk(w) && i < |w.writers|
    ensures InBounds(w.chart, w.writers[i])
  {
    hide Plan, LockList, Admissible;
    WriterIsOk(w, i);
  }

  lemma StepShortens(w: World, i: nat)
    requires i < |w.writers| && Step(w, i).Some? && InBounds(w.chart, w.writers[i])
    ensures Shortens(w, Step(w, i).value, i)
  {
    match w.writers[i].phase
    case Ready => ReadyShortens(w, i);
    case Locking(n) => LockingShortens(w, i, n);
    case Cutting(balance, last) => CuttingShortens(w, i, balance, last);
    case Funded => FundedShortens(w, i);
    case Writing => WritingShortens(w, i);
  }

  lemma OthersKeepWriters(w: World, l: Label)
    requires Enabled(w, l) && !l.Move? && !l.Crash?
    ensures Fire(w, l).chart == w.chart && Fire(w, l).writers == w.writers
  {
  }

  /** Writers' own steps and crashes use the measure up; nothing ever raises it. */
  lemma FireShortens(w: World, l: Label)
    requires WritersOk(w) && Enabled(w, l)
    ensures Fire(w, l).chart == w.chart && |Fire(w, l).writers| == |w.writers|
    ensures Measure(w.chart, Fire(w, l).writers) <= Measure(w.chart, w.writers) - if l.Move? || l.Crash? then 1 else 0
  {
    hide Measure, WritersOk, InBounds, Step;
    if l.Move? {
      WriterInBounds(w, l.writer);
      StepShortens(w, l.writer);
      MeasureReplaced(w.chart, w.writers, l.writer, Step(w, l.writer).value.writers[l.writer]);
    } else if l.Crash? {
      RemainingIsPositive(w, l.writer);
      MeasureReplaced(w.chart, w.writers, l.writer, Writer(w.writers[l.writer].req, Done(Aborted), []));
    } else {
      OthersKeepWriters(w, l);
    }
  }

  function WriterSteps(schedule: seq<Label>): nat {
    if schedule == [] then 0
    else (if schedule[0].Move? || schedule[0].Crash? then 1 else 0) + WriterSteps(schedule[1..])
  }

  lemma {:induction false} PlayShortens(w: World, schedule: seq<Label>)
    requires Safe(w) && Fits(w, schedule)
    ensures Safe(Play(w, schedule)) && Play(w, schedule).chart == w.chart
    ensures WriterSteps(schedule) + Measure(w.chart, Play(w, schedule).writers) <= Measure(w.chart, w.writers)
    decreases |schedule|
  {
    hide LogOk, WritersOk, Exclusive, UsedOk, SnapsOk, ReadersOk, FundsOk, ChartOk, Measure;
    if schedule != [] {
      FireKeeps(w, schedule[0]);
      FireShortens(w, schedule[0]);
      PlayShortens(Fire(w, schedule[0]), schedule[1..]);
    }
  }

  predicate AllDone(w: World) {
    forall i | 0 <= i < |w.writers| :: w.writers[i].phase.Done?
  }

  /** In a safe world somebody can step unless all are done. */
  lemma StuckMeansDone(w: World)
    requires Safe(w)
    ensures AllDone(w) <==> forall i | 0 <= i < |w.writers| :: Step(w, i).None?
  {
    if i :| 0 <= i < |w.writers| && !w.writers[i].phase.Done? {
      SomeoneSteps(w, i);
    }
  }

  lemma WholeMeasureIsPositive(w: World)
    requires Safe(w)
    ensures Measure(w.chart, w.writers) >= 0
  {
    MeasureIsPositive(w, |w.writers|);
    assert w.writers[..|w.writers|] == w.writers;
  }

  /** Deadlock freedom and termination: under every schedule the writers together take at most
      as many steps as the batch's measure, and when none of them can step, all are done. */
  lemma EveryBatchFinishes(w: World, schedule: seq<Label>)
    requires Initial(w) && Fits(w, schedule)
    ensures WriterSteps(schedule) <= Measure(w.chart, w.writers)
    ensures AllDone(Play(w, schedule)) <==>
            forall i | 0 <= i < |Play(w, schedule).writers| :: Step(Play(w, schedule), i).None?
  {
    hide LogOk, WritersOk, Exclusive, UsedOk, SnapsOk, ReadersOk, FundsOk, ChartOk, Measure, Initial;
    InitialIsSafe(w);
    PlayShortens(w, schedule);
    WholeMeasureIsPositive(Play(w, schedule));
    StuckMeansDone(Play(w, schedule));
  }

  predicate OnlyMoves(schedule: seq<Label>) {
    forall l | l in schedule :: l.Move?
  }

  lemma MoveThen(w: World, j: nat, rest: seq<Label>)
    requires j < |w.writers| && Step(w, j).Some?
    requires Fits(Step(w, j).value, rest) && AllDone(Play(Step(w, j).value, rest)) && OnlyMoves(rest)
    ensures var schedule := [Move(j)] + rest;
            Fits(w, schedule) && AllDone(Play(w, schedule)) && OnlyMoves(schedule)
  {
    var schedule := [Move(j)] + rest;
    assert schedule[0] == Move(j) && schedule[1..] == rest;
    assert Fire(w, Move(j)) == Step(w, j).value;
  }

  /** From every safe world the batch can be driven to its end without a crash. */
  lemma {:induction false} CanFinish(w: World)
    requires Safe(w)
    ensures exists schedule: seq<Label> :: Fits(w, schedule) && AllDone(Play(w, schedule)) && OnlyMoves(schedule)
    decreases Measure(w.chart, w.writers)
  {
    hide LogOk, WritersOk, Exclusive, UsedOk, SnapsOk, ReadersOk, FundsOk, ChartOk, Step;
    if AllDone(w) {
      assert Fits(w, []) && Play(w, []) == w && OnlyMoves([]);
    } else {
      StuckMeansDone(w);
      var j :| 0 <= j < |w.writers| && Step(w, j).Some?;
      var w' := Fire(w, Move(j));
      FireKeeps(w, Move(j));
      FireShortens(w, Move(j));
      WholeMeasureIsPositive(w);
      CanFinish(w');
      var rest: seq<Label> :| Fits(w', rest) && AllDone(Play(w', rest)) && OnlyMoves(rest);
      MoveThen(w, j, rest);
    }
  }
}
