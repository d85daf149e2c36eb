/** Where the interleaved services and the serial run part: of two requests that
    race under one key, the later can be refused although the earlier one was committed under it. */
module KeyRace {
  import opened Example
  import opened Wrappers
  import opened Decimals
  import opened Ledger
  import opened Sums
  import opened Locks
  import opened Writers
  import opened Serializability
  import B = Books

  /** The first request: a deposit of ten dollars. The second, under the same key, asks for a transfer
      that the account cannot afford. */
  function First(): Request {
    Deposit(6, 100000.0, USD, Some("k"))
  }

  function Second(): Request {
    Transfer(6, 7, 1000000.0, USD, Some("k"))
  }

  function Start(): World {
    World(Ch(), 1, true, [Writer(First(), Ready, []), Writer(Second(), Ready, [])], [], [], map[], 1, [], {}, [])
  }

  /** The world while the first request is at work and the second has passed its key lookup. */
  function Racing(phase: Phase, pending: seq<Entry>, nextId: nat): World {
    World(Ch(), 1, true, [Writer(First(), phase, pending), Writer(Second(), Locking(0), [])],
          [], [], map[], nextId, [], {}, [])
  }

  /** The world once the first request has committed. */
  function Late(phase: Phase): World {
    World(Ch(), 1, true, [Writer(First(), Done(Committed), []), Writer(Second(), phase, [])], [],
          Stamp(Plan(Ch(), First()), 0, 1), map["k" := 0], 3, [], {}, [Event(0, First(), Committed)])
  }

  lemma StartIsInitial()
    ensures Initial(Start()) && B.AccountsOk(EmptyBook(Ch(), 8))
  {
    ExampleIsOk();
  }

  lemma SortedPair(a: nat, b: nat)
    ensures Sorted([a, b]) == InsertId([a], b)
  {
    hide InsertId;
    assert [a, b][..1] == [a] && [a][..0] == [];
    assert Sorted([]) == [];
    assert Sorted([a]) == [a] by {
      InsertedAlone(a);
    }
  }

  lemma InsertedAlone(a: nat)
    ensures InsertId([], a) == [a]
  {
  }

  lemma InsertedSecond(a: nat, b: nat)
    ensures InsertId([a], b) == if a <= b then [a, b] else [b, a]
  {
    assert [a][..0] == [];
    InsertedAlone(b);
  }

  lemma LockLists()
    ensures LockList(Ch(), First()) == [1, 6] && LockList(Ch(), Second()) == [6, 7]
  {
    hide Sorted, InsertId;
    SortedPair(6, 1);
    SortedPair(6, 7);
    InsertedSecond(6, 1);
    InsertedSecond(6, 7);
  }

  lemma Replaced<T>(p: T, q: T, r: T)
    ensures [p, q][0 := r] == [r, q] && [p, q][1 := r] == [p, r]
  {
  }

  /** The first request moves from one phase to the next while the second waits at its locks. */
  lemma FirstEnters(from: Phase, to: Phase, n: nat)
    ensures Enter(Racing(from, [], n), 0, to) == Racing(to, [], n)
  {
    Replaced(Writer(First(), from, []), Writer(Second(), Locking(0), []), Writer(First(), to, []));
  }

  lemma SecondEnters(from: Phase, to: Phase)
    ensures Enter(Late(from), 1, to) == Late(to)
  {
    Replaced(Writer(First(), Done(Committed), []), Writer(Second(), from, []), Writer(Second(), to, []));
  }

  lemma OpeningMoves()
    ensures Step(Start(), 1).Some?
    ensures Step(Step(Start(), 1).value, 0) == Some(Racing(Locking(0), [], 1))
  {
    Replaced(Writer(First(), Ready, []), Writer(Second(), Ready, []), Writer(Second(), Locking(0), []));
    Replaced(Writer(First(), Ready, []), Writer(Second(), Locking(0), []), Writer(First(), Locking(0), []));
  }

  lemma FirstTakesLock(n: nat)
    requires n < 2
    ensures Step(Racing(Locking(n), [], 1), 0) == Some(Racing(Locking(n + 1), [], 1))
  {
    hide Sorted, InsertId, LockList, Plan, Enter;
    LockLists();
    FirstEnters(Locking(n), Locking(n + 1), 1);
    assert Racing(Locking(n), [], 1).writers[1] == Writer(Second(), Locking(0), []);
    assert LockList(Ch(), Second())[..0] == [];
    assert Held(Ch(), Writer(Second(), Locking(0), [])) == {};
  }

  lemma FirstGetsReady()
    ensures Step(Racing(Locking(2), [], 1), 0) == Some(Racing(Funded, [], 1))
    ensures Step(Racing(Funded, [], 1), 0) == Some(Racing(Writing, [], 1))
  {
    hide Sorted, InsertId, LockList, Plan, Enter;
    LockLists();
    FirstEnters(Locking(2), Funded, 1);
    FirstEnters(Funded, Writing, 1);
  }

  function Entries(): seq<Entry> {
    Stamp(Plan(Ch(), First()), 0, 1)
  }

  lemma FirstWritesOne(n: nat)
    requires n < 2
    ensures |Plan(Ch(), First())| == |Entries()| == 2
    ensures Step(Racing(Writing, Entries()[..n], n + 1), 0) == Some(Racing(Writing, Entries()[..n + 1], n + 2))
  {
    var before, after := Writer(First(), Writing, Entries()[..n]), Writer(First(), Writing, Entries()[..n + 1]);
    Replaced(before, Writer(Second(), Locking(0), []), after);
    assert Entries()[..n] + [Entries()[n]] == Entries()[..n + 1];
    assert Entries()[n] == Entry(n + 1, 0, Success, Plan(Ch(), First())[n]);
  }

  lemma FirstCommits()
    ensures Step(Racing(Writing, Entries()[..2], 3), 0) == Some(Late(Locking(0)))
  {
    FirstWritesOne(0);
    assert Entries()[..2] == Entries();
    var w := Racing(Writing, Entries(), 3);
    assert w.log + Entries() == Entries();
    assert w.used["k" := 0] == map["k" := 0];
    assert w.history + [Event(0, First(), Committed)] == [Event(0, First(), Committed)];
    assert Step(w, 0) == Some(Commit(w, 0));
    Replaced(Writer(First(), Writing, Entries()), Writer(Second(), Locking(0), []),
             Writer(First(), Done(Committed), []));
  }

  lemma SecondTakesLock(n: nat)
    requires n < 2
    ensures Step(Late(Locking(n)), 1) == Some(Late(Locking(n + 1)))
  {
    hide Sorted, InsertId, LockList, Plan, Enter;
    LockLists();
    SecondEnters(Locking(n), Locking(n + 1));
    assert Late(Locking(n)).writers[0].phase == Done(Committed);
    assert !LockedByOther(Late(Locking(n)), 1, LockList(Ch(), Second())[n]);
  }

  lemma SecondCuts()
    ensures Step(Late(Locking(2)), 1) == Some(Late(Cutting(0, 0)))
  {
    hide Sorted, InsertId, LockList, Plan, Enter;
    LockLists();
    SecondEnters(Locking(2), Cutting(0, 0));
  }

  lemma AccountHoldsTenDollars()
    ensures Balance(Entries(), 6) == 100000
  {
    var plan := Plan(Ch(), First());
    BalanceIsSum(Entries(), 6);
    StampRows(plan, 0, 1);
    SumPair(plan[0], plan[1], OnAccount(6));
    HalfEvenIsTheNearest(100000.0, 100000);
    assert Units(100000) == 100000.0;
  }

  lemma DeltaIsTenDollars()
    ensures Total(Select(Entries(), 6, After(0))) == 100000
  {
    StampRows(Plan(Ch(), First()), 0, 1);
    NothingSelected(Entries(), 6, UpTo(0));
    CutSplits(Entries(), 6, 0);
    AccountHoldsTenDollars();
  }

  lemma SecondIsRefused()
    ensures Step(Late(Cutting(0, 0)), 1) == Some(Reply(Late(Cutting(0, 0)), 1, Rejected(InsufficientFunds)))
    ensures Reply(Late(Cutting(0, 0)), 1, Rejected(InsufficientFunds)).history
         == [Event(0, First(), Committed), Event(1, Second(), Rejected(InsufficientFunds))]
  {
    hide Stamp, Plan, Select, Total, Accounts, Submit, Held, LockList;
    DeltaIsTenDollars();
    var w := Late(Cutting(0, 0));
    assert w.log == Entries();
    assert !Affords(0 + 100000, Second());
  }

  lemma NoMove(w: World)
    ensures Fits(w, []) && Play(w, []) == w
  {
  }

  lemma OneMove(w: World, who: nat, rest: seq<Label>)
    requires who < |w.writers| && Step(w, who).Some? && Fits(Step(w, who).value, rest)
    ensures Fits(w, [Move(who)] + rest) && Play(w, [Move(who)] + rest) == Play(Step(w, who).value, rest)
  {
    var schedule := [Move(who)] + rest;
    assert schedule[0] == Move(who) && schedule[1..] == rest;
  }

  lemma SecondMoves() returns (rest: seq<Label>)
    ensures Fits(Late(Locking(0)), rest)
    ensures Play(Late(Locking(0)), rest).history
         == [Event(0, First(), Committed), Event(1, Second(), Rejected(InsufficientFunds))]
  {
    hide Step, Fits, Play, Stamp, Plan, Accounts;
    SecondIsRefused();
    NoMove(Step(Late(Cutting(0, 0)), 1).value);
    OneMove(Late(Cutting(0, 0)), 1, []);
    SecondCuts();
    OneMove(Late(Locking(2)), 1, [Move(1)] + []);
    SecondTakesLock(1);
    OneMove(Late(Locking(1)), 1, [Move(1)] + ([Move(1)] + []));
    SecondTakesLock(0);
    rest := [Move(1)] + ([Move(1)] + ([Move(1)] + ([Move(1)] + [])));
    OneMove(Late(Locking(0)), 1, [Move(1)] + ([Move(1)] + ([Move(1)] + [])));
  }

  lemma FirstMoves(rest: seq<Label>) returns (all: seq<Label>)
    requires Fits(Late(Locking(0)), rest)
    ensures Fits(Racing(Locking(0), [], 1), all) && Play(Racing(Locking(0), [], 1), all) == Play(Late(Locking(0)), rest)
  {
    hide Step, Fits, Play, Stamp, Plan, Accounts;
    FirstWritesOne(1);
    FirstCommits();
    OneMove(Racing(Writing, Entries()[..2], 3), 0, rest);
    all := [Move(0)] + rest;
    OneMove(Racing(Writing, Entries()[..1], 2), 0, all);
    all := [Move(0)] + all;
    FirstWritesOne(0);
    assert Entries()[..0] == [];
    OneMove(Racing(Writing, [], 1), 0, all);
    all := [Move(0)] + all;
    FirstGetsReady();
    OneMove(Racing(Funded, [], 1), 0, all);
    all := [Move(0)] + all;
    OneMove(Racing(Locking(2), [], 1), 0, all);
    all := [Move(0)] + all;
    FirstTakesLock(1);
    OneMove(Racing(Locking(1), [], 1), 0, all);
    all := [Move(0)] + all;
    FirstTakesLock(0);
    OneMove(Racing(Locking(0), [], 1), 0, all);
    all := [Move(0)] + all;
  }

  lemma FirstIsAccepted()
    ensures "k" in Serial(Ch(), 8, [Event(0, First(), Committed)]).keys
  {
    var empty := EmptyBook(Ch(), 8);
    assert [Event(0, First(), Committed)] == [] + [Event(0, First(), Committed)];
    SerialGrows(Ch(), 8, [], Event(0, First(), Committed));
    assert Submits([]) == [];
    assert Serial(Ch(), 8, []) == empty;
    assert Submit(empty, First()).1 == Accepted(1);
  }

  lemma SecondWouldFindIt()
    ensures Submit(Serial(Ch(), 8, [Event(0, First(), Committed)]), Second()).1.Existing?
  {
    FirstIsAccepted();
  }

  lemma RaceRuns() returns (schedule: seq<Label>)
    ensures Fits(Start(), schedule)
    ensures Play(Start(), schedule).history
         == [Event(0, First(), Committed), Event(1, Second(), Rejected(InsufficientFunds))]
  {
    hide Fits, Play, Stamp, Plan, Accounts;
    var rest := SecondMoves();
    var all := FirstMoves(rest);
    OpeningMoves();
    OneMove(Step(Start(), 1).value, 0, all);
    schedule := [Move(1)] + ([Move(0)] + all);
    OneMove(Start(), 1, [Move(0)] + all);
  }

  /** A reachable history in which the serial run answers the second request with the existing
      transaction, while the interleaved service refused it for lack of funds. */
  lemma RacingRequestIsRefused() returns (schedule: seq<Label>)
    ensures Initial(Start()) && B.AccountsOk(EmptyBook(Ch(), 8)) && Fits(Start(), schedule)
    ensures Play(Start(), schedule).history
         == [Event(0, First(), Committed), Event(1, Second(), Rejected(InsufficientFunds))]
    ensures Submit(Serial(Ch(), 8, [Event(0, First(), Committed)]), Second()).1.Existing?
  {
    hide Fits, Play, Serial, Submit;
    StartIsInitial();
    SecondWouldFindIt();
    schedule := RaceRuns();
  }
}
