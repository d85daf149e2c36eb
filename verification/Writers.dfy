/** Any number of transfers, deposits, exchanges and initiated deposits running at once, with
    snapshot jobs and balance reads among them. A writer looks its key up, takes its account locks one by one in
    sorted order, reads the newest snapshot, reads the entries after it and checks its funds,
    inserts its transaction under the unique key, writes its entries one id at a time, and
    commits. At any point it may abort instead. Every step reads the committed tables as they
    are at that moment. Locks and the key are held until the writer is done. */
module Writers {
  import opened Wrappers
  import opened Ledger
  import opened Snapshots
  import opened Locks

  datatype Answer = Committed | AlreadyThere(owner: nat) | Rejected(error: Error) | Aborted

  datatype Phase =
    | Ready
    | Locking(taken: nat)
    | Cutting(balance: int, last: nat)
    | Funded
    | Writing
    | Done(answer: Answer)

  datatype Writer = Writer(req: Request, phase: Phase, pending: seq<Entry>)

  datatype Reader = Idle(account: AccountId) | Halfway(account: AccountId, balance: int, last: nat)
                  | Answered(account: AccountId, balance: int, seen: nat)

  /** An answer given to a caller, in the order in which answers were decided. */
  datatype Event = Event(writer: nat, req: Request, answer: Answer)

  /** `log` holds the committed entries in commit order; the writer's number is its transaction
      id. `used` is the unique index over committed idempotency keys. `drafts` are snapshots
      that a job has computed and not stored yet. `recovers` says whether a session whose insert was
      refused by the unique index can still look the existing transaction up. */
  datatype World = World(chart: Chart, threshold: nat, recovers: bool, writers: seq<Writer>, readers: seq<Reader>,
                         log: seq<Entry>, used: map<string, nat>, nextId: nat, snaps: seq<Snapshot>,
                         drafts: set<Snapshot>, history: seq<Event>)

  function LockList(ch: Chart, r: Request): seq<AccountId> {
    Sorted(LockIds(ch, r))
  }

  /** Locking a row that does not exist locks nothing. */
  function Rows(ch: Chart, ids: seq<AccountId>): set<AccountId> {
    set a | a in ids && a in ch.accounts
  }

  function Held(ch: Chart, p: Writer): set<AccountId> {
    match p.phase
    case Ready => {}
    case Done(_) => {}
    case Locking(n) => if n <= |LockList(ch, p.req)| then Rows(ch, LockList(ch, p.req)[..n]) else {}
    case _ => Rows(ch, LockList(ch, p.req))
  }

  predicate HoldsKey(p: Writer, k: string) {
    p.phase.Writing? && p.req.key == Some(k)
  }

  predicate LockedByOther(w: World, i: nat, a: AccountId) {
    exists j | 0 <= j < |w.writers| :: j != i && a in Held(w.chart, w.writers[j])
  }

  predicate KeyHeldByOther(w: World, i: nat, k: string) {
    exists j | 0 <= j < |w.writers| :: j != i && HoldsKey(w.writers[j], k)
  }

  function Enter(w: World, i: nat, phase: Phase): World
    requires i < |w.writers|
  {
    w.(writers := w.writers[i := w.writers[i].(phase := phase)])
  }

  function Reply(w: World, i: nat, answer: Answer): World
    requires i < |w.writers|
  {
    Enter(w, i, Done(answer)).(history := w.history + [Event(i, w.writers[i].req, answer)])
  }

  function StepReady(w: World, i: nat): World
    requires i < |w.writers|
  {
    var r := w.writers[i].req;
    if ArgumentError(r).Some? then Reply(w, i, Rejected(ArgumentError(r).value))
    else if LooksUp(r.key) && r.key.value in w.used then Reply(w, i, AlreadyThere(w.used[r.key.value]))
    else if EarlyError(w.chart, r).Some? then Reply(w, i, Rejected(EarlyError(w.chart, r).value))
    else Enter(w, i, Locking(0))
  }

  /** Nothing when another writer holds the next account. */
  function StepLocking(w: World, i: nat, n: nat): Option<World>
    requires i < |w.writers|
  {
    var r := w.writers[i].req;
    var locks := LockList(w.chart, r);
    if n < |locks| then
      if locks[n] in w.chart.accounts && LockedByOther(w, i, locks[n]) then None
      else Some(Enter(w, i, Locking(n + 1)))
    else if LateError(w.chart, r).Some? then Some(Reply(w, i, Rejected(LateError(w.chart, r).value)))
    else if ChecksFunds(r) then
      Some(Enter(w, i, Cutting(Base(w.snaps, r.source).balance, Base(w.snaps, r.source).last)))
    else Some(Enter(w, i, Funded))
  }

  function StepCutting(w: World, i: nat, balance: int, last: nat): World
    requires i < |w.writers|
  {
    var r := w.writers[i].req;
    if ChecksFunds(r) && !Affords(balance + Total(Select(w.log, r.source, After(last))), r)
    then Reply(w, i, Rejected(InsufficientFunds))
    else Enter(w, i, Funded)
  }

  /** The insert waits while another writer holds the key, and finds out whether it is taken. */
  function StepFunded(w: World, i: nat): Option<World>
    requires i < |w.writers|
  {
    var r := w.writers[i].req;
    if r.key.None? then Some(Enter(w, i, Writing))
    else if r.key.value in w.used then
      if LooksUp(r.key) && w.recovers then Some(Reply(w, i, AlreadyThere(w.used[r.key.value])))
      else Some(Reply(w, i, Rejected(DuplicateKey)))
    else if KeyHeldByOther(w, i, r.key.value) then None
    else Some(Enter(w, i, Writing))
  }

  function WriteOne(w: World, i: nat): World
    requires i < |w.writers| && |w.writers[i].pending| < |Plan(w.chart, w.writers[i].req)|
  {
    var p := w.writers[i];
    var e := Entry(w.nextId, i, Success, Plan(w.chart, p.req)[|p.pending|]);
    w.(writers := w.writers[i := p.(pending := p.pending + [e])], nextId := w.nextId + 1)
  }

  function Commit(w: World, i: nat): World
    requires i < |w.writers|
  {
    var p := w.writers[i];
    w.(log := w.log + p.pending,
       used := if p.req.key.Some? then w.used[p.req.key.value := i] else w.used,
       writers := w.writers[i := Writer(p.req, Done(Committed), [])],
       history := w.history + [Event(i, p.req, Committed)])
  }

  function StepWriting(w: World, i: nat): World
    requires i < |w.writers|
  {
    if |w.writers[i].pending| < |Plan(w.chart, w.writers[i].req)| then WriteOne(w, i) else Commit(w, i)
  }

  /** The next step of a writer; nothing when it has to wait or is done. */
  function Step(w: World, i: nat): Option<World>
    requires i < |w.writers|
  {
    match w.writers[i].phase
    case Ready => Some(StepReady(w, i))
    case Locking(n) => StepLocking(w, i, n)
    case Cutting(balance, last) => Some(StepCutting(w, i, balance, last))
    case Funded => StepFunded(w, i)
    case Writing => Some(StepWriting(w, i))
    case Done(_) => None
  }

  function Abort(w: World, i: nat): World
    requires i < |w.writers|
  {
    w.(writers := w.writers[i := Writer(w.writers[i].req, Done(Aborted), [])])
  }

  /** A balance read takes the newest snapshot in one query and the entries after it in another. */
  function StepReader(w: World, i: nat): World
    requires i < |w.readers|
  {
    match w.readers[i]
    case Idle(a) => w.(readers := w.readers[i := Halfway(a, Base(w.snaps, a).balance, Base(w.snaps, a).last)])
    case Halfway(a, balance, last) =>
      w.(readers := w.readers[i := Answered(a, balance + Total(Select(w.log, a, After(last))), |w.log|)])
    case Answered(_, _, _) => w
  }

  datatype Label =
    | Move(writer: nat)
    | Crash(writer: nat)
    | Read(reader: nat)
    | Draft(account: AccountId)
    | Store(snap: Snapshot)

  predicate Enabled(w: World, l: Label) {
    match l
    case Move(i) => i < |w.writers| && Step(w, i).Some?
    case Crash(i) => i < |w.writers| && !w.writers[i].phase.Done?
    case Read(i) => i < |w.readers|
    case Draft(a) => Proposal(w.log, w.snaps, a, w.threshold).Some?
    case Store(s) => s in w.drafts
  }

  function Fire(w: World, l: Label): World
    requires Enabled(w, l)
  {
    match l
    case Move(i) => Step(w, i).value
    case Crash(i) => Abort(w, i)
    case Read(i) => StepReader(w, i)
    case Draft(a) => w.(drafts := w.drafts + {Proposal(w.log, w.snaps, a, w.threshold).value})
    case Store(s) => w.(snaps := w.snaps + [s], drafts := w.drafts - {s})
  }

  /** A schedule fits when each of its steps is enabled where it is taken. */
  predicate Fits(w: World, schedule: seq<Label>)
    decreases |schedule|
  {
    schedule == [] || (Enabled(w, schedule[0]) && Fits(Fire(w, schedule[0]), schedule[1..]))
  }

  function Play(w: World, schedule: seq<Label>): World
    requires Fits(w, schedule)
    decreases |schedule|
  {
    if schedule == [] then w else Play(Fire(w, schedule[0]), schedule[1..])
  }

  /** Nothing has happened yet: empty tables, and every writer about to start. */
  ghost predicate Initial(w: World) {
    && ChartOk(w.chart)
    && w.log == [] && w.used == map[] && w.nextId == 1 && w.snaps == [] && w.drafts == {} && w.history == []
    && (forall p | p in w.writers :: p.phase == Ready && p.pending == [] && RateOk(p.req))
    && (forall q | q in w.readers :: q.Idle?)
  }
}
