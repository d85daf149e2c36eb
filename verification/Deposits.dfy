/** The two-phase deposit protocol: the API, the job queue, the worker, the payment provider and
    the webhook. The queue may redeliver or lose jobs, replies may be lost or arrive late, and any
    webhook may arrive at any time, any number of times, whoever sent it. */
module Deposits {
  import opened Wrappers
  import opened Ledger
  import opened Books

  /** A queued notification of the provider. */
  datatype Job = Job(txn: TxnId, amount: real, currency: Currency)

  datatype PaymentStatus = PaymentPending | PaymentCompleted | PaymentFailed

  datatype Payment = Payment(reference: TxnId, amount: real, currency: Currency, status: PaymentStatus)

  datatype EventType = DepositCompleted | DepositFailed | UnknownEvent

  /** The reference id of a webhook is text; it may not be a number. */
  datatype Reference = NotANumber | Number(n: int)

  datatype Webhook = Webhook(event: EventType, reference: Reference, provider: string, amount: real, currency: Currency)

  /* ---------- The webhook endpoint ---------- */

  const OK: nat := 200
  const BAD_REQUEST: nat := 400
  const UNPROCESSABLE: nat := 422

  /** Dispatch to confirm or fail; anything the service refuses is rolled back. */
  function HandleWebhook(b: Book, m: Webhook): (Book, nat) {
    if m.reference.NotANumber? then (b, BAD_REQUEST)
    else match m.event
      case UnknownEvent => (b, BAD_REQUEST)
      case DepositCompleted =>
        if m.reference.n < 0 || !Confirm(b, m.reference.n, m.provider).1.Accepted? then (b, UNPROCESSABLE)
        else (Confirm(b, m.reference.n, m.provider).0, OK)
      case DepositFailed =>
        if m.reference.n < 0 || !Fail(b, m.reference.n).1.Accepted? then (b, UNPROCESSABLE)
        else (Fail(b, m.reference.n).0, OK)
  }

  /** The status that an accepted webhook gives its deposit. */
  function Decided(m: Webhook): TxnStatus {
    if m.event == DepositCompleted then Completed else Failed
  }

  /* ---------- Recovery ---------- */

  /** A PENDING deposit that the provider never acknowledged and that is older than the cutoff. */
  predicate IsOrphan(x: Txn, cutoff: nat) {
    && x.kind == DepositTxn && x.status == Pending && x.reference.None?
    && x.intent.Some? && x.intent.value.created < cutoff
  }

  function Orphans(b: Book, cutoff: nat): set<TxnId> {
    set t | t in b.txns && IsOrphan(b.txns[t], cutoff)
  }

  function JobOf(b: Book, t: TxnId): Job {
    if t in b.txns && b.txns[t].intent.Some? then Job(t, b.txns[t].intent.value.amount, b.txns[t].intent.value.currency)
    else Job(t, 0.0, USD)
  }

  function JobsOf(b: Book, ts: set<TxnId>): set<Job> {
    set t | t in ts :: JobOf(b, t)
  }

  /* ---------- The system ---------- */

  /** Payments and their status live at the provider; `replies` are its answers that the worker
      has not stored; `sent` are the webhooks that it ever sent. */
  datatype System = System(book: Book, queue: multiset<Job>, payments: map<string, Payment>,
                           replies: set<(TxnId, string)>, sent: set<Webhook>)

  datatype Label =
    | Request(account: AccountId, amount: real, currency: Currency, now: nat, queued: bool)
    | Recover(cutoff: nat)
    | Notify(job: Job, payment: string)
    | Forget(job: Job)
    | Record(txn: TxnId, payment: string)
    | Callback(payment: string, failed: bool, provider: string)
    | Finish(payment: string, failed: bool)
    | Trigger(payment: string, failed: bool, provider: string)
    | Deliver(webhook: Webhook)
    | Elsewhere(op: Op)

  /** A new payment's id has never been used. */
  predicate Enabled(s: System, l: Label) {
    match l
    case Request(_, _, _, _, _) => true
    case Recover(_) => true
    case Notify(job, payment) => job in s.queue && payment !in s.payments
    case Forget(job) => job in s.queue
    case Record(t, payment) => (t, payment) in s.replies
    case Callback(payment, _, _) => payment in s.payments
    case Finish(payment, _) => payment in s.payments
    case Trigger(payment, _, _) => payment in s.payments
    case Deliver(_) => true
    case Elsewhere(op) => op.SubmitOp? || op.OpenOp?
  }

  function WebhookFor(p: Payment, failed: bool, provider: string): Webhook {
    Webhook(if failed then DepositFailed else DepositCompleted, Number(p.reference), provider, p.amount, p.currency)
  }

  function Outcome(failed: bool): PaymentStatus {
    if failed then PaymentFailed else PaymentCompleted
  }

  /** The provider registers a payment. */
  function CreatePayment(payments: map<string, Payment>, job: Job, payment: string): map<string, Payment> {
    payments[payment := Payment(job.txn, job.amount, job.currency, PaymentPending)]
  }

  /** The timer sends its webhook first; its outcome counts only while the payment is pending. */
  function Settle(payments: map<string, Payment>, payment: string, failed: bool): map<string, Payment>
    requires payment in payments
  {
    if payments[payment].status == PaymentPending then
      payments[payment := payments[payment].(status := Outcome(failed))]
    else payments
  }

  /** A manual trigger always sets the outcome. */
  function Override(payments: map<string, Payment>, payment: string, failed: bool): map<string, Payment>
    requires payment in payments
  {
    payments[payment := payments[payment].(status := Outcome(failed))]
  }

  function Fire(s: System, l: Label): System
    requires Enabled(s, l)
  {
    match l
    case Request(a, amount, cur, now, queued) =>
      var (b, outcome) := Submit(s.book, Initiation(a, amount, cur, None, now));
      s.(book := b,
         queue := if outcome.Accepted? && queued then s.queue + multiset{Job(outcome.id, amount, cur)} else s.queue)
    case Recover(cutoff) => s.(queue := s.queue + multiset(JobsOf(s.book, Orphans(s.book, cutoff))))
    case Notify(job, payment) =>
      s.(payments := CreatePayment(s.payments, job, payment), replies := s.replies + {(job.txn, payment)})
    case Forget(job) => s.(queue := s.queue - multiset{job})
    case Record(t, payment) => s.(book := Acknowledge(s.book, t, payment).0)
    case Callback(payment, failed, provider) => s.(sent := s.sent + {WebhookFor(s.payments[payment], failed, provider)})
    case Finish(payment, failed) => s.(payments := Settle(s.payments, payment, failed))
    case Trigger(payment, failed, provider) =>
      s.(payments := Override(s.payments, payment, failed),
         sent := s.sent + {WebhookFor(s.payments[payment], failed, provider)})
    case Deliver(m) => s.(book := HandleWebhook(s.book, m).0)
    case Elsewhere(op) => s.(book := Apply(s.book, op).0)
  }

  predicate Fits(s: System, schedule: seq<Label>)
    decreases |schedule|
  {
    schedule == [] || (Enabled(s, schedule[0]) && Fits(Fire(s, schedule[0]), schedule[1..]))
  }

  function Play(s: System, schedule: seq<Label>): System
    requires Fits(s, schedule)
    decreases |schedule|
  {
    if schedule == [] then s else Play(Fire(s, schedule[0]), schedule[1..])
  }

  function EmptySystem(ch: Chart, nextAccount: nat): System {
    System(EmptyBook(ch, nextAccount), multiset{}, map[], {}, {})
  }

  ghost predicate LabelOk(l: Label) {
    l.Elsewhere? ==> OpOk(l.op)
  }

  /* ---------- The invariant ---------- */

  /** Transaction `t` is a two-phase deposit of this amount and currency. */
  ghost predicate Intends(b: Book, t: TxnId, amount: real, cur: Currency) {
    && t in b.txns && b.txns[t].intent.Some?
    && b.txns[t].intent.value.amount == amount && b.txns[t].intent.value.currency == cur
  }

  ghost predicate PaymentFits(b: Book, payments: map<string, Payment>, t: TxnId, payment: string) {
    && payment in payments && payments[payment].reference == t
    && Intends(b, t, payments[payment].amount, payments[payment].currency)
  }

  ghost predicate SystemOk(s: System) {
    && BookOk(s.book)
    && (forall job | job in s.queue :: Intends(s.book, job.txn, job.amount, job.currency))
    && (forall p | p in s.payments :: PaymentFits(s.book, s.payments, s.payments[p].reference, p))
    && (forall t, p | (t, p) in s.replies :: PaymentFits(s.book, s.payments, t, p))
    && (forall t | t in s.book.txns && s.book.txns[t].status == Pending && s.book.txns[t].reference.Some? ::
          PaymentFits(s.book, s.payments, t, s.book.txns[t].reference.value))
  }

  lemma EmptySystemOk(ch: Chart, nextAccount: nat)
    requires AccountsOk(EmptyBook(ch, nextAccount))
    ensures SystemOk(EmptySystem(ch, nextAccount))
  {
    EmptyBookOk(ch, nextAccount);
  }

  /** Intents never change, so what fitted keeps fitting. */
  lemma IntendsStays(b: Book, b': Book, t: TxnId, amount: real, cur: Currency)
    requires Extends(b, b') && Intends(b, t, amount, cur)
    ensures Intends(b', t, amount, cur)
  {
    assert KeepsTxn(b, b', t);
  }

  /** A step of the book keeps the system when every reference of a pending deposit fits. */
  lemma BookStepKeeps(s: System, b': Book)
    requires SystemOk(s) && BookOk(b') && Extends(s.book, b')
    requires forall t | t in b'.txns && b'.txns[t].status == Pending && b'.txns[t].reference.Some? ::
               PaymentFits(s.book, s.payments, t, b'.txns[t].reference.value)
    ensures SystemOk(s.(book := b'))
  {
    forall job | job in s.queue ensures Intends(b', job.txn, job.amount, job.currency) {
      IntendsStays(s.book, b', job.txn, job.amount, job.currency);
    }
    forall p | p in s.payments ensures PaymentFits(b', s.payments, s.payments[p].reference, p) {
      IntendsStays(s.book, b', s.payments[p].reference, s.payments[p].amount, s.payments[p].currency);
    }
    forall t, p | PaymentFits(s.book, s.payments, t, p) ensures PaymentFits(b', s.payments, t, p) {
      IntendsStays(s.book, b', t, s.payments[p].amount, s.payments[p].currency);
    }
  }

  /** Which operations of the book give no pending deposit a new reference. */
  lemma QuietOps(b: Book, op: Op)
    requires KeysOk(b) && !op.AcknowledgeOp?
    ensures var b' := Apply(b, op).0;
            forall t | t in b'.txns && b'.txns[t].status == Pending && b'.txns[t].reference.Some? ::
              t in b.txns && b.txns[t].status == Pending && b.txns[t].reference == b'.txns[t].reference
  {
    hide Submit, Conclude, Plan;
    if op.SubmitOp? {
      if Submit(b, op.req).1.Accepted? {
        SubmitIsInsert(b, op.req);
      } else {
        RefusedChangesNothing(b, op.req);
      }
    }
  }

  /** The webhook endpoint does what a confirm, a fail or nothing at all does. */
  function WebhookOp(b: Book, m: Webhook): Option<Op> {
    if HandleWebhook(b, m).1 != OK then None
    else Some(if m.event == DepositCompleted then ConfirmOp(m.reference.n, m.provider) else FailOp(m.reference.n))
  }

  lemma WebhookIsAnOp(b: Book, m: Webhook)
    ensures HandleWebhook(b, m).0 == if WebhookOp(b, m).Some? then Apply(b, WebhookOp(b, m).value).0 else b
    ensures WebhookOp(b, m).Some? ==> Apply(b, WebhookOp(b, m).value).1 == Accepted(m.reference.n)
  {
  }

  lemma OpKeeps(s: System, op: Op)
    requires SystemOk(s) && OpOk(op) && !op.AcknowledgeOp?
    ensures SystemOk(s.(book := Apply(s.book, op).0)) && Extends(s.book, Apply(s.book, op).0)
  {
    ApplyKeeps(s.book, op);
    ApplyExtends(s.book, op);
    QuietOps(s.book, op);
    BookStepKeeps(s, Apply(s.book, op).0);
  }

  lemma AcknowledgeRefers(b: Book, t: TxnId, payment: string)
    ensures forall u | u in Acknowledge(b, t, payment).0.txns ::
              u in b.txns && Acknowledge(b, t, payment).0.txns[u].status == b.txns[u].status
              && Acknowledge(b, t, payment).0.txns[u].reference == if u == t then Some(payment) else b.txns[u].reference
  {
  }

  lemma AcknowledgeExtends(b: Book, t: TxnId, payment: string)
    ensures Extends(b, Acknowledge(b, t, payment).0)
  {
  }

  lemma RecordKeeps(s: System, t: TxnId, payment: string)
    requires SystemOk(s) && (t, payment) in s.replies
    ensures SystemOk(s.(book := Acknowledge(s.book, t, payment).0))
    ensures Extends(s.book, Acknowledge(s.book, t, payment).0)
  {
    hide BookOk, Intends, PaymentFits, Extends;
    StatusOpsKeep(s.book, t, payment);
    AcknowledgeExtends(s.book, t, payment);
    AcknowledgeRefers(s.book, t, payment);
    BookStepKeeps(s, Acknowledge(s.book, t, payment).0);
  }

  lemma PaymentsKeep(s: System, payments: map<string, Payment>)
    requires SystemOk(s) && s.payments.Keys <= payments.Keys
    requires forall p | p in payments ::
               if p in s.payments then
                 payments[p].(status := PaymentPending) == s.payments[p].(status := PaymentPending)
               else Intends(s.book, payments[p].reference, payments[p].amount, payments[p].currency)
    ensures SystemOk(s.(payments := payments))
  {
    forall p | p in payments ensures PaymentFits(s.book, payments, payments[p].reference, p) {
      assert p in s.payments ==> PaymentFits(s.book, s.payments, s.payments[p].reference, p);
    }
    forall t, p | PaymentFits(s.book, s.payments, t, p) ensures PaymentFits(s.book, payments, t, p) {
      assert payments[p].(status := PaymentPending) == s.payments[p].(status := PaymentPending);
    }
  }

  lemma NotifyKeeps(s: System, job: Job, payment: string)
    requires SystemOk(s) && Enabled(s, Notify(job, payment))
    ensures SystemOk(Fire(s, Notify(job, payment)))
  {
    var payments := CreatePayment(s.payments, job, payment);
    PaymentsKeep(s, payments);
    assert PaymentFits(s.book, payments, job.txn, payment);
  }

  lemma ProviderKeeps(s: System, l: Label)
    requires SystemOk(s) && Enabled(s, l) && (l.Callback? || l.Finish? || l.Trigger?)
    ensures SystemOk(Fire(s, l))
  {
    hide BookOk, Intends, PaymentFits;
    match l
    case Callback(payment, failed, _) =>
    case Finish(payment, failed) => PaymentsKeep(s, Settle(s.payments, payment, failed));
    case Trigger(payment, failed, _) => PaymentsKeep(s, Override(s.payments, payment, failed));
  }

  lemma OrphanJobsFit(b: Book, cutoff: nat)
    ensures forall job | job in JobsOf(b, Orphans(b, cutoff)) :: Intends(b, job.txn, job.amount, job.currency)
  {
  }

  lemma QueueKeeps(s: System, queue: multiset<Job>)
    requires SystemOk(s) && forall job | job in queue :: Intends(s.book, job.txn, job.amount, job.currency)
    ensures SystemOk(s.(queue := queue))
  {
  }

  lemma RecoverKeeps(s: System, cutoff: nat)
    requires SystemOk(s)
    ensures SystemOk(Fire(s, Recover(cutoff)))
  {
    OrphanJobsFit(s.book, cutoff);
    QueueKeeps(s, Fire(s, Recover(cutoff)).queue);
  }

  lemma ForgetKeeps(s: System, job: Job)
    requires SystemOk(s)
    ensures SystemOk(s.(queue := s.queue - multiset{job}))
  {
    QueueKeeps(s, s.queue - multiset{job});
  }

  lemma RequestKeeps(s: System, l: Label)
    requires SystemOk(s) && l.Request?
    ensures SystemOk(Fire(s, l)) && Extends(s.book, Fire(s, l).book)
  {
    var op := SubmitOp(Initiation(l.account, l.amount, l.currency, None, l.now));
    OpKeeps(s, op);
    var s' := s.(book := Apply(s.book, op).0);
    QueueKeeps(s', Fire(s, l).queue);
  }

  lemma DeliverKeeps(s: System, m: Webhook)
    requires SystemOk(s)
    ensures SystemOk(Fire(s, Deliver(m))) && Extends(s.book, Fire(s, Deliver(m)).book)
  {
    hide Confirm, Fail, BookOk, SystemOk;
    WebhookIsAnOp(s.book, m);
    if WebhookOp(s.book, m).Some? {
      OpKeeps(s, WebhookOp(s.book, m).value);
    }
  }

  lemma FireKeeps(s: System, l: Label)
    requires SystemOk(s) && LabelOk(l) && Enabled(s, l)
    ensures SystemOk(Fire(s, l)) && Extends(s.book, Fire(s, l).book)
  {
    hide Confirm, Fail, BookOk, Submit, Conclude, PaymentFits, SystemOk, Extends, Acknowledge, HandleWebhook;
    ExtendsItself(s.book);
    match l
    case Request(_, _, _, _, _) => RequestKeeps(s, l);
    case Recover(cutoff) => RecoverKeeps(s, cutoff);
    case Notify(job, payment) => NotifyKeeps(s, job, payment);
    case Forget(job) => ForgetKeeps(s, job);
    case Record(t, payment) => RecordKeeps(s, t, payment);
    case Callback(_, _, _) => ProviderKeeps(s, l);
    case Finish(_, _) => ProviderKeeps(s, l);
    case Trigger(_, _, _) => ProviderKeeps(s, l);
    case Deliver(m) => DeliverKeeps(s, m);
    case Elsewhere(op) => OpKeeps(s, op);
  }

  lemma {:induction false} PlayKeeps(s: System, schedule: seq<Label>)
    requires SystemOk(s) && Fits(s, schedule) && forall l | l in schedule :: LabelOk(l)
    ensures SystemOk(Play(s, schedule)) && Extends(s.book, Play(s, schedule).book)
    decreases |schedule|
  {
    if schedule != [] {
      assert schedule[0] in schedule;
      FireKeeps(s, schedule[0]);
      PlayKeeps(Fire(s, schedule[0]), schedule[1..]);
      ExtendsTransitive(s.book, Fire(s, schedule[0]).book, Play(s, schedule).book);
    }
  }

  /* ---------- Main results ---------- */

  /** What a two-phase deposit's account may have received: nothing, or exactly what was asked
      for when the deposit was initiated, once. */
  ghost predicate CreditedAsAsked(b: Book, t: TxnId)
    requires t in b.txns && b.txns[t].intent.Some?
  {
    var i := b.txns[t].intent.value;
    Group(b.entries, t) == if b.txns[t].status == Completed then IntentPlan(b.chart, i) else []
  }

  /** Exactly once, for any schedule: once a deposit exists its intent never changes, it is
      credited at most once and as it was asked for, and once it has left PENDING its status and
      its entries are final. */
  lemma ExactlyOnce(s: System, earlier: seq<Label>, later: seq<Label>, t: TxnId)
    requires SystemOk(s) && Fits(s, earlier) && Fits(Play(s, earlier), later)
    requires forall l | l in earlier + later :: LabelOk(l)
    requires t in Play(s, earlier).book.txns && Play(s, earlier).book.txns[t].intent.Some?
    ensures var mid, end := Play(s, earlier).book, Play(Play(s, earlier), later).book;
            && t in end.txns && end.txns[t].intent == mid.txns[t].intent
            && CreditedAsAsked(mid, t) && CreditedAsAsked(end, t)
            && (mid.txns[t].status != Pending ==>
                  end.txns[t].status == mid.txns[t].status && Group(end.entries, t) == Group(mid.entries, t))
  {
    assert forall l | l in earlier :: l in earlier + later;
    assert forall l | l in later :: l in earlier + later;
    PlayKeeps(s, earlier);
    PlayKeeps(Play(s, earlier), later);
    var mid, end := Play(s, earlier).book, Play(Play(s, earlier), later).book;
    assert KeepsTxn(mid, end, t);
    assert TxnOk(mid, t) && TxnOk(end, t);
  }

  lemma WebhookSettles(b: Book, m: Webhook)
    requires HandleWebhook(b, m).1 == OK
    ensures m.reference.Number? && m.reference.n >= 0 && m.reference.n in HandleWebhook(b, m).0.txns
    ensures HandleWebhook(b, m).0.txns[m.reference.n].status == Decided(m)
    ensures m.event == DepositCompleted ==> HandleWebhook(b, m).0.txns[m.reference.n].reference == Some(m.provider)
  {
  }

  lemma SettledRefuses(b: Book, m: Webhook)
    requires m.reference.Number? && m.reference.n >= 0 && m.reference.n in b.txns
    requires b.txns[m.reference.n].status != Pending
    requires !m.event.UnknownEvent?
    ensures HandleWebhook(b, m) == (b, UNPROCESSABLE)
  {
  }

  /** The first accepted webhook decides: whatever follows, the deposit keeps that outcome and
      every further webhook for it is answered 422 and changes nothing. */
  lemma FirstWebhookDecides(s: System, first: Webhook, later: seq<Label>, again: Webhook)
    requires SystemOk(s) && HandleWebhook(s.book, first).1 == OK
    requires Fits(Fire(s, Deliver(first)), later) && forall l | l in later :: LabelOk(l)
    requires again.reference == first.reference && !again.event.UnknownEvent?
    ensures var end := Play(Fire(s, Deliver(first)), later);
            && first.reference.n in end.book.txns
            && end.book.txns[first.reference.n].status == Decided(first)
            && HandleWebhook(end.book, again) == (end.book, UNPROCESSABLE)
  {
    hide BookOk, SystemOk, Confirm, Fail;
    DeliverKeeps(s, first);
    var after := Fire(s, Deliver(first));
    PlayKeeps(after, later);
    WebhookSettles(s.book, first);
    assert KeepsTxn(after.book, Play(after, later).book, first.reference.n);
    SettledRefuses(Play(after, later).book, again);
  }

  /** A pending deposit either has a matching payment under its reference, or recovery with a
      late enough cutoff enqueues its notification. */
  lemma AcknowledgedOrRecoverable(s: System, t: TxnId, cutoff: nat)
    requires SystemOk(s) && IsPending(s.book, t)
    ensures s.book.txns[t].intent.Some?
    ensures t in Orphans(s.book, cutoff) <==>
              s.book.txns[t].reference.None? && s.book.txns[t].intent.value.created < cutoff
    ensures s.book.txns[t].reference.Some? ==> PaymentFits(s.book, s.payments, t, s.book.txns[t].reference.value)
    ensures t in Orphans(s.book, cutoff) ==> JobOf(s.book, t) in Fire(s, Recover(cutoff)).queue
  {
    assert TxnOk(s.book, t);
    assert t in Orphans(s.book, cutoff) ==> JobOf(s.book, t) in JobsOf(s.book, Orphans(s.book, cutoff));
  }

  /** An accepted request leaves a PENDING deposit that nobody has been credited for, that recovery
      finds exactly from its creation on, and whose notification is queued if the queue was up. */
  lemma RequestIsRecoverable(s: System, l: Label, cutoff: nat)
    requires SystemOk(s) && l.Request?
    requires Submit(s.book, Initiation(l.account, l.amount, l.currency, None, l.now)).1.Accepted?
    ensures var (s', t) := (Fire(s, l), s.book.nextTxn);
            && t !in s.book.txns && IsPending(s'.book, t) && Intends(s'.book, t, l.amount, l.currency)
            && s'.book.entries == s.book.entries && Group(s'.book.entries, t) == []
            && (t in Orphans(s'.book, cutoff) <==> l.now < cutoff)
            && (l.queued ==> Job(t, l.amount, l.currency) in s'.queue)
  {
    hide BookOk, Submit, Conclude, Group;
    var r := Initiation(l.account, l.amount, l.currency, None, l.now);
    InitiateKeeps(s.book, r);
    SubmitIsInsert(s.book, r);
    NoEntries(s.book);
  }

  lemma NoEntries(b: Book)
    requires BookOk(b)
    ensures Group(b.entries, b.nextTxn) == [] && b.nextTxn !in b.txns
  {
    NoEntriesYet(b);
  }

  /** Recovery enqueues one job for each orphan, with what the deposit recorded, and nothing else. */
  lemma RecoveryIsExact(b: Book, cutoff: nat)
    ensures |JobsOf(b, Orphans(b, cutoff))| == |Orphans(b, cutoff)|
    ensures forall job :: job in JobsOf(b, Orphans(b, cutoff)) <==>
              job.txn in Orphans(b, cutoff) && Intends(b, job.txn, job.amount, job.currency)
  {
    var ts := Orphans(b, cutoff);
    JobsAreDistinct(b, ts);
    forall job ensures job in JobsOf(b, ts) <==> job.txn in ts && Intends(b, job.txn, job.amount, job.currency) {
      if job.txn in ts && Intends(b, job.txn, job.amount, job.currency) {
        assert job == JobOf(b, job.txn);
      }
    }
  }

  lemma {:induction false} JobsAreDistinct(b: Book, ts: set<TxnId>)
    ensures |JobsOf(b, ts)| == |ts|
    decreases |ts|
  {
    if ts != {} {
      var t :| t in ts;
      JobsAreDistinct(b, ts - {t});
      assert JobsOf(b, ts) == JobsOf(b, ts - {t}) + {JobOf(b, t)};
      assert JobOf(b, t) !in JobsOf(b, ts - {t});
    }
  }
}
