/** What the deposit protocol can always still achieve, and what it never does when webhooks come
    from the provider only. */
module DepositOutcomes {
  import opened Wrappers
  import opened Ledger
  import opened Books
  import opened Deposits

  /* ---------- No deposit is ever stuck ---------- */

  lemma {:induction false} LongerThanAll(keys: set<string>) returns (n: nat)
    ensures forall k | k in keys :: |k| < n
  {
    n := 0;
    if keys != {} {
      var k :| k in keys;
      var m := LongerThanAll(keys - {k});
      n := if m <= |k| then |k| + 1 else m;
    }
  }

  lemma FreshPayment(payments: map<string, Payment>) returns (p: string)
    ensures p !in payments
  {
    var n := LongerThanAll(payments.Keys);
    p := seq(n, _ => 'x');
  }

  lemma StepThen(s: System, first: Label, rest: seq<Label>)
    requires Enabled(s, first) && Fits(Fire(s, first), rest)
    ensures Fits(s, [first] + rest) && Play(s, [first] + rest) == Play(Fire(s, first), rest)
  {
    assert ([first] + rest)[1..] == rest;
  }

  predicate IsCompleted(b: Book, t: TxnId) {
    t in b.txns && b.txns[t].status == Completed
  }

  /** A pending deposit can be confirmed. */
  lemma PendingConfirms(b: Book, t: TxnId, provider: string)
    requires BookOk(b) && IsPending(b, t)
    ensures Confirm(b, t, provider).1 == Accepted(t) && IsCompleted(Confirm(b, t, provider).0, t)
  {
    assert TxnOk(b, t);
  }

  lemma PaidConfirms(s: System, t: TxnId, p: string) returns (schedule: seq<Label>)
    requires SystemOk(s) && IsPending(s.book, t) && PaymentFits(s.book, s.payments, t, p)
    ensures Fits(s, schedule) && IsCompleted(Play(s, schedule).book, t)
  {
    var m := WebhookFor(s.payments[p], false, "");
    var triggered := Fire(s, Trigger(p, false, ""));
    PendingConfirms(s.book, t, "");
    StepThen(triggered, Deliver(m), []);
    StepThen(s, Trigger(p, false, ""), [Deliver(m)] + []);
    schedule := [Trigger(p, false, "")] + ([Deliver(m)] + []);
  }

  /** Notifying the provider and recording its answer leaves the deposit pending and paid for. */
  lemma NotifyAndRecord(s: System, t: TxnId, cutoff: nat, p: string)
    requires SystemOk(s) && IsPending(s.book, t) && t in Orphans(s.book, cutoff) && p !in s.payments
    ensures Enabled(Fire(s, Recover(cutoff)), Notify(JobOf(s.book, t), p))
    ensures var notified := Fire(Fire(s, Recover(cutoff)), Notify(JobOf(s.book, t), p));
            && SystemOk(notified) && Enabled(notified, Record(t, p)) && notified.book == s.book
            && PaymentFits(notified.book, notified.payments, t, p)
  {
    AcknowledgedOrRecoverable(s, t, cutoff);
    FireKeeps(s, Recover(cutoff));
    FireKeeps(Fire(s, Recover(cutoff)), Notify(JobOf(s.book, t), p));
  }

  /** From every reachable system, every pending deposit can still be completed: if it was never
      acknowledged, by recovery, notification and recording first. */
  lemma NeverStuck(s: System, t: TxnId) returns (schedule: seq<Label>)
    requires SystemOk(s) && IsPending(s.book, t)
    ensures Fits(s, schedule) && IsCompleted(Play(s, schedule).book, t)
  {
    assert TxnOk(s.book, t);
    if s.book.txns[t].reference.Some? {
      schedule := PaidConfirms(s, t, s.book.txns[t].reference.value);
    } else {
      var cutoff := s.book.txns[t].intent.value.created + 1;
      var p := FreshPayment(s.payments);
      AcknowledgedOrRecoverable(s, t, cutoff);
      NotifyAndRecord(s, t, cutoff, p);
      var job := JobOf(s.book, t);
      var notified := Fire(Fire(s, Recover(cutoff)), Notify(job, p));
      FireKeeps(notified, Record(t, p));
      var recorded := Fire(notified, Record(t, p));
      AcknowledgeRefers(notified.book, t, p);
      var rest := PaidConfirms(recorded, t, p);
      StepThen(notified, Record(t, p), rest);
      StepThen(Fire(s, Recover(cutoff)), Notify(job, p), [Record(t, p)] + rest);
      schedule := [Recover(cutoff)] + ([Notify(job, p)] + ([Record(t, p)] + rest));
      StepThen(s, Recover(cutoff), [Notify(job, p)] + ([Record(t, p)] + rest));
    }
  }

  /* ---------- When only the provider sends webhooks ---------- */

  predicate Genuine(s: System, l: Label) {
    l.Deliver? ==> l.webhook in s.sent
  }

  predicate AllGenuine(s: System, schedule: seq<Label>)
    requires Fits(s, schedule)
    decreases |schedule|
  {
    schedule == [] || (Genuine(s, schedule[0]) && AllGenuine(Fire(s, schedule[0]), schedule[1..]))
  }

  ghost predicate IsPaidFor(s: System, t: TxnId) {
    exists p :: PaymentFits(s.book, s.payments, t, p)
  }

  /** Every webhook the provider sent, and every deposit that was decided, belongs to a payment. */
  ghost predicate Paid(s: System) {
    && (forall m | m in s.sent :: m.reference.Number? && m.reference.n >= 0 && IsPaidFor(s, m.reference.n))
    && (forall t | t in s.book.txns && s.book.txns[t].intent.Some? && s.book.txns[t].status != Pending ::
          IsPaidFor(s, t))
  }

  lemma PaidStays(s: System, s': System, t: TxnId)
    requires IsPaidFor(s, t) && Extends(s.book, s'.book)
    requires forall p | p in s.payments :: p in s'.payments && s'.payments[p].reference == s.payments[p].reference
               && s'.payments[p].amount == s.payments[p].amount && s'.payments[p].currency == s.payments[p].currency
    ensures IsPaidFor(s', t)
  {
    var p :| PaymentFits(s.book, s.payments, t, p);
    IntendsStays(s.book, s'.book, t, s.payments[p].amount, s.payments[p].currency);
    assert PaymentFits(s'.book, s'.payments, t, p);
  }

  lemma PaymentsStay(s: System, l: Label)
    requires Enabled(s, l)
    ensures forall p | p in s.payments ::
              p in Fire(s, l).payments && Fire(s, l).payments[p].reference == s.payments[p].reference
              && Fire(s, l).payments[p].amount == s.payments[p].amount
              && Fire(s, l).payments[p].currency == s.payments[p].currency
  {
  }

  /** What a step may newly send, and which deposits it may newly decide. */
  lemma NewlySent(s: System, l: Label, m: Webhook)
    requires SystemOk(s) && Enabled(s, l) && m in Fire(s, l).sent && m !in s.sent
    ensures m.reference.Number? && m.reference.n >= 0 && IsPaidFor(s, m.reference.n)
  {
    hide BookOk, Intends, HandleWebhook, Submit, Conclude, Acknowledge, Apply, JobsOf, Settle;
    assert PaymentFits(s.book, s.payments, s.payments[l.payment].reference, l.payment);
  }

  lemma NewlyDecidedByOp(b: Book, op: Op, t: TxnId)
    requires KeysOk(b) && (op.SubmitOp? || op.OpenOp?)
    requires t in Apply(b, op).0.txns && Apply(b, op).0.txns[t].intent.Some? && Apply(b, op).0.txns[t].status != Pending
    ensures t in b.txns && b.txns[t] == Apply(b, op).0.txns[t]
  {
    hide Submit, Conclude, Plan;
    if op.SubmitOp? {
      if Submit(b, op.req).1.Accepted? {
        SubmitIsInsert(b, op.req);
      } else {
        RefusedChangesNothing(b, op.req);
      }
    }
  }

  lemma NewlyDecidedByWebhook(b: Book, m: Webhook, t: TxnId)
    requires t in HandleWebhook(b, m).0.txns && HandleWebhook(b, m).0.txns[t].status != Pending
    ensures t in b.txns && HandleWebhook(b, m).0.txns[t].intent == b.txns[t].intent
    ensures b.txns[t].status == Pending ==> m.reference == Number(t)
  {
  }

  lemma NewlyDecided(s: System, l: Label, t: TxnId)
    requires SystemOk(s) && Paid(s) && Enabled(s, l) && Genuine(s, l)
    requires t in Fire(s, l).book.txns && Fire(s, l).book.txns[t].intent.Some?
    requires Fire(s, l).book.txns[t].status != Pending
    ensures IsPaidFor(s, t)
  {
    hide Submit, Conclude, HandleWebhook, Open, PaymentFits;
    match l
    case Request(a, amount, cur, now, _) =>
      NewlyDecidedByOp(s.book, SubmitOp(Initiation(a, amount, cur, None, now)), t);
    case Elsewhere(op) => NewlyDecidedByOp(s.book, op, t);
    case Record(u, p) => AcknowledgeRefers(s.book, u, p);
    case Deliver(m) => NewlyDecidedByWebhook(s.book, m, t);
    case _ =>
  }

  lemma FireKeepsPaid(s: System, l: Label)
    requires SystemOk(s) && Paid(s) && LabelOk(l) && Enabled(s, l) && Genuine(s, l)
    ensures Paid(Fire(s, l))
  {
    var s' := Fire(s, l);
    FireKeeps(s, l);
    PaymentsStay(s, l);
    forall m | m in s'.sent ensures m.reference.Number? && m.reference.n >= 0 && IsPaidFor(s', m.reference.n) {
      if m !in s.sent {
        NewlySent(s, l, m);
      }
      PaidStays(s, s', m.reference.n);
    }
    forall t | t in s'.book.txns && s'.book.txns[t].intent.Some? && s'.book.txns[t].status != Pending
      ensures IsPaidFor(s', t)
    {
      NewlyDecided(s, l, t);
      PaidStays(s, s', t);
    }
  }

  /** When webhooks come from the provider only, no two-phase deposit is credited or failed
      without a provider payment of its very amount and currency. */
  lemma {:induction false} OnlyPaidDepositsAreDecided(s: System, schedule: seq<Label>)
    requires SystemOk(s) && Paid(s) && Fits(s, schedule) && AllGenuine(s, schedule)
    requires forall l | l in schedule :: LabelOk(l)
    ensures Paid(Play(s, schedule))
    decreases |schedule|
  {
    if schedule != [] {
      assert schedule[0] in schedule;
      FireKeeps(s, schedule[0]);
      FireKeepsPaid(s, schedule[0]);
      OnlyPaidDepositsAreDecided(Fire(s, schedule[0]), schedule[1..]);
    }
  }

  lemma EmptySystemIsPaid(ch: Chart, nextAccount: nat)
    ensures Paid(EmptySystem(ch, nextAccount))
  {
  }
}
