/** The payment provider: its payments, the callbacks its timers make, and the manual trigger. */
module MockProvider {
  import opened Wrappers
  import opened Ledger
  import D = Deposits

  const CREATED: nat := 201
  const BAD_REQUEST: nat := 400
  const NOT_FOUND: nat := 404
  const BAD_GATEWAY: nat := 502

  /** What becomes of a posted webhook: it never arrives, it arrives but the answer is lost, or it
      is answered. The first two look alike to the provider. */
  datatype Wire = Lost | Unanswered | Answered

  class Server {
    var payments: map<string, D.Payment>
    // Scheduled callbacks.
    var timers: multiset<string>
    // Webhooks that reached the application.
    var posted: seq<D.Webhook>

    constructor ()
      ensures payments == map[] && timers == multiset{} && posted == []
    {
      payments, timers, posted := map[], multiset{}, [];
    }

    /** A field that is missing, null or empty is `None`. The id is random. */
    method CreatePayment(reference: Option<TxnId>, amount: Option<real>, currency: Option<Currency>, id: string)
      returns (code: nat)
      requires id !in payments
      modifies this`payments, this`timers
      ensures code == if reference.Some? && amount.Some? && currency.Some? then 201 else 400
      ensures code == 201 ==>
                && payments == D.CreatePayment(old(payments), D.Job(reference.value, amount.value, currency.value), id)
                && timers == old(timers) + multiset{id}
      ensures code == 400 ==> payments == old(payments) && timers == old(timers)
    {
      if reference.None? || amount.None? || currency.None? {
        return BAD_REQUEST;
      }
      payments := payments[id := D.Payment(reference.value, amount.value, currency.value, D.PaymentPending)];
      timers := timers + multiset{id};
      return CREATED;
    }

    /** The first half of a timer's callback reports an outcome, whatever the payment's status; a
        failed post is only logged. */
    method PostCallback(id: string, failed: bool, provider: string, wire: Wire)
      modifies this`posted
      ensures posted
           == if id in payments && !wire.Lost? then old(posted) + [D.WebhookFor(payments[id], failed, provider)]
              else old(posted)
    {
      if id !in payments {
        return;
      }
      var p := payments[id];
      var event := if failed then D.DepositFailed else D.DepositCompleted;
      if !wire.Lost? {
        posted := posted + [D.Webhook(event, D.Number(p.reference), provider, p.amount, p.currency)];
      }
    }

    /** The second half settles the payment if nobody has in the meantime. */
    method FinishCallback(id: string, failed: bool)
      modifies this`payments
      ensures payments == if id in old(payments) then D.Settle(old(payments), id, failed) else old(payments)
    {
      if id !in payments {
        return;
      }
      if payments[id].status == D.PaymentPending {
        payments := payments[id := payments[id].(status := if failed then D.PaymentFailed else D.PaymentCompleted)];
      }
    }

    /** The outcome is set before the webhook is posted, so it stands even when posting fails. A
        post that raises may still have been delivered. */
    method TriggerPayment(id: string, outcome: string, provider: string, wire: Wire) returns (code: nat)
      modifies this`payments, this`posted
      ensures code == if outcome != "completed" && outcome != "failed" then 400
                      else if id !in old(payments) then 404
                      else if wire.Answered? then 200 else 502
      ensures code == 400 || code == 404 ==> payments == old(payments) && posted == old(posted)
      ensures code == 200 || code == 502 ==>
                && payments == D.Override(old(payments), id, outcome == "failed")
                && posted == if wire.Lost? then old(posted)
                             else old(posted) + [D.WebhookFor(old(payments)[id], outcome == "failed", provider)]
    {
      if outcome != "completed" && outcome != "failed" {
        return BAD_REQUEST;
      }
      if id !in payments {
        return NOT_FOUND;
      }
      var status := if outcome == "completed" then D.PaymentCompleted else D.PaymentFailed;
      payments := payments[id := payments[id].(status := status)];
      var p := payments[id];
      var event := if outcome == "completed" then D.DepositCompleted else D.DepositFailed;
      if !wire.Lost? {
        posted := posted + [D.Webhook(event, D.Number(p.reference), provider, p.amount, p.currency)];
      }
      return if wire.Answered? then D.OK else BAD_GATEWAY;
    }
  }

  /* ---------- Which outcome a payment ends up with ---------- */

  datatype Act = Timer(id: string, failed: bool) | Manual(id: string, failed: bool)

  function Perform(payments: map<string, D.Payment>, act: Act): map<string, D.Payment> {
    if act.id !in payments then payments
    else match act
      case Timer(id, failed) => D.Settle(payments, id, failed)
      case Manual(id, failed) => D.Override(payments, id, failed)
  }

  function PerformAll(payments: map<string, D.Payment>, acts: seq<Act>): map<string, D.Payment> {
    if acts == [] then payments else Perform(PerformAll(payments, acts[..|acts| - 1]), acts[|acts| - 1])
  }

  predicate IsFirstTimer(acts: seq<Act>, id: string, i: nat) {
    i < |acts| && acts[i].Timer? && acts[i].id == id && forall j | 0 <= j < i :: !(acts[j].Timer? && acts[j].id == id)
  }

  predicate IsLastManual(acts: seq<Act>, id: string, i: nat) {
    && i < |acts| && acts[i].Manual? && acts[i].id == id
    && forall j | i < j < |acts| :: !(acts[j].Manual? && acts[j].id == id)
  }

  predicate NoManual(acts: seq<Act>, id: string) {
    forall i | 0 <= i < |acts| :: !(acts[i].Manual? && acts[i].id == id)
  }

  predicate NoTimer(acts: seq<Act>, id: string) {
    forall i | 0 <= i < |acts| :: !(acts[i].Timer? && acts[i].id == id)
  }

  /** The last manual trigger decides; without one, the first timer does, if the payment was still
      pending. What the payment is for never changes. */
  lemma {:induction false} WhoDecides(payments: map<string, D.Payment>, acts: seq<Act>, id: string)
    requires id in payments
    ensures var end := PerformAll(payments, acts);
            && id in end && end[id].(status := payments[id].status) == payments[id]
            && (forall i: nat | IsLastManual(acts, id, i) :: end[id].status == D.Outcome(acts[i].failed))
            && (NoManual(acts, id) && payments[id].status == D.PaymentPending ==>
                  forall i: nat | IsFirstTimer(acts, id, i) :: end[id].status == D.Outcome(acts[i].failed))
            && (NoManual(acts, id) && (NoTimer(acts, id) || payments[id].status != D.PaymentPending) ==>
                  end[id] == payments[id])
  {
    if acts != [] {
      var init, last := acts[..|acts| - 1], acts[|acts| - 1];
      WhoDecides(payments, init, id);
      var mid, end := PerformAll(payments, init), PerformAll(payments, acts);
      forall i: nat | IsLastManual(acts, id, i) ensures end[id].status == D.Outcome(acts[i].failed) {
        if i < |init| {
          assert IsLastManual(init, id, i);
        }
      }
      if NoManual(acts, id) && payments[id].status == D.PaymentPending {
        assert NoManual(init, id);
        forall i: nat | IsFirstTimer(acts, id, i) ensures end[id].status == D.Outcome(acts[i].failed) {
          if i < |init| {
            assert IsFirstTimer(init, id, i);
          } else {
            assert NoTimer(init, id);
          }
        }
      }
      if NoManual(acts, id) && (NoTimer(acts, id) || payments[id].status != D.PaymentPending) {
        assert NoManual(init, id) && (NoTimer(acts, id) ==> NoTimer(init, id));
      }
    }
  }
}
