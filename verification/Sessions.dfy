/** The application serving calls one after another: requests, webhooks, worker jobs, and caches
    losing what they hold. */
module Sessions {
  import opened Wrappers
  import opened Ledger
  import opened Books
  import opened ServiceState
  import opened Services
  import D = Deposits

  datatype Call =
    | TransferCall(source: AccountId, target: AccountId, amount: real, currency: Currency, key: Option<string>)
    | DepositCall(account: AccountId, amount: real, currency: Currency, key: Option<string>)
    | ExchangeCall(source: AccountId, target: AccountId, amount: real, sourceCurrency: Currency,
                   targetCurrency: Currency, key: Option<string>, fetched: Option<real>)
    | InitiationCall(account: AccountId, amount: real, currency: Currency, key: Option<string>, now: nat)
    | CreateDepositCall(caller: nat, account: AccountId, amount: real, currency: Currency, now: nat)
    | WebhookCall(webhook: D.Webhook, envelope: Envelope)
    | NotifyJob(txn: TxnId, payment: Option<string>)
    | RecoverJob(cutoff: nat, room: nat)
    | SnapshotJob(account: AccountId)
    | OpenCall(owner: nat, currencyCode: Option<Currency>)
    | ReadCall(caller: nat, account: AccountId)
    | LoseBalance(account: AccountId)
    | LoseRate(sourceCurrency: Currency, targetCurrency: Currency)

  ghost predicate CallOk(c: Call) {
    c.ExchangeCall? && c.fetched.Some? ==> 0.0 < c.fetched.value
  }

  /** The operations among the steps of a session. */
  function OpsIn(steps: seq<Option<Op>>): seq<Op> {
    if steps == [] then []
    else OpsIn(steps[..|steps| - 1]) + if steps[|steps| - 1].Some? then [steps[|steps| - 1].value] else []
  }

  /** The ledger operation that a call amounts to, on these tables: none for calls that only read,
      queue or lose something, and none for those refused before the ledger sees them. An exchange
      runs at the cached rate or at the fetched one. */
  ghost predicate IsOpOf(s: Backend, users: set<nat>, before: Book, c: Call, op: Option<Op>) {
    match c
    case TransferCall(source, target, amount, currency, key) =>
      op == Some(SubmitOp(Transfer(source, target, amount, currency, key)))
    case DepositCall(account, amount, currency, key) => op == Some(SubmitOp(Deposit(account, amount, currency, key)))
    case ExchangeCall(source, target, amount, sourceCurrency, targetCurrency, key, fetched) =>
      op.Some? && op.value.SubmitOp? && op.value.req.Exchange?
      && op.value.req == Exchange(source, target, amount, sourceCurrency, targetCurrency, op.value.req.rate, key)
      && (fetched.Some? ==> op.value.req.rate.Some?)
    case InitiationCall(account, amount, currency, key, now) =>
      op == Some(SubmitOp(Initiation(account, amount, currency, key, now)))
    case CreateDepositCall(caller, account, amount, currency, now) =>
      op == if account in before.chart.accounts && before.chart.accounts[account].owner == caller
            then Some(SubmitOp(Initiation(account, amount, currency, None, now))) else None
    case WebhookCall(m, envelope) =>
      op == if !IsFresh(s, envelope) || D.HandleWebhook(before, m).1 != 200 then None
            else if m.event == D.DepositCompleted then Some(ConfirmOp(m.reference.n, m.provider))
            else Some(FailOp(m.reference.n))
    case NotifyJob(t, payment) => op == if payment.Some? then Some(AcknowledgeOp(t, payment.value)) else None
    case OpenCall(owner, currency) =>
      op == if currency.Some? && owner in users then Some(OpenOp(owner, currency.value)) else None
    case _ => op == None
  }

  predicate IsFresh(s: Backend, envelope: Envelope) {
    && (s.hasSecret ==> envelope.signature == RightSignature)
    && envelope.age.Some? && envelope.age.value <= s.tolerance
  }

  ghost predicate IsStep(before: Book, op: Option<Op>, after: Book) {
    after == if op.Some? then Apply(before, op.value).0 else before
  }

  datatype Reading = Read(money: Money) | Denied(error: Error)

  /** The balance endpoint answers the account's owner in the account's currency. */
  method ReadBalance(s: Backend, caller: nat, a: AccountId) returns (r: Reading)
    requires s.Valid()
    modifies s`cache
    ensures s.Valid()
    ensures r == if a !in s.chart.accounts then Denied(AccountNotFound)
                 else if s.chart.accounts[a].owner != caller then Denied(Forbidden)
                 else Read(Money(Balance(s.entries, a), s.chart.accounts[a].currency))
  {
    hide BookOk, SnapshotsOk;
    if a !in s.chart.accounts {
      return Denied(AccountNotFound);
    }
    if s.chart.accounts[a].owner != caller {
      return Denied(Forbidden);
    }
    BookIsOrdered(s.Tables());
    var money := s.GetBalance(a, s.chart.accounts[a].currency, false, false);
    return Read(money);
  }

  method ServePosting(s: Backend, c: Call, queueUp: bool) returns (ghost op: Option<Op>)
    requires s.Valid() && CallOk(c) && (c.TransferCall? || c.DepositCall? || c.ExchangeCall? || c.WebhookCall?)
    modifies s
    ensures s.Valid() && IsStep(old(s.Tables()), op, s.Tables()) && (op.Some? ==> OpOk(op.value))
    ensures IsOpOf(s, s.users, old(s.Tables()), c, op) && s.users == old(s.users)
    ensures c.ExchangeCall? ==>
              var pair := (c.sourceCurrency, c.targetCurrency);
              op.value.req.rate == if pair in old(s.rates) then Some(old(s.rates)[pair]) else c.fetched
    ensures s.snapshots == old(s.snapshots)
  {
    hide BookOk, SnapshotsOk, FreshExcept, CacheTyped, Submit, Confirm, Fail;
    match c
    case TransferCall(source, target, amount, currency, key) =>
      var _ := s.ExecuteTransfer(source, target, amount, currency, key, queueUp);
      op := Some(SubmitOp(Transfer(source, target, amount, currency, key)));
    case DepositCall(account, amount, currency, key) =>
      var _ := s.ExecuteDeposit(account, amount, currency, key, queueUp);
      op := Some(SubmitOp(Deposit(account, amount, currency, key)));
    case ExchangeCall(source, target, amount, sourceCurrency, targetCurrency, key, fetched) =>
      var _, rate := s.ExecuteFxTransfer(source, target, amount, sourceCurrency, targetCurrency, key, fetched, queueUp);
      op := Some(SubmitOp(Exchange(source, target, amount, sourceCurrency, targetCurrency, rate, key)));
    case WebhookCall(m, envelope) =>
      D.WebhookIsAnOp(s.Tables(), m);
      op := D.WebhookOp(s.Tables(), m);
      var code := s.PaymentWebhook(m, envelope, queueUp);
      if code != D.OK {
        op := None;
      }
  }

  method ServeOther(s: Backend, c: Call, queueUp: bool) returns (ghost op: Option<Op>)
    requires s.Valid() && !(c.TransferCall? || c.DepositCall? || c.ExchangeCall? || c.WebhookCall?)
    modifies s
    ensures s.Valid() && IsStep(old(s.Tables()), op, s.Tables()) && (op.Some? ==> OpOk(op.value))
    ensures IsOpOf(s, s.users, old(s.Tables()), c, op) && s.users == old(s.users)
    ensures old(s.snapshots) <= s.snapshots
  {
    hide BookOk, SnapshotsOk, FreshExcept, CacheTyped, Submit, Open, Acknowledge;
    op := None;
    match c
    case InitiationCall(account, amount, currency, key, now) =>
      var _ := s.InitiateDeposit(account, amount, currency, key, now);
      op := Some(SubmitOp(Initiation(account, amount, currency, key, now)));
    case CreateDepositCall(caller, account, amount, currency, now) =>
      if account in s.chart.accounts && s.chart.accounts[account].owner == caller {
        op := Some(SubmitOp(Initiation(account, amount, currency, None, now)));
      }
      var _ := s.CreateDeposit(caller, account, amount, currency, now, queueUp);
    case NotifyJob(t, payment) =>
      var retry := s.NotifyProvider(t, payment);
      op := if retry then None else Some(AcknowledgeOp(t, payment.value));
    case RecoverJob(cutoff, room) => var _, _ := s.RecoverOrphanDeposits(cutoff, room);
    case SnapshotJob(a) => var _ := s.ComputeAndCreateSnapshot(a);
    case OpenCall(owner, currency) =>
      if currency.Some? && owner in s.users {
        op := Some(OpenOp(owner, currency.value));
      }
      var _ := s.CreateAccount(owner, currency);
    case ReadCall(caller, a) => var _ := ReadBalance(s, caller, a);
    case LoseBalance(a) => s.InvalidateBalanceCache(a);
    case LoseRate(source, target) => s.ExpireRate(source, target);
  }

  /** One call: the tables take the step of the ledger operation that the call amounts to. */
  method ServeOne(s: Backend, c: Call, queueUp: bool) returns (ghost op: Option<Op>)
    requires s.Valid() && CallOk(c)
    modifies s
    ensures s.Valid() && IsStep(old(s.Tables()), op, s.Tables()) && (op.Some? ==> OpOk(op.value))
    ensures IsOpOf(s, s.users, old(s.Tables()), c, op) && s.users == old(s.users)
    ensures c.ExchangeCall? ==>
              var pair := (c.sourceCurrency, c.targetCurrency);
              op.value.req.rate == if pair in old(s.rates) then Some(old(s.rates)[pair]) else c.fetched
    ensures old(s.snapshots) <= s.snapshots
  {
    hide BookOk, SnapshotsOk, FreshExcept, CacheTyped, Apply;
    if c.TransferCall? || c.DepositCall? || c.ExchangeCall? || c.WebhookCall? {
      op := ServePosting(s, c, queueUp);
    } else {
      op := ServeOther(s, c, queueUp);
    }
  }

  /** Whatever is called, in whatever order, with queues up or down: each call does to the tables what
      its ledger operation does, so they are those of a run of these operations; every cached balance
      is the plain sum of its account's SUCCESS entries in the account's currency, and every snapshot is
      exact, its account's snapshots being at least `threshold` entries apart. */
  method Serve(s: Backend, calls: seq<Call>, queueUp: seq<bool>) returns (ghost steps: seq<Option<Op>>)
    requires s.Valid() && |queueUp| == |calls| && forall c | c in calls :: CallOk(c)
    modifies s
    ensures s.Valid()
    ensures |steps| == |calls| && s.Tables() == Run(old(s.Tables()), OpsIn(steps))
    ensures forall i | 0 <= i < |calls| ::
              IsOpOf(s, old(s.users), Run(old(s.Tables()), OpsIn(steps[..i])), calls[i], steps[i])
    ensures BookOk(s.Tables()) && Extends(old(s.Tables()), s.Tables())
    ensures forall a | a in s.cache ::
              && a in s.chart.accounts
              && s.cache[a] == Money(Balance(s.entries, a), s.chart.accounts[a].currency)
    ensures SnapshotsOk(s.entries, s.snapshots, s.threshold) && old(s.snapshots) <= s.snapshots
  {
    hide BookOk, SnapshotsOk, Extends, IsStep, IsOpOf, OpsIn, Run;
    ghost var start, users := s.Tables(), s.users;
    steps := [];
    NoSteps(start);
    for i := 0 to |calls|
      invariant s.Valid() && s.users == users && |steps| == i && s.Tables() == Run(start, OpsIn(steps))
      invariant forall op | op in OpsIn(steps) :: OpOk(op)
      invariant forall k | 0 <= k < i :: IsOpOf(s, users, Run(start, OpsIn(steps[..k])), calls[k], steps[k])
      invariant old(s.snapshots) <= s.snapshots
    {
      ghost var op := ServeOne(s, calls[i], queueUp[i]);
      StepJoins(start, steps, op, s.Tables());
      steps := steps + [op];
    }
    RunExtends(start, OpsIn(steps));
  }

  lemma NoSteps(start: Book)
    ensures OpsIn([]) == [] && Run(start, OpsIn([])) == start
  {
  }

  lemma StepJoins(start: Book, steps: seq<Option<Op>>, op: Option<Op>, after: Book)
    requires IsStep(Run(start, OpsIn(steps)), op, after)
    requires (op.Some? ==> OpOk(op.value)) && forall o | o in OpsIn(steps) :: OpOk(o)
    ensures after == Run(start, OpsIn(steps + [op]))
    ensures forall o | o in OpsIn(steps + [op]) :: OpOk(o)
    ensures forall k | 0 <= k <= |steps| :: (steps + [op])[..k] == steps[..k]
    ensures steps[..|steps|] == steps
  {
    hide Apply;
    assert (steps + [op])[..|steps|] == steps;
    var ops := OpsIn(steps);
    if op.Some? {
      assert OpsIn(steps + [op]) == ops + [op.value] && (ops + [op.value])[..|ops|] == ops;
    } else {
      assert OpsIn(steps + [op]) == ops;
    }
  }
}
