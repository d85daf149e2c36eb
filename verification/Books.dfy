/** What every operation on the book keeps, and what follows for every run of operations. */
module Books {
  import opened Wrappers
  import opened Ledger
  import opened Sums
  import opened Plans

  ghost predicate AccountsOk(b: Book) {
    && ChartOk(b.chart)
    && (forall a | a in b.chart.accounts :: a < b.nextAccount)
    && 0 < b.nextAccount
  }

  /** Entry ids grow along the log, and every entry is typed, succeeded and owned. */
  ghost predicate EntriesOk(b: Book) {
    && 0 < b.nextEntry
    && (forall e | e in b.entries ::
          0 < e.id < b.nextEntry && e.status == Success && e.txn in b.txns && IsTyped(b.chart, e.post))
    && (forall i, j | 0 <= i < j < |b.entries| :: b.entries[i].id < b.entries[j].id)
  }

  ghost predicate KeysOk(b: Book) {
    && (forall t | t in b.txns :: t < b.nextTxn)
    && (forall k | k in b.keys :: b.keys[k] in b.txns && b.txns[b.keys[k]].key == Some(k))
    && (forall t | t in b.txns && b.txns[t].key.Some? ::
          b.txns[t].key.value in b.keys && b.keys[b.txns[t].key.value] == t)
  }

  /** What a deposit intends is what its account allows. */
  ghost predicate IntentOk(ch: Chart, i: Intent) {
    i.account in ch.accounts && ch.accounts[i.account].currency == i.currency && 0.0 < i.amount
  }

  /** The status of a transaction and its entries agree. */
  ghost predicate TxnOk(b: Book, t: TxnId)
    requires t in b.txns
  {
    var x := b.txns[t];
    && (x.intent.Some? ==> x.kind == DepositTxn && IntentOk(b.chart, x.intent.value))
    && (x.status == Completed ==>
          IsBalancedGroup(x.kind, Group(b.entries, t))
          && (x.intent.Some? ==> Group(b.entries, t) == IntentPlan(b.chart, x.intent.value)))
    && (x.status != Completed ==> x.intent.Some? && Group(b.entries, t) == [])
  }

  ghost predicate TxnsOk(b: Book) {
    forall t | t in b.txns :: TxnOk(b, t)
  }

  ghost predicate FundsOk(b: Book) {
    forall a | IsUser(b.chart, a) :: Balance(b.entries, a) >= 0
  }

  ghost predicate ZeroSum(b: Book) {
    forall cur: Currency :: Sum(Posts(b.entries), InCurrency(cur)) == 0
  }

  ghost predicate BookOk(b: Book) {
    AccountsOk(b) && EntriesOk(b) && KeysOk(b) && TxnsOk(b) && FundsOk(b) && ZeroSum(b)
  }

  ghost predicate OpOk(op: Op) {
    op.SubmitOp? ==> RateOk(op.req)
  }

  lemma EmptyBookOk(ch: Chart, nextAccount: nat)
    requires AccountsOk(EmptyBook(ch, nextAccount))
    ensures BookOk(EmptyBook(ch, nextAccount))
  {
  }

  /* ---------- Appending a balanced group ---------- */

  lemma AddEntriesKeepsEntries(b: Book, t: TxnId, ps: seq<Posting>)
    requires EntriesOk(b) && t in b.txns && forall p | p in ps :: IsTyped(b.chart, p)
    ensures EntriesOk(AddEntries(b, t, ps))
  {
    StampRows(ps, t, b.nextEntry);
    var b' := AddEntries(b, t, ps);
    forall e | e in b'.entries
      ensures 0 < e.id < b'.nextEntry && e.status == Success && e.txn in b.txns && IsTyped(b.chart, e.post)
    {
      assert e in b.entries || e in Stamp(ps, t, b.nextEntry);
    }
    forall i, j | 0 <= i < j < |b'.entries| ensures b'.entries[i].id < b'.entries[j].id {
      if i < |b.entries| {
        assert b.entries[i] in b.entries;
      }
    }
  }

  lemma AddEntriesKeepsZeroSum(b: Book, t: TxnId, kind: TxnKind, ps: seq<Posting>)
    requires ZeroSum(b) && (ps == [] || IsBalancedGroup(kind, ps))
    ensures ZeroSum(AddEntries(b, t, ps))
  {
    StampRows(ps, t, b.nextEntry);
    PostsConcat(b.entries, Stamp(ps, t, b.nextEntry));
    forall cur: Currency ensures Sum(Posts(b.entries) + ps, InCurrency(cur)) == 0 {
      SumConcat(Posts(b.entries), ps, InCurrency(cur));
      if ps != [] {
        BalancedGroupSumsToZero(kind, ps, cur);
      }
    }
  }

  lemma AddEntriesGroups(b: Book, t: TxnId, ps: seq<Posting>)
    ensures Group(AddEntries(b, t, ps).entries, t) == Group(b.entries, t) + ps
    ensures forall u | u != t :: Group(AddEntries(b, t, ps).entries, u) == Group(b.entries, u)
  {
    StampRows(ps, t, b.nextEntry);
    var added := Stamp(ps, t, b.nextEntry);
    GroupConcat(b.entries, added, t);
    forall u | u != t ensures Group(b.entries + added, u) == Group(b.entries, u) {
      GroupConcat(b.entries, added, u);
      GroupOfOthers(added, u);
    }
  }

  lemma AddEntriesBalance(b: Book, t: TxnId, ps: seq<Posting>, a: AccountId)
    ensures Balance(AddEntries(b, t, ps).entries, a) == Balance(b.entries, a) + Sum(ps, OnAccount(a))
  {
    StampRows(ps, t, b.nextEntry);
    BalanceConcat(b.entries, Stamp(ps, t, b.nextEntry), a);
  }

  /* ---------- Every operation keeps the invariant ---------- */

  lemma NoEntriesYet(b: Book)
    requires EntriesOk(b) && KeysOk(b)
    ensures Group(b.entries, b.nextTxn) == []
  {
    GroupOfOthers(b.entries, b.nextTxn);
  }

  /** What an accepted request passed, and what it did. */
  lemma SubmitIsInsert(b: Book, r: Request)
    requires Submit(b, r).1.Accepted?
    ensures ArgumentError(r) == None && StaticError(b.chart, r) == None
    ensures ChecksFunds(r) ==> Affords(Balance(b.entries, r.source), r)
    ensures r.key.Some? ==> r.key.value !in b.keys
    ensures Submit(b, r) == (AddEntries(Insert(b, RowOf(r)), b.nextTxn, Plan(b.chart, r)), Accepted(b.nextTxn))
  {
    hide AddEntries, Insert, Plan, Balance, Affords;
  }

  /** Whatever the session does after a refused insert, an accepted request was not refused one. */
  lemma AcceptedIsSubmitted(b: Book, r: Request, recovers: bool)
    requires ArgumentError(r).None? && EarlyError(b.chart, r).None? && Conclude(b, r, recovers).1.Accepted?
    ensures Submit(b, r) == Conclude(b, r, recovers)
  {
    hide AddEntries, Insert, Plan, Balance, Affords;
  }

  /** A request whose lookup found nothing, with nothing in between. */
  lemma ConcludesAtOnce(b: Book, r: Request, recovers: bool)
    requires ArgumentError(r).None? && EarlyError(b.chart, r).None? && !(LooksUp(r.key) && r.key.value in b.keys)
    ensures Submit(b, r) == Conclude(b, r, recovers)
  {
    hide AddEntries, Insert, Plan, Balance, Affords;
  }

  /** What is left of a request once it has passed all its checks: the insert. */
  lemma CheckedConcludes(b: Book, r: Request, recovers: bool)
    requires LateError(b.chart, r).None? && (ChecksFunds(r) ==> Affords(Balance(b.entries, r.source), r))
    ensures Conclude(b, r, recovers)
         == if r.key.Some? && r.key.value in b.keys then
              (b, if LooksUp(r.key) && recovers then Existing(b.keys[r.key.value]) else Refused(DuplicateKey))
            else (AddEntries(Insert(b, RowOf(r)), b.nextTxn, Plan(b.chart, r)), Accepted(b.nextTxn))
  {
    hide AddEntries, Insert, Plan, Balance, Affords;
  }

  lemma RefusedChangesNothing(b: Book, r: Request)
    requires !Submit(b, r).1.Accepted?
    ensures Submit(b, r).0 == b
  {
    hide AddEntries, Insert, Plan, Balance, Affords;
  }

  lemma InsertKeepsEntries(b: Book, x: Txn)
    requires EntriesOk(b)
    ensures EntriesOk(Insert(b, x)) && b.nextTxn in Insert(b, x).txns
  {
  }

  lemma InsertKeepsKeys(b: Book, x: Txn, ps: seq<Posting>)
    requires KeysOk(b) && (x.key.Some? ==> x.key.value !in b.keys)
    ensures KeysOk(AddEntries(Insert(b, x), b.nextTxn, ps))
  {
  }

  lemma InsertKeepsAccounts(b: Book, x: Txn, ps: seq<Posting>)
    requires AccountsOk(b)
    ensures AccountsOk(AddEntries(Insert(b, x), b.nextTxn, ps))
  {
  }

  /** The new row and its entries agree. */
  lemma NewRowIsOk(b: Book, r: Request, b': Book, t: TxnId)
    requires Admissible(b.chart, r) && b'.chart == b.chart
    requires t in b'.txns && b'.txns[t] == RowOf(r) && Group(b'.entries, t) == Plan(b.chart, r)
    ensures TxnOk(b', t)
  {
    hide Group;
    PlanIsBalanced(b.chart, r);
  }

  lemma SubmitKeepsTxns(b: Book, r: Request)
    requires BookOk(b) && RateOk(r) && Submit(b, r).1.Accepted?
    ensures TxnsOk(Submit(b, r).0)
  {
    hide Submit, Conclude, TxnOk, Plan, Group, FundsOk, ZeroSum, ChartOk, StaticError, ArgumentError;
    var ps, mid := Plan(b.chart, r), Insert(b, RowOf(r));
    SubmitIsInsert(b, r);
    NoEntriesYet(b);
    AddEntriesGroups(mid, b.nextTxn, ps);
    var b' := AddEntries(mid, b.nextTxn, ps);
    NewRowIsOk(b, r, b', b.nextTxn);
    forall t | t in b'.txns && t != b.nextTxn ensures TxnOk(b', t) {
      OldRowIsOk(b, b', t);
    }
  }

  lemma OldRowIsOk(b: Book, b': Book, t: TxnId)
    requires t in b.txns && TxnOk(b, t) && t in b'.txns && b'.txns[t] == b.txns[t]
    requires b'.chart == b.chart && Group(b'.entries, t) == Group(b.entries, t)
    ensures TxnOk(b', t)
  {
  }

  lemma SubmitKeepsFunds(b: Book, r: Request)
    requires BookOk(b) && RateOk(r) && Submit(b, r).1.Accepted?
    ensures FundsOk(Submit(b, r).0)
  {
    hide Submit, Conclude, TxnsOk, Plan, ZeroSum, ChartOk, EntriesOk, KeysOk, StaticError, ArgumentError, AddEntries;
    var ps, mid := Plan(b.chart, r), Insert(b, RowOf(r));
    SubmitIsInsert(b, r);
    var b' := AddEntries(mid, b.nextTxn, ps);
    assert b'.chart == b.chart by {
      AddEntriesKeepsChart(mid, b.nextTxn, ps);
    }
    forall a | IsUser(b.chart, a) ensures Balance(b'.entries, a) >= 0 {
      AddEntriesBalance(mid, b.nextTxn, ps, a);
      AffordedPrefixKeepsFunds(b.chart, r, b.entries, a, |ps|);
      assert ps[..|ps|] == ps;
    }
  }

  lemma AddEntriesKeepsChart(b: Book, t: TxnId, ps: seq<Posting>)
    ensures AddEntries(b, t, ps).chart == b.chart
  {
  }

  lemma SubmitKeeps(b: Book, r: Request)
    requires BookOk(b) && RateOk(r)
    ensures BookOk(Submit(b, r).0)
  {
    hide Submit, Conclude, AccountsOk, EntriesOk, KeysOk, TxnsOk, FundsOk, ZeroSum, Plan, AddEntries, Admissible;
    if Submit(b, r).1.Accepted? {
      var ps, mid := Plan(b.chart, r), Insert(b, RowOf(r));
      SubmitIsInsert(b, r);
      AcceptedIsAdmissible(b, r);
      PlanIsBalanced(b.chart, r);
      InsertKeepsEntries(b, RowOf(r));
      InsertKeepsKeys(b, RowOf(r), ps);
      InsertKeepsAccounts(b, RowOf(r), ps);
      AddEntriesKeepsEntries(mid, b.nextTxn, ps);
      InsertKeepsZeroSum(b, RowOf(r));
      AddEntriesKeepsZeroSum(mid, b.nextTxn, KindOf(r), ps);
      SubmitKeepsTxns(b, r);
      SubmitKeepsFunds(b, r);
    } else {
      RefusedChangesNothing(b, r);
    }
  }

  lemma AcceptedIsAdmissible(b: Book, r: Request)
    requires BookOk(b) && RateOk(r) && Submit(b, r).1.Accepted?
    ensures Admissible(b.chart, r)
  {
    hide Submit, Conclude, ChartOk, EntriesOk, KeysOk, TxnsOk, FundsOk, ZeroSum;
    SubmitIsInsert(b, r);
  }

  lemma InsertKeepsZeroSum(b: Book, x: Txn)
    requires ZeroSum(b)
    ensures ZeroSum(Insert(b, x))
  {
  }

  /** Initiating a deposit keeps the book in order and writes no entries. */
  lemma InitiateKeeps(b: Book, r: Request)
    requires BookOk(b) && r.Initiation?
    ensures BookOk(Submit(b, r).0) && Submit(b, r).0.entries == b.entries
    ensures Submit(b, r).1.Accepted? ==> IsPending(Submit(b, r).0, Submit(b, r).1.id)
  {
    hide BookOk, Submit, Conclude;
    SubmitKeeps(b, r);
    if Submit(b, r).1.Accepted? {
      SubmitIsInsert(b, r);
    } else {
      RefusedChangesNothing(b, r);
    }
  }

  lemma ConfirmKeepsFunds(b: Book, t: TxnId, reference: string)
    requires BookOk(b) && Confirm(b, t, reference).1.Accepted?
    ensures FundsOk(Confirm(b, t, reference).0)
  {
    var i := b.txns[t].intent.value;
    var ps := IntentPlan(b.chart, i);
    StorePositive(b.chart, i.amount);
    assert IsClearing(b.chart, b.chart.clearing(i.currency), i.currency);
    forall a | IsUser(b.chart, a) ensures Balance(Confirm(b, t, reference).0.entries, a) >= 0 {
      AddEntriesBalance(b, t, ps, a);
      SumPair(ps[0], ps[1], OnAccount(a));
    }
  }

  function Completing(b: Book, t: TxnId, reference: string): Book
    requires t in b.txns
  {
    b.(txns := b.txns[t := b.txns[t].(status := Completed, reference := Some(reference))])
  }

  lemma ConfirmKeepsTxns(b: Book, t: TxnId, reference: string)
    requires BookOk(b) && Confirm(b, t, reference).1.Accepted?
    ensures TxnsOk(Confirm(b, t, reference).0)
  {
    assert TxnOk(b, t);
    var i := b.txns[t].intent.value;
    DepositPlanIsPair(b.chart, i.account, i.amount, i.currency);
    AddEntriesGroups(Completing(b, t, reference), t, IntentPlan(b.chart, i));
    var b' := Confirm(b, t, reference).0;
    forall u | u in b'.txns ensures TxnOk(b', u) {
      assert TxnOk(b, u);
    }
  }

  lemma ConfirmKeeps(b: Book, t: TxnId, reference: string)
    requires BookOk(b)
    ensures BookOk(Confirm(b, t, reference).0)
  {
    if Confirm(b, t, reference).1.Accepted? {
      assert TxnOk(b, t);
      var i := b.txns[t].intent.value;
      var ps := IntentPlan(b.chart, i);
      var mid := Completing(b, t, reference);
      DepositPlanIsPair(b.chart, i.account, i.amount, i.currency);
      AddEntriesKeepsEntries(mid, t, ps);
      AddEntriesKeepsZeroSum(mid, t, DepositTxn, ps);
      ConfirmKeepsTxns(b, t, reference);
      ConfirmKeepsFunds(b, t, reference);
    }
  }

  lemma StatusOpsKeep(b: Book, t: TxnId, reference: string)
    requires BookOk(b)
    ensures BookOk(Fail(b, t).0)
    ensures BookOk(Acknowledge(b, t, reference).0)
  {
    hide ChartOk, IsBalancedGroup, DepositPlan, Balance, IntentOk, Group, IsTyped;
    forall u | u in Fail(b, t).0.txns ensures TxnOk(Fail(b, t).0, u) {
      assert TxnOk(b, u);
    }
    forall u | u in Acknowledge(b, t, reference).0.txns ensures TxnOk(Acknowledge(b, t, reference).0, u) {
      assert TxnOk(b, u);
    }
  }

  lemma OpenKeeps(b: Book, owner: nat, cur: Currency)
    requires BookOk(b)
    ensures BookOk(Open(b, owner, cur).0)
  {
    var (b', outcome) := Open(b, owner, cur);
    if outcome.Accepted? {
      forall c: Currency ensures IsClearing(b'.chart, b'.chart.clearing(c), c) {
        assert IsClearing(b.chart, b.chart.clearing(c), c);
      }
      forall u | u in b'.txns ensures TxnOk(b', u) {
        assert TxnOk(b, u);
      }
      forall a | IsUser(b'.chart, a) ensures Balance(b'.entries, a) >= 0 {
        if a == b.nextAccount {
          NothingSelected(b.entries, a, All);
        } else {
          assert IsUser(b.chart, a);
        }
      }
    }
  }

  lemma ApplyKeeps(b: Book, op: Op)
    requires BookOk(b) && OpOk(op)
    ensures BookOk(Apply(b, op).0)
  {
    hide BookOk, Submit, Confirm, Fail, Acknowledge, Open;
    match op
    case SubmitOp(r) => SubmitKeeps(b, r);
    case ConfirmOp(t, reference) => ConfirmKeeps(b, t, reference);
    case FailOp(t) => StatusOpsKeep(b, t, "");
    case AcknowledgeOp(t, reference) => StatusOpsKeep(b, t, reference);
    case OpenOp(owner, cur) => OpenKeeps(b, owner, cur);
  }

  /** Over every run: ids, typing, keys, status and entries agree, no user is overdrawn, and
      the entries of each currency sum to zero. */
  lemma {:induction false} RunKeeps(b: Book, ops: seq<Op>)
    requires BookOk(b) && forall op | op in ops :: OpOk(op)
    ensures BookOk(Run(b, ops))
  {
    if ops != [] {
      var init := ops[..|ops| - 1];
      assert ops[|ops| - 1] in ops;
      RunKeeps(b, init);
      ApplyKeeps(Run(b, init), ops[|ops| - 1]);
    }
  }

  /* ---------- What a run never undoes ---------- */

  /** `later` extends `earlier`: accounts and entries stay as they are, transactions stay, and
      a transaction that left PENDING keeps its status and its entries. */
  ghost predicate Extends(earlier: Book, later: Book) {
    && |earlier.entries| <= |later.entries| && later.entries[..|earlier.entries|] == earlier.entries
    && (forall a | a in earlier.chart.accounts ::
          a in later.chart.accounts && later.chart.accounts[a] == earlier.chart.accounts[a])
    && later.chart.clearing == earlier.chart.clearing && later.chart.store == earlier.chart.store
    && (forall t | t in earlier.txns :: t in later.txns && KeepsTxn(earlier, later, t))
    && (forall k | k in earlier.keys :: k in later.keys && later.keys[k] == earlier.keys[k])
  }

  ghost predicate KeepsTxn(earlier: Book, later: Book, t: TxnId)
    requires t in earlier.txns && t in later.txns
  {
    var x, y := earlier.txns[t], later.txns[t];
    && y.kind == x.kind && y.key == x.key && y.intent == x.intent
    && (x.status != Pending ==> y.status == x.status && Group(later.entries, t) == Group(earlier.entries, t))
  }

  lemma ExtendsItself(b: Book)
    ensures Extends(b, b)
  {
  }

  lemma InsertThenAddExtends(b: Book, x: Txn, ps: seq<Posting>)
    requires KeysOk(b) && (x.key.Some? ==> x.key.value !in b.keys)
    ensures Extends(b, AddEntries(Insert(b, x), b.nextTxn, ps))
  {
    AddEntriesGroups(Insert(b, x), b.nextTxn, ps);
    var b' := AddEntries(Insert(b, x), b.nextTxn, ps);
    forall t | t in b.txns ensures t in b'.txns && KeepsTxn(b, b', t) {
      assert t != b.nextTxn;
    }
  }

  lemma ConfirmExtends(b: Book, t: TxnId, reference: string)
    ensures Extends(b, Confirm(b, t, reference).0)
  {
    if Confirm(b, t, reference).1.Accepted? {
      var i := b.txns[t].intent.value;
      AddEntriesGroups(Completing(b, t, reference), t, IntentPlan(b.chart, i));
    }
  }

  lemma SubmitExtends(b: Book, r: Request)
    requires KeysOk(b)
    ensures Extends(b, Submit(b, r).0)
  {
    hide Submit, Conclude, KeysOk, Extends, AddEntries, Plan;
    if Submit(b, r).1.Accepted? {
      SubmitIsInsert(b, r);
      InsertThenAddExtends(b, RowOf(r), Plan(b.chart, r));
    } else {
      RefusedChangesNothing(b, r);
      ExtendsItself(b);
    }
  }

  lemma OpenExtends(b: Book, owner: nat, cur: Currency)
    requires AccountsOk(b)
    ensures Extends(b, Open(b, owner, cur).0)
  {
  }

  lemma ApplyExtends(b: Book, op: Op)
    requires AccountsOk(b) && KeysOk(b)
    ensures Extends(b, Apply(b, op).0)
  {
    hide Submit, Confirm, Open, AccountsOk, KeysOk;
    match op
    case SubmitOp(r) => SubmitExtends(b, r);
    case ConfirmOp(t, reference) => ConfirmExtends(b, t, reference);
    case OpenOp(owner, cur) => OpenExtends(b, owner, cur);
    case FailOp(t) =>
    case AcknowledgeOp(t, reference) =>
  }

  lemma ExtendsTransitive(a: Book, b: Book, c: Book)
    requires Extends(a, b) && Extends(b, c)
    ensures Extends(a, c)
  {
    assert c.entries[..|a.entries|] == c.entries[..|b.entries|][..|a.entries|];
    forall t | t in a.txns ensures t in c.txns && KeepsTxn(a, c, t) {
      assert KeepsTxn(a, b, t) && KeepsTxn(b, c, t);
    }
  }

  /** Over every run the log is append-only, account currencies and transaction keys never
      change, and COMPLETED and FAILED are never left. */
  lemma {:induction false} RunExtends(b: Book, ops: seq<Op>)
    requires BookOk(b) && forall op | op in ops :: OpOk(op)
    ensures Extends(b, Run(b, ops))
  {
    if ops != [] {
      var init := ops[..|ops| - 1];
      assert ops[|ops| - 1] in ops;
      RunKeeps(b, init);
      RunExtends(b, init);
      ApplyExtends(Run(b, init), ops[|ops| - 1]);
      ExtendsTransitive(b, Run(b, init), Run(b, ops));
    }
  }

  /* ---------- Keys, one call after another ---------- */

  lemma AcceptedKeyIsTaken(b: Book, r: Request)
    requires r.key.Some? && Submit(b, r).1.Accepted?
    ensures r.key.value in Submit(b, r).0.keys && Submit(b, r).0.keys[r.key.value] == Submit(b, r).1.id
  {
    hide Submit, Conclude, Plan;
    SubmitIsInsert(b, r);
  }

  /** What a request under a taken key is answered, and that it changes nothing. */
  lemma TakenKeyAnswers(b: Book, r: Request)
    requires r.key.Some? && r.key.value in b.keys && ArgumentError(r).None?
    ensures Submit(b, r).0 == b
    ensures LooksUp(r.key) ==> Submit(b, r).1 == Existing(b.keys[r.key.value])
    ensures !LooksUp(r.key) ==> Submit(b, r).1 == Refused(EmptyKeyError(b, r))
  {
    hide Balance, Affords, AddEntries, Insert, Plan;
  }

  /** A second request under the empty key is refused by the unique index, unless a check that
      comes before the insert refuses it first. */
  function EmptyKeyError(b: Book, r: Request): Error {
    if StaticError(b.chart, r).Some? then StaticError(b.chart, r).value
    else if ChecksFunds(r) && !Affords(Balance(b.entries, r.source), r) then InsufficientFunds
    else DuplicateKey
  }

  /** However much later, a request of any kind under a key that was accepted once changes nothing;
      it answers that first transaction if and only if the key is not empty. */
  lemma KeyFindsFirst(b: Book, first: Request, ops: seq<Op>, again: Request)
    requires BookOk(b) && RateOk(first) && forall op | op in ops :: OpOk(op)
    requires first.key.Some? && Submit(b, first).1.Accepted? && again.key == first.key && ArgumentError(again).None?
    ensures var later := Run(Submit(b, first).0, ops);
            && Submit(later, again).0 == later
            && (Submit(later, again).1 == Existing(Submit(b, first).1.id) <==> LooksUp(first.key))
  {
    LaterUnderTakenKey(b, first, ops, again);
  }

  lemma LaterUnderTakenKey(b: Book, first: Request, ops: seq<Op>, again: Request)
    requires BookOk(b) && RateOk(first) && forall op | op in ops :: OpOk(op)
    requires first.key.Some? && Submit(b, first).1.Accepted? && again.key == first.key && ArgumentError(again).None?
    ensures var later := Run(Submit(b, first).0, ops);
            && Submit(later, again).0 == later
            && Submit(later, again).1 == if LooksUp(first.key) then Existing(Submit(b, first).1.id)
                                         else Refused(EmptyKeyError(later, again))
  {
    hide BookOk, Submit, Conclude, EmptyKeyError, ArgumentError;
    SubmitKeeps(b, first);
    RunExtends(Submit(b, first).0, ops);
    AcceptedKeyIsTaken(b, first);
    TakenKeyAnswers(Run(Submit(b, first).0, ops), again);
  }

  /** The empty key is stored but never looked up: after a request under it was accepted, every
      later one is refused, with DuplicateKey if and only if it passes all the other checks. */
  lemma EmptyKeyIsRefused(b: Book, first: Request, ops: seq<Op>, again: Request)
    requires BookOk(b) && RateOk(first) && forall op | op in ops :: OpOk(op)
    requires first.key == Some("") && Submit(b, first).1.Accepted? && again.key == Some("")
    requires ArgumentError(again).None?
    ensures var later := Run(Submit(b, first).0, ops);
            && Submit(later, again).0 == later && Submit(later, again).1.Refused?
            && (Submit(later, again).1 == Refused(DuplicateKey)
                <==> StaticError(later.chart, again).None?
                     && (ChecksFunds(again) ==> Affords(Balance(later.entries, again.source), again)))
  {
    hide BookOk, Submit, Conclude, Affords, Balance, ArgumentError;
    LaterUnderTakenKey(b, first, ops, again);
    StaticIsNotDuplicate(Run(Submit(b, first).0, ops).chart, again);
  }

  lemma StaticIsNotDuplicate(ch: Chart, r: Request)
    ensures StaticError(ch, r) != Some(DuplicateKey)
  {
  }
}
