/** Money is conserved: accounts of a currency sum to zero, and what the users own together is
    exactly what flowed in from the platform less what flowed back. */
module Conservation {
  import opened Ledger
  import opened Sums
  import opened Plans
  import opened Books

  /** By how much an operation changes what all users together own of a currency. */
  function Flow(b: Book, op: Op, of: Currency): int {
    if !Apply(b, op).1.Accepted? then 0
    else match op
      case SubmitOp(r) => RequestFlow(b.chart, r, of)
      case ConfirmOp(t, _) =>
        if t in b.txns && b.txns[t].intent.Some? then
          var i := b.txns[t].intent.value;
          DepositFlow(b.chart, i.account, i.amount, i.currency, of)
        else 0
      case _ => 0
  }

  function TotalFlow(b: Book, ops: seq<Op>, of: Currency): int {
    if ops == [] then 0
    else TotalFlow(b, ops[..|ops| - 1], of) + Flow(Run(b, ops[..|ops| - 1]), ops[|ops| - 1], of)
  }

  function Holdings(b: Book, of: Currency): int {
    Sum(Posts(b.entries), OfUsers(b.chart, of))
  }

  function Among(ids: seq<AccountId>): Posting -> bool {
    (p: Posting) => p.account in ids
  }

  function SumOfBalances(log: seq<Entry>, ids: seq<AccountId>): int {
    if ids == [] then 0 else SumOfBalances(log, ids[..|ids| - 1]) + Balance(log, ids[|ids| - 1])
  }

  function AccountsIn(ch: Chart, of: Currency): set<AccountId> {
    set a | a in ch.accounts && ch.accounts[a].currency == of
  }

  function UsersIn(ch: Chart, of: Currency): set<AccountId> {
    set a | a in ch.accounts && ch.accounts[a].currency == of && !ch.accounts[a].isSystem
  }

  ghost predicate Lists(ids: seq<AccountId>, accounts: set<AccountId>) {
    && (forall a :: a in ids <==> a in accounts)
    && (forall i, j | 0 <= i < j < |ids| :: ids[i] != ids[j])
  }

  lemma {:induction false} SumAgrees(ps: seq<Posting>, f: Posting -> bool, g: Posting -> bool)
    requires forall p | p in ps :: f(p) == g(p)
    ensures Sum(ps, f) == Sum(ps, g)
  {
    if ps != [] {
      assert ps[|ps| - 1] in ps;
      SumAgrees(ps[..|ps| - 1], f, g);
    }
  }

  lemma {:induction false} SumSplitsOff(ps: seq<Posting>, ids: seq<AccountId>, a: AccountId)
    requires a !in ids
    ensures Sum(ps, Among(ids + [a])) == Sum(ps, Among(ids)) + Sum(ps, OnAccount(a))
  {
    if ps != [] {
      SumSplitsOff(ps[..|ps| - 1], ids, a);
    }
  }

  lemma {:induction false} SumIsSumOfBalances(log: seq<Entry>, ids: seq<AccountId>)
    requires forall i, j | 0 <= i < j < |ids| :: ids[i] != ids[j]
    ensures Sum(Posts(log), Among(ids)) == SumOfBalances(log, ids)
  {
    if ids == [] {
      NothingAmong(Posts(log));
    } else {
      var init, a := ids[..|ids| - 1], ids[|ids| - 1];
      SumIsSumOfBalances(log, init);
      assert ids == init + [a];
      SumSplitsOff(Posts(log), init, a);
      BalanceIsSum(log, a);
    }
  }

  lemma {:induction false} NothingAmong(ps: seq<Posting>)
    ensures Sum(ps, Among([])) == 0
  {
    if ps != [] {
      NothingAmong(ps[..|ps| - 1]);
    }
  }

  lemma {:induction false} PostsAreEntries(log: seq<Entry>)
    ensures forall p | p in Posts(log) :: exists e :: e in log && e.post == p
  {
    if log != [] {
      var init, e := log[..|log| - 1], log[|log| - 1];
      PostsAreEntries(init);
      assert log == init + [e];
    }
  }

  lemma PostsAreTyped(b: Book)
    requires EntriesOk(b)
    ensures forall p | p in Posts(b.entries) :: IsTyped(b.chart, p)
  {
    PostsAreEntries(b.entries);
  }

  /** Double entry: the balances of all accounts of a currency sum to zero. */
  lemma BalancesSumToZero(b: Book, of: Currency, ids: seq<AccountId>)
    requires BookOk(b)
    requires Lists(ids, AccountsIn(b.chart, of))
    ensures SumOfBalances(b.entries, ids) == 0
  {
    PostsAreTyped(b);
    SumIsSumOfBalances(b.entries, ids);
    SumAgrees(Posts(b.entries), Among(ids), InCurrency(of));
  }

  lemma HoldingsAreBalances(b: Book, of: Currency, ids: seq<AccountId>)
    requires BookOk(b)
    requires Lists(ids, UsersIn(b.chart, of))
    ensures SumOfBalances(b.entries, ids) == Holdings(b, of)
  {
    PostsAreTyped(b);
    SumIsSumOfBalances(b.entries, ids);
    SumAgrees(Posts(b.entries), Among(ids), OfUsers(b.chart, of));
  }

  lemma AddEntriesHoldings(b: Book, t: TxnId, ps: seq<Posting>, of: Currency)
    ensures Holdings(AddEntries(b, t, ps), of) == Holdings(b, of) + Sum(ps, OfUsers(b.chart, of))
  {
    StampRows(ps, t, b.nextEntry);
    PostsConcat(b.entries, Stamp(ps, t, b.nextEntry));
    SumConcat(Posts(b.entries), ps, OfUsers(b.chart, of));
  }

  lemma SubmitFlow(b: Book, r: Request, of: Currency)
    requires BookOk(b) && RateOk(r) && Submit(b, r).1.Accepted?
    ensures Holdings(Submit(b, r).0, of) == Holdings(b, of) + RequestFlow(b.chart, r, of)
  {
    hide Submit, Conclude;
    SubmitIsInsert(b, r);
    AddEntriesHoldings(Insert(b, RowOf(r)), b.nextTxn, Plan(b.chart, r), of);
    PlanFlow(b.chart, r, of);
  }

  lemma ConfirmFlow(b: Book, t: TxnId, reference: string, of: Currency)
    requires BookOk(b) && Confirm(b, t, reference).1.Accepted?
    ensures Holdings(Confirm(b, t, reference).0, of) == Holdings(b, of) + Flow(b, ConfirmOp(t, reference), of)
  {
    var i := b.txns[t].intent.value;
    AddEntriesHoldings(Completing(b, t, reference), t, IntentPlan(b.chart, i), of);
    DepositPlanFlow(b.chart, i.account, i.amount, i.currency, of);
  }

  lemma OpenFlow(b: Book, owner: nat, cur: Currency, of: Currency)
    requires BookOk(b)
    ensures Holdings(Open(b, owner, cur).0, of) == Holdings(b, of)
  {
    PostsAreTyped(b);
    SumAgrees(Posts(b.entries), OfUsers(Open(b, owner, cur).0.chart, of), OfUsers(b.chart, of));
  }

  lemma ApplyFlow(b: Book, op: Op, of: Currency)
    requires BookOk(b) && OpOk(op)
    ensures Holdings(Apply(b, op).0, of) == Holdings(b, of) + Flow(b, op, of)
  {
    if Apply(b, op).1.Accepted? {
      match op
      case SubmitOp(r) => SubmitFlow(b, r, of);
      case ConfirmOp(t, reference) => ConfirmFlow(b, t, reference, of);
      case OpenOp(owner, cur) => OpenFlow(b, owner, cur, of);
      case _ =>
    }
  }

  lemma {:induction false} HoldingsFollowFlows(b: Book, ops: seq<Op>, of: Currency)
    requires BookOk(b) && forall op | op in ops :: OpOk(op)
    ensures Holdings(Run(b, ops), of) == Holdings(b, of) + TotalFlow(b, ops, of)
  {
    if ops != [] {
      var init := ops[..|ops| - 1];
      assert ops[|ops| - 1] in ops;
      HoldingsFollowFlows(b, init, of);
      RunKeeps(b, init);
      ApplyFlow(Run(b, init), ops[|ops| - 1], of);
    }
  }

  /** Conservation over every run from an empty book: the accounts of a currency sum to zero,
      and the users' balances sum to confirmed and direct deposits to users, less what users
      paid into exchanges, plus what exchanges paid them, plus net transfers from system
      accounts to users. */
  lemma Conserved(ch: Chart, nextAccount: nat, ops: seq<Op>, of: Currency, all: seq<AccountId>, users: seq<AccountId>)
    requires AccountsOk(EmptyBook(ch, nextAccount)) && forall op | op in ops :: OpOk(op)
    requires Lists(all, AccountsIn(Run(EmptyBook(ch, nextAccount), ops).chart, of))
    requires Lists(users, UsersIn(Run(EmptyBook(ch, nextAccount), ops).chart, of))
    ensures SumOfBalances(Run(EmptyBook(ch, nextAccount), ops).entries, all) == 0
    ensures SumOfBalances(Run(EmptyBook(ch, nextAccount), ops).entries, users)
         == TotalFlow(EmptyBook(ch, nextAccount), ops, of)
  {
    var empty := EmptyBook(ch, nextAccount);
    EmptyBookOk(ch, nextAccount);
    RunKeeps(empty, ops);
    BalancesSumToZero(Run(empty, ops), of, all);
    HoldingsAreBalances(Run(empty, ops), of, users);
    HoldingsFollowFlows(empty, ops, of);
  }
}
