/** What the entries of one request guarantee: they balance in every currency, they carry
    their accounts' currencies, and they take from a user only what the funds check allowed. */
module Plans {
  import opened Wrappers
  import opened Decimals
  import opened Ledger
  import opened Sums

  /** A request that no static check refuses. */
  ghost predicate Admissible(ch: Chart, r: Request) {
    ChartOk(ch) && RateOk(r) && ArgumentError(r) == None && StaticError(ch, r) == None
  }

  predicate IsPair(p: Posting, q: Posting) {
    && {p.side, q.side} == {Debit, Credit}
    && p.amount + q.amount == 0
    && p.currency == q.currency
    && (p.side == Credit ==> p.amount >= 0)
    && (q.side == Credit ==> q.amount >= 0)
  }

  /** One debit and one credit for a transfer or deposit, two such pairs for an exchange. */
  predicate IsBalancedGroup(kind: TxnKind, g: seq<Posting>) {
    if kind == ExchangeTxn then |g| == 4 && IsPair(g[0], g[1]) && IsPair(g[2], g[3])
    else |g| == 2 && IsPair(g[0], g[1])
  }

  predicate IsTyped(ch: Chart, p: Posting) {
    p.account in ch.accounts && ch.accounts[p.account].currency == p.currency
  }

  lemma StoreExact(ch: Chart, n: int)
    requires ChartOk(ch)
    ensures ch.store(Units(n)) == n && ch.store(-Units(n)) == -n
  {
  }

  lemma StorePositive(ch: Chart, amount: real)
    requires ChartOk(ch) && 0.0 < amount
    ensures ch.store(amount) >= 0 && ch.store(-amount) == -ch.store(amount)
  {
    assert ch.store(Units(0)) <= ch.store(amount);
  }

  lemma DepositPlanIsPair(ch: Chart, a: AccountId, amount: real, cur: Currency)
    requires ChartOk(ch) && 0.0 < amount && a in ch.accounts && ch.accounts[a].currency == cur
    ensures IsBalancedGroup(DepositTxn, DepositPlan(ch, a, amount, cur))
    ensures forall p | p in DepositPlan(ch, a, amount, cur) :: IsTyped(ch, p)
  {
    StorePositive(ch, amount);
    assert IsClearing(ch, ch.clearing(cur), cur);
  }

  lemma PlanIsBalanced(ch: Chart, r: Request)
    requires Admissible(ch, r)
    ensures if r.Initiation? then Plan(ch, r) == [] else IsBalancedGroup(KindOf(r), Plan(ch, r))
    ensures forall p | p in Plan(ch, r) :: IsTyped(ch, p)
  {
    StorePositive(ch, r.amount);
    match r
    case Transfer(_, _, _, _, _) =>
    case Deposit(a, amount, cur, _) => DepositPlanIsPair(ch, a, amount, cur);
    case Initiation(_, _, _, _, _) =>
    case Exchange(_, _, amount, sc, tc, rate, _) =>
      var received := TargetAmount(amount, rate.value);
      StoreExact(ch, received);
      ExchangeWithinHalfUnit(amount, rate.value);
      assert IsClearing(ch, ch.clearing(sc), sc) && IsClearing(ch, ch.clearing(tc), tc);
  }

  /** A balanced group sums to zero in every currency. */
  lemma BalancedGroupSumsToZero(kind: TxnKind, g: seq<Posting>, cur: Currency)
    requires IsBalancedGroup(kind, g)
    ensures Sum(g, InCurrency(cur)) == 0
  {
    if kind == ExchangeTxn {
      assert g == [g[0], g[1], g[2], g[3]];
      SumFour(g[0], g[1], g[2], g[3], InCurrency(cur));
    } else {
      assert g == [g[0], g[1]];
      SumPair(g[0], g[1], InCurrency(cur));
    }
  }

  /** What a request may take from an account: its own amount from its source, nothing else. */
  function Allowance(ch: Chart, r: Request, a: AccountId): int {
    if ChecksFunds(r) && a == r.source then ch.store(r.amount) else 0
  }

  /** Only the request's source, and only by its stored amount, is ever taken from by a posting
      on a user's account. */
  lemma PostingOnUser(ch: Chart, r: Request, a: AccountId, i: nat)
    requires Admissible(ch, r) && IsUser(ch, a) && i < |Plan(ch, r)| && Plan(ch, r)[i].account == a
    ensures if ChecksFunds(r) && a == r.source then i == 0 && Plan(ch, r)[i].amount == -Allowance(ch, r, a)
            else i == |Plan(ch, r)| - 1 && Plan(ch, r)[i].amount >= 0
  {
    StorePositive(ch, r.amount);
    match r
    case Transfer(_, _, _, _, _) =>
    case Deposit(_, _, cur, _) => assert IsClearing(ch, ch.clearing(cur), cur);
    case Initiation(_, _, _, _, _) =>
    case Exchange(_, _, amount, sc, tc, rate, _) =>
      StoreExact(ch, TargetAmount(amount, rate.value));
      ExchangeWithinHalfUnit(amount, rate.value);
      assert IsClearing(ch, ch.clearing(sc), sc) && IsClearing(ch, ch.clearing(tc), tc);
  }

  /** However far the entries of a request have been written, no user has lost more than the
      request's allowance. */
  lemma {:induction false} PrefixTakesAllowance(ch: Chart, r: Request, a: AccountId, n: nat)
    requires Admissible(ch, r) && IsUser(ch, a) && n <= |Plan(ch, r)|
    ensures Sum(Plan(ch, r)[..n], OnAccount(a)) >= -Allowance(ch, r, a)
    ensures n == 0 ==> Sum(Plan(ch, r)[..n], OnAccount(a)) == 0
  {
    var plan := Plan(ch, r);
    StorePositive(ch, r.amount);
    if n > 0 {
      assert plan[..n][..n - 1] == plan[..n - 1];
      PrefixTakesAllowance(ch, r, a, n - 1);
      if plan[n - 1].account == a {
        PostingOnUser(ch, r, a, n - 1);
      }
    }
  }

  /** A request that the funds check lets through leaves every user with a non-negative
      balance, however far its entries have been written. */
  lemma AffordedPrefixKeepsFunds(ch: Chart, r: Request, log: seq<Entry>, a: AccountId, n: nat)
    requires Admissible(ch, r) && IsUser(ch, a) && n <= |Plan(ch, r)|
    requires ChecksFunds(r) ==> Affords(Balance(log, r.source), r)
    requires Balance(log, a) >= 0
    ensures Balance(log, a) + Sum(Plan(ch, r)[..n], OnAccount(a)) >= 0
  {
    PrefixTakesAllowance(ch, r, a, n);
    if ChecksFunds(r) && a == r.source {
      StorageKeepsFunds(ch.store, Balance(log, a), r.amount);
    }
  }

  /** Exactly the accounts that a request writes entries on are locked, and so is the account whose
      funds are checked. */
  lemma PlanIsOnLockedAccounts(ch: Chart, r: Request)
    ensures forall p | p in Plan(ch, r) :: p.account in LockIds(ch, r)
    ensures forall a | a in LockIds(ch, r) :: exists i :: 0 <= i < |Plan(ch, r)| && Plan(ch, r)[i].account == a
    ensures ChecksFunds(r) ==> r.source in LockIds(ch, r)
  {
    var plan, ids := Plan(ch, r), LockIds(ch, r);
    if r.Exchange? {
      assert plan[0].account == ids[0] && plan[1].account == ids[2];
      assert plan[2].account == ids[3] && plan[3].account == ids[1];
    } else if !r.Initiation? {
      assert {plan[0].account, plan[1].account} == {ids[0], ids[1]};
    }
  }

  /* ---------- Flows between the platform and its users ---------- */

  function DepositFlow(ch: Chart, a: AccountId, amount: real, cur: Currency, of: Currency): int {
    if IsUser(ch, a) && cur == of then ch.store(amount) else 0
  }

  /** By how much a request changes what all users together own of a currency. */
  function RequestFlow(ch: Chart, r: Request, of: Currency): int {
    match r
    case Transfer(s, t, amount, cur, _) =>
      if cur != of || IsUser(ch, s) == IsUser(ch, t) then 0
      else if IsUser(ch, t) then ch.store(amount)
      else -ch.store(amount)
    case Deposit(a, amount, cur, _) => DepositFlow(ch, a, amount, cur, of)
    case Initiation(_, _, _, _, _) => 0
    case Exchange(s, t, amount, sc, tc, rate, _) =>
      if sc == of && IsUser(ch, s) then -ch.store(amount)
      else if tc == of && IsUser(ch, t) && rate.Some? then TargetAmount(amount, rate.value)
      else 0
  }

  lemma DepositPlanFlow(ch: Chart, a: AccountId, amount: real, cur: Currency, of: Currency)
    requires ChartOk(ch) && 0.0 < amount
    ensures Sum(DepositPlan(ch, a, amount, cur), OfUsers(ch, of)) == DepositFlow(ch, a, amount, cur, of)
  {
    var p := DepositPlan(ch, a, amount, cur);
    SumPair(p[0], p[1], OfUsers(ch, of));
    assert IsClearing(ch, ch.clearing(cur), cur);
  }

  lemma PlanFlow(ch: Chart, r: Request, of: Currency)
    requires Admissible(ch, r)
    ensures Sum(Plan(ch, r), OfUsers(ch, of)) == RequestFlow(ch, r, of)
  {
    var p := Plan(ch, r);
    StorePositive(ch, r.amount);
    match r
    case Transfer(_, _, _, _, _) => SumPair(p[0], p[1], OfUsers(ch, of));
    case Deposit(a, amount, cur, _) => DepositPlanFlow(ch, a, amount, cur, of);
    case Initiation(_, _, _, _, _) =>
    case Exchange(_, _, amount, sc, tc, rate, _) =>
      StoreExact(ch, TargetAmount(amount, rate.value));
      SumFour(p[0], p[1], p[2], p[3], OfUsers(ch, of));
      assert IsClearing(ch, ch.clearing(sc), sc) && IsClearing(ch, ch.clearing(tc), tc);
  }
}
