/** The double-entry ledger as a value: its tables, the requests made of it, and what each
    service call does to it when calls run one at a time. Balances are plain sums here; the
    services' snapshots and caches, and their interleaving, are proved against this module. */
module Ledger {
  import opened Wrappers
  import opened Decimals

  type AccountId = nat
  type TxnId = nat

  datatype Currency = USD | EUR | GBP | NGN | XAF

  datatype Account = Account(owner: nat, currency: Currency, isSystem: bool)

  /** The accounts, the platform clearing account of each currency, and how the database
      rounds an amount to whole units when it stores it. */
  datatype Chart = Chart(accounts: map<AccountId, Account>, clearing: Currency -> AccountId, store: real -> int)

  ghost predicate ChartOk(ch: Chart) {
    && IsStorageRounding(ch.store)
    && 0 !in ch.accounts
    && (forall cur: Currency :: IsClearing(ch, ch.clearing(cur), cur))
    && (forall a, b | a in ch.accounts && b in ch.accounts ::
          ch.accounts[a].owner == ch.accounts[b].owner && ch.accounts[a].currency == ch.accounts[b].currency ==> a == b)
  }

  predicate IsClearing(ch: Chart, a: AccountId, cur: Currency) {
    a in ch.accounts && ch.accounts[a].isSystem && ch.accounts[a].currency == cur
  }

  predicate IsUser(ch: Chart, a: AccountId) {
    a in ch.accounts && !ch.accounts[a].isSystem
  }

  /* ---------- Entries and sums ---------- */

  datatype Side = Debit | Credit

  datatype Posting = Posting(account: AccountId, amount: int, side: Side, currency: Currency)

  datatype EntryStatus = EntryPending | Success | EntryFailed

  datatype Entry = Entry(id: nat, txn: TxnId, status: EntryStatus, post: Posting)

  /** Which entry ids a query looks at. */
  datatype Cut = All | After(id: nat) | UpTo(id: nat)

  predicate Passes(cut: Cut, id: nat) {
    match cut
    case All => true
    case After(k) => k < id
    case UpTo(k) => id <= k
  }

  predicate Picks(e: Entry, a: AccountId, cut: Cut) {
    e.status == Success && e.post.account == a && Passes(cut, e.id)
  }

  /** The SUCCESS entries of an account that the cut lets through, in log order. */
  function Select(log: seq<Entry>, a: AccountId, cut: Cut): seq<Entry> {
    if log == [] then []
    else
      var e := log[|log| - 1];
      Select(log[..|log| - 1], a, cut) + if Picks(e, a, cut) then [e] else []
  }

  function Total(rows: seq<Entry>): int {
    if rows == [] then 0 else Total(rows[..|rows| - 1]) + rows[|rows| - 1].post.amount
  }

  /** The definition of a balance: the sum of all SUCCESS entries of the account. */
  function Balance(log: seq<Entry>, a: AccountId): int {
    Total(Select(log, a, All))
  }

  /** The postings of the SUCCESS entries, in log order. */
  function Posts(log: seq<Entry>): seq<Posting> {
    if log == [] then []
    else
      var e := log[|log| - 1];
      Posts(log[..|log| - 1]) + if e.status == Success then [e.post] else []
  }

  function Sum(ps: seq<Posting>, keep: Posting -> bool): int {
    if ps == [] then 0
    else
      var p := ps[|ps| - 1];
      Sum(ps[..|ps| - 1], keep) + if keep(p) then p.amount else 0
  }

  function OnAccount(a: AccountId): Posting -> bool {
    (p: Posting) => p.account == a
  }

  function InCurrency(cur: Currency): Posting -> bool {
    (p: Posting) => p.currency == cur
  }

  function OfUsers(ch: Chart, cur: Currency): Posting -> bool {
    (p: Posting) => IsUser(ch, p.account) && p.currency == cur
  }

  /** The postings of one transaction. */
  function Group(log: seq<Entry>, t: TxnId): seq<Posting> {
    if log == [] then []
    else
      var e := log[|log| - 1];
      Group(log[..|log| - 1], t) + if e.txn == t then [e.post] else []
  }

  /* ---------- Requests ---------- */

  /** Amounts are in units and may have any number of digits. The rate of an exchange is what
      the rate lookup answered. An initiation records a two-phase deposit and writes no entries. */
  datatype Request =
    | Transfer(source: AccountId, target: AccountId, amount: real, currency: Currency, key: Option<string>)
    | Deposit(account: AccountId, amount: real, currency: Currency, key: Option<string>)
    | Initiation(account: AccountId, amount: real, currency: Currency, key: Option<string>, now: nat)
    | Exchange(source: AccountId, target: AccountId, amount: real, sourceCurrency: Currency,
               targetCurrency: Currency, rate: Option<real>, key: Option<string>)

  datatype Error =
    | CurrencyMismatch | AccountNotFound | InsufficientFunds | InvalidState | DuplicateKey | Conflict
    | Forbidden | UserNotFound | UnknownCurrency

  datatype Outcome = Accepted(id: nat) | Existing(id: nat) | Refused(error: Error)

  /** Exchange rates are positive. */
  predicate RateOk(r: Request) {
    r.Exchange? && r.rate.Some? ==> 0.0 < r.rate.value
  }

  /** The empty string is falsy: it is stored, but never looked up. */
  predicate LooksUp(key: Option<string>) {
    key.Some? && key.value != ""
  }

  /** What is checked before the idempotency lookup. */
  function ArgumentError(r: Request): Option<Error> {
    match r
    case Transfer(s, t, amount, _, _) => if s == t || amount <= 0.0 then Some(CurrencyMismatch) else None
    case Deposit(_, amount, _, _) => if amount <= 0.0 then Some(CurrencyMismatch) else None
    case Initiation(_, amount, _, _, _) => if amount <= 0.0 then Some(CurrencyMismatch) else None
    case Exchange(_, _, amount, sc, tc, _, _) => if sc == tc || amount <= 0.0 then Some(CurrencyMismatch) else None
  }

  function DepositError(ch: Chart, a: AccountId, cur: Currency): Option<Error> {
    if a !in ch.accounts then Some(AccountNotFound)
    else if ch.accounts[a].currency != cur then Some(CurrencyMismatch)
    else None
  }

  /** What is checked between the lookup and the account locks. */
  function EarlyError(ch: Chart, r: Request): Option<Error> {
    match r
    case Transfer(_, _, _, _, _) => None
    case Deposit(a, _, cur, _) => DepositError(ch, a, cur)
    case Initiation(a, _, cur, _, _) => DepositError(ch, a, cur)
    case Exchange(s, t, _, _, _, rate, _) =>
      if rate.None? then Some(CurrencyMismatch)
      else if s !in ch.accounts || t !in ch.accounts then Some(AccountNotFound)
      else None
  }

  /** What is checked once the account locks are held. */
  function LateError(ch: Chart, r: Request): Option<Error> {
    match r
    case Transfer(s, t, _, cur, _) =>
      if s !in ch.accounts || t !in ch.accounts then Some(AccountNotFound)
      else if ch.accounts[s].currency != cur || ch.accounts[t].currency != cur then Some(CurrencyMismatch)
      else None
    case Deposit(_, _, _, _) => None
    case Initiation(_, _, _, _, _) => None
    case Exchange(s, t, _, sc, tc, _, _) =>
      if s !in ch.accounts || t !in ch.accounts then Some(AccountNotFound)
      else if ch.accounts[s].currency != sc || ch.accounts[t].currency != tc then Some(CurrencyMismatch)
      else None
  }

  function StaticError(ch: Chart, r: Request): Option<Error> {
    if EarlyError(ch, r).Some? then EarlyError(ch, r) else LateError(ch, r)
  }

  /** The account ids a request locks, in the order the service lists them. An initiation locks none. */
  function LockIds(ch: Chart, r: Request): seq<AccountId> {
    match r
    case Transfer(s, t, _, _, _) => [s, t]
    case Deposit(a, _, cur, _) => [a, ch.clearing(cur)]
    case Initiation(_, _, _, _, _) => []
    case Exchange(s, t, _, sc, tc, _, _) => [s, t, ch.clearing(sc), ch.clearing(tc)]
  }

  /** Transfers and exchanges check the source's funds; deposits check none. */
  predicate ChecksFunds(r: Request) {
    r.Transfer? || r.Exchange?
  }

  /** The funds check compares the stored balance with the amount before it is rounded. */
  predicate Affords(balance: int, r: Request) {
    ChecksFunds(r) ==> r.amount <= Units(balance)
  }

  function DepositPlan(ch: Chart, a: AccountId, amount: real, cur: Currency): seq<Posting> {
    [Posting(ch.clearing(cur), ch.store(-amount), Debit, cur), Posting(a, ch.store(amount), Credit, cur)]
  }

  function TransferPlan(ch: Chart, s: AccountId, t: AccountId, amount: real, cur: Currency): seq<Posting> {
    [Posting(s, ch.store(-amount), Debit, cur), Posting(t, ch.store(amount), Credit, cur)]
  }

  function ExchangePlan(ch: Chart, s: AccountId, t: AccountId, amount: real, sc: Currency, tc: Currency, received: int)
    : seq<Posting>
  {
    [ Posting(s, ch.store(-amount), Debit, sc), Posting(ch.clearing(sc), ch.store(amount), Credit, sc),
      Posting(ch.clearing(tc), ch.store(-Units(received)), Debit, tc),
      Posting(t, ch.store(Units(received)), Credit, tc)]
  }

  /** The entries a request writes when nothing refuses it. */
  function Plan(ch: Chart, r: Request): seq<Posting> {
    match r
    case Transfer(s, t, amount, cur, _) => TransferPlan(ch, s, t, amount, cur)
    case Deposit(a, amount, cur, _) => DepositPlan(ch, a, amount, cur)
    case Initiation(_, _, _, _, _) => []
    case Exchange(s, t, amount, sc, tc, rate, _) =>
      ExchangePlan(ch, s, t, amount, sc, tc, if rate.Some? then TargetAmount(amount, rate.value) else 0)
  }

  /* ---------- The book and its operations ---------- */

  datatype TxnKind = DepositTxn | TransferTxn | ExchangeTxn

  datatype TxnStatus = Pending | Completed | Failed

  /** What a two-phase deposit records when it is initiated. */
  datatype Intent = Intent(account: AccountId, amount: real, currency: Currency, created: nat)

  datatype Txn = Txn(kind: TxnKind, status: TxnStatus, key: Option<string>, intent: Option<Intent>,
                     reference: Option<string>)

  /** The committed tables. `keys` is the unique index on the transactions' idempotency keys. */
  datatype Book = Book(chart: Chart, entries: seq<Entry>, txns: map<TxnId, Txn>, keys: map<string, TxnId>,
                       nextEntry: nat, nextTxn: nat, nextAccount: nat)

  function Stamp(ps: seq<Posting>, t: TxnId, first: nat): seq<Entry> {
    seq(|ps|, i requires 0 <= i < |ps| => Entry(first + i, t, Success, ps[i]))
  }

  function KindOf(r: Request): TxnKind {
    match r
    case Transfer(_, _, _, _, _) => TransferTxn
    case Deposit(_, _, _, _) => DepositTxn
    case Initiation(_, _, _, _, _) => DepositTxn
    case Exchange(_, _, _, _, _, _, _) => ExchangeTxn
  }

  /** The entries that confirming a deposit writes. */
  function IntentPlan(ch: Chart, i: Intent): seq<Posting> {
    DepositPlan(ch, i.account, i.amount, i.currency)
  }

  /** The transaction row of a request: PENDING with what was asked for, or COMPLETED at once. */
  function RowOf(r: Request): Txn {
    if r.Initiation? then Txn(DepositTxn, Pending, r.key, Some(Intent(r.account, r.amount, r.currency, r.now)), None)
    else Txn(KindOf(r), Completed, r.key, None, None)
  }

  function Insert(b: Book, t: Txn): Book {
    b.(txns := b.txns[b.nextTxn := t],
       keys := if t.key.Some? then b.keys[t.key.value := b.nextTxn] else b.keys,
       nextTxn := b.nextTxn + 1)
  }

  function AddEntries(b: Book, t: TxnId, ps: seq<Posting>): Book {
    b.(entries := b.entries + Stamp(ps, t, b.nextEntry), nextEntry := b.nextEntry + |ps|)
  }

  /** What a request does after its key was looked up and its account locks were taken. Its key may
      have been committed since the lookup; `recovers` says whether the session of a caller whose
      insert is refused can still look the existing transaction up. */
  function Conclude(b: Book, r: Request, recovers: bool): (Book, Outcome) {
    if LateError(b.chart, r).Some? then (b, Refused(LateError(b.chart, r).value))
    else if ChecksFunds(r) && !Affords(Balance(b.entries, r.source), r) then (b, Refused(InsufficientFunds))
    else if r.key.Some? && r.key.value in b.keys then
      (b, if LooksUp(r.key) && recovers then Existing(b.keys[r.key.value]) else Refused(DuplicateKey))
    else (AddEntries(Insert(b, RowOf(r)), b.nextTxn, Plan(b.chart, r)), Accepted(b.nextTxn))
  }

  /** A request run alone and committed: nothing comes between its lookup and its insert. */
  function Submit(b: Book, r: Request): (Book, Outcome) {
    if ArgumentError(r).Some? then (b, Refused(ArgumentError(r).value))
    else if LooksUp(r.key) && r.key.value in b.keys then (b, Existing(b.keys[r.key.value]))
    else if EarlyError(b.chart, r).Some? then (b, Refused(EarlyError(b.chart, r).value))
    else Conclude(b, r, true)
  }

  predicate IsPending(b: Book, t: TxnId) {
    t in b.txns && b.txns[t].status == Pending
  }

  predicate IntentComplete(i: Option<Intent>) {
    i.Some? && i.value.account != 0 && 0.0 < i.value.amount
  }

  /** Second phase: the provider reports success. */
  function Confirm(b: Book, t: TxnId, reference: string): (Book, Outcome) {
    if !IsPending(b, t) || !IntentComplete(b.txns[t].intent) then (b, Refused(InvalidState))
    else
      var i := b.txns[t].intent.value;
      if i.account !in b.chart.accounts then (b, Refused(AccountNotFound))
      else
        var done := b.txns[t].(status := Completed, reference := Some(reference));
        (AddEntries(b.(txns := b.txns[t := done]), t, IntentPlan(b.chart, i)), Accepted(t))
  }

  /** Second phase: the provider reports failure. */
  function Fail(b: Book, t: TxnId): (Book, Outcome) {
    if !IsPending(b, t) then (b, Refused(InvalidState))
    else (b.(txns := b.txns[t := b.txns[t].(status := Failed)]), Accepted(t))
  }

  /** The worker stores the provider's payment id, whatever the transaction's status. */
  function Acknowledge(b: Book, t: TxnId, payment: string): (Book, Outcome) {
    if t !in b.txns then (b, Refused(InvalidState))
    else (b.(txns := b.txns[t := b.txns[t].(reference := Some(payment))]), Accepted(t))
  }

  predicate HasAccount(ch: Chart, owner: nat, cur: Currency) {
    exists a :: a in ch.accounts && ch.accounts[a].owner == owner && ch.accounts[a].currency == cur
  }

  /** A user opens an account. */
  function Open(b: Book, owner: nat, cur: Currency): (Book, Outcome) {
    if HasAccount(b.chart, owner, cur) then (b, Refused(Conflict))
    else (b.(chart := b.chart.(accounts := b.chart.accounts[b.nextAccount := Account(owner, cur, false)]),
             nextAccount := b.nextAccount + 1),
          Accepted(b.nextAccount))
  }

  datatype Op =
    | SubmitOp(req: Request)
    | ConfirmOp(txn: TxnId, reference: string)
    | FailOp(txn: TxnId)
    | AcknowledgeOp(txn: TxnId, reference: string)
    | OpenOp(owner: nat, currency: Currency)

  function Apply(b: Book, op: Op): (Book, Outcome) {
    match op
    case SubmitOp(r) => Submit(b, r)
    case ConfirmOp(t, reference) => Confirm(b, t, reference)
    case FailOp(t) => Fail(b, t)
    case AcknowledgeOp(t, reference) => Acknowledge(b, t, reference)
    case OpenOp(owner, cur) => Open(b, owner, cur)
  }

  /** The book after a run of operations, one at a time. */
  function Run(b: Book, ops: seq<Op>): Book {
    if ops == [] then b else Apply(Run(b, ops[..|ops| - 1]), ops[|ops| - 1]).0
  }

  function EmptyBook(ch: Chart, nextAccount: nat): Book {
    Book(ch, [], map[], map[], 1, 1, nextAccount)
  }
}
