/** Money is conserved under every interleaving of the writers. */
module WritersConservation {
  import opened Ledger
  import opened Sums
  import opened Plans
  import opened Books
  import opened Conservation
  import opened Writers
  import opened Serializability
  import S = WritersSafety

  /** By how much the committed requests change what all users together own of a currency. */
  function CommittedFlow(ch: Chart, history: seq<Event>, of: Currency): int {
    if history == [] then 0
    else
      var e := history[|history| - 1];
      CommittedFlow(ch, history[..|history| - 1], of) + if e.answer == Committed then RequestFlow(ch, e.req, of) else 0
  }

  lemma SerialIsOk(ch: Chart, nextAccount: nat, history: seq<Event>)
    requires AccountsOk(EmptyBook(ch, nextAccount)) && forall e | e in history :: RateOk(e.req)
    ensures BookOk(Serial(ch, nextAccount, history))
  {
    EmptyBookOk(ch, nextAccount);
    RunKeeps(EmptyBook(ch, nextAccount), Submits(history));
  }

  lemma NothingHeld(ch: Chart, nextAccount: nat, of: Currency)
    ensures Serial(ch, nextAccount, []).chart == ch
    ensures Holdings(Serial(ch, nextAccount, []), of) == CommittedFlow(ch, [], of)
  {
    assert Submits([]) == [];
  }

  lemma {:induction false} SerialHoldings(ch: Chart, nextAccount: nat, history: seq<Event>, of: Currency)
    requires AccountsOk(EmptyBook(ch, nextAccount)) && forall e | e in history :: RateOk(e.req)
    requires forall k | 0 <= k < |history| :: EventOk(Serial(ch, nextAccount, history[..k]), history[k])
    ensures Serial(ch, nextAccount, history).chart == ch
    ensures Holdings(Serial(ch, nextAccount, history), of) == CommittedFlow(ch, history, of)
  {
    hide Serial, EventOk, Submit, Holdings, AccountsOk, CommittedFlow, RateOk;
    if history == [] {
      NothingHeld(ch, nextAccount, of);
    } else {
      var init, e := history[..|history| - 1], history[|history| - 1];
      forall k | 0 <= k < |init| ensures EventOk(Serial(ch, nextAccount, init[..k]), init[k]) {
        assert init[..k] == history[..k];
      }
      assert history == init + [e] && e in history;
      SerialHoldings(ch, nextAccount, init, of);
      OneMoreEvent(ch, nextAccount, init, e, of);
    }
  }

  lemma OneMoreEvent(ch: Chart, nextAccount: nat, history: seq<Event>, e: Event, of: Currency)
    requires AccountsOk(EmptyBook(ch, nextAccount)) && forall f | f in history :: RateOk(f.req)
    requires RateOk(e.req) && EventOk(Serial(ch, nextAccount, history), e)
    requires Serial(ch, nextAccount, history).chart == ch
    requires Holdings(Serial(ch, nextAccount, history), of) == CommittedFlow(ch, history, of)
    ensures Serial(ch, nextAccount, history + [e]).chart == ch
    ensures Holdings(Serial(ch, nextAccount, history + [e]), of) == CommittedFlow(ch, history + [e], of)
  {
    hide Serial, EventOk, Submit, Holdings, BookOk, AccountsOk, RateOk, RequestFlow;
    SerialIsOk(ch, nextAccount, history);
    SerialGrows(ch, nextAccount, history, e);
    EventMovesHoldings(Serial(ch, nextAccount, history), e, of);
    assert (history + [e])[..|history|] == history;
  }

  lemma EventMovesHoldings(b: Book, e: Event, of: Currency)
    requires BookOk(b) && RateOk(e.req) && EventOk(b, e)
    ensures Submit(b, e.req).0.chart == b.chart
    ensures Holdings(Submit(b, e.req).0, of)
         == Holdings(b, of) + if e.answer == Committed then RequestFlow(b.chart, e.req, of) else 0
  {
    hide BookOk, Submit, Conclude, RequestFlow;
    if e.answer == Committed {
      SubmitFlow(b, e.req, of);
      SubmitAppends(b, e.req);
    } else {
      UncommittedLeavesBook(b, e);
    }
  }

  lemma {:induction false} SameSums(log: seq<Entry>, log': seq<Entry>, ids: seq<AccountId>)
    requires Posts(log) == Posts(log')
    ensures SumOfBalances(log, ids) == SumOfBalances(log', ids)
  {
    if ids != [] {
      SameSums(log, log', ids[..|ids| - 1]);
      BalanceIsSum(log, ids[|ids| - 1]);
      BalanceIsSum(log', ids[|ids| - 1]);
    }
  }

  /** Under every schedule the committed balances of all accounts of a currency sum to zero, and
      those of the users to what the committed requests brought in, less what they took out. */
  lemma ConservedUnderInterleaving(w: World, nextAccount: nat, schedule: seq<Label>, of: Currency,
                                   all: seq<AccountId>, users: seq<AccountId>)
    requires Initial(w) && AccountsOk(EmptyBook(w.chart, nextAccount)) && Fits(w, schedule)
    requires Lists(all, AccountsIn(Play(w, schedule).chart, of))
    requires Lists(users, UsersIn(Play(w, schedule).chart, of))
    ensures SumOfBalances(Play(w, schedule).log, all) == 0
    ensures SumOfBalances(Play(w, schedule).log, users)
         == CommittedFlow(Play(w, schedule).chart, Play(w, schedule).history, of)
  {
    hide S.Safe, EventOk, BookOk, AccountsOk;
    var end := Play(w, schedule);
    S.InitialIsSafe(w);
    InitialSerializes(w, nextAccount);
    PlaySerializes(w, nextAccount, schedule);
    var book := Serial(end.chart, nextAccount, end.history);
    SerialIsOk(end.chart, nextAccount, end.history);
    SerialHoldings(end.chart, nextAccount, end.history, of);
    SameSums(end.log, book.entries, all);
    SameSums(end.log, book.entries, users);
    BalancesSumToZero(book, of, all);
    HoldingsAreBalances(book, of, users);
  }
}
