/** How selections and sums over the entry log behave when the log grows. */
module Sums {
  import opened Ledger

  lemma {:induction false} SelectConcat(log: seq<Entry>, more: seq<Entry>, a: AccountId, cut: Cut)
    ensures Select(log + more, a, cut) == Select(log, a, cut) + Select(more, a, cut)
  {
    if more == [] {
      assert log + more == log;
    } else {
      var init := more[..|more| - 1];
      assert (log + more)[..|log + more| - 1] == log + init;
      SelectConcat(log, init, a, cut);
    }
  }

  lemma {:induction false} TotalConcat(rows: seq<Entry>, more: seq<Entry>)
    ensures Total(rows + more) == Total(rows) + Total(more)
  {
    if more == [] {
      assert rows + more == rows;
    } else {
      var init := more[..|more| - 1];
      assert (rows + more)[..|rows + more| - 1] == rows + init;
      TotalConcat(rows, init);
    }
  }

  lemma {:induction false} PostsConcat(log: seq<Entry>, more: seq<Entry>)
    ensures Posts(log + more) == Posts(log) + Posts(more)
  {
    if more == [] {
      assert log + more == log;
    } else {
      var init := more[..|more| - 1];
      assert (log + more)[..|log + more| - 1] == log + init;
      PostsConcat(log, init);
    }
  }

  lemma {:induction false} GroupConcat(log: seq<Entry>, more: seq<Entry>, t: TxnId)
    ensures Group(log + more, t) == Group(log, t) + Group(more, t)
  {
    if more == [] {
      assert log + more == log;
    } else {
      var init := more[..|more| - 1];
      assert (log + more)[..|log + more| - 1] == log + init;
      GroupConcat(log, init, t);
    }
  }

  lemma {:induction false} SumConcat(ps: seq<Posting>, more: seq<Posting>, keep: Posting -> bool)
    ensures Sum(ps + more, keep) == Sum(ps, keep) + Sum(more, keep)
  {
    if more == [] {
      assert ps + more == ps;
    } else {
      var init := more[..|more| - 1];
      assert (ps + more)[..|ps + more| - 1] == ps + init;
      SumConcat(ps, init, keep);
    }
  }

  function Pick(p: Posting, keep: Posting -> bool): int {
    if keep(p) then p.amount else 0
  }

  lemma SumPair(p: Posting, q: Posting, keep: Posting -> bool)
    ensures Sum([p, q], keep) == Pick(p, keep) + Pick(q, keep)
  {
    assert [p, q] == [p] + [q];
    SumConcat([p], [q], keep);
    assert [p][..0] == [] && [q][..0] == [];
  }

  lemma SumFour(p: Posting, q: Posting, r: Posting, s: Posting, keep: Posting -> bool)
    ensures Sum([p, q, r, s], keep) == Pick(p, keep) + Pick(q, keep) + Pick(r, keep) + Pick(s, keep)
  {
    assert [p, q, r, s] == [p, q] + [r, s];
    SumConcat([p, q], [r, s], keep);
    SumPair(p, q, keep);
    SumPair(r, s, keep);
  }

  /** The fast sum: what lies up to an id plus what lies after it is the whole balance. */
  lemma {:induction false} CutSplits(log: seq<Entry>, a: AccountId, last: nat)
    ensures Total(Select(log, a, UpTo(last))) + Total(Select(log, a, After(last))) == Balance(log, a)
    ensures |Select(log, a, UpTo(last))| + |Select(log, a, After(last))| == |Select(log, a, All)|
  {
    if log != [] {
      var init, e := log[..|log| - 1], log[|log| - 1];
      CutSplits(init, a, last);
      var add := if Picks(e, a, All) then [e] else [];
      TotalConcat(Select(init, a, All), add);
      TotalConcat(Select(init, a, UpTo(last)), if Picks(e, a, UpTo(last)) then [e] else []);
      TotalConcat(Select(init, a, After(last)), if Picks(e, a, After(last)) then [e] else []);
      assert [e][..0] == [];
    }
  }

  lemma {:induction false} BalanceIsSum(log: seq<Entry>, a: AccountId)
    ensures Balance(log, a) == Sum(Posts(log), OnAccount(a))
  {
    if log != [] {
      var init, e := log[..|log| - 1], log[|log| - 1];
      BalanceIsSum(init, a);
      TotalConcat(Select(init, a, All), if Picks(e, a, All) then [e] else []);
      SumConcat(Posts(init), if e.status == Success then [e.post] else [], OnAccount(a));
      assert [e][..0] == [] && [e.post][..0] == [];
    }
  }

  /** Every selected row is a row of the log that the query picks, and every such row is selected. */
  lemma {:induction false} SelectedRows(log: seq<Entry>, a: AccountId, cut: Cut)
    ensures forall e :: e in Select(log, a, cut) <==> e in log && Picks(e, a, cut)
  {
    if log != [] {
      SelectedRows(log[..|log| - 1], a, cut);
      assert log == log[..|log| - 1] + [log[|log| - 1]];
    }
  }

  lemma {:induction false} NothingSelected(log: seq<Entry>, a: AccountId, cut: Cut)
    requires forall e | e in log :: !Picks(e, a, cut)
    ensures Select(log, a, cut) == []
  {
    if log != [] {
      assert log[|log| - 1] in log;
      NothingSelected(log[..|log| - 1], a, cut);
    }
  }

  /** Rows that a query does not pick do not change its answer. */
  lemma UntouchedSelect(log: seq<Entry>, more: seq<Entry>, a: AccountId, cut: Cut)
    requires forall e | e in more :: !Picks(e, a, cut)
    ensures Select(log + more, a, cut) == Select(log, a, cut)
  {
    SelectConcat(log, more, a, cut);
    NothingSelected(more, a, cut);
  }

  /** What a balance is, entry by entry. */
  lemma BalanceGrows(log: seq<Entry>, e: Entry, a: AccountId)
    ensures Balance([], a) == 0
    ensures Balance(log + [e], a)
         == Balance(log, a) + if e.status == Success && e.post.account == a then e.post.amount else 0
  {
    assert (log + [e])[..|log + [e]| - 1] == log;
    var added := if Picks(e, a, All) then [e] else [];
    assert Select(log + [e], a, All) == Select(log, a, All) + added;
    TotalConcat(Select(log, a, All), added);
    assert [e][..0] == [];
  }

  lemma BalanceConcat(log: seq<Entry>, more: seq<Entry>, a: AccountId)
    ensures Balance(log + more, a) == Balance(log, a) + Sum(Posts(more), OnAccount(a))
  {
    BalanceIsSum(log + more, a);
    BalanceIsSum(log, a);
    PostsConcat(log, more);
    SumConcat(Posts(log), Posts(more), OnAccount(a));
  }

  /** A log whose entries all succeeded shows its postings one to one. */
  lemma {:induction false} PostsOfSuccesses(log: seq<Entry>, ps: seq<Posting>)
    requires |log| == |ps|
    requires forall i | 0 <= i < |log| :: log[i].status == Success && log[i].post == ps[i]
    ensures Posts(log) == ps
  {
    if log != [] {
      var init := log[..|log| - 1];
      PostsOfSuccesses(init, ps[..|ps| - 1]);
      assert ps == ps[..|ps| - 1] + [ps[|ps| - 1]];
    }
  }

  lemma {:induction false} GroupOfOwn(log: seq<Entry>, ps: seq<Posting>, t: TxnId)
    requires |log| == |ps|
    requires forall i | 0 <= i < |log| :: log[i].txn == t && log[i].post == ps[i]
    ensures Group(log, t) == ps
  {
    if log != [] {
      var init := log[..|log| - 1];
      GroupOfOwn(init, ps[..|ps| - 1], t);
      assert ps == ps[..|ps| - 1] + [ps[|ps| - 1]];
    }
  }

  lemma {:induction false} GroupOfOthers(log: seq<Entry>, t: TxnId)
    requires forall e | e in log :: e.txn != t
    ensures Group(log, t) == []
  {
    if log != [] {
      assert log[|log| - 1] in log;
      GroupOfOthers(log[..|log| - 1], t);
    }
  }

  lemma StampRows(ps: seq<Posting>, t: TxnId, first: nat)
    ensures Posts(Stamp(ps, t, first)) == ps
    ensures Group(Stamp(ps, t, first), t) == ps
    ensures forall e | e in Stamp(ps, t, first) :: e.txn == t && e.status == Success && first <= e.id < first + |ps|
    ensures forall e | e in Stamp(ps, t, first) :: e.post in ps
  {
    PostsOfSuccesses(Stamp(ps, t, first), ps);
    GroupOfOwn(Stamp(ps, t, first), ps, t);
  }
}
