/** Balance snapshots: the fast balance, and the background job that takes a snapshot. */
module Snapshots {
  import opened Wrappers
  import opened Ledger
  import opened Sums

  datatype Snapshot = Snapshot(account: AccountId, balance: int, count: nat, last: nat)

  /** The newest snapshot of an account; snapshots are listed in id order. */
  function Latest(snaps: seq<Snapshot>, a: AccountId): Option<Snapshot> {
    if snaps == [] then None
    else if snaps[|snaps| - 1].account == a then Some(snaps[|snaps| - 1])
    else Latest(snaps[..|snaps| - 1], a)
  }

  /** The starting point of a fast balance: the newest snapshot, or nothing at all. */
  function Base(snaps: seq<Snapshot>, a: AccountId): Snapshot {
    if Latest(snaps, a).Some? then Latest(snaps, a).value else Snapshot(a, 0, 0, 0)
  }

  function FastBalance(log: seq<Entry>, snaps: seq<Snapshot>, a: AccountId): int {
    Base(snaps, a).balance + Total(Select(log, a, After(Base(snaps, a).last)))
  }

  function Unsnapshotted(log: seq<Entry>, snaps: seq<Snapshot>, a: AccountId): nat {
    |Select(log, a, After(Base(snaps, a).last))|
  }

  function MaxId(rows: seq<Entry>): nat {
    if rows == [] then 0
    else if MaxId(rows[..|rows| - 1]) < rows[|rows| - 1].id then rows[|rows| - 1].id
    else MaxId(rows[..|rows| - 1])
  }

  /** What the snapshot job would store, if anything. */
  function Proposal(log: seq<Entry>, snaps: seq<Snapshot>, a: AccountId, threshold: nat): Option<Snapshot> {
    var rows := Select(log, a, All);
    if Unsnapshotted(log, snaps, a) < threshold || rows == [] then None
    else Some(Snapshot(a, Total(rows), Unsnapshotted(log, snaps, a) + Base(snaps, a).count, MaxId(rows)))
  }

  /** The id of a committed entry of the account, or zero. */
  predicate IsMark(log: seq<Entry>, a: AccountId, last: nat) {
    last == 0 || exists e :: e in log && e.post.account == a && e.id == last
  }

  /** A snapshot is right when its balance and count are those of the entries up to its mark,
      summed and counted from scratch. */
  predicate IsExact(log: seq<Entry>, s: Snapshot) {
    && IsMark(log, s.account, s.last)
    && s.balance == Total(Select(log, s.account, UpTo(s.last)))
    && s.count == |Select(log, s.account, UpTo(s.last))|
  }

  lemma {:induction false} LatestIsListed(snaps: seq<Snapshot>, a: AccountId)
    ensures Latest(snaps, a).Some? ==> Latest(snaps, a).value in snaps && Latest(snaps, a).value.account == a
    ensures Latest(snaps, a).None? ==> forall s | s in snaps :: s.account != a
  {
    if snaps != [] {
      LatestIsListed(snaps[..|snaps| - 1], a);
      assert snaps == snaps[..|snaps| - 1] + [snaps[|snaps| - 1]];
    }
  }

  lemma {:induction false} MaxIdBounds(rows: seq<Entry>)
    ensures forall e | e in rows :: e.id <= MaxId(rows)
    ensures rows != [] ==> exists e :: e in rows && e.id == MaxId(rows)
  {
    if rows != [] {
      var init, e := rows[..|rows| - 1], rows[|rows| - 1];
      MaxIdBounds(init);
      assert rows == init + [e];
      if init == [] {
        assert e in rows && e.id == MaxId(rows);
      }
    }
  }

  /** Nothing lies at or below zero. */
  lemma NothingUpToZero(log: seq<Entry>, a: AccountId)
    requires forall e | e in log :: 0 < e.id
    ensures Select(log, a, UpTo(0)) == []
  {
    NothingSelected(log, a, UpTo(0));
  }

  lemma BaseIsExact(log: seq<Entry>, snaps: seq<Snapshot>, a: AccountId)
    requires forall e | e in log :: 0 < e.id
    requires forall s | s in snaps :: IsExact(log, s)
    ensures Base(snaps, a).account == a && IsExact(log, Base(snaps, a))
  {
    LatestIsListed(snaps, a);
    NothingUpToZero(log, a);
  }

  /** The fast balance is the balance. */
  lemma FastBalanceIsBalance(log: seq<Entry>, snaps: seq<Snapshot>, a: AccountId)
    requires forall e | e in log :: 0 < e.id
    requires forall s | s in snaps :: IsExact(log, s)
    ensures FastBalance(log, snaps, a) == Balance(log, a)
  {
    BaseIsExact(log, snaps, a);
    CutSplits(log, a, Base(snaps, a).last);
  }

  lemma {:induction false} UpToMaxIsAll(log: seq<Entry>, a: AccountId, last: nat)
    requires forall e | e in log && Picks(e, a, All) :: e.id <= last
    ensures Select(log, a, UpTo(last)) == Select(log, a, All)
  {
    if log != [] {
      assert log[|log| - 1] in log;
      UpToMaxIsAll(log[..|log| - 1], a, last);
    }
  }

  /** What the job proposes is exact. */
  lemma ProposalIsExact(log: seq<Entry>, snaps: seq<Snapshot>, a: AccountId, threshold: nat)
    requires forall e | e in log :: 0 < e.id
    requires forall s | s in snaps :: IsExact(log, s)
    requires Proposal(log, snaps, a, threshold).Some?
    ensures IsExact(log, Proposal(log, snaps, a, threshold).value)
  {
    var rows := Select(log, a, All);
    BaseIsExact(log, snaps, a);
    CutSplits(log, a, Base(snaps, a).last);
    MaxIdBounds(rows);
    SelectedRows(log, a, All);
    UpToMaxIsAll(log, a, MaxId(rows));
  }

  /** An exact snapshot stays exact when no entry of its account appears at or below its mark. */
  lemma ExactStaysExact(log: seq<Entry>, more: seq<Entry>, s: Snapshot)
    requires IsExact(log, s)
    requires forall e | e in more && e.post.account == s.account :: s.last < e.id
    ensures IsExact(log + more, s)
  {
    UntouchedSelect(log, more, s.account, UpTo(s.last));
    if s.last != 0 {
      var e :| e in log && e.post.account == s.account && e.id == s.last;
      assert e in log + more;
    }
  }
}
