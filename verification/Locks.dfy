/** The order in which account locks are taken. */
module Locks {
  predicate Ascending(ids: seq<nat>) {
    forall i, j | 0 <= i < j < |ids| :: ids[i] <= ids[j]
  }

  function InsertId(ids: seq<nat>, a: nat): seq<nat> {
    if ids == [] || ids[|ids| - 1] <= a then ids + [a] else InsertId(ids[..|ids| - 1], a) + [ids[|ids| - 1]]
  }

  /** The ids in ascending order, duplicates kept. */
  function Sorted(ids: seq<nat>): seq<nat> {
    if ids == [] then [] else InsertId(Sorted(ids[..|ids| - 1]), ids[|ids| - 1])
  }

  lemma {:induction false} InsertIdAdds(ids: seq<nat>, a: nat)
    ensures multiset(InsertId(ids, a)) == multiset(ids) + multiset{a}
  {
    if ids != [] && a < ids[|ids| - 1] {
      InsertIdAdds(ids[..|ids| - 1], a);
      assert ids == ids[..|ids| - 1] + [ids[|ids| - 1]];
    }
  }

  lemma {:induction false} InsertIdSorts(ids: seq<nat>, a: nat)
    requires Ascending(ids)
    ensures Ascending(InsertId(ids, a))
    ensures forall x | x in InsertId(ids, a) :: x in ids || x == a
  {
    if ids != [] && a < ids[|ids| - 1] {
      var init, last := ids[..|ids| - 1], ids[|ids| - 1];
      InsertIdSorts(init, a);
      var r := InsertId(init, a);
      assert InsertId(ids, a) == r + [last];
      forall i | 0 <= i < |r| ensures r[i] <= last {
        assert r[i] in r;
      }
    }
  }

  lemma {:induction false} SortedSorts(ids: seq<nat>)
    ensures Ascending(Sorted(ids))
    ensures multiset(Sorted(ids)) == multiset(ids)
    ensures forall a :: a in Sorted(ids) <==> a in ids
  {
    if ids != [] {
      var init, last := ids[..|ids| - 1], ids[|ids| - 1];
      SortedSorts(init);
      InsertIdAdds(Sorted(init), last);
      InsertIdSorts(Sorted(init), last);
      assert ids == init + [last];
    }
    forall a ensures a in Sorted(ids) <==> a in ids {
      assert a in Sorted(ids) <==> a in multiset(Sorted(ids));
    }
  }
}
