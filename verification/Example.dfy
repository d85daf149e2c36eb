/** A small chart of accounts for concrete runs. */
module Example {
  import opened Decimals
  import opened Ledger
  import opened Books

  function ClearingId(cur: Currency): AccountId {
    match cur
    case USD => 1
    case EUR => 2
    case GBP => 3
    case NGN => 4
    case XAF => 5
  }

  /** Five clearing accounts of the system user and two dollar accounts. */
  function Accounts(): map<AccountId, Account> {
    map[1 := Account(0, USD, true), 2 := Account(0, EUR, true), 3 := Account(0, GBP, true),
        4 := Account(0, NGN, true), 5 := Account(0, XAF, true),
        6 := Account(1, USD, false), 7 := Account(2, USD, false)]
  }

  function Ch(): Chart {
    Chart(Accounts(), ClearingId, HalfEven)
  }

  lemma UniqueAccounts()
    ensures forall a, b | a in Accounts() && b in Accounts() ::
              Accounts()[a].owner == Accounts()[b].owner && Accounts()[a].currency == Accounts()[b].currency ==> a == b
    ensures forall a | a in Accounts() :: 0 < a < 8
  {
  }

  lemma ExampleIsOk()
    ensures AccountsOk(EmptyBook(Ch(), 8))
  {
    HalfEvenIsStorageRounding();
    forall cur: Currency ensures IsClearing(Ch(), Ch().clearing(cur), cur) {
      assert Ch().clearing(cur) == ClearingId(cur);
    }
    UniqueAccounts();
  }

  /** Storing ten dollars stores ten dollars. */
  lemma TenDollars()
    ensures Ch().store(100000.0) == 100000 && Ch().store(-100000.0) == -100000
  {
    HalfEvenIsTheNearest(100000.0, 100000);
    HalfEvenIsTheNearest(-100000.0, -100000);
    assert Units(100000) == 100000.0 && Units(-100000) == -100000.0;
  }
}
