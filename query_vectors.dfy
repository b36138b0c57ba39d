/** The values QueryUtilsTest expects of the five prepare methods, stated
    of the substitution every prepare method computes; the fixed text
    around the numbers is that of the template constants, so
    `SelectText + "4"` is "SELECT abalance FROM pgbench_accounts WHERE  aid = 4". */
module QueryVectors {
  import opened Decimal
  import opened QueryUtils

  /** The decimal texts the expected values hold. */
  lemma DigitTexts()
    ensures IntToString(1) == "1" && IntToString(2) == "2" && IntToString(3) == "3" && IntToString(4) == "4"
    ensures IntToString(10) == "10" && IntToString(55) == "55" && IntToString(99) == "99"
    ensures IntToString(1001) == "1001" && IntToString(1111) == "1111" && IntToString(1234) == "1234"
  {
    assert NatToString(100) == "100";
    assert NatToString(111) == "111";
    assert NatToString(123) == "123";
  }

  lemma SelectVector()
    ensures Substituted(SelectQuery, [4]) == SelectText + "4"
  {
    assert Substituted(SelectQuery, [4]) == SelectText + IntToString(4) + "" by {
      SelectPieces();
      SubstitutedOne(SelectText, "", 4);
      EmptyRight(SelectQuery);
    }
    DigitTexts();
  }

  lemma UpdateTellersVector()
    ensures Substituted(UpdateTellersQuery, [1001, 10]) == TellersSet + "1001" + TellersWhere + "10"
  {
    assert Substituted(UpdateTellersQuery, [1001, 10]) ==
           TellersSet + IntToString(1001) + TellersWhere + IntToString(10) + "" by {
      TellersPieces();
      SubstitutedTwo(TellersSet, TellersWhere, "", 1001, 10);
      EmptyRight(TellersSet + "?" + TellersWhere + "?");
    }
    DigitTexts();
  }

  lemma UpdateAccountsVector()
    ensures Substituted(UpdateAccountsQuery, [1111, 55]) == AccountsSet + "1111" + AccountsWhere + "55"
  {
    assert Substituted(UpdateAccountsQuery, [1111, 55]) ==
           AccountsSet + IntToString(1111) + AccountsWhere + IntToString(55) + "" by {
      AccountsPieces();
      SubstitutedTwo(AccountsSet, AccountsWhere, "", 1111, 55);
      EmptyRight(AccountsSet + "?" + AccountsWhere + "?");
    }
    DigitTexts();
  }

  lemma UpdateBranchesVector()
    ensures Substituted(UpdateBranchesQuery, [1234, 99]) == BranchesSet + "1234" + BranchesWhere + "99"
  {
    assert Substituted(UpdateBranchesQuery, [1234, 99]) ==
           BranchesSet + IntToString(1234) + BranchesWhere + IntToString(99) + "" by {
      BranchesPieces();
      SubstitutedTwo(BranchesSet, BranchesWhere, "", 1234, 99);
      EmptyRight(BranchesSet + "?" + BranchesWhere + "?");
    }
    DigitTexts();
  }

  lemma InsertHistoryVector()
    ensures Substituted(InsertHistoryQuery, [1, 2, 3, 4]) == HistoryInsert + "1" + "," + "2" + "," + "3" + "," + "4" + ")"
  {
    assert Substituted(InsertHistoryQuery, [1, 2, 3, 4]) ==
           HistoryInsert + IntToString(1) + "," + IntToString(2) + "," + IntToString(3) + "," + IntToString(4) + ")" by {
      HistoryNoPlaceholder();
      SubstitutedPieces(HistoryPieces, [1, 2, 3, 4]);
      FilledFive(HistoryPieces, 1, 2, 3, 4);
    }
    DigitTexts();
  }
}
