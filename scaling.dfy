/** The TPC-B scaling rules of JDBCBench: how many rows createDatabase
    seeds, which branch owns each teller and account, and the ranges the
    random account, branch, teller and delta values are drawn from. */
module Scaling {
  import opened JavaInt
  import opened Decimal

  const NumBranches: Int32 := 1
  const NumTellers: Int32 := 10
  const NumAccounts: Int32 := 10000

  /** The entity codes passed to getRandomID. */
  const Teller: Int32 := 0
  const Branch: Int32 := 1
  const Account: Int32 := 2

  /** How often `for (int i = 0; i < n * scale; i++)` runs: the bound is an
      `int` product, so it wraps around for a large scale. */
  function RowCount(n: Int32, scale: Int32): (c: nat)
    ensures c <= MaxInt
    ensures 0 <= n * scale <= MaxInt ==> c == n * scale
    ensures MinInt <= n * scale <= 0 ==> c == 0
  {
    var bound := Wrap(n * scale);
    if bound > 0 then bound else 0
  }

  /** A seeded row; every balance starts at 0. */
  datatype Row =
    | BranchRow(bid: int, bbalance: int)
    | TellerRow(tid: int, bid: int, tbalance: int)
    | AccountRow(aid: int, bid: int, abalance: int)

  function Branches(scale: Int32): seq<Row> {
    seq(RowCount(NumBranches, scale), i => BranchRow(i, 0))
  }

  /** Teller `i` belongs to branch `i / numTellers`. */
  function Tellers(scale: Int32): seq<Row> {
    seq(RowCount(NumTellers, scale), i => TellerRow(i, i / NumTellers, 0))
  }

  /** Account `i` belongs to branch `i / numAccounts`. */
  function Accounts(scale: Int32): seq<Row> {
    seq(RowCount(NumAccounts, scale), i => AccountRow(i, i / NumAccounts, 0))
  }

  /** The rows createDatabase inserts, in the order it inserts them. */
  function SeedRows(scale: Int32): seq<Row> {
    Branches(scale) + Tellers(scale) + Accounts(scale)
  }

  /** The INSERT statement that stores a row. */
  function InsertSql(r: Row): string {
    match r
    case BranchRow(bid, bbalance) =>
      "INSERT INTO pgbench_branches(bid,bbalance) VALUES (" + IntToString(bid) + "," + IntToString(bbalance) + ")"
    case TellerRow(tid, bid, tbalance) =>
      "INSERT INTO pgbench_tellers(tid,bid,tbalance) VALUES (" + IntToString(tid) + "," + IntToString(bid) + "," + IntToString(tbalance) + ")"
    case AccountRow(aid, bid, abalance) =>
      "INSERT INTO pgbench_accounts(aid,bid,abalance) VALUES (" + IntToString(aid) + "," + IntToString(bid) + "," + IntToString(abalance) + ")"
  }

  /** The statements as the seeding loops spell them, with the zero balance written out. */
  lemma BranchInsertText(i: int)
    ensures InsertSql(BranchRow(i, 0)) == "INSERT INTO pgbench_branches(bid,bbalance) VALUES (" + IntToString(i) + ",0)"
  {
    assert IntToString(0) == "0";
  }

  lemma TellerInsertText(i: int)
    ensures InsertSql(TellerRow(i, i / NumTellers, 0)) ==
            "INSERT INTO pgbench_tellers(tid,bid,tbalance) VALUES (" + IntToString(i) + "," + IntToString(i / NumTellers) + ",0)"
  {
    assert IntToString(0) == "0";
  }

  lemma AccountInsertText(i: int)
    ensures InsertSql(AccountRow(i, i / NumAccounts, 0)) ==
            "INSERT INTO pgbench_accounts(aid,bid,abalance) VALUES (" + IntToString(i) + "," + IntToString(i / NumAccounts) + ",0)"
  {
    assert IntToString(0) == "0";
  }

  /** The statements that insert `rows`, one per row, in order. */
  function InsertAll(rows: seq<Row>): (r: seq<string>)
    ensures |r| == |rows|
  {
    if rows == [] then [] else InsertAll(rows[..|rows| - 1]) + [InsertSql(rows[|rows| - 1])]
  }

  /** The k-th statement inserts the k-th row. */
  lemma {:induction false} InsertAllIndex(rows: seq<Row>, k: nat)
    requires k < |rows|
    ensures InsertAll(rows)[k] == InsertSql(rows[k])
  {
    if k < |rows| - 1 {
      InsertAllIndex(rows[..|rows| - 1], k);
    }
  }

  /** One more row, one more statement. */
  lemma InsertAllStep(rows: seq<Row>, i: nat)
    requires i < |rows|
    ensures InsertAll(rows[..i + 1]) == InsertAll(rows[..i]) + [InsertSql(rows[i])]
  {
    assert rows[..i + 1][..i] == rows[..i];
  }

  /** Inserting two runs of rows is inserting the first, then the second. */
  lemma {:induction false} InsertAllConcat(a: seq<Row>, b: seq<Row>)
    decreases |b|
    ensures InsertAll(a + b) == InsertAll(a) + InsertAll(b)
  {
    if b == [] {
      assert a + b == a;
    } else {
      assert (a + b)[..|a + b| - 1] == a + b[..|b| - 1];
      InsertAllConcat(a, b[..|b| - 1]);
    }
  }

  /** The branch loop of createDatabase. */
  method SeedBranches(scale: Int32) returns (statements: seq<string>)
    ensures statements == InsertAll(Branches(scale))
  {
    ghost var branches := Branches(scale);
    var i: Int32 := 0;
    var bound := Wrap(NumBranches * scale);
    assert |branches| == if bound > 0 then bound else 0;
    statements := [];
    while i < bound
      invariant 0 <= i <= |branches|
      invariant statements == InsertAll(branches[..i])
    {
      var query := "INSERT INTO pgbench_branches(bid,bbalance) VALUES (" + IntToString(i) + ",0)";
      BranchInsertText(i);
      InsertAllStep(branches, i);
      statements := statements + [query];
      i := i + 1;
    }
    assert branches[..i] == branches;
  }

  /** The teller loop of createDatabase. */
  method SeedTellers(scale: Int32) returns (statements: seq<string>)
    ensures statements == InsertAll(Tellers(scale))
  {
    ghost var tellers := Tellers(scale);
    var i: Int32 := 0;
    var bound := Wrap(NumTellers * scale);
    assert |tellers| == if bound > 0 then bound else 0;
    statements := [];
    while i < bound
      invariant 0 <= i <= |tellers|
      invariant statements == InsertAll(tellers[..i])
    {
      var query := "INSERT INTO pgbench_tellers(tid,bid,tbalance) VALUES (" + IntToString(i) + "," + IntToString(i / NumTellers) + ",0)";
      TellerInsertText(i);
      InsertAllStep(tellers, i);
      statements := statements + [query];
      i := i + 1;
    }
    assert tellers[..i] == tellers;
  }

  /** The account loop of createDatabase. */
  method SeedAccounts(scale: Int32) returns (statements: seq<string>)
    ensures statements == InsertAll(Accounts(scale))
  {
    ghost var accounts := Accounts(scale);
    var i: Int32 := 0;
    var bound := Wrap(NumAccounts * scale);
    assert |accounts| == if bound > 0 then bound else 0;
    statements := [];
    while i < bound
      invariant 0 <= i <= |accounts|
      invariant statements == InsertAll(accounts[..i])
    {
      var query := "INSERT INTO pgbench_accounts(aid,bid,abalance) VALUES (" + IntToString(i) + "," + IntToString(i / NumAccounts) + ",0)";
      AccountInsertText(i);
      InsertAllStep(accounts, i);
      statements := statements + [query];
      i := i + 1;
    }
    assert accounts[..i] == accounts;
  }

  /** The seeding part of createDatabase: the three loops one after the
      other; the statements are returned in the order they are executed. */
  method SeedDatabase(scale: Int32) returns (statements: seq<string>)
    ensures statements == InsertAll(SeedRows(scale))
  {
    var branches := SeedBranches(scale);
    var tellers := SeedTellers(scale);
    var accounts := SeedAccounts(scale);
    statements := branches + tellers + accounts;
    InsertAllConcat(Branches(scale), Tellers(scale));
    InsertAllConcat(Branches(scale) + Tellers(scale), Accounts(scale));
  }

  /** Exactly `n * scale` rows of each kind when the product does not
      overflow, keyed 0 .. count-1, all with a zero balance. */
  lemma SeededRows(scale: Int32)
    requires 0 <= scale && NumAccounts * scale <= MaxInt
    ensures |Branches(scale)| == NumBranches * scale
    ensures |Tellers(scale)| == NumTellers * scale
    ensures |Accounts(scale)| == NumAccounts * scale
    ensures forall r :: r in SeedRows(scale) ==>
              (r.BranchRow? ==> r.bbalance == 0) && (r.TellerRow? ==> r.tbalance == 0) && (r.AccountRow? ==> r.abalance == 0)
    ensures forall r :: r in Branches(scale) ==> 0 <= r.bid < NumBranches * scale
    ensures forall r :: r in Tellers(scale) ==> 0 <= r.tid < NumTellers * scale
    ensures forall r :: r in Accounts(scale) ==> 0 <= r.aid < NumAccounts * scale
    ensures forall j, k :: 0 <= j < k < |Branches(scale)| ==> Branches(scale)[j].bid != Branches(scale)[k].bid
    ensures forall j, k :: 0 <= j < k < |Tellers(scale)| ==> Tellers(scale)[j].tid != Tellers(scale)[k].tid
    ensures forall j, k :: 0 <= j < k < |Accounts(scale)| ==> Accounts(scale)[j].aid != Accounts(scale)[k].aid
  {
  }

  /** Every teller and account is owned by a seeded branch, whatever the
      scale (a wrapped-around bound only seeds fewer rows). */
  lemma OwnersSeeded(scale: Int32)
    requires 0 <= scale
    ensures forall r :: r in Tellers(scale) ==> 0 <= r.bid < |Branches(scale)|
    ensures forall r :: r in Accounts(scale) ==> 0 <= r.bid < |Branches(scale)|
  {
    WrapNonNegative(NumTellers * scale);
    WrapNonNegative(NumAccounts * scale);
    assert |Branches(scale)| == scale;
    forall r | r in Tellers(scale) ensures 0 <= r.bid < scale {
      var i :| 0 <= i < |Tellers(scale)| && Tellers(scale)[i] == r;
      assert r.bid == i / NumTellers;
    }
    forall r | r in Accounts(scale) ensures 0 <= r.bid < scale {
      var i :| 0 <= i < |Accounts(scale)| && Accounts(scale)[i] == r;
      assert r.bid == i / NumAccounts;
    }
  }


  /** Branch `b` owns exactly `numTellers` tellers, the consecutive block
      starting at `b * numTellers`, and exactly `numAccounts` accounts. */
  lemma BranchOwnsBlock(scale: Int32, b: nat)
    requires b < scale && NumAccounts * scale <= MaxInt
    ensures b * NumTellers + NumTellers <= |Tellers(scale)|
    ensures forall i :: 0 <= i < |Tellers(scale)| ==>
              (Tellers(scale)[i].bid == b <==> b * NumTellers <= i < b * NumTellers + NumTellers)
    ensures b * NumAccounts + NumAccounts <= |Accounts(scale)|
    ensures forall i :: 0 <= i < |Accounts(scale)| ==>
              (Accounts(scale)[i].bid == b <==> b * NumAccounts <= i < b * NumAccounts + NumAccounts)
  {
  }

  /** What `(int) (Math.random() * w)` can yield: Math.random() lies in
      [0, 1) and the cast truncates toward zero. */
  predicate IsDraw(w: int, k: int) {
    if w > 0 then 0 <= k < w
    else if w < 0 then w < k <= 0
    else k == 0
  }

  /** getRandomInt with the floating-point draw replaced by the integer `k`
      it truncates to; `hi - lo + 1` and `+= lo` are `int` arithmetic. An
      ordered range is honoured; a reversed one yields [hi+1, lo]. */
  function GetRandomInt(lo: Int32, hi: Int32, k: int): (r: Int32)
    requires IsDraw(Wrap(hi - lo + 1), k)
    ensures lo <= hi && hi - lo + 1 <= MaxInt ==> lo <= r <= hi
    ensures hi < lo && MinInt <= hi - lo + 1 ==> hi + 1 <= r <= lo
  {
    Wrap(k + lo)
  }

  /** Every value of an ordered range can be drawn. */
  lemma GetRandomIntCovers(lo: Int32, hi: Int32, v: Int32)
    requires lo <= v <= hi && hi - lo + 1 <= MaxInt
    ensures IsDraw(Wrap(hi - lo + 1), v - lo) && GetRandomInt(lo, hi, v - lo) == v
  {
  }

  /** The number of ids getRandomID draws from: per entity, not multiplied
      by the scale; an unknown code counts as an account. */
  function IdCount(kind: Int32): Int32 {
    if kind == Teller then NumTellers
    else if kind == Branch then NumBranches
    else NumAccounts
  }

  /** getRandomID: an id in [0, num - 1]. */
  function GetRandomId(kind: Int32, k: int): (r: Int32)
    requires IsDraw(IdCount(kind), k)
    ensures 0 <= r < IdCount(kind)
  {
    var num := IdCount(kind);
    var min := 0;
    var max := min + num - 1;
    GetRandomInt(min, max, k)
  }

  /** The seeded table an entity code stands for. */
  function Table(kind: Int32, scale: Int32): seq<Row> {
    if kind == Teller then Tellers(scale)
    else if kind == Branch then Branches(scale)
    else Accounts(scale)
  }

  /** The id column of a row. */
  function Key(r: Row): int {
    match r
    case BranchRow(bid, _) => bid
    case TellerRow(tid, _, _) => tid
    case AccountRow(aid, _, _) => aid
  }

  /** The first scale unit of a table is seeded whenever the product does not wrap. */
  lemma FirstUnitSeeded(n: Int32, scale: Int32)
    requires 0 < n && 1 <= scale && n * scale <= MaxInt
    ensures n <= RowCount(n, scale)
  {
    assert n <= n * scale;
  }

  /** An id a client draws names a seeded row whenever at least one scale
      unit was seeded; with a larger scale only the first unit is drawn from. */
  lemma DrawnIdSeeded(kind: Int32, scale: Int32, k: int)
    requires 1 <= scale && NumAccounts * scale <= MaxInt
    requires IsDraw(IdCount(kind), k)
    ensures var id := GetRandomId(kind, k);
            id < |Table(kind, scale)| && Key(Table(kind, scale)[id]) == id
  {
    var id := GetRandomId(kind, k);
    if kind == Teller {
      FirstUnitSeeded(NumTellers, scale);
    } else if kind == Branch {
      FirstUnitSeeded(NumBranches, scale);
    } else {
      FirstUnitSeeded(NumAccounts, scale);
    }
  }
}
