/** JDBCBench.DDLInfo: a table name and the columns added to it, and the
    CREATE TABLE statement it produces; and the four pgbench tables that
    createDatabase declares. */
module Ddl {

  /** JDBCBench.PgColumn. */
  datatype PgColumn = PgColumn(name: string, colType: string)

  /** One column as createTable writes it: a space, the name, a space, the type. */
  function ColumnDef(c: PgColumn): string {
    " " + c.name + " " + c.colType
  }

  /** The column definitions in order, separated by ',' with none trailing. */
  function ColumnList(cols: seq<PgColumn>): string
    decreases |cols|
  {
    if cols == [] then ""
    else if |cols| == 1 then ColumnDef(cols[0])
    else ColumnList(cols[..|cols| - 1]) + "," + ColumnDef(cols[|cols| - 1])
  }

  /** The statement createTable returns. */
  function CreateTableSql(name: string, cols: seq<PgColumn>): string {
    "create table " + name + "(" + ColumnList(cols) + ")"
  }

  class DDLInfo {
    var tableName: string
    var columns: seq<PgColumn>

    constructor (tableName: string)
      ensures this.tableName == tableName && columns == []
    {
      this.tableName := tableName;
      columns := [];
    }

    /** addColumn appends and returns the same object, so calls chain. */
    method AddColumn(c: PgColumn) returns (self: DDLInfo)
      modifies this
      ensures self == this
      ensures columns == old(columns) + [c] && tableName == old(tableName)
    {
      columns := columns + [c];
      self := this;
    }

    /** createTable: the StringBuilder loop over the columns. */
    method CreateTable() returns (sql: string)
      ensures sql == CreateTableSql(tableName, columns)
    {
      var head := "create table " + tableName + "(";
      var sb := head;
      var i := 0;
      while i < |columns|
        invariant 0 <= i <= |columns|
        invariant sb == head + Built(columns, i)
      {
        var column := columns[i];
        BuiltStep(head, columns, i);
        sb := sb + " " + column.name + " " + column.colType;
        if i + 1 < |columns| {
          sb := sb + ",";
        }
        i := i + 1;
      }
      assert columns[..i] == columns;
      sql := sb + ")";
    }
  }

  /** What the builder holds after `i` columns: their list, and the ','
      that follows every column but the last. */
  function Built(cols: seq<PgColumn>, i: nat): string
    requires i <= |cols|
  {
    ColumnList(cols[..i]) + (if 0 < i < |cols| then "," else "")
  }

  /** One iteration of createTable's loop takes the builder from `i` columns to `i + 1`. */
  lemma BuiltStep(head: string, cols: seq<PgColumn>, i: nat)
    requires i < |cols|
    ensures var next := head + Built(cols, i) + " " + cols[i].name + " " + cols[i].colType;
            (if i + 1 < |cols| then next + "," else next) == head + Built(cols, i + 1)
  {
    ColumnListStep(cols, i);
    var prefix := Built(cols, i);
    var def := ColumnDef(cols[i]);
    assert prefix + def == ColumnList(cols[..i + 1]);
    assert head + prefix + " " + cols[i].name + " " + cols[i].colType == head + (prefix + def);
  }

  /** One more column extends the list by its definition, after a ',' unless it is the first. */
  lemma ColumnListStep(cols: seq<PgColumn>, i: nat)
    requires i < |cols|
    ensures ColumnList(cols[..i + 1]) ==
            (if i == 0 then "" else ColumnList(cols[..i]) + ",") + ColumnDef(cols[i])
  {
    assert cols[..i + 1][..i] == cols[..i];
  }

  /** Zero columns give "create table name()". */
  lemma CreateTableEmpty(name: string)
    ensures CreateTableSql(name, []) == "create table " + name + "()"
  {
  }

  /** The text between the separating commas. */
  function SplitCommas(s: string): (r: seq<string>)
    ensures |r| >= 1
  {
    if s == [] then [""]
    else if s[0] == ',' then [""] + SplitCommas(s[1..])
    else var rest := SplitCommas(s[1..]); [[s[0]] + rest[0]] + rest[1..]
  }

  lemma {:induction false} SplitCommasPiece(p: string, t: string)
    requires ',' !in p
    ensures SplitCommas(p + "," + t) == [p] + SplitCommas(t)
  {
    if p == [] {
      assert p + "," + t == [','] + t;
      assert (p + "," + t)[1..] == t;
    } else {
      assert (p + "," + t)[1..] == p[1..] + "," + t;
      SplitCommasPiece(p[1..], t);
      assert [p[0]] + p[1..] == p;
    }
  }

  lemma {:induction false} SplitCommasNone(p: string)
    requires ',' !in p
    ensures SplitCommas(p) == [p]
  {
    if p != [] {
      SplitCommasNone(p[1..]);
      assert [p[0]] + p[1..] == p;
    }
  }

  function ColumnDefs(cols: seq<PgColumn>): (r: seq<string>)
    ensures |r| == |cols|
  {
    seq(|cols|, i requires 0 <= i < |cols| => ColumnDef(cols[i]))
  }

  /** ColumnList with the commas after each definition: the form splitting
      from the front sees. */
  lemma {:induction false} ColumnListCons(cols: seq<PgColumn>)
    requires |cols| >= 2
    decreases |cols|
    ensures ColumnList(cols) == ColumnDef(cols[0]) + "," + ColumnList(cols[1..])
  {
    var n := |cols|;
    if n == 2 {
      assert cols[..1] == [cols[0]];
      assert cols[1..] == [cols[1]];
    } else {
      ColumnListCons(cols[..n - 1]);
      assert cols[..n - 1][1..] == cols[1..][..n - 2];
      assert cols[..n - 1][0] == cols[0];
      assert cols[1..][n - 2] == cols[n - 1];
    }
  }

  /** When no name or type holds a ',', splitting the column list at its
      commas gives back each column's definition, in order: the list has no
      trailing separator and loses no column. */
  lemma {:induction false} ColumnListSplits(cols: seq<PgColumn>)
    requires |cols| >= 1
    requires forall i :: 0 <= i < |cols| ==> ',' !in cols[i].name && ',' !in cols[i].colType
    decreases |cols|
    ensures SplitCommas(ColumnList(cols)) == ColumnDefs(cols)
  {
    assert ',' !in ColumnDef(cols[0]);
    if |cols| == 1 {
      SplitCommasNone(ColumnDef(cols[0]));
    } else {
      ColumnListCons(cols);
      SplitCommasPiece(ColumnDef(cols[0]), ColumnList(cols[1..]));
      ColumnListSplits(cols[1..]);
      assert ColumnDefs(cols) == [ColumnDef(cols[0])] + ColumnDefs(cols[1..]);
    }
  }

  /** A table declaration as createDatabase lists it. */
  datatype TableDef = TableDef(name: string, columns: seq<PgColumn>)

  /** The accounts key type as the source writes it: the conditional binds
      looser than '+', so " not null" is only appended to "int". */
  function AccountKeyTypeAsWritten(bigIntegers: bool): string {
    if bigIntegers then "bigint" else "int" + " not null"
  }

  /** With bigIntegers the accounts key loses its NOT NULL constraint. */
  lemma AccountKeyNullableWithBigIntegers()
    ensures AccountKeyTypeAsWritten(true) == "bigint"
    ensures AccountKeyTypeAsWritten(false) == "int not null"
    ensures AccountKeyTypeAsWritten(true) != AccountKeyType(true)
  {
  }

  /** The accounts key type as evidently intended: the key width, then NOT NULL. */
  function AccountKeyType(bigIntegers: bool): string {
    (if bigIntegers then "bigint" else "int") + " not null"
  }

  /** The history table: no key column; its `aid` is as wide as the accounts key. */
  function HistoryTable(bigIntegers: bool): TableDef {
    TableDef("pgbench_history", [PgColumn("tid", "int"), PgColumn("bid", "int"),
      PgColumn("aid", if bigIntegers then "bigint" else "int"), PgColumn("delta", "int"),
      PgColumn("mtime", "timestamp"), PgColumn("filler", "char(22)")])
  }

  /** The tellers table, keyed by `tid int not null`. */
  function TellersTable(): TableDef {
    TableDef("pgbench_tellers", [PgColumn("tid", "int not null"), PgColumn("bid", "int"),
      PgColumn("tbalance", "int"), PgColumn("filler", "char(84)")])
  }

  /** The accounts table as createDatabase declares it, key type as written. */
  function AccountsTable(bigIntegers: bool): TableDef {
    TableDef("pgbench_accounts", [PgColumn("aid", AccountKeyTypeAsWritten(bigIntegers)), PgColumn("bid", "int"),
      PgColumn("abalance", "int"), PgColumn("filler", "char(84)")])
  }

  /** The accounts table with the key type evidently intended. */
  function IntendedAccountsTable(bigIntegers: bool): TableDef {
    TableDef("pgbench_accounts", [PgColumn("aid", AccountKeyType(bigIntegers)), PgColumn("bid", "int"),
      PgColumn("abalance", "int"), PgColumn("filler", "char(84)")])
  }

  /** The branches table, keyed by `bid int not null`. */
  function BranchesTable(): TableDef {
    TableDef("pgbench_branches", [PgColumn("bid", "int not null"), PgColumn("bbalance", "int"),
      PgColumn("filler", "char(88)")])
  }

  /** The tables createDatabase creates, in order, as written. */
  function StandardTables(bigIntegers: bool): seq<TableDef> {
    [HistoryTable(bigIntegers), TellersTable(), AccountsTable(bigIntegers), BranchesTable()]
  }

  /** The same list with the accounts key as evidently intended. */
  function IntendedTables(bigIntegers: bool): seq<TableDef> {
    [HistoryTable(bigIntegers), TellersTable(), IntendedAccountsTable(bigIntegers), BranchesTable()]
  }

  /** As written, the key of tellers and branches is NOT NULL, and so is the
      accounts key with `int` keys; with bigIntegers the accounts key is a
      bare `bigint`, which does not end in NOT NULL. */
  lemma AsWrittenKeys(bigIntegers: bool)
    ensures EndsWith(TellersTable().columns[0].colType, " not null")
    ensures EndsWith(BranchesTable().columns[0].colType, " not null")
    ensures !bigIntegers ==> EndsWith(StandardTables(bigIntegers)[2].columns[0].colType, " not null")
    ensures bigIntegers ==> StandardTables(bigIntegers)[2].columns[0].colType == "bigint" &&
                            !EndsWith(StandardTables(bigIntegers)[2].columns[0].colType, " not null")
  {
    assert EndsWith("int not null", " not null");
    if bigIntegers {
      assert |"bigint"| < |" not null"|;
    }
  }

  /** In the intended list the key column of tellers, accounts and branches
      is declared NOT NULL for either key width, and the account key is as
      wide as asked for. */
  lemma KeysNotNull(bigIntegers: bool)
    ensures forall t :: t in IntendedTables(bigIntegers)[1..] ==>
              |t.columns| >= 1 && EndsWith(t.columns[0].colType, " not null")
    ensures IntendedAccountsTable(bigIntegers).columns[0].colType[..|IntendedAccountsTable(bigIntegers).columns[0].colType| - 9] ==
            (if bigIntegers then "bigint" else "int")
  {
    var ts := IntendedTables(bigIntegers)[1..];
    assert ts == [TellersTable(), IntendedAccountsTable(bigIntegers), BranchesTable()];
    assert EndsWith("int not null", " not null");
    assert EndsWith(AccountKeyType(bigIntegers), " not null");
  }

  /** The two lists differ only in the accounts key, and only with bigIntegers. */
  lemma IntendedDiffersOnlyInAccountsKey(bigIntegers: bool)
    ensures |IntendedTables(bigIntegers)| == |StandardTables(bigIntegers)|
    ensures forall k :: 0 <= k < 4 && k != 2 ==> IntendedTables(bigIntegers)[k] == StandardTables(bigIntegers)[k]
    ensures IntendedTables(bigIntegers)[2].columns[1..] == StandardTables(bigIntegers)[2].columns[1..]
    ensures IntendedTables(bigIntegers) == StandardTables(bigIntegers) <==> !bigIntegers
  {
    if bigIntegers {
      assert IntendedTables(true)[2].columns[0].colType != StandardTables(true)[2].columns[0].colType by {
        AccountKeyNullableWithBigIntegers();
      }
    }
  }

  predicate EndsWith(s: string, suffix: string) {
    |suffix| <= |s| && s[|s| - |suffix|..] == suffix
  }

  /** The DDLInfo built for a table declaration by a chain of addColumn calls. */
  predicate Declares(info: DDLInfo, t: TableDef)
    reads info
  {
    info.tableName == t.name && info.columns == t.columns
  }

  method NewHistoryTable(bigIntegers: bool) returns (info: DDLInfo)
    ensures fresh(info) && Declares(info, HistoryTable(bigIntegers))
  {
    info := new DDLInfo("pgbench_history");
    var h := info.AddColumn(PgColumn("tid", "int"));
    h := h.AddColumn(PgColumn("bid", "int"));
    h := h.AddColumn(PgColumn("aid", if bigIntegers then "bigint" else "int"));
    h := h.AddColumn(PgColumn("delta", "int"));
    h := h.AddColumn(PgColumn("mtime", "timestamp"));
    h := h.AddColumn(PgColumn("filler", "char(22)"));
  }

  method NewTellersTable() returns (info: DDLInfo)
    ensures fresh(info) && Declares(info, TellersTable())
  {
    info := new DDLInfo("pgbench_tellers");
    var t := info.AddColumn(PgColumn("tid", "int not null"));
    t := t.AddColumn(PgColumn("bid", "int"));
    t := t.AddColumn(PgColumn("tbalance", "int"));
    t := t.AddColumn(PgColumn("filler", "char(84)"));
  }

  method NewAccountsTable(bigIntegers: bool) returns (info: DDLInfo)
    ensures fresh(info) && Declares(info, AccountsTable(bigIntegers))
  {
    info := new DDLInfo("pgbench_accounts");
    var a := info.AddColumn(PgColumn("aid", AccountKeyTypeAsWritten(bigIntegers)));
    a := a.AddColumn(PgColumn("bid", "int"));
    a := a.AddColumn(PgColumn("abalance", "int"));
    a := a.AddColumn(PgColumn("filler", "char(84)"));
  }

  method NewBranchesTable() returns (info: DDLInfo)
    ensures fresh(info) && Declares(info, BranchesTable())
  {
    info := new DDLInfo("pgbench_branches");
    var b := info.AddColumn(PgColumn("bid", "int not null"));
    b := b.AddColumn(PgColumn("bbalance", "int"));
    b := b.AddColumn(PgColumn("filler", "char(88)"));
  }

  /** The table list of createDatabase and its loop: one CREATE TABLE per
      table, in order. */
  method CreateTables(bigIntegers: bool) returns (statements: seq<string>)
    ensures |statements| == |StandardTables(bigIntegers)|
    ensures forall k :: 0 <= k < |statements| ==>
              statements[k] == CreateTableSql(StandardTables(bigIntegers)[k].name, StandardTables(bigIntegers)[k].columns)
  {
    var history := NewHistoryTable(bigIntegers);
    var tellers := NewTellersTable();
    var accounts := NewAccountsTable(bigIntegers);
    var branches := NewBranchesTable();
    var tableList := [history, tellers, accounts, branches];
    ghost var tables := StandardTables(bigIntegers);
    assert forall j :: 0 <= j < 4 ==> Declares(tableList[j], tables[j]);
    statements := [];
    for k := 0 to |tableList|
      invariant |statements| == k
      invariant forall j :: 0 <= j < 4 ==> Declares(tableList[j], tables[j])
      invariant forall j :: 0 <= j < k ==> statements[j] == CreateTableSql(tables[j].name, tables[j].columns)
    {
      var q := tableList[k].CreateTable();
      statements := statements + [q];
    }
  }
}
