/** ClientThread.doOne: the statements one TPC-B transaction issues on its
    connection, when it commits, what it returns and whether it counts as
    failed, for a database given as an oracle that says which calls throw
    an SQLException and which rows each query reads. */
module Transaction {
  import opened JavaInt
  import opened Decimal
  import opened Sequences

  /** The statements doOne executes, by what they do; Sql gives their text. */
  datatype Statement =
    | SelectBalance(aid: int)
    | UpdateAccount(aid: int, delta: int)
    | UpdateTeller(tid: int, delta: int)
    | UpdateBranch(bid: int, delta: int)
    | InsertHistory(tid: int, bid: int, aid: int, delta: int)

  /** One call on the connection, its statement or its result set. */
  datatype Call =
    | CreateStatement
    | SetAutoCommit(autoCommit: bool)
    | ExecuteQuery(query: Statement)
    | ExecuteUpdate(update: Statement)
    | Commit
    | CloseResultSet
    | CloseStatement

  /** The database as doOne sees it: the positions (in the connection's
      whole call history) of the calls that throw, and the abalance rows
      each query at a position returns. The clearWarnings, next and getInt
      calls that follow an execute throw as part of it. */
  datatype Db = Db(faults: set<nat>, results: map<nat, seq<Int32>>)

  predicate Fails(db: Db, at: nat) {
    at in db.faults
  }

  function Rows(db: Db, at: nat): seq<Int32> {
    if at in db.results then db.results[at] else []
  }

  /** The mode flags of the benchmark. */
  datatype Config = Config(selectOnly: bool, transactionBlock: bool)

  /** The account, branch, teller and delta of one transaction. */
  datatype Args = Args(aid: Int32, bid: Int32, tid: Int32, delta: Int32)

  /** What a call of doOne does: the calls it makes, the value it returns
      and whether it bumped failedTransactions. */
  datatype Outcome = Outcome(calls: seq<Call>, ret: Int32, failed: bool)

  /** The fixed parts of the statement texts doOne builds. */
  const SelectHead: string := "SELECT abalance " + "FROM   pgbench_accounts " + "WHERE  aid = "
  const AccountHead: string := "UPDATE pgbench_accounts " + "SET abalance = abalance + "
  const AccountMid: string := " " + "WHERE aid = "
  const TellerHead: string := "UPDATE pgbench_tellers " + "SET    tbalance = tbalance + "
  const TellerMid: string := " " + "WHERE  tid = "
  const BranchHead: string := "UPDATE pgbench_branches " + "SET    bbalance = bbalance + "
  const BranchMid: string := " " + "WHERE  bid = "
  const HistoryHead: string := "INSERT INTO pgbench_history(tid, bid, aid, delta) " + "VALUES ("

  /** The statement texts doOne builds, grouped from the right. */
  function Sql(st: Statement): string {
    match st
    case SelectBalance(aid) => SelectHead + IntToString(aid)
    case UpdateAccount(aid, delta) => AccountHead + (IntToString(delta) + (AccountMid + IntToString(aid)))
    case UpdateTeller(tid, delta) => TellerHead + (IntToString(delta) + (TellerMid + IntToString(tid)))
    case UpdateBranch(bid, delta) => BranchHead + (IntToString(delta) + (BranchMid + IntToString(bid)))
    case InsertHistory(tid, bid, aid, delta) =>
      HistoryHead + (IntToString(tid) + ("," + (IntToString(bid) + ("," + (IntToString(aid) + ("," + (IntToString(delta) + ")")))))))
  }

  /** The character at position 15 of a statement's text: it tells the
      SELECT, the INSERT and the update of each table apart. */
  function Tag(st: Statement): char {
    match st
    case SelectBalance(_) => ' '
    case UpdateAccount(_, _) => 'a'
    case UpdateTeller(_, _) => 't'
    case UpdateBranch(_, _) => 'b'
    case InsertHistory(_, _, _, _) => 'e'
  }

  lemma HeadChars()
    ensures |SelectHead| > 15 && SelectHead[15] == ' '
    ensures |AccountHead| > 15 && AccountHead[15] == 'a'
    ensures |TellerHead| > 15 && TellerHead[15] == 't'
    ensures |BranchHead| > 15 && BranchHead[15] == 'b'
    ensures |HistoryHead| > 15 && HistoryHead[15] == 'e'
  {
  }

  lemma HeadTag(h: string, rest: string)
    requires |h| > 15
    ensures |h + rest| > 15 && (h + rest)[15] == h[15]
  {
  }

  lemma SqlTag(st: Statement)
    ensures |Sql(st)| > 15 && Sql(st)[15] == Tag(st)
  {
    HeadChars();
    match st
    case SelectBalance(aid) => HeadTag(SelectHead, IntToString(aid));
    case UpdateAccount(aid, delta) => HeadTag(AccountHead, IntToString(delta) + (AccountMid + IntToString(aid)));
    case UpdateTeller(tid, delta) => HeadTag(TellerHead, IntToString(delta) + (TellerMid + IntToString(tid)));
    case UpdateBranch(bid, delta) => HeadTag(BranchHead, IntToString(delta) + (BranchMid + IntToString(bid)));
    case InsertHistory(tid, bid, aid, delta) =>
      HeadTag(HistoryHead, IntToString(tid) + ("," + (IntToString(bid) + ("," + (IntToString(aid) + ("," + (IntToString(delta) + ")")))))));
  }

  /** Two texts that agree after a common head agree after it. */
  lemma DropHead(h: string, x: string, y: string)
    requires h + x == h + y
    ensures x == y
  {
    assert x == (h + x)[|h|..];
  }

  /** The position of the first `c` in `s`, or `|s|` when there is none. */
  function FirstAt(s: string, c: char): nat {
    if s == [] || s[0] == c then 0 else 1 + FirstAt(s[1..], c)
  }

  lemma {:induction false} FirstAtSeparator(x: string, c: char, y: string)
    requires c !in x
    ensures FirstAt(x + ([c] + y), c) == |x|
  {
    if x == [] {
      assert x + ([c] + y) == [c] + y;
    } else {
      assert (x + ([c] + y))[1..] == x[1..] + ([c] + y);
      FirstAtSeparator(x[1..], c, y);
    }
  }

  /** A separator that occurs in neither number fixes where each number ends. */
  lemma SplitAtSeparator(c: char, x: string, y: string, x': string, y': string)
    requires c !in x && c !in x'
    requires x + ([c] + y) == x' + ([c] + y')
    ensures x == x' && y == y'
  {
    var s := x + ([c] + y);
    FirstAtSeparator(x, c, y);
    FirstAtSeparator(x', c, y');
    assert x == s[..|x|] && x' == s[..|x'|];
    assert y == s[|x| + 1..] && y' == s[|x'| + 1..];
  }

  /** Decimal text holds no space, ',' or ')'. */
  lemma NoSeparator(n: int)
    ensures ' ' !in IntToString(n) && ',' !in IntToString(n) && ')' !in IntToString(n)
  {
    forall i | 0 <= i < |IntToString(n)|
      ensures IntToString(n)[i] != ' ' && IntToString(n)[i] != ',' && IntToString(n)[i] != ')'
    {
      IntToStringChars(n, i);
    }
  }

  /** An update text `head + delta + " " + rest + key` determines delta and key. */
  lemma UpdateTextUnique(head: string, rest: string, d1: int, k1: int, d2: int, k2: int)
    requires head + (IntToString(d1) + ((" " + rest) + IntToString(k1))) ==
             head + (IntToString(d2) + ((" " + rest) + IntToString(k2)))
    ensures d1 == d2 && k1 == k2
  {
    var y1, y2 := IntToString(k1), IntToString(k2);
    DropHead(head, IntToString(d1) + ((" " + rest) + y1), IntToString(d2) + ((" " + rest) + y2));
    AppendAssociative(" ", rest, y1);
    AppendAssociative(" ", rest, y2);
    NumberThenSeparator(' ', d1, rest + y1, d2, rest + y2);
    DropHead(rest, y1, y2);
    IntToStringInjective(k1, k2);
  }

  /** A number followed by a space or ',' and more text determines both. */
  lemma NumberThenSeparator(c: char, n1: int, r1: string, n2: int, r2: string)
    requires c == ' ' || c == ','
    requires IntToString(n1) + ([c] + r1) == IntToString(n2) + ([c] + r2)
    ensures n1 == n2 && r1 == r2
  {
    NoSeparator(n1);
    NoSeparator(n2);
    SplitAtSeparator(c, IntToString(n1), r1, IntToString(n2), r2);
    IntToStringInjective(n1, n2);
  }

  lemma NumberThenParen(n1: int, n2: int)
    requires IntToString(n1) + ")" == IntToString(n2) + ")"
    ensures n1 == n2
  {
    var x1, x2 := IntToString(n1), IntToString(n2);
    assert x1 == (x1 + ")")[..|x1|];
    assert x2 == (x2 + ")")[..|x2|];
    IntToStringInjective(n1, n2);
  }

  /** The history insert text determines its four numbers. */
  lemma InsertTextUnique(t1: int, b1: int, a1: int, d1: int, t2: int, b2: int, a2: int, d2: int)
    requires Sql(InsertHistory(t1, b1, a1, d1)) == Sql(InsertHistory(t2, b2, a2, d2))
    ensures t1 == t2 && b1 == b2 && a1 == a2 && d1 == d2
  {
    var tail1 := IntToString(a1) + ("," + (IntToString(d1) + ")"));
    var tail2 := IntToString(a2) + ("," + (IntToString(d2) + ")"));
    var mid1 := IntToString(b1) + ("," + tail1);
    var mid2 := IntToString(b2) + ("," + tail2);
    DropHead(HistoryHead, IntToString(t1) + ("," + mid1), IntToString(t2) + ("," + mid2));
    assert "," == [','];
    NumberThenSeparator(',', t1, mid1, t2, mid2);
    NumberThenSeparator(',', b1, tail1, b2, tail2);
    NumberThenSeparator(',', a1, IntToString(d1) + ")", a2, IntToString(d2) + ")");
    NumberThenParen(d1, d2);
  }

  /** A statement's text determines the statement: logging statements loses
      nothing of the texts doOne sends. */
  lemma SqlInjective(s1: Statement, s2: Statement)
    requires Sql(s1) == Sql(s2)
    ensures s1 == s2
  {
    SqlTag(s1);
    SqlTag(s2);
    HeadChars();
    match s1
    case SelectBalance(a1) =>
      DropHead(SelectHead, IntToString(a1), IntToString(s2.aid));
      IntToStringInjective(a1, s2.aid);
    case UpdateAccount(a1, d1) =>
      UpdateTextUnique(AccountHead, "WHERE aid = ", d1, a1, s2.delta, s2.aid);
    case UpdateTeller(t1, d1) =>
      UpdateTextUnique(TellerHead, "WHERE  tid = ", d1, t1, s2.delta, s2.tid);
    case UpdateBranch(b1, d1) =>
      UpdateTextUnique(BranchHead, "WHERE  bid = ", d1, b1, s2.delta, s2.bid);
    case InsertHistory(t1, b1, a1, d1) =>
      InsertTextUnique(t1, b1, a1, d1, s2.tid, s2.bid, s2.aid, s2.delta);
  }

  /** The value `while (rs.next()) aBalance = rs.getInt(1);` leaves: the
      last row read, 0 when there is none. */
  function LastRow(rows: seq<Int32>): (r: Int32)
    ensures rows == [] ==> r == 0
    ensures rows != [] ==> r == rows[|rows| - 1]
  {
    if rows == [] then 0 else rows[|rows| - 1]
  }

  /** The calls before the account update: the statement and, in a
      transaction block, switching autocommit off. */
  function Prelude(cfg: Config): seq<Call> {
    if cfg.transactionBlock then [CreateStatement, SetAutoCommit(false)] else [CreateStatement]
  }

  /** The teller and branch updates, the history insert and, in a
      transaction block, the commit. */
  function Writes(cfg: Config, t: Args): seq<Call> {
    [ExecuteUpdate(UpdateTeller(t.tid, t.delta)), ExecuteUpdate(UpdateBranch(t.bid, t.delta)),
     ExecuteUpdate(InsertHistory(t.tid, t.bid, t.aid, t.delta))] +
    (if cfg.transactionBlock then [Commit] else [])
  }

  /** The inner try once the query has been read, from call `at` on: the
      writes, the commit, and the closes on the way out. */
  function AfterQuery(cfg: Config, t: Args, db: Db, at: nat, balance: Int32): Outcome {
    var w := Writes(cfg, t);
    var closes := [CloseResultSet, CloseStatement];
    if Fails(db, at) then Outcome(w[..1] + closes, 0, true)
    else if Fails(db, at + 1) then Outcome(w[..2] + closes, 0, true)
    else if Fails(db, at + 2) then Outcome(w[..3] + closes, 0, true)
    else if cfg.transactionBlock && Fails(db, at + 3) then Outcome(w + closes, 0, true)
    else
      var rsClose := at + |w|;
      // rs is closed on the way out of the inner try, whose handler catches a fault there
      if Fails(db, rsClose) then Outcome(w + closes, 0, true)
      // stmt is closed on the way out of the outer try; its handler returns 0
      else if Fails(db, rsClose + 1) then Outcome(w + closes, 0, false)
      else Outcome(w + closes, balance, false)
  }

  /** The inner try of doOne from its SELECT, call `at`, to the end. */
  function FromQuery(cfg: Config, t: Args, db: Db, at: nat): Outcome {
    var select := ExecuteQuery(SelectBalance(t.aid));
    if Fails(db, at) then Outcome([select, CloseStatement], 0, true)
    else
      var rest := AfterQuery(cfg, t, db, at + 1, LastRow(Rows(db, at)));
      Outcome([select] + rest.calls, rest.ret, rest.failed)
  }

  /** The select-only branch from its SELECT, call `at`, on: a single
      query, whose rows are read and dropped, then the closes. */
  function SelectOnlyCalls(aid: int, db: Db, at: nat): seq<Call> {
    if Fails(db, at) then [ExecuteQuery(SelectBalance(aid)), CloseStatement]
    else [ExecuteQuery(SelectBalance(aid)), CloseResultSet, CloseStatement]
  }

  /** doOne, with the connection's call history `start` calls long. */
  function DoOne(cfg: Config, t: Args, db: Db, start: nat): Outcome {
    if Fails(db, start) then Outcome([CreateStatement], 0, false)
    else if cfg.selectOnly then Outcome([CreateStatement] + SelectOnlyCalls(t.aid, db, start + 1), 0, false)
    else
      var rest := AfterCreate(cfg, t, db, start + 1);
      Outcome([CreateStatement] + rest.calls, rest.ret, rest.failed)
  }

  /** doOne outside select-only mode once its statement exists, from call
      `at` on: autocommit off in a transaction block, the account update,
      then the inner try; a fault before the inner try only closes the
      statement. */
  function AfterCreate(cfg: Config, t: Args, db: Db, at: nat): Outcome {
    var update := ExecuteUpdate(UpdateAccount(t.aid, t.delta));
    if cfg.transactionBlock && Fails(db, at) then Outcome([SetAutoCommit(false), CloseStatement], 0, false)
    else
      var n := if cfg.transactionBlock then at + 1 else at;
      var auto := if cfg.transactionBlock then [SetAutoCommit(false)] else [];
      if Fails(db, n) then Outcome(auto + [update, CloseStatement], 0, false)
      else
        var inner := FromQuery(cfg, t, db, n + 1);
        Outcome(auto + [update] + inner.calls, inner.ret, inner.failed)
  }

  /** The calls doOne makes when nothing throws. */
  function Plan(cfg: Config, t: Args): seq<Call> {
    var select := ExecuteQuery(SelectBalance(t.aid));
    if cfg.selectOnly then [CreateStatement, select, CloseResultSet, CloseStatement]
    else Prelude(cfg) + [ExecuteUpdate(UpdateAccount(t.aid, t.delta)), select] + Writes(cfg, t) +
         [CloseResultSet, CloseStatement]
  }

  /** The position of the SELECT in the plan. */
  function QueryIndex(cfg: Config): nat {
    if cfg.selectOnly then 1 else |Prelude(cfg)| + 1
  }

  /** The first call of the plan to throw is its `p`-th. */
  predicate FirstFaultAt(db: Db, start: nat, p: nat) {
    Fails(db, start + p) && NoFault(db, start, p)
  }

  predicate NoFault(db: Db, start: nat, len: nat) {
    forall j :: start <= j < start + len ==> !Fails(db, j)
  }

  /** The closes try-with-resources still makes after the `p`-th call of a
      plan of `len` calls throws: the statement once it exists, the result
      set while it is open, neither once it is being closed itself. */
  function Closes(cfg: Config, len: nat, p: nat): seq<Call> {
    var q := QueryIndex(cfg);
    if p == 0 then []
    else if p <= q then [CloseStatement]
    else if p < len - 2 then [CloseResultSet, CloseStatement]
    else if p == len - 2 then [CloseStatement]
    else []
  }

  /** Whether the `p`-th call lies in the try whose handler counts the
      transaction as failed: from the SELECT to the closing of its result
      set, outside select-only mode. */
  predicate Counted(cfg: Config, len: nat, p: nat) {
    !cfg.selectOnly && QueryIndex(cfg) <= p <= len - 2
  }

  /** doOne follows its plan up to the first call that throws, then makes
      only the closes of what is still open and returns 0; it is counted as
      failed exactly when that call lies in the inner try. Without a fault
      it makes every call of the plan and returns the balance it read (0 in
      select-only mode). */
  lemma {:induction false} DoOneFollowsPlan(cfg: Config, t: Args, db: Db, start: nat)
    ensures var o := DoOne(cfg, t, db, start);
            var plan := Plan(cfg, t);
            && (NoFault(db, start, |plan|) ==>
                  o.calls == plan && !o.failed &&
                  o.ret == (if cfg.selectOnly then 0 else LastRow(Rows(db, start + QueryIndex(cfg)))))
            && (forall p :: 0 <= p < |plan| && FirstFaultAt(db, start, p) ==>
                  o.calls == plan[..p + 1] + Closes(cfg, |plan|, p) && o.ret == 0 &&
                  (o.failed <==> Counted(cfg, |plan|, p)))
  {
    if cfg.selectOnly {
      SelectOnlyFollowsPlan(cfg, t, db, start);
    } else {
      WritesFollowPlan(cfg, t, db, start);
    }
  }

  /** Whatever throws: doOne starts with createStatement, closes the
      statement last once it exists, returns 0 whenever it counts a failure,
      never fails or returns a balance in select-only mode, and commits only
      in a transaction block. */
  lemma DoOneShape(cfg: Config, t: Args, db: Db, start: nat)
    ensures var o := DoOne(cfg, t, db, start);
            && |o.calls| >= 1 && o.calls[0] == CreateStatement
            && (|o.calls| > 1 <==> !Fails(db, start))
            && (|o.calls| > 1 ==> o.calls[|o.calls| - 1] == CloseStatement)
            && (o.failed ==> o.ret == 0)
            && (cfg.selectOnly ==> o.ret == 0 && !o.failed)
            && (Commit in o.calls ==> !cfg.selectOnly && cfg.transactionBlock)
  {
    var o := DoOne(cfg, t, db, start);
    if !Fails(db, start) {
      if cfg.selectOnly {
        var q := SelectOnlyCalls(t.aid, db, start + 1);
        assert o.calls == [CreateStatement] + q;
        assert Commit !in q;
      } else {
        var rest := AfterCreate(cfg, t, db, start + 1);
        AfterCreateShape(cfg, t, db, start + 1);
        assert o.calls == [CreateStatement] + rest.calls;
        assert o.calls[|o.calls| - 1] == rest.calls[|rest.calls| - 1];
      }
    }
  }

  /** The stages of doOne after createStatement end with the closing of
      the statement, return 0 when they count a failure and commit only in
      a transaction block. */
  lemma AfterCreateShape(cfg: Config, t: Args, db: Db, at: nat)
    ensures var o := AfterCreate(cfg, t, db, at);
            && |o.calls| >= 1 && o.calls[|o.calls| - 1] == CloseStatement
            && (o.failed ==> o.ret == 0)
            && (Commit in o.calls ==> cfg.transactionBlock)
  {
    var o := AfterCreate(cfg, t, db, at);
    if !(cfg.transactionBlock && Fails(db, at)) {
      var n := if cfg.transactionBlock then at + 1 else at;
      var auto := if cfg.transactionBlock then [SetAutoCommit(false)] else [];
      var update := ExecuteUpdate(UpdateAccount(t.aid, t.delta));
      if !Fails(db, n) {
        var inner := FromQuery(cfg, t, db, n + 1);
        FromQueryShape(cfg, t, db, n + 1);
        assert o.calls == (auto + [update]) + inner.calls;
        assert o.calls[|o.calls| - 1] == inner.calls[|inner.calls| - 1];
        assert Commit !in auto + [update];
      }
    }
  }

  lemma FromQueryShape(cfg: Config, t: Args, db: Db, at: nat)
    ensures var o := FromQuery(cfg, t, db, at);
            && |o.calls| >= 1 && o.calls[|o.calls| - 1] == CloseStatement
            && (o.failed ==> o.ret == 0)
            && (Commit in o.calls ==> cfg.transactionBlock)
  {
    var o := FromQuery(cfg, t, db, at);
    if !Fails(db, at) {
      var rest := AfterQuery(cfg, t, db, at + 1, LastRow(Rows(db, at)));
      AfterQueryShape(cfg, t, db, at + 1, LastRow(Rows(db, at)));
      assert o.calls == [ExecuteQuery(SelectBalance(t.aid))] + rest.calls;
      assert o.calls[|o.calls| - 1] == rest.calls[|rest.calls| - 1];
    }
  }

  lemma AfterQueryShape(cfg: Config, t: Args, db: Db, at: nat, balance: Int32)
    ensures var o := AfterQuery(cfg, t, db, at, balance);
            && |o.calls| >= 1 && o.calls[|o.calls| - 1] == CloseStatement
            && (o.failed ==> o.ret == 0)
            && (Commit in o.calls ==> cfg.transactionBlock)
  {
    var w := Writes(cfg, t);
    var closes := [CloseResultSet, CloseStatement];
    assert Commit in w ==> cfg.transactionBlock;
    forall k | 0 <= k <= |w| ensures Commit in w[..k] + closes ==> cfg.transactionBlock {
      assert Commit in w[..k] ==> Commit in w;
    }
    assert w[..|w|] == w;
  }

  lemma SelectOnlyFollowsPlan(cfg: Config, t: Args, db: Db, start: nat)
    requires cfg.selectOnly
    ensures var o := DoOne(cfg, t, db, start);
            var plan := Plan(cfg, t);
            && (NoFault(db, start, |plan|) ==> o.calls == plan && !o.failed && o.ret == 0)
            && (forall p :: 0 <= p < |plan| && FirstFaultAt(db, start, p) ==>
                  o.calls == plan[..p + 1] + Closes(cfg, |plan|, p) && o.ret == 0 && !o.failed)
  {
    var plan := Plan(cfg, t);
    assert plan[..1] == [CreateStatement];
    assert plan[..2] == plan[..1] + [plan[1]];
    assert plan[..3] == plan[..2] + [CloseResultSet];
    assert plan[..4] == plan;
  }

  lemma WritesFollowPlan(cfg: Config, t: Args, db: Db, start: nat)
    requires !cfg.selectOnly
    ensures var o := DoOne(cfg, t, db, start);
            var plan := Plan(cfg, t);
            && (NoFault(db, start, |plan|) ==>
                  o.calls == plan && !o.failed && o.ret == LastRow(Rows(db, start + QueryIndex(cfg))))
            && (forall p :: 0 <= p < |plan| && FirstFaultAt(db, start, p) ==>
                  o.calls == plan[..p + 1] + Closes(cfg, |plan|, p) && o.ret == 0 &&
                  (o.failed <==> Counted(cfg, |plan|, p)))
  {
    var plan := Plan(cfg, t);
    if NoFault(db, start, |plan|) {
      WritesWithoutFault(cfg, t, db, start);
    }
    forall p | 0 <= p < |plan| && FirstFaultAt(db, start, p)
      ensures var o := DoOne(cfg, t, db, start);
              o.calls == plan[..p + 1] + Closes(cfg, |plan|, p) && o.ret == 0 &&
              (o.failed <==> Counted(cfg, |plan|, p))
    {
      var k := |Prelude(cfg)|;
      if p <= k + 1 {
        WritesFaultBeforeQuery(cfg, t, db, start, p);
      } else {
        WritesFaultAfterQuery(cfg, t, db, start, p);
      }
    }
  }

  lemma WritesWithoutFault(cfg: Config, t: Args, db: Db, start: nat)
    requires !cfg.selectOnly && NoFault(db, start, |Plan(cfg, t)|)
    ensures var o := DoOne(cfg, t, db, start);
            o.calls == Plan(cfg, t) && !o.failed && o.ret == LastRow(Rows(db, start + QueryIndex(cfg)))
  {
    var k := |Prelude(cfg)|;
    var w := Writes(cfg, t);
    var n := start + k;
    assert !Fails(db, start) && !Fails(db, n) && !Fails(db, n + 1);
    assert cfg.transactionBlock ==> !Fails(db, start + 1);
    assert !Fails(db, n + 2) && !Fails(db, n + 3) && !Fails(db, n + 4);
    assert cfg.transactionBlock ==> !Fails(db, n + 5);
    assert !Fails(db, n + 2 + |w|) && !Fails(db, n + 2 + |w| + 1);
  }

  lemma WritesFaultBeforeQuery(cfg: Config, t: Args, db: Db, start: nat, p: nat)
    requires !cfg.selectOnly && p <= |Prelude(cfg)| + 1 && FirstFaultAt(db, start, p)
    ensures var o := DoOne(cfg, t, db, start);
            var plan := Plan(cfg, t);
            o.calls == plan[..p + 1] + Closes(cfg, |plan|, p) && o.ret == 0 &&
            (o.failed <==> Counted(cfg, |plan|, p))
  {
    var plan := Plan(cfg, t);
    var k := |Prelude(cfg)|;
    assert plan[..k] == Prelude(cfg);
    assert plan[..p + 1] == plan[..p] + [plan[p]];
    if p > 0 {
      assert !Fails(db, start);
    }
    if p > 1 {
      assert !Fails(db, start + 1);
    }
    if p > 2 {
      assert !Fails(db, start + 2);
    }
  }

  lemma WritesFaultAfterQuery(cfg: Config, t: Args, db: Db, start: nat, p: nat)
    requires !cfg.selectOnly && |Prelude(cfg)| + 1 < p < |Plan(cfg, t)| && FirstFaultAt(db, start, p)
    ensures var o := DoOne(cfg, t, db, start);
            var plan := Plan(cfg, t);
            o.calls == plan[..p + 1] + Closes(cfg, |plan|, p) && o.ret == 0 &&
            (o.failed <==> Counted(cfg, |plan|, p))
  {
    if p < |Prelude(cfg)| + 2 + |Writes(cfg, t)| {
      FaultInWrites(cfg, t, db, start, p);
    } else {
      FaultInCloses(cfg, t, db, start, p);
    }
  }

  /** The calls up to and including the SELECT. */
  function Issued(cfg: Config, t: Args): seq<Call> {
    Prelude(cfg) + [ExecuteUpdate(UpdateAccount(t.aid, t.delta)), ExecuteQuery(SelectBalance(t.aid))]
  }

  lemma QueryRead(cfg: Config, t: Args, db: Db, start: nat, p: nat)
    requires !cfg.selectOnly && |Prelude(cfg)| + 1 < p && FirstFaultAt(db, start, p)
    ensures var n := start + |Prelude(cfg)|;
            var a := AfterQuery(cfg, t, db, n + 2, LastRow(Rows(db, n + 1)));
            DoOne(cfg, t, db, start) == Outcome(Issued(cfg, t) + a.calls, a.ret, a.failed)
    ensures Plan(cfg, t) == Issued(cfg, t) + Writes(cfg, t) + [CloseResultSet, CloseStatement]
  {
    var n := start + |Prelude(cfg)|;
    assert !Fails(db, start) && !Fails(db, n) && !Fails(db, n + 1);
    assert cfg.transactionBlock ==> !Fails(db, start + 1);
    var a := AfterQuery(cfg, t, db, n + 2, LastRow(Rows(db, n + 1)));
    var inner := FromQuery(cfg, t, db, n + 1);
    assert inner == Outcome([ExecuteQuery(SelectBalance(t.aid))] + a.calls, a.ret, a.failed);
    var auto := if cfg.transactionBlock then [SetAutoCommit(false)] else [];
    var rest := AfterCreate(cfg, t, db, start + 1);
    assert rest == Outcome(auto + [ExecuteUpdate(UpdateAccount(t.aid, t.delta))] + inner.calls, a.ret, a.failed);
    assert Prelude(cfg) == [CreateStatement] + auto;
    ConcatShift(auto, ExecuteUpdate(UpdateAccount(t.aid, t.delta)), ExecuteQuery(SelectBalance(t.aid)), a.calls);
  }

  /** Helper for QueryRead: regroups the calls up to the
      SELECT as the prelude, the account update and the SELECT. */
  lemma ConcatShift(auto: seq<Call>, u: Call, s: Call, rest: seq<Call>)
    ensures [CreateStatement] + (auto + [u] + ([s] + rest)) == [CreateStatement] + auto + [u, s] + rest
  {
  }

  lemma FaultInWrites(cfg: Config, t: Args, db: Db, start: nat, p: nat)
    requires !cfg.selectOnly && |Prelude(cfg)| + 1 < p < |Prelude(cfg)| + 2 + |Writes(cfg, t)|
    requires FirstFaultAt(db, start, p)
    ensures var o := DoOne(cfg, t, db, start);
            var plan := Plan(cfg, t);
            o.calls == plan[..p + 1] + Closes(cfg, |plan|, p) && o.ret == 0 && o.failed && Counted(cfg, |plan|, p)
  {
    QueryRead(cfg, t, db, start, p);
    var plan := Plan(cfg, t);
    var w := Writes(cfg, t);
    var m := start + |Prelude(cfg)| + 2;
    var j := p - (|Prelude(cfg)| + 2);
    var closes := [CloseResultSet, CloseStatement];
    assert plan[..p + 1] == Issued(cfg, t) + w[..j + 1];
    assert Closes(cfg, |plan|, p) == closes;
    if j >= 1 { assert !Fails(db, m); }
    if j >= 2 { assert !Fails(db, m + 1); }
    if j >= 3 { assert !Fails(db, m + 2); assert w[..j + 1] == w; }
    var a := AfterQuery(cfg, t, db, m, LastRow(Rows(db, m - 1)));
    assert a == Outcome(w[..j + 1] + closes, 0, true);
    assert Issued(cfg, t) + (w[..j + 1] + closes) == Issued(cfg, t) + w[..j + 1] + closes;
  }

  lemma FaultInCloses(cfg: Config, t: Args, db: Db, start: nat, p: nat)
    requires !cfg.selectOnly && |Prelude(cfg)| + 2 + |Writes(cfg, t)| <= p < |Plan(cfg, t)|
    requires FirstFaultAt(db, start, p)
    ensures var o := DoOne(cfg, t, db, start);
            var plan := Plan(cfg, t);
            o.calls == plan[..p + 1] + Closes(cfg, |plan|, p) && o.ret == 0 &&
            (o.failed <==> Counted(cfg, |plan|, p))
  {
    QueryRead(cfg, t, db, start, p);
    var plan := Plan(cfg, t);
    var w := Writes(cfg, t);
    var m := start + |Prelude(cfg)| + 2;
    assert !Fails(db, m) && !Fails(db, m + 1) && !Fails(db, m + 2);
    assert cfg.transactionBlock ==> !Fails(db, m + 3);
    if p == |plan| - 2 {
      assert plan[..p + 1] == Issued(cfg, t) + w + [CloseResultSet];
    } else {
      assert !Fails(db, m + |w|);
      assert plan[..p + 1] == plan;
    }
  }
}
