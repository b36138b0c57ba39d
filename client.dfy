/** JDBCBench's client side: the benchmark's counters, a connection whose
    calls are logged and answered by a database oracle, and ClientThread's
    doOne and run. */
module Client {
  import opened JavaInt
  import opened Scaling
  import opened Transaction
  import opened Sequences

  /** A JDBC connection reduced to what doOne observes: every call is
      logged, and the oracle says whether it throws and what a query reads. */
  class Connection {
    const db: Db
    var log: seq<Call>

    constructor (db: Db)
      ensures this.db == db && log == []
    {
      this.db := db;
      log := [];
    }

    /** Makes one call; `ok` is false when it throws an SQLException. */
    method Perform(c: Call) returns (ok: bool)
      modifies this
      ensures log == old(log) + [c]
      ensures ok <==> !Fails(db, |old(log)|)
    {
      ok := !Fails(db, |log|);
      log := log + [c];
    }

    /** executeQuery: the rows of the result set, when it does not throw. */
    method Query(query: Statement) returns (ok: bool, rows: seq<Int32>)
      modifies this
      ensures log == old(log) + [ExecuteQuery(query)]
      ensures ok <==> !Fails(db, |old(log)|)
      ensures rows == Rows(db, |old(log)|)
    {
      ok := !Fails(db, |log|);
      rows := Rows(db, |log|);
      log := log + [ExecuteQuery(query)];
    }
  }

  /** The JDBCBench fields the clients read and update. */
  class Bench {
    const selectOnly: bool
    const isTransactionBlock: bool
    var failedTransactions: int
    var transactionCount: int

    constructor (selectOnly: bool)
      ensures this.selectOnly == selectOnly && isTransactionBlock
      ensures failedTransactions == 0 && transactionCount == 0
    {
      this.selectOnly := selectOnly;
      isTransactionBlock := true;
      failedTransactions := 0;
      transactionCount := 0;
    }

    function Mode(): Config {
      Config(selectOnly, isTransactionBlock)
    }

    method IncrementTransactionCount()
      modifies this
      ensures transactionCount == old(transactionCount) + 1
      ensures failedTransactions == old(failedTransactions)
    {
      transactionCount := transactionCount + 1;
    }

    method IncrementFailedTransactionCount()
      modifies this
      ensures failedTransactions == old(failedTransactions) + 1
      ensures transactionCount == old(transactionCount)
    {
      failedTransactions := failedTransactions + 1;
    }
  }

  /** The four draws of one iteration of run, as the integers the
      floating-point draws truncate to. */
  datatype Draw = Draw(account: int, branch: int, teller: int, delta: int)

  predicate ValidDraw(d: Draw) {
    IsDraw(IdCount(Account), d.account) && IsDraw(IdCount(Branch), d.branch) &&
    IsDraw(IdCount(Teller), d.teller) && IsDraw(Wrap(500 - -500 + 1), d.delta)
  }

  /** The arguments run passes to doOne for a draw. */
  function ArgsOf(d: Draw): Args
    requires ValidDraw(d)
  {
    Args(GetRandomId(Account, d.account), GetRandomId(Branch, d.branch), GetRandomId(Teller, d.teller),
         GetRandomInt(-500, 500, d.delta))
  }

  /** What a client leaves behind: the connection's call log and the
      benchmark's failedTransactions. */
  datatype Tally = Tally(log: seq<Call>, failed: int)

  /** One more transaction: its calls are appended to the log, and a
      failure is counted. */
  function Extend(cfg: Config, db: Db, before: Tally, t: Args): Tally {
    var o := Transaction.DoOne(cfg, t, db, |before.log|);
    Tally(before.log + o.calls, before.failed + if o.failed then 1 else 0)
  }

  /** A tally that adds one transaction's calls and failure to `before`
      is its extension. */
  lemma ExtendBy(cfg: Config, db: Db, before: Tally, t: Args, after: Tally)
    requires var o := Transaction.DoOne(cfg, t, db, |before.log|);
             after.log == before.log + o.calls && after.failed == before.failed + (if o.failed then 1 else 0)
    ensures after == Extend(cfg, db, before, t)
  {
  }

  /** A run's transactions one after another on the same connection,
      from the tally `init`. */
  function Runs(cfg: Config, db: Db, init: Tally, args: seq<Args>): Tally {
    if args == [] then init
    else Extend(cfg, db, Runs(cfg, db, init, args[..|args| - 1]), args[|args| - 1])
  }

  /** A run only appends to the log, and counts at most one failure per
      transaction. */
  lemma {:induction false} RunsGrow(cfg: Config, db: Db, init: Tally, args: seq<Args>)
    ensures var r := Runs(cfg, db, init, args);
            && init.log <= r.log
            && init.failed <= r.failed <= init.failed + |args|
  {
    if args != [] {
      var before := Runs(cfg, db, init, args[..|args| - 1]);
      RunsGrow(cfg, db, init, args[..|args| - 1]);
      var o := Transaction.DoOne(cfg, args[|args| - 1], db, |before.log|);
      assert Runs(cfg, db, init, args).log == before.log + o.calls;
    }
  }

  /** No transaction of the run fails, each one started where the run had got to. */
  predicate NoneFails(cfg: Config, db: Db, init: Tally, args: seq<Args>) {
    forall i :: 0 <= i < |args| ==> !Transaction.DoOne(cfg, args[i], db, |Runs(cfg, db, init, args[..i]).log|).failed
  }

  /** No transaction fails exactly when none of the earlier ones fails and the last one does not. */
  lemma NoneFailsStep(cfg: Config, db: Db, init: Tally, args: seq<Args>)
    requires args != []
    ensures var k := |args| - 1;
            NoneFails(cfg, db, init, args) <==>
            NoneFails(cfg, db, init, args[..k]) &&
            !Transaction.DoOne(cfg, args[k], db, |Runs(cfg, db, init, args[..k]).log|).failed
  {
    var k := |args| - 1;
    var pre := args[..k];
    forall i | 0 <= i < k
      ensures pre[..i] == args[..i] && pre[i] == args[i]
    {
    }
    assert args[..k] == pre;
  }

  /** A run counts no failure exactly when none of its transactions fails. */
  lemma {:induction false} RunsFailures(cfg: Config, db: Db, init: Tally, args: seq<Args>)
    ensures Runs(cfg, db, init, args).failed == init.failed <==> NoneFails(cfg, db, init, args)
  {
    if args != [] {
      var k := |args| - 1;
      RunsGrow(cfg, db, init, args[..k]);
      RunsFailures(cfg, db, init, args[..k]);
      NoneFailsStep(cfg, db, init, args);
    }
  }

  /** The arguments of the transactions of a run. */
  function ArgsOfAll(draws: seq<Draw>): (r: seq<Args>)
    requires forall d :: d in draws ==> ValidDraw(d)
    ensures |r| == |draws|
  {
    if draws == [] then []
    else ArgsOfAll(draws[..|draws| - 1]) + [ArgsOf(draws[|draws| - 1])]
  }

  /** One more draw extends the run by its transaction. */
  lemma RunsStep(cfg: Config, db: Db, init: Tally, draws: seq<Draw>, i: nat)
    requires forall d :: d in draws ==> ValidDraw(d)
    requires i < |draws|
    ensures Runs(cfg, db, init, ArgsOfAll(draws[..i + 1])) ==
            Extend(cfg, db, Runs(cfg, db, init, ArgsOfAll(draws[..i])), ArgsOf(draws[i]))
  {
    assert draws[..i + 1][..i] == draws[..i];
    var args := ArgsOfAll(draws[..i]);
    assert ArgsOfAll(draws[..i + 1]) == args + [ArgsOf(draws[i])];
    assert (args + [ArgsOf(draws[i])])[..|args|] == args;
  }

  class ClientThread {
    var ntrans: Int32
    const bench: Bench
    const connection: Connection

    constructor (ntrans: Int32, bench: Bench, connection: Connection)
      ensures this.ntrans == ntrans && this.bench == bench && this.connection == connection
    {
      this.ntrans := ntrans;
      this.bench := bench;
      this.connection := connection;
    }

    /** doOne: exceptions become the `ok` results of the calls, each
        try-with-resources closes what it opened, the inner handler counts
        the transaction as failed and every handler returns 0. */
    method DoOne(aid: Int32, bid: Int32, tid: Int32, delta: Int32) returns (ret: Int32)
      modifies bench, connection
      ensures var o := Transaction.DoOne(bench.Mode(), Args(aid, bid, tid, delta), connection.db, |old(connection.log)|);
              && connection.log == old(connection.log) + o.calls
              && ret == o.ret
              && bench.failedTransactions == old(bench.failedTransactions) + (if o.failed then 1 else 0)
              && bench.transactionCount == old(bench.transactionCount)
    {
      ghost var log0 := connection.log;
      var ok := connection.Perform(CreateStatement);
      if !ok {
        return 0;
      }
      if bench.selectOnly {
        ret := SelectOnly(aid);
        AppendAssociative(log0, [CreateStatement], SelectOnlyCalls(aid, connection.db, |log0| + 1));
        return;
      }
      ret := AfterCreate(aid, bid, tid, delta);
      AppendAssociative(log0, [CreateStatement],
        Transaction.AfterCreate(bench.Mode(), Args(aid, bid, tid, delta), connection.db, |log0| + 1).calls);
    }

    /** doOne outside select-only mode once the statement is created. */
    method AfterCreate(aid: Int32, bid: Int32, tid: Int32, delta: Int32) returns (ret: Int32)
      requires !bench.selectOnly
      modifies bench, connection
      ensures var o := Transaction.AfterCreate(bench.Mode(), Args(aid, bid, tid, delta), connection.db, |old(connection.log)|);
              && connection.log == old(connection.log) + o.calls
              && ret == o.ret
              && bench.failedTransactions == old(bench.failedTransactions) + (if o.failed then 1 else 0)
              && bench.transactionCount == old(bench.transactionCount)
    {
      ghost var o := Transaction.AfterCreate(bench.Mode(), Args(aid, bid, tid, delta), connection.db, |connection.log|);
      ghost var auto := if bench.isTransactionBlock then [SetAutoCommit(false)] else [];
      var update := ExecuteUpdate(UpdateAccount(aid, delta));
      var ok: bool;
      if bench.isTransactionBlock {
        ok := connection.Perform(SetAutoCommit(false));
        if !ok {
          ok := connection.Perform(CloseStatement);
          assert o == Outcome([SetAutoCommit(false), CloseStatement], 0, false);
          return 0;
        }
      }
      assert connection.log == old(connection.log) + auto;
      ok := connection.Perform(update);
      if !ok {
        ok := connection.Perform(CloseStatement);
        assert o == Outcome(auto + [update, CloseStatement], 0, false);
        return 0;
      }
      ghost var before := connection.log;
      ret := InnerTry(aid, bid, tid, delta);
      assert before == old(connection.log) + (auto + [update]);
      AppendAssociative(old(connection.log), auto + [update],
        FromQuery(bench.Mode(), Args(aid, bid, tid, delta), connection.db, |before|).calls);
    }

    /** The select-only branch of doOne after the statement is created. */
    method SelectOnly(aid: Int32) returns (ret: Int32)
      modifies connection
      ensures connection.log == old(connection.log) + SelectOnlyCalls(aid, connection.db, |old(connection.log)|)
      ensures ret == 0
    {
      var ok, rows := connection.Query(SelectBalance(aid));
      if !ok {
        ok := connection.Perform(CloseStatement);
        return 0;
      }
      // the rows are read and their values dropped
      ok := connection.Perform(CloseResultSet);
      ok := connection.Perform(CloseStatement);
      return 0;
    }

    /** From the SELECT to the end of doOne: the try whose handler counts
        the transaction as failed, and the closing of the statement. */
    method InnerTry(aid: Int32, bid: Int32, tid: Int32, delta: Int32) returns (ret: Int32)
      modifies bench, connection
      ensures var o := FromQuery(bench.Mode(), Args(aid, bid, tid, delta), connection.db, |old(connection.log)|);
              && connection.log == old(connection.log) + o.calls
              && ret == o.ret
              && bench.failedTransactions == old(bench.failedTransactions) + (if o.failed then 1 else 0)
              && bench.transactionCount == old(bench.transactionCount)
    {
      var ok, rows := connection.Query(SelectBalance(aid));
      if !ok {
        bench.IncrementFailedTransactionCount();
        ok := connection.Perform(CloseStatement);
        return 0;
      }
      var aBalance := ReadBalance(rows);
      ghost var base := connection.log;
      ret := WriteAndClose(aid, bid, tid, delta, aBalance);
      assert base == old(connection.log) + [ExecuteQuery(SelectBalance(aid))];
      AppendAssociative(old(connection.log), [ExecuteQuery(SelectBalance(aid))],
        AfterQuery(bench.Mode(), Args(aid, bid, tid, delta), connection.db, |base|, aBalance).calls);
    }

    /** `while (rs.next()) aBalance = rs.getInt(1)`: the balance of the
        last row, 0 when there is none. */
    method ReadBalance(rows: seq<Int32>) returns (aBalance: Int32)
      ensures rows == [] ==> aBalance == 0
      ensures rows != [] ==> aBalance == rows[|rows| - 1]
    {
      aBalance := 0;
      var i := 0;
      while i < |rows|
        invariant 0 <= i <= |rows|
        invariant i == 0 ==> aBalance == 0
        invariant i > 0 ==> aBalance == rows[i - 1]
      {
        aBalance := rows[i];
        i := i + 1;
      }
    }

    /** The writes and the commit of the inner try, then the closes; a
        fault leaves the inner try through its handler. */
    method WriteAndClose(aid: Int32, bid: Int32, tid: Int32, delta: Int32, aBalance: Int32) returns (ret: Int32)
      modifies bench, connection
      ensures var o := AfterQuery(bench.Mode(), Args(aid, bid, tid, delta), connection.db, |old(connection.log)|, aBalance);
              && connection.log == old(connection.log) + o.calls
              && ret == o.ret
              && bench.failedTransactions == old(bench.failedTransactions) + (if o.failed then 1 else 0)
              && bench.transactionCount == old(bench.transactionCount)
    {
      ghost var w := Writes(bench.Mode(), Args(aid, bid, tid, delta));
      ghost var closes := [CloseResultSet, CloseStatement];
      var ok := connection.Perform(ExecuteUpdate(UpdateTeller(tid, delta)));
      if !ok {
        Abort();
        assert connection.log == old(connection.log) + (w[..1] + closes);
        return 0;
      }
      ok := connection.Perform(ExecuteUpdate(UpdateBranch(bid, delta)));
      if !ok {
        Abort();
        assert connection.log == old(connection.log) + (w[..2] + closes);
        return 0;
      }
      ok := connection.Perform(ExecuteUpdate(InsertHistory(tid, bid, aid, delta)));
      if !ok {
        Abort();
        assert connection.log == old(connection.log) + (w[..3] + closes);
        return 0;
      }
      if bench.isTransactionBlock {
        ok := connection.Perform(Commit);
        if !ok {
          Abort();
          assert connection.log == old(connection.log) + (w + closes);
          return 0;
        }
      }
      assert connection.log == old(connection.log) + w;
      ret := Close(aBalance);
      assert connection.log == old(connection.log) + (w + closes);
    }

    /** The handler of the inner try after a fault in it: the result set
        is closed on the way out, the failure counted, then the statement
        closed. */
    method Abort()
      modifies bench, connection
      ensures connection.log == old(connection.log) + [CloseResultSet, CloseStatement]
      ensures bench.failedTransactions == old(bench.failedTransactions) + 1
      ensures bench.transactionCount == old(bench.transactionCount)
    {
      var ok := connection.Perform(CloseResultSet);
      bench.IncrementFailedTransactionCount();
      ok := connection.Perform(CloseStatement);
    }

    /** `return aBalance` from inside both tries: the result set, then the
        statement, is closed; a fault in the first is counted as failed. */
    method Close(aBalance: Int32) returns (ret: Int32)
      modifies bench, connection
      ensures var at := |old(connection.log)|;
              && connection.log == old(connection.log) + [CloseResultSet, CloseStatement]
              && ret == (if Fails(connection.db, at) || Fails(connection.db, at + 1) then 0 else aBalance)
              && bench.failedTransactions == old(bench.failedTransactions) + (if Fails(connection.db, at) then 1 else 0)
              && bench.transactionCount == old(bench.transactionCount)
    {
      var closed := connection.Perform(CloseResultSet);
      if !closed {
        bench.IncrementFailedTransactionCount();
        var ok := connection.Perform(CloseStatement);
        return 0;
      }
      var ok := connection.Perform(CloseStatement);
      if !ok {
        return 0;
      }
      return aBalance;
    }

    /** `ntrans-- > 0`: the test reads the count before the decrement. */
    method CountDown() returns (more: bool)
      modifies this
      ensures more <==> old(ntrans) > 0
      ensures ntrans == Wrap(old(ntrans) - 1)
      ensures more ==> ntrans == old(ntrans) - 1
    {
      more := ntrans > 0;
      ntrans := Wrap(ntrans - 1);
    }

    /** The account, branch, teller and delta one iteration of run draws. */
    method DrawArgs(d: Draw) returns (account: Int32, branch: Int32, teller: Int32, delta: Int32)
      requires ValidDraw(d)
      ensures ArgsOf(d) == Args(account, branch, teller, delta)
      ensures 0 <= account < NumAccounts && branch == 0 && 0 <= teller < NumTellers && -500 <= delta <= 500
    {
      account := GetRandomId(Account, d.account);
      branch := GetRandomId(Branch, d.branch);
      teller := GetRandomId(Teller, d.teller);
      delta := GetRandomInt(-500, 500, d.delta);
    }

    /** doOne on drawn arguments, then the count of transactions. */
    method Execute(aid: Int32, bid: Int32, tid: Int32, delta: Int32)
      modifies bench, connection
      ensures Tally(connection.log, bench.failedTransactions) ==
              Extend(bench.Mode(), connection.db, Tally(old(connection.log), old(bench.failedTransactions)),
                     Args(aid, bid, tid, delta))
      ensures bench.transactionCount == old(bench.transactionCount) + 1
    {
      ghost var before := Tally(connection.log, bench.failedTransactions);
      var ret := DoOne(aid, bid, tid, delta);
      ExtendBy(bench.Mode(), connection.db, before, Args(aid, bid, tid, delta),
               Tally(connection.log, bench.failedTransactions));
      bench.IncrementTransactionCount();
    }

    /** One iteration of run's loop: the draws, doOne and the count. */
    method Transact(d: Draw)
      requires ValidDraw(d)
      modifies bench, connection
      ensures Tally(connection.log, bench.failedTransactions) ==
              Extend(bench.Mode(), connection.db, Tally(old(connection.log), old(bench.failedTransactions)), ArgsOf(d))
      ensures bench.transactionCount == old(bench.transactionCount) + 1
    {
      var account, branch, teller, delta := DrawArgs(d);
      Execute(account, branch, teller, delta);
    }

    /** run: `while (ntrans-- > 0)` draws the ids and the delta, runs one
        transaction and counts it, whatever doOne returned. */
    method Run(draws: seq<Draw>)
      requires forall d :: d in draws ==> ValidDraw(d)
      requires |draws| >= if ntrans > 0 then ntrans else 0
      modifies this, bench, connection
      ensures var n := if old(ntrans) > 0 then old(ntrans) else 0;
              && Tally(connection.log, bench.failedTransactions) ==
                 Runs(bench.Mode(), connection.db, Tally(old(connection.log), old(bench.failedTransactions)),
                      ArgsOfAll(draws[..n]))
              && bench.transactionCount == old(bench.transactionCount) + n
              && ntrans == Wrap((if old(ntrans) < 0 then old(ntrans) else 0) - 1)
    {
      ghost var n := if ntrans > 0 then ntrans else 0;
      ghost var cfg := bench.Mode();
      ghost var init := Tally(connection.log, bench.failedTransactions);
      var i := 0;
      while true
        invariant 0 <= i <= n
        invariant n > 0 ==> ntrans == old(ntrans) - i
        invariant n == 0 ==> ntrans == old(ntrans)
        invariant bench.transactionCount == old(bench.transactionCount) + i
        invariant Tally(connection.log, bench.failedTransactions) == Runs(cfg, connection.db, init, ArgsOfAll(draws[..i]))
        decreases if ntrans > 0 then ntrans else 0
      {
        var more := CountDown();
        if !more {
          assert i == n;
          break;
        }
        assert draws[i] in draws;
        RunsStep(cfg, connection.db, init, draws, i);
        Transact(draws[i]);
        i := i + 1;
      }
    }
  }
}
