/** Literal statement text for the five benchmark queries: each '?' of a
    fixed template is replaced, left to right, by the decimal text of the
    next integer argument (QueryUtils.prepareQuery and its five wrappers). */
module QueryUtils {
  import opened Decimal
  import opened Sequences

  // The five templates, written as their fixed text with a '?' at each
  // placeholder.

  const SelectText: string := "SELECT abalance FROM pgbench_accounts WHERE  aid = "
  const SelectQuery: string := SelectText + "?"

  /** Arguments: delta, aid. */
  const AccountsSet: string := "update pgbench_accounts SET abalance = abalance + "
  const AccountsWhere: string := " WHERE aid = "
  const UpdateAccountsQuery: string := AccountsSet + "?" + AccountsWhere + "?"

  /** Arguments: delta, bid. */
  const BranchesSet: string := "UPDATE pgbench_branches SET bbalance = bbalance + "
  const BranchesWhere: string := " WHERE  bid = "
  const UpdateBranchesQuery: string := BranchesSet + "?" + BranchesWhere + "?"

  /** Arguments: delta, tid. */
  const TellersSet: string := "UPDATE pgbench_tellers SET tbalance = tbalance + "
  const TellersWhere: string := " WHERE  tid = "
  const UpdateTellersQuery: string := TellersSet + "?" + TellersWhere + "?"

  /** Arguments: tid, bid, aid, delta. */
  const HistoryInsert: string := "INSERT INTO pgbench_history(tid, bid, aid, delta) values ("
  const HistoryPieces: seq<string> := [HistoryInsert, ",", ",", ",", ")"]
  const InsertHistoryQuery: string := Template(HistoryPieces)

  /** Number of placeholders in `s`. */
  function Placeholders(s: string): nat {
    if s == [] then 0 else (if s[0] == '?' then 1 else 0) + Placeholders(s[1..])
  }

  /** `s.replaceFirst("\\?", text)` for a replacement text without '$' or '\',
      which decimal text never has: the first '?' of `s` becomes `text`; a
      string without '?' is returned unchanged. */
  function ReplaceFirst(s: string, text: string): string {
    if s == [] then []
    else if s[0] == '?' then text + s[1..]
    else [s[0]] + ReplaceFirst(s[1..], text)
  }

  /** Reference meaning of prepareQuery: walking the template left to right,
      the i-th '?' is replaced by the decimal text of args[i]; placeholders
      beyond the arguments stay '?', arguments beyond the placeholders are
      ignored. */
  function Substituted(template: string, args: seq<int>): string {
    if template == [] then []
    else if template[0] == '?' && args != [] then
      IntToString(args[0]) + Substituted(template[1..], args[1..])
    else [template[0]] + Substituted(template[1..], args)
  }

  /** QueryUtils.prepareQuery: one replaceFirst per argument, in order. */
  method PrepareQuery(query: string, args: seq<int>) returns (replaced: string)
    ensures replaced == Substituted(query, args)
  {
    replaced := query;
    SubstitutedNoArgs(query);
    for i := 0 to |args|
      invariant replaced == Substituted(query, args[..i])
    {
      ReplaceFirstSubstituted(query, args[..i], args[i]);
      assert args[..i + 1] == args[..i] + [args[i]];
      replaced := ReplaceFirst(replaced, IntToString(args[i]));
    }
    assert args[..|args|] == args;
  }

  lemma {:induction false} PlaceholdersConcat(a: string, b: string)
    ensures Placeholders(a + b) == Placeholders(a) + Placeholders(b)
  {
    if a == [] {
      assert a + b == b;
    } else {
      assert (a + b)[0] == a[0];
      assert (a + b)[1..] == a[1..] + b;
      PlaceholdersConcat(a[1..], b);
    }
  }

  lemma {:induction false} NoPlaceholderNotIn(s: string)
    ensures Placeholders(s) == 0 <==> '?' !in s
  {
    if s != [] {
      NoPlaceholderNotIn(s[1..]);
      assert s == [s[0]] + s[1..];
    }
  }

  /** Decimal text holds no placeholder. */
  lemma IntToStringNoPlaceholder(n: int)
    ensures '?' !in IntToString(n)
    ensures Placeholders(IntToString(n)) == 0
  {
    var s := IntToString(n);
    forall i | 0 <= i < |s| ensures s[i] != '?' {
      IntToStringChars(n, i);
    }
    NoPlaceholderNotIn(s);
  }

  lemma {:induction false} ReplaceFirstSkips(p: string, q: string, text: string)
    requires '?' !in p
    ensures ReplaceFirst(p + q, text) == p + ReplaceFirst(q, text)
  {
    if p == [] {
      assert p + q == q;
    } else {
      assert (p + q)[0] == p[0];
      assert (p + q)[1..] == p[1..] + q;
      ReplaceFirstSkips(p[1..], q, text);
    }
  }

  /** With no arguments the template comes back unchanged. */
  lemma {:induction false} SubstitutedNoArgs(template: string)
    ensures Substituted(template, []) == template
  {
    if template != [] {
      SubstitutedNoArgs(template[1..]);
    }
  }

  /** A template without '?' comes back unchanged, whatever the arguments. */
  lemma {:induction false} SubstitutedNoPlaceholder(template: string, args: seq<int>)
    requires '?' !in template
    ensures Substituted(template, args) == template
  {
    if template != [] {
      assert template[0] in template;
      assert forall c :: c in template[1..] ==> c in template;
      SubstitutedNoPlaceholder(template[1..], args);
    }
  }

  /** One more replaceFirst binds one more argument: the loop step of PrepareQuery. */
  lemma {:induction false} ReplaceFirstSubstituted(template: string, args: seq<int>, x: int)
    ensures ReplaceFirst(Substituted(template, args), IntToString(x)) == Substituted(template, args + [x])
  {
    if template == [] {
    } else if template[0] == '?' && args != [] {
      IntToStringNoPlaceholder(args[0]);
      ReplaceFirstSkips(IntToString(args[0]), Substituted(template[1..], args[1..]), IntToString(x));
      ReplaceFirstSubstituted(template[1..], args[1..], x);
      assert (args + [x])[1..] == args[1..] + [x];
    } else if template[0] == '?' {
      SubstitutedNoArgs(template[1..]);
      assert args + [x] == [x];
    } else {
      ReplaceFirstSubstituted(template[1..], args, x);
    }
  }

  /** Placeholders left in the result: max(0, placeholders - arguments). */
  lemma {:induction false} SubstitutedPlaceholders(template: string, args: seq<int>)
    ensures Placeholders(Substituted(template, args)) ==
            if Placeholders(template) <= |args| then 0 else Placeholders(template) - |args|
  {
    if template == [] {
    } else if template[0] == '?' && args != [] {
      IntToStringNoPlaceholder(args[0]);
      PlaceholdersConcat(IntToString(args[0]), Substituted(template[1..], args[1..]));
      SubstitutedPlaceholders(template[1..], args[1..]);
    } else {
      PlaceholdersConcat([template[0]], Substituted(template[1..], args));
      SubstitutedPlaceholders(template[1..], args);
    }
  }

  /** Cutting the template in two cuts the arguments at the number of
      placeholders in the first part: substitution is left to right and
      keeps the text around the placeholders in place. */
  lemma {:induction false} SubstitutedConcat(t1: string, t2: string, args: seq<int>)
    ensures var k := if Placeholders(t1) <= |args| then Placeholders(t1) else |args|;
            Substituted(t1 + t2, args) == Substituted(t1, args[..k]) + Substituted(t2, args[k..])
  {
    if t1 == [] {
      assert t1 + t2 == t2;
      assert args[..0] == [] && args[0..] == args;
    } else {
      assert (t1 + t2)[0] == t1[0];
      assert (t1 + t2)[1..] == t1[1..] + t2;
      if t1[0] == '?' && args != [] {
        SubstitutedConcat(t1[1..], t2, args[1..]);
        ConcatTakesFirst(t1, t2, args);
      } else if t1[0] == '?' {
        SubstitutedNoArgs(t1);
        SubstitutedNoArgs(t2);
        SubstitutedNoArgs(t1 + t2);
      } else {
        SubstitutedConcat(t1[1..], t2, args);
        var k := if Placeholders(t1) <= |args| then Placeholders(t1) else |args|;
        AppendAssociative([t1[0]], Substituted(t1[1..], args[..k]), Substituted(t2, args[k..]));
      }
    }
  }

  /** The step of SubstitutedConcat where the template starts with a '?'
      that takes the first argument. */
  lemma ConcatTakesFirst(t1: string, t2: string, args: seq<int>)
    requires t1 != [] && t1[0] == '?' && args != []
    requires (t1 + t2)[1..] == t1[1..] + t2
    requires var k := if Placeholders(t1[1..]) <= |args| - 1 then Placeholders(t1[1..]) else |args| - 1;
             Substituted(t1[1..] + t2, args[1..]) ==
             Substituted(t1[1..], args[1..][..k]) + Substituted(t2, args[1..][k..])
    ensures var k := if Placeholders(t1) <= |args| then Placeholders(t1) else |args|;
            Substituted(t1 + t2, args) == Substituted(t1, args[..k]) + Substituted(t2, args[k..])
  {
    var k := if Placeholders(t1) <= |args| then Placeholders(t1) else |args|;
    assert 1 <= k;
    assert args[..k][1..] == args[1..][..k - 1];
    assert args[k..] == args[1..][k - 1..];
    var d := IntToString(args[0]);
    AppendAssociative(d, Substituted(t1[1..], args[1..][..k - 1]), Substituted(t2, args[1..][k - 1..]));
  }

  /** The first placeholder takes the first argument and the text before it is kept. */
  lemma SubstitutedFirst(prefix: string, rest: string, args: seq<int>)
    requires '?' !in prefix && args != []
    ensures Substituted(prefix + "?" + rest, args) ==
            prefix + IntToString(args[0]) + Substituted(rest, args[1..])
  {
    NoPlaceholderNotIn(prefix);
    SubstitutedConcat(prefix, "?" + rest, args);
    assert args[..0] == [] && args[0..] == args;
    SubstitutedNoArgs(prefix);
    assert prefix + "?" + rest == prefix + ("?" + rest);
    assert ("?" + rest)[0] == '?' && ("?" + rest)[1..] == rest;
  }

  /** The template made of `pieces` with a '?' between each two. */
  function Template(pieces: seq<string>): string
    requires |pieces| >= 1
  {
    if |pieces| == 1 then pieces[0] else Template(pieces[..|pieces| - 1]) + "?" + pieces[|pieces| - 1]
  }

  /** The same pieces with the decimal text of `args[i]` between piece i and piece i+1. */
  function Filled(pieces: seq<string>, args: seq<int>): string
    requires |pieces| == |args| + 1
  {
    if args == [] then pieces[0]
    else Filled(pieces[..|pieces| - 1], args[..|args| - 1]) + IntToString(args[|args| - 1]) + pieces[|pieces| - 1]
  }

  lemma {:induction false} TemplatePlaceholders(pieces: seq<string>)
    requires |pieces| >= 1
    requires forall i :: 0 <= i < |pieces| ==> '?' !in pieces[i]
    ensures Placeholders(Template(pieces)) == |pieces| - 1
  {
    NoPlaceholderNotIn(pieces[|pieces| - 1]);
    if |pieces| > 1 {
      var init := pieces[..|pieces| - 1];
      TemplatePlaceholders(init);
      PlaceholdersConcat(Template(init), "?");
      PlaceholdersConcat(Template(init) + "?", pieces[|pieces| - 1]);
    }
  }

  /** The last placeholder of a template takes the last argument. */
  lemma SubstitutedLast(last: string, x: int)
    requires '?' !in last
    ensures Substituted("?" + last, [x]) == IntToString(x) + last
  {
    SubstitutedNoPlaceholder(last, []);
    assert ("?" + last)[0] == '?' && ("?" + last)[1..] == last;
    assert [x][1..] == [];
  }

  /** With one argument per placeholder, the i-th placeholder takes args[i] and
      the text between placeholders is kept, in order. */
  lemma {:induction false} SubstitutedPieces(pieces: seq<string>, args: seq<int>)
    requires |pieces| == |args| + 1
    requires forall i :: 0 <= i < |pieces| ==> '?' !in pieces[i]
    ensures Substituted(Template(pieces), args) == Filled(pieces, args)
  {
    if args == [] {
      SubstitutedNoPlaceholder(pieces[0], []);
    } else {
      var last := pieces[|pieces| - 1];
      var init, k := pieces[..|pieces| - 1], |args| - 1;
      assert forall i :: 0 <= i < |init| ==> '?' !in init[i] by {
        forall i | 0 <= i < |init| ensures '?' !in init[i] {
          assert init[i] == pieces[i];
        }
      }
      var ti := Template(init);
      TemplatePlaceholders(init);
      SubstitutedConcat(ti, "?" + last, args);
      assert Template(pieces) == ti + ("?" + last);
      SubstitutedPieces(init, args[..k]);
      assert args[k..] == [args[k]];
      SubstitutedLast(last, args[k]);
      AppendAssociative(Filled(init, args[..k]), IntToString(args[k]), last);
    }
  }

  /** A template with one placeholder. */
  lemma SubstitutedOne(a: string, b: string, x: int)
    requires '?' !in a && '?' !in b
    ensures Substituted(a + "?" + b, [x]) == a + IntToString(x) + b
  {
    SubstitutedFirst(a, b, [x]);
    assert [x][1..] == [];
    SubstitutedNoPlaceholder(b, []);
  }

  /** A template with two placeholders. */
  lemma SubstitutedTwo(a: string, b: string, c: string, x: int, y: int)
    requires '?' !in a && '?' !in b && '?' !in c
    ensures Substituted(a + "?" + b + "?" + c, [x, y]) == a + IntToString(x) + b + IntToString(y) + c
  {
    assert a + "?" + b + "?" + c == a + "?" + (b + "?" + c);
    SubstitutedFirst(a, b + "?" + c, [x, y]);
    assert [x, y][1..] == [y];
    SubstitutedOne(b, c, y);
  }

  lemma FilledFive(p: seq<string>, a: int, b: int, c: int, d: int)
    requires |p| == 5
    ensures Filled(p, [a, b, c, d]) ==
            p[0] + IntToString(a) + p[1] + IntToString(b) + p[2] + IntToString(c) + p[3] + IntToString(d) + p[4]
  {
    var da, db, dc := IntToString(a), IntToString(b), IntToString(c);
    assert Filled(p[..1], []) == p[0];
    assert Filled(p[..2], [a]) == p[0] + da + p[1] by {
      assert p[..2][..1] == p[..1];
      assert [a][..0] == [];
    }
    assert Filled(p[..3], [a, b]) == p[0] + da + p[1] + db + p[2] by {
      assert p[..3][..2] == p[..2];
      assert [a, b][..1] == [a];
    }
    assert Filled(p[..4], [a, b, c]) == p[0] + da + p[1] + db + p[2] + dc + p[3] by {
      assert p[..4][..3] == p[..3];
      assert [a, b, c][..2] == [a, b];
    }
    assert [a, b, c, d][..3] == [a, b, c];
  }

  lemma SelectPieces()
    ensures '?' !in SelectText
  {
    NoPlaceholderSplit("SELECT abalance FROM ", "pgbench_accounts WHERE  aid = ");
  }

  lemma AccountsPieces()
    ensures '?' !in AccountsSet && '?' !in AccountsWhere
  {
    NoPlaceholderSplit("update pgbench_accounts ", "SET abalance = abalance + ");
  }

  lemma BranchesPieces()
    ensures '?' !in BranchesSet && '?' !in BranchesWhere
  {
    NoPlaceholderSplit("UPDATE pgbench_branches ", "SET bbalance = bbalance + ");
  }

  lemma TellersPieces()
    ensures '?' !in TellersSet && '?' !in TellersWhere
  {
    NoPlaceholderSplit("UPDATE pgbench_tellers ", "SET tbalance = tbalance + ");
  }

  lemma HistoryNoPlaceholder()
    ensures forall i :: 0 <= i < |HistoryPieces| ==> '?' !in HistoryPieces[i]
  {
    NoPlaceholderSplit("INSERT INTO pgbench_history(", "tid, bid, aid, delta) values (");
  }

  /** The empty text appended changes nothing. */
  lemma EmptyRight(s: string)
    ensures s + "" == s
  {
  }

  lemma NoPlaceholderSplit(a: string, b: string)
    requires '?' !in a && '?' !in b
    ensures '?' !in a + b
  {
  }

  /** prepareSelectQuery: the account id after the fixed text. */
  method PrepareSelectQuery(aid: int) returns (q: string)
    ensures q == SelectText + IntToString(aid)
  {
    q := PrepareQuery(SelectQuery, [aid]);
    SelectPieces();
    SubstitutedOne(SelectText, "", aid);
    EmptyRight(SelectQuery);
    EmptyRight(SelectText + IntToString(aid));
  }

  /** prepareUpdateTellersQuery: binds (delta, tid) in the order of the
      update's placeholders. */
  method PrepareUpdateTellersQuery(delta: int, tid: int) returns (q: string)
    ensures q == TellersSet + IntToString(delta) + TellersWhere + IntToString(tid)
  {
    q := PrepareQuery(UpdateTellersQuery, [delta, tid]);
    TellersPieces();
    SubstitutedTwo(TellersSet, TellersWhere, "", delta, tid);
    EmptyRight(TellersSet + "?" + TellersWhere + "?");
  }

  /** prepareUpdateAccountsQuery: binds (delta, aid). */
  method PrepareUpdateAccountsQuery(delta: int, aid: int) returns (q: string)
    ensures q == AccountsSet + IntToString(delta) + AccountsWhere + IntToString(aid)
  {
    q := PrepareQuery(UpdateAccountsQuery, [delta, aid]);
    AccountsPieces();
    SubstitutedTwo(AccountsSet, AccountsWhere, "", delta, aid);
    EmptyRight(AccountsSet + "?" + AccountsWhere + "?");
  }

  /** prepareUpdateBranchesQuery: binds (delta, bid). */
  method PrepareUpdateBranchesQuery(delta: int, bid: int) returns (q: string)
    ensures q == BranchesSet + IntToString(delta) + BranchesWhere + IntToString(bid)
  {
    q := PrepareQuery(UpdateBranchesQuery, [delta, bid]);
    BranchesPieces();
    SubstitutedTwo(BranchesSet, BranchesWhere, "", delta, bid);
    EmptyRight(BranchesSet + "?" + BranchesWhere + "?");
  }

  /** prepareInsertHistoryQuery: binds (tid, bid, aid, delta), the order of
      the history table's column list. */
  method PrepareInsertHistoryQuery(tid: int, bid: int, aid: int, delta: int) returns (q: string)
    ensures q == HistoryInsert + IntToString(tid) + "," + IntToString(bid) + "," + IntToString(aid) + "," +
                 IntToString(delta) + ")"
  {
    q := PrepareQuery(InsertHistoryQuery, [tid, bid, aid, delta]);
    HistoryNoPlaceholder();
    SubstitutedPieces(HistoryPieces, [tid, bid, aid, delta]);
    FilledFive(HistoryPieces, tid, bid, aid, delta);
  }
}
