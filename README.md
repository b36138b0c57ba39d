# JDBCBench in Dafny

JDBCBench is a TPC-B-style benchmark for PostgreSQL written in Java. It
seeds a scaled dataset of branches, tellers and accounts. Then each client
thread runs a fixed number of small transactions: an account update, a
balance read, a teller update, a branch update, a history insert and a
commit. Two shared counters record every transaction and the failed ones.

This project models the sequential core of that program and proves what it
promises:

- `QueryUtils` (`query_utils.dfy`) models `QueryUtils.prepareQuery` and its
  five wrappers. The i-th `?` of a template becomes the decimal text of the
  i-th argument, left to right. `QueryVectors` (`query_vectors.dfy`) states
  the values the unit tests expect.
- `Decimal` (`decimal.dfy`) models `Integer.toString(int)`, which is also
  what string concatenation writes for an `int`. It includes a parser that
  reads the text back.
- `ServiceFile` (`service_file.dfy`) models the connection service file
  reader `PGServiceFile`:
  - `parse` is a method over the file's lines that updates the `sections`
    map in place and returns the parse error;
  - `getService` is a lookup;
  - `copyProperties` is a method that updates a `Properties` object in
    place.
- `Scaling` (`scaling.dfy`) models the three seeding loops of
  `createDatabase` and the TPC-B scaling rules. It also models
  `getRandomInt` and `getRandomID`, with the floating-point draw replaced
  by the integer the cast yields.
- `Ddl` (`ddl.dfy`) models `DDLInfo`/`PgColumn`, the `createTable`
  `StringBuilder` loop and the table list of `createDatabase` as written.
  A second list, `IntendedTables`, has the accounts key the code evidently
  meant (see Findings).
- `Url` (`url.dfy`) models `createUrl`.
- `Transaction` (`transaction.dfy`) models `ClientThread.doOne` as a
  function. It gives the calls made on the connection, the value returned
  and whether the transaction was counted as failed. The database is an
  oracle that says which calls throw an `SQLException` and which rows each
  query returns. `DoOneFollowsPlan` characterises the outcome for every
  fault position.
- `Client` (`client.dfy`) has three classes:
  - `Bench` holds the shared counters;
  - `Connection` logs the calls and answers from the oracle;
  - `ClientThread` has the `doOne` and `run` methods, written step by step
    like the Java, with every try-with-resources close.

  `Run` is proved against `Runs`, the fold of `Transaction.DoOne` over the
  drawn arguments. `Run` counts every iteration exactly once.
- `JavaInt` (`java_int.dfy`) models Java's 32-bit `int` wrap-around. The
  seeding bound `n * scale` and the `ntrans--` decrement need it.

Where the design description and the code disagree, the model follows the
code:

- A fault in `setAutoCommit` or in the first account `UPDATE` is not counted
  as a failed transaction. Only a fault from the balance `SELECT` to the
  closing of its result set is counted.
- `getRandomID` draws from the unscaled `numAccounts`, `numBranches` and
  `numTellers`. It does not use the scaled totals.
- `run` does not close its connection when its loop ends.

## Model

| member | source | states |
|---|---|---|
| QueryUtils.ReplaceFirst | src/main/java/rocks/postgres/util/QueryUtils.java:30 | `replaceFirst("\\?", text)` for a text without `$` or `\`: the first `?` becomes the text, a string without `?` is unchanged; `ReplaceFirstSubstituted` states what one step of the loop does with it |
| QueryUtils.Substituted | src/main/java/rocks/postgres/util/QueryUtils.java:26-33 | the reference meaning of prepareQuery, defined position by position: the i-th `?` takes the decimal text of `args[i]`; `PrepareQuery` is proved equal to it and the `Substituted*` lemmas state its properties |
| QueryUtils.PrepareQuery | src/main/java/rocks/postgres/util/QueryUtils.java:26-33 | the loop of replaceFirst calls yields `Substituted(query, args)`: the i-th `?` becomes the decimal text of `args[i]`, left to right |
| QueryUtils.ReplaceFirstSubstituted | src/main/java/rocks/postgres/util/QueryUtils.java:29-31 | one more `replaceFirst` with the next argument's text binds exactly that argument to the next free placeholder (the loop step) |
| QueryUtils.SubstitutedNoArgs | src/main/java/rocks/postgres/util/QueryUtils.java:27-32 | with no arguments the template comes back unchanged |
| QueryUtils.SubstitutedNoPlaceholder | src/main/java/rocks/postgres/util/QueryUtils.java:27-32 | a template without `?` comes back unchanged, whatever the arguments |
| QueryUtils.SubstitutedPlaceholders | src/main/java/rocks/postgres/util/QueryUtils.java:29-31 | the result holds `max(0, placeholders - arguments)` placeholders: surplus arguments are ignored, surplus `?` stay |
| QueryUtils.IntToStringNoPlaceholder | src/main/java/rocks/postgres/util/QueryUtils.java:30 | the substituted decimal text never holds a `?` |
| QueryUtils.SubstitutedConcat | src/main/java/rocks/postgres/util/QueryUtils.java:29-31 | cutting the template in two cuts the arguments at the first part's placeholder count: the text around placeholders is kept, in order |
| QueryUtils.SubstitutedFirst | src/main/java/rocks/postgres/util/QueryUtils.java:30 | the first `?` takes the first argument and the text before it is kept |
| QueryUtils.SubstitutedPieces | src/main/java/rocks/postgres/util/QueryUtils.java:26-33 | with one argument per placeholder, the text is the template's pieces with `args[i]` between piece i and piece i+1 |
| QueryUtils.SubstitutedOne | src/main/java/rocks/postgres/util/QueryUtils.java:35-37 | a one-placeholder template `a?b` gives `a`, the number, `b` |
| QueryUtils.SubstitutedTwo | src/main/java/rocks/postgres/util/QueryUtils.java:39-49 | a two-placeholder template binds its two arguments in order |
| QueryUtils.TemplatePlaceholders | src/main/java/rocks/postgres/util/QueryUtils.java:18 | pieces without `?` joined by `?` give one placeholder per gap |
| QueryUtils.SelectPieces | src/main/java/rocks/postgres/util/QueryUtils.java:11 | the select template's only `?` is its last character |
| QueryUtils.AccountsPieces | src/main/java/rocks/postgres/util/QueryUtils.java:13 | the account update template has `?` only at its two placeholders |
| QueryUtils.BranchesPieces | src/main/java/rocks/postgres/util/QueryUtils.java:15 | the branch update template has `?` only at its two placeholders |
| QueryUtils.TellersPieces | src/main/java/rocks/postgres/util/QueryUtils.java:17 | the teller update template has `?` only at its two placeholders |
| QueryUtils.HistoryNoPlaceholder | src/main/java/rocks/postgres/util/QueryUtils.java:18 | the history insert template has `?` only at its four placeholders |
| QueryUtils.PrepareSelectQuery | src/main/java/rocks/postgres/util/QueryUtils.java:35-37 | the select text followed by the account id |
| QueryUtils.PrepareUpdateTellersQuery | src/main/java/rocks/postgres/util/QueryUtils.java:39-41 | binds delta, then tid, into the teller update |
| QueryUtils.PrepareUpdateAccountsQuery | src/main/java/rocks/postgres/util/QueryUtils.java:43-45 | binds delta, then aid, into the account update |
| QueryUtils.PrepareUpdateBranchesQuery | src/main/java/rocks/postgres/util/QueryUtils.java:47-49 | binds delta, then bid, into the branch update |
| QueryUtils.PrepareInsertHistoryQuery | src/main/java/rocks/postgres/util/QueryUtils.java:50-52 | binds tid, bid, aid, delta in the order of the history column list |
| QueryVectors.SelectVector | src/test/java/rocks/postgres/util/QueryUtilsTest.java:17-21 | select with aid 4 ends in `aid = 4` |
| QueryVectors.UpdateTellersVector | src/test/java/rocks/postgres/util/QueryUtilsTest.java:22-26 | teller update with (1001, 10) gives `... + 1001 WHERE  tid = 10` |
| QueryVectors.UpdateAccountsVector | src/test/java/rocks/postgres/util/QueryUtilsTest.java:28-32 | account update with (1111, 55) gives `... + 1111 WHERE aid = 55` |
| QueryVectors.UpdateBranchesVector | src/test/java/rocks/postgres/util/QueryUtilsTest.java:34-38 | branch update with (1234, 99) gives `... + 1234 WHERE  bid = 99` |
| QueryVectors.InsertHistoryVector | src/test/java/rocks/postgres/util/QueryUtilsTest.java:39-43 | history insert with (1, 2, 3, 4) gives `... values (1,2,3,4)` |
| Decimal.NatToString | src/main/java/rocks/postgres/util/QueryUtils.java:30 | `Integer.toString` of a non-negative value: at least one digit, only digits, no leading zero |
| Decimal.IntToString | src/main/java/rocks/postgres/util/QueryUtils.java:30 | a negative value is `-` followed by digits, a non-negative one only digits |
| Decimal.IntToStringChars | src/main/java/rocks/postgres/util/QueryUtils.java:30 | every character is a digit except a leading `-` of a negative value |
| Decimal.NatToStringRoundTrip | src/main/java/rocks/postgres/util/QueryUtils.java:30 | the digits read back give the value |
| Decimal.IntToStringRoundTrip | src/main/java/rocks/postgres/util/QueryUtils.java:30 | parsing the decimal text gives back the integer |
| Decimal.IntToStringInjective | src/main/java/rocks/postgres/util/QueryUtils.java:30 | different integers have different decimal texts |
| ServiceFile.PGServiceFile.constructor | src/main/java/rocks/postgres/util/PGServiceFile.java:50-52 | a new file has no sections |
| ServiceFile.PGServiceFile.Parse | src/main/java/rocks/postgres/util/PGServiceFile.java:54-85 | the line loop leaves in `sections` and returns exactly what `ParseResult` gives: the sections up to the first faulty line, and its error |
| ServiceFile.PGServiceFile.GetService | src/main/java/rocks/postgres/util/PGServiceFile.java:87-93 | the stored section exactly when the name is a key, otherwise an "unknown service" error naming it |
| ServiceFile.Load | src/main/java/rocks/postgres/util/PGServiceFile.java:17-31 | a fresh file holding what the lines parse to, the part before a faulty line included |
| ServiceFile.Step | src/main/java/rocks/postgres/util/PGServiceFile.java:59-83 | one line keeps the current section a stored one, and an error carries that line's number |
| ServiceFile.StripLeading | src/main/java/rocks/postgres/util/PGServiceFile.java:62 | `replaceAll("^\\s+", "")` with Java's `\s` characters; `StripLeadingSuffix` and `StripLeadingSpaces` state its result |
| ServiceFile.SplitFirstEquals | src/main/java/rocks/postgres/util/PGServiceFile.java:77-78 | `split("=", 2)` read as its two segments, or none when there is no `=`; `SplitFirstEqualsIff` states both directions |
| ServiceFile.Classify | src/main/java/rocks/postgres/util/PGServiceFile.java:62-82 | the branch a line takes once stripped: blank or `#`, header, unclosed header, `key=value`, no `=`; the `Step*` lemmas state each branch's effect |
| ServiceFile.ParseFrom | src/main/java/rocks/postgres/util/PGServiceFile.java:59-84 | the loop from a given line number on: every state it returns keeps the current section a stored one; `ParseErrorLine` and `ParseAppend` state where it stops |
| ServiceFile.ParseResult | src/main/java/rocks/postgres/util/PGServiceFile.java:54-85 | what parse leaves in `sections` and the error it throws, from no current section and line 1; `Parse` is proved to leave exactly this |
| ServiceFile.StripLeadingSuffix | src/main/java/rocks/postgres/util/PGServiceFile.java:62 | stripping leaves a suffix of the line that does not start with whitespace |
| ServiceFile.StripLeadingSpaces | src/main/java/rocks/postgres/util/PGServiceFile.java:62 | leading whitespace is removed, whatever follows |
| ServiceFile.ClassifyIndented | src/main/java/rocks/postgres/util/PGServiceFile.java:62 | an indented line is read as the line without its indentation |
| ServiceFile.IndexOfFirst | src/main/java/rocks/postgres/util/PGServiceFile.java:77 | the position found is that of the first `=`, none when there is no `=` |
| ServiceFile.SplitFirstEqualsIff | src/main/java/rocks/postgres/util/PGServiceFile.java:77-78 | the split yields (key, value) exactly when the line is key `=` value with no `=` in key; the value may hold `=` or be empty |
| ServiceFile.SplitFirstEqualsNone | src/main/java/rocks/postgres/util/PGServiceFile.java:77-81 | a line is not split exactly when it has no `=` |
| ServiceFile.StepHeader | src/main/java/rocks/postgres/util/PGServiceFile.java:65-72 | `[name]` creates or replaces section `name` with no entries and makes it current, inside a section or not |
| ServiceFile.StepUnclosedHeader | src/main/java/rocks/postgres/util/PGServiceFile.java:66-69 | a stripped line starting with `[` and not ending with `]` is a missing-bracket error on that line |
| ServiceFile.StepOutsideSection | src/main/java/rocks/postgres/util/PGServiceFile.java:73-75 | before any header, a line that is not blank, comment or header is a not-in-section error on that line |
| ServiceFile.StepBadSyntax | src/main/java/rocks/postgres/util/PGServiceFile.java:77-81 | in a section, a line without `=` is a bad-syntax error on that line |
| ServiceFile.StepEntry | src/main/java/rocks/postgres/util/PGServiceFile.java:77-82 | in a section, `key=value` stores the value under the key of the current section only, replacing an earlier value |
| ServiceFile.ParseBlankAndComments | src/main/java/rocks/postgres/util/PGServiceFile.java:62-64 | blank and `#` lines change nothing |
| ServiceFile.ParseAppend | src/main/java/rocks/postgres/util/PGServiceFile.java:59-84 | parsing two runs of lines is parsing the first and, unless it failed, the second from where the first stopped |
| ServiceFile.ParseErrorLine | src/main/java/rocks/postgres/util/PGServiceFile.java:54-85 | an error names a line of the input; the lines before it parse cleanly to exactly the kept state, and that line fails |
| ServiceFile.ParseKeepsOtherSections | src/main/java/rocks/postgres/util/PGServiceFile.java:65-82 | no section disappears, and one that no header names and that is not current keeps its entries |
| ServiceFile.HeaderNamesMeaning | src/main/java/rocks/postgres/util/PGServiceFile.java:65-70 | a name is a header name exactly when some line is a header with that name |
| ServiceFile.ParseSectionNames | src/main/java/rocks/postgres/util/PGServiceFile.java:65-72 | a parse without error leaves exactly the sections there were plus one per header name |
| ServiceFile.ParseFromStep | src/main/java/rocks/postgres/util/PGServiceFile.java:59-61 | after a line that parses, the loop goes on with the next line number |
| ServiceFile.ExampleComment | src/main/java/rocks/postgres/util/PGServiceFile.java:63-64 | a `#` line leaves the state as it was |
| ServiceFile.ExampleHeader | src/main/java/rocks/postgres/util/PGServiceFile.java:65-72 | `[mydb]` opens an empty section `mydb` |
| ServiceFile.ExampleEntry | src/main/java/rocks/postgres/util/PGServiceFile.java:77-82 | a `key=value` line whose key is not blank, a comment or a header stores into the current section |
| ServiceFile.ExampleIndented | src/main/java/rocks/postgres/util/PGServiceFile.java:62-82 | `  port = 5433` stores `" 5433"` under `"port "`: keys and values are not trimmed |
| ServiceFile.ExampleLast | src/main/java/rocks/postgres/util/PGServiceFile.java:77-82 | `dbname=x=y` stores `x=y` |
| ServiceFile.ExampleFromPort | src/main/java/rocks/postgres/util/PGServiceFile.java:59-84 | the last two lines of the example file parse to the expected section |
| ServiceFile.ExampleFromHost | src/main/java/rocks/postgres/util/PGServiceFile.java:59-84 | the last three lines of the example file parse to the expected section |
| ServiceFile.ParseExample | src/main/java/rocks/postgres/util/PGServiceFile.java:54-85 | a whole file with a comment, a header and three entries parses to one section with those entries and no error |
| ServiceFile.Properties.SetProperty | src/main/java/rocks/postgres/util/PGServiceFile.java:97 | `setProperty` stores the value under the key, nothing else changes |
| ServiceFile.Aliases | src/main/java/rocks/postgres/util/PGServiceFile.java:96-104 | PGPORT, PGHOST, PGDBNAME set in that order from `port`, `host`, `dbname` when present; `SetAliases` is proved to reach it |
| ServiceFile.CopiedProperties | src/main/java/rocks/postgres/util/PGServiceFile.java:95-108 | the aliases, then every service entry under its own key; `CopiedPropertiesMeaning` states the result key by key |
| ServiceFile.SetAliases | src/main/java/rocks/postgres/util/PGServiceFile.java:96-104 | PGPORT, PGHOST, PGDBNAME are set from `port`, `host`, `dbname` when present |
| ServiceFile.SetEntries | src/main/java/rocks/postgres/util/PGServiceFile.java:105-107 | every service entry is set under its own key, in any visiting order |
| ServiceFile.CopyProperties | src/main/java/rocks/postgres/util/PGServiceFile.java:95-108 | the properties become `CopiedProperties` of the old ones: the aliases, then every service entry |
| ServiceFile.CopiedPropertiesMeaning | src/main/java/rocks/postgres/util/PGServiceFile.java:95-108 | every service entry is copied under its own key; the three aliases appear unless the service sets those keys; an alias whose source key is missing keeps its old value; every other property is untouched |
| Scaling.RowCount | src/main/java/rocks/postgres/JDBCBench.java:436-448 | a loop bound `n * scale` runs `n * scale` times when the `int` product does not overflow, never when it is negative |
| Scaling.Branches | src/main/java/rocks/postgres/JDBCBench.java:436-441 | the rows the branch loop seeds, branch `i` with balance 0; `SeededRows` states their count, ids and balances |
| Scaling.Tellers | src/main/java/rocks/postgres/JDBCBench.java:442-447 | the rows the teller loop seeds, teller `i` owned by branch `i / numTellers`; `OwnersSeeded` and `BranchOwnsBlock` state the ownership |
| Scaling.Accounts | src/main/java/rocks/postgres/JDBCBench.java:448-453 | the rows the account loop seeds, account `i` owned by branch `i / numAccounts`; `OwnersSeeded` and `BranchOwnsBlock` state the ownership |
| Scaling.SeedRows | src/main/java/rocks/postgres/JDBCBench.java:436-453 | the rows createDatabase inserts, branches then tellers then accounts; `SeedDatabase` issues their inserts in this order and `SeededRows` states their counts, ids and balances |
| Scaling.InsertSql | src/main/java/rocks/postgres/JDBCBench.java:437-450 | the INSERT text of each kind of row; `BranchInsertText`, `TellerInsertText` and `AccountInsertText` tie it to the text each loop builds |
| Scaling.BranchInsertText | src/main/java/rocks/postgres/JDBCBench.java:437-438 | the branch insert the loop writes is the one for a branch row with balance 0 |
| Scaling.TellerInsertText | src/main/java/rocks/postgres/JDBCBench.java:443-444 | the teller insert the loop writes is the one for teller `i` of branch `i / numTellers` with balance 0 |
| Scaling.AccountInsertText | src/main/java/rocks/postgres/JDBCBench.java:449-450 | the account insert the loop writes is the one for account `i` of branch `i / numAccounts` with balance 0 |
| Scaling.InsertAll | src/main/java/rocks/postgres/JDBCBench.java:436-453 | one statement per row |
| Scaling.InsertAllIndex | src/main/java/rocks/postgres/JDBCBench.java:436-453 | the k-th statement inserts the k-th row |
| Scaling.InsertAllConcat | src/main/java/rocks/postgres/JDBCBench.java:436-453 | the statements of consecutive loops are those of their rows, concatenated |
| Scaling.SeedBranches | src/main/java/rocks/postgres/JDBCBench.java:436-441 | the branch loop issues one insert per seeded branch row, in order |
| Scaling.SeedTellers | src/main/java/rocks/postgres/JDBCBench.java:442-447 | the teller loop issues one insert per seeded teller row, in order |
| Scaling.SeedAccounts | src/main/java/rocks/postgres/JDBCBench.java:448-453 | the account loop issues one insert per seeded account row, in order |
| Scaling.SeedDatabase | src/main/java/rocks/postgres/JDBCBench.java:436-453 | the three loops insert the branches, then the tellers, then the accounts |
| Scaling.SeededRows | src/main/java/rocks/postgres/JDBCBench.java:436-453 | without overflow there are exactly `n * scale` rows of each kind, ids 0 .. count-1 without repetition, every balance 0 |
| Scaling.OwnersSeeded | src/main/java/rocks/postgres/JDBCBench.java:442-453 | every teller's and account's branch is a seeded branch, for every non-negative scale |
| Scaling.BranchOwnsBlock | src/main/java/rocks/postgres/JDBCBench.java:442-453 | branch b owns exactly the `numTellers` tellers and `numAccounts` accounts of its consecutive block |
| Scaling.IsDraw | src/main/java/rocks/postgres/JDBCBench.java:470 | the integers `(int) (Math.random() * w)` can yield: `[0, w)` for a positive width, `(w, 0]` for a negative one, 0 for zero; `GetRandomInt` and `GetRandomIntCovers` state the range it gives |
| Scaling.GetRandomInt | src/main/java/rocks/postgres/JDBCBench.java:467-474 | for a draw the cast can yield, the result lies in `[lo, hi]` (and in `[hi+1, lo]` for a reversed range) |
| Scaling.GetRandomIntCovers | src/main/java/rocks/postgres/JDBCBench.java:467-474 | every value of `[lo, hi]` is the result of some draw |
| Scaling.IdCount | src/main/java/rocks/postgres/JDBCBench.java:477-486 | the `num` getRandomID picks by entity code: the unscaled count, an unknown code counting as an account; `GetRandomId` states the range it bounds |
| Scaling.GetRandomId | src/main/java/rocks/postgres/JDBCBench.java:476-489 | an id in `[0, num - 1]`, `num` chosen by entity code, unknown codes counting as accounts |
| Scaling.FirstUnitSeeded | src/main/java/rocks/postgres/JDBCBench.java:436-453 | with a positive scale and no overflow, the first scale unit of ids is seeded |
| Scaling.DrawnIdSeeded | src/main/java/rocks/postgres/JDBCBench.java:476-489 | every drawn id names a seeded row of its table whose key is that id |
| Ddl.ColumnDef | src/main/java/rocks/postgres/JDBCBench.java:362-366 | one column as the loop writes it: a space, the name, a space, the type |
| Ddl.ColumnList | src/main/java/rocks/postgres/JDBCBench.java:361-371 | the definitions separated by `,` with none trailing; `ColumnListSplits` proves that splitting at the commas gives back each definition in order |
| Ddl.CreateTableSql | src/main/java/rocks/postgres/JDBCBench.java:357-374 | the statement createTable returns; `DDLInfo.CreateTable` is proved to build exactly this text |
| Ddl.DDLInfo.constructor | src/main/java/rocks/postgres/JDBCBench.java:349-352 | a table with the name and no columns |
| Ddl.DDLInfo.AddColumn | src/main/java/rocks/postgres/JDBCBench.java:353-356 | appends the column and returns the same object |
| Ddl.DDLInfo.CreateTable | src/main/java/rocks/postgres/JDBCBench.java:357-374 | the builder loop yields `create table name(` + the column list + `)` |
| Ddl.BuiltStep | src/main/java/rocks/postgres/JDBCBench.java:361-371 | one loop iteration appends the column and, unless it is the last, a `,` |
| Ddl.ColumnListStep | src/main/java/rocks/postgres/JDBCBench.java:361-371 | one more column extends the list by its definition, after a `,` unless it is the first |
| Ddl.CreateTableEmpty | src/main/java/rocks/postgres/JDBCBench.java:357-374 | zero columns give `create table name()` |
| Ddl.ColumnListCons | src/main/java/rocks/postgres/JDBCBench.java:361-371 | the column list is the first definition, a `,`, and the list of the rest |
| Ddl.SplitCommasPiece | src/main/java/rocks/postgres/JDBCBench.java:367-369 | a piece without `,` followed by `,` splits off as one field |
| Ddl.SplitCommasNone | src/main/java/rocks/postgres/JDBCBench.java:367-369 | text without `,` is a single field |
| Ddl.ColumnListSplits | src/main/java/rocks/postgres/JDBCBench.java:361-371 | splitting the list at its commas gives each column definition in insertion order: no trailing comma, no column lost |
| Ddl.AccountKeyTypeAsWritten | src/main/java/rocks/postgres/JDBCBench.java:395 | the key type expression as written, `+` binding tighter than `?:`; `AsWrittenKeys` and `AccountKeyNullableWithBigIntegers` state that it is a bare `bigint` with bigIntegers |
| Ddl.AccountKeyType | src/main/java/rocks/postgres/JDBCBench.java:395 | the key type evidently meant, the width followed by ` not null`; `KeysNotNull` states that it ends in ` not null` and has the requested width |
| Ddl.HistoryTable | src/main/java/rocks/postgres/JDBCBench.java:381-386 | the history table as the addColumn chain declares it, `aid` as wide as the accounts key; `NewHistoryTable` is proved to build it |
| Ddl.TellersTable | src/main/java/rocks/postgres/JDBCBench.java:388-392 | the tellers table, keyed by `tid int not null`; `AsWrittenKeys` states that its key is NOT NULL and `NewTellersTable` is proved to build it |
| Ddl.BranchesTable | src/main/java/rocks/postgres/JDBCBench.java:400-403 | the branches table, keyed by `bid int not null`; `AsWrittenKeys` states that its key is NOT NULL and `NewBranchesTable` is proved to build it |
| Ddl.AccountKeyNullableWithBigIntegers | src/main/java/rocks/postgres/JDBCBench.java:395 | as written, the account key is `bigint` without NOT NULL when bigIntegers is set |
| Ddl.AccountsTable | src/main/java/rocks/postgres/JDBCBench.java:394-398 | the accounts table as the code declares it, its key type as written |
| Ddl.IntendedAccountsTable | src/main/java/rocks/postgres/JDBCBench.java:394-398 | the accounts table with the key type `(bigIntegers?"bigint":"int") + " not null"` |
| Ddl.StandardTables | src/main/java/rocks/postgres/JDBCBench.java:380-403 | the four tables in the order createDatabase lists them, accounts key as written |
| Ddl.IntendedTables | src/main/java/rocks/postgres/JDBCBench.java:380-403 | the same list with the intended accounts key |
| Ddl.AsWrittenKeys | src/main/java/rocks/postgres/JDBCBench.java:388-403 | in the list as written, the tellers and branches keys end in ` not null`, and so does the accounts key without bigIntegers; with bigIntegers the accounts key is `bigint` without it |
| Ddl.KeysNotNull | src/main/java/rocks/postgres/JDBCBench.java:388-403 | in the intended list, the tellers, accounts and branches keys are NOT NULL for either key width, and the account key has the requested width |
| Ddl.IntendedDiffersOnlyInAccountsKey | src/main/java/rocks/postgres/JDBCBench.java:394-398 | the intended list differs from the written one only in the accounts key type, and differs exactly when bigIntegers is set |
| Ddl.NewHistoryTable | src/main/java/rocks/postgres/JDBCBench.java:381-386 | the addColumn chain declares the history table |
| Ddl.NewTellersTable | src/main/java/rocks/postgres/JDBCBench.java:388-392 | the addColumn chain declares the tellers table |
| Ddl.NewAccountsTable | src/main/java/rocks/postgres/JDBCBench.java:394-398 | the addColumn chain declares the accounts table as written: `aid` is `bigint` without NOT NULL when bigIntegers is set |
| Ddl.NewBranchesTable | src/main/java/rocks/postgres/JDBCBench.java:400-403 | the addColumn chain declares the branches table |
| Ddl.CreateTables | src/main/java/rocks/postgres/JDBCBench.java:380-420 | one CREATE TABLE per table of the list as written, in list order, so the accounts key is nullable with bigIntegers |
| Url.CreateUrl | src/main/java/rocks/postgres/JDBCBench.java:133-141 | the protocol, the host, `:`, the port's decimal text, `/`, the database; `CreateUrlRoundTrip` reads it back |
| Url.SplitFirstAt | src/main/java/rocks/postgres/JDBCBench.java:133-141 | a separator not in the first part splits there |
| Url.CreateUrlRoundTrip | src/main/java/rocks/postgres/JDBCBench.java:133-141 | the URL reads back as host, port and database when the host holds no `:` |
| Url.CreateUrlInjective | src/main/java/rocks/postgres/JDBCBench.java:133-141 | different targets give different URLs when the hosts hold no `:` |
| JavaInt.Wrap | src/main/java/rocks/postgres/JDBCBench.java:436 | an in-range result of `int` arithmetic is kept as it is |
| JavaInt.WrapCongruent | src/main/java/rocks/postgres/JDBCBench.java:436 | wrapping changes a value by a multiple of 2^32 only |
| JavaInt.WrapNonNegative | src/main/java/rocks/postgres/JDBCBench.java:436-448 | an overflowing non-negative product never yields more loop iterations than the product |
| Transaction.Sql | src/main/java/rocks/postgres/JDBCBench.java:523-578 | the texts doOne builds for each statement, in the pieces its `+=` chain appends; `SqlInjective` states that a text determines its statement |
| Transaction.SqlTag | src/main/java/rocks/postgres/JDBCBench.java:523-574 | character 15 of each text tells the SELECT, the three updates and the insert apart |
| Transaction.UpdateTextUnique | src/main/java/rocks/postgres/JDBCBench.java:541-570 | an update text determines its delta and its key |
| Transaction.InsertTextUnique | src/main/java/rocks/postgres/JDBCBench.java:573-578 | the history insert text determines its four values |
| Transaction.SqlInjective | src/main/java/rocks/postgres/JDBCBench.java:523-578 | different statements have different texts, so the statements in the call log are exactly the texts doOne sends |
| Transaction.Prelude | src/main/java/rocks/postgres/JDBCBench.java:520-539 | createStatement and, in a transaction block, setAutoCommit(false) |
| Transaction.Writes | src/main/java/rocks/postgres/JDBCBench.java:561-584 | the teller update, the branch update, the history insert and, in a transaction block, the commit |
| Transaction.Plan | src/main/java/rocks/postgres/JDBCBench.java:517-585 | the calls doOne makes when nothing throws; `DoOneFollowsPlan` ties `DoOne` to it |
| Transaction.DoOne | src/main/java/rocks/postgres/JDBCBench.java:517-600 | doOne's calls, return value and failure flag for a given oracle; `DoOneFollowsPlan` and `DoOneShape` state what they are |
| Transaction.SelectOnlyCalls | src/main/java/rocks/postgres/JDBCBench.java:522-535 | the select-only query and the closes; `SelectOnlyFollowsPlan` states the outcome |
| Transaction.AfterCreate | src/main/java/rocks/postgres/JDBCBench.java:537-599 | doOne after createStatement outside select-only mode; `AfterCreateShape` and `WritesFollowPlan` state its outcome |
| Transaction.FromQuery | src/main/java/rocks/postgres/JDBCBench.java:552-599 | doOne from the SELECT on; `FromQueryShape` and `QueryRead` state its outcome |
| Transaction.AfterQuery | src/main/java/rocks/postgres/JDBCBench.java:555-599 | doOne once the rows are read; `AfterQueryShape`, `FaultInWrites` and `FaultInCloses` state its outcome |
| Transaction.DoOneFollowsPlan | src/main/java/rocks/postgres/JDBCBench.java:517-600 | doOne makes its planned calls up to the first one that throws, then only the closes of what is open, and returns 0; it is counted as failed exactly when that call lies between the SELECT and the result-set close; without a fault it makes every call and returns the balance read (0 in select-only mode) |
| Transaction.DoOneShape | src/main/java/rocks/postgres/JDBCBench.java:517-600 | whatever throws: the first call is createStatement; there are more calls exactly when it succeeds, and then closing the statement is the last one; a counted failure returns 0; select-only mode never counts a failure and returns 0; a commit happens only in a transaction block |
| Transaction.AfterCreateShape | src/main/java/rocks/postgres/JDBCBench.java:537-599 | from the autocommit switch on: the last call closes the statement, a counted failure returns 0, a commit happens only in a transaction block |
| Transaction.FromQueryShape | src/main/java/rocks/postgres/JDBCBench.java:552-599 | from the SELECT on: the last call closes the statement, a counted failure returns 0, a commit happens only in a transaction block |
| Transaction.AfterQueryShape | src/main/java/rocks/postgres/JDBCBench.java:561-599 | from the teller update on: the last call closes the statement, a counted failure returns 0, a commit happens only in a transaction block |
| Transaction.SelectOnlyFollowsPlan | src/main/java/rocks/postgres/JDBCBench.java:522-535 | select-only: one SELECT, no autocommit, no writes, returns 0, never counted as failed |
| Transaction.WritesFollowPlan | src/main/java/rocks/postgres/JDBCBench.java:537-599 | the TPC-B path for every fault position |
| Transaction.WritesWithoutFault | src/main/java/rocks/postgres/JDBCBench.java:537-585 | no fault: autocommit off, update, SELECT, teller, branch, history, commit, closes; returns the last abalance read |
| Transaction.WritesFaultBeforeQuery | src/main/java/rocks/postgres/JDBCBench.java:537-546 | a fault at createStatement makes no further call; one at setAutoCommit or the account update closes the statement; either returns 0 and is not counted |
| Transaction.WritesFaultAfterQuery | src/main/java/rocks/postgres/JDBCBench.java:552-599 | a fault from the SELECT on follows the plan and the closes |
| Transaction.QueryRead | src/main/java/rocks/postgres/JDBCBench.java:548-559 | once the SELECT succeeds, doOne is the calls issued so far followed by the writes and closes |
| Transaction.FaultInWrites | src/main/java/rocks/postgres/JDBCBench.java:561-593 | a fault in a write or the commit closes the result set and the statement, returns 0 and is counted once |
| Transaction.FaultInCloses | src/main/java/rocks/postgres/JDBCBench.java:585-599 | a fault closing the result set is counted; one closing the statement returns 0 and is not counted |
| Client.Connection.Perform | src/main/java/rocks/postgres/JDBCBench.java:520-583 | a call is logged and throws exactly when the oracle says so |
| Client.Connection.Query | src/main/java/rocks/postgres/JDBCBench.java:552-559 | a query is logged, throws when the oracle says so, and returns the oracle's rows |
| Client.Bench.constructor | src/main/java/rocks/postgres/JDBCBench.java:122-125 | the transaction block flag is on and both counters start at 0 |
| Client.Bench.IncrementTransactionCount | src/main/java/rocks/postgres/JDBCBench.java:274-276 | adds one to the transaction count, the failed count unchanged |
| Client.Bench.IncrementFailedTransactionCount | src/main/java/rocks/postgres/JDBCBench.java:278-280 | adds one to the failed count, the transaction count unchanged |
| Client.ArgsOf | src/main/java/rocks/postgres/JDBCBench.java:504-507 | the account, branch, teller and delta run passes to doOne for a draw; `DrawArgs` states their ranges |
| Client.Extend | src/main/java/rocks/postgres/JDBCBench.java:508-509 | one transaction appends its calls to the log and adds one failure when it counts one; `ExtendBy` characterises it |
| Client.Runs | src/main/java/rocks/postgres/JDBCBench.java:502-512 | the transactions of a run one after another on one connection; `Run` is proved against it, `RunsGrow` and `RunsFailures` state its properties |
| Client.ExtendBy | src/main/java/rocks/postgres/JDBCBench.java:508-509 | a tally grown by one transaction's calls and failure is its extension |
| Client.RunsGrow | src/main/java/rocks/postgres/JDBCBench.java:502-512 | a run only appends calls and counts at most one failure per transaction |
| Client.RunsFailures | src/main/java/rocks/postgres/JDBCBench.java:502-512 | a run leaves the failed count unchanged exactly when none of its transactions, each started where the run had got to, counts a failure |
| Client.ArgsOfAll | src/main/java/rocks/postgres/JDBCBench.java:504-507 | one argument tuple per iteration |
| Client.RunsStep | src/main/java/rocks/postgres/JDBCBench.java:503-510 | one more iteration extends the run by its transaction |
| Client.ClientThread.constructor | src/main/java/rocks/postgres/JDBCBench.java:496-500 | the thread holds its transaction count, benchmark and connection |
| Client.ClientThread.DoOne | src/main/java/rocks/postgres/JDBCBench.java:517-600 | the step-by-step doOne makes exactly the calls of `Transaction.DoOne`, returns its value and bumps the failed count exactly when it says so |
| Client.ClientThread.AfterCreate | src/main/java/rocks/postgres/JDBCBench.java:537-599 | doOne outside select-only mode after the statement exists |
| Client.ClientThread.SelectOnly | src/main/java/rocks/postgres/JDBCBench.java:522-535 | the select-only branch: the query and the closes, returning 0 |
| Client.ClientThread.InnerTry | src/main/java/rocks/postgres/JDBCBench.java:548-599 | from the SELECT on, including the handler that counts the failure |
| Client.ClientThread.ReadBalance | src/main/java/rocks/postgres/JDBCBench.java:555-559 | the balance of the last row read, 0 when there is none |
| Client.ClientThread.WriteAndClose | src/main/java/rocks/postgres/JDBCBench.java:561-593 | the writes, the commit in a transaction block, the closes |
| Client.ClientThread.Abort | src/main/java/rocks/postgres/JDBCBench.java:587-594 | the result set and then the statement are closed, and the failure is counted once |
| Client.ClientThread.Close | src/main/java/rocks/postgres/JDBCBench.java:585 | `return aBalance`: a fault closing the result set is counted and returns 0; one closing the statement returns 0 uncounted |
| Client.ClientThread.CountDown | src/main/java/rocks/postgres/JDBCBench.java:503 | `ntrans-- > 0` tests the old value and decrements with wrap-around |
| Client.ClientThread.DrawArgs | src/main/java/rocks/postgres/JDBCBench.java:504-507 | account, branch, teller ids in their ranges and delta in `[-500, 500]` |
| Client.ClientThread.Execute | src/main/java/rocks/postgres/JDBCBench.java:508-509 | doOne and one count increment, whatever doOne returned |
| Client.ClientThread.Transact | src/main/java/rocks/postgres/JDBCBench.java:503-510 | one iteration extends the call log and failed count by one transaction, and the count by one |
| Client.ClientThread.Run | src/main/java/rocks/postgres/JDBCBench.java:502-512 | the loop runs `max(ntrans, 0)` transactions: the log and failed count are the fold of doOne over them, the transaction count grows by exactly that number |

## Left out

- `QueryUtils.execute*` and their cached `PreparedStatement` fields: they only pass statements to a JDBC driver.
- `QueryUtils.prepareQuery` uses `replaceFirst`, a regular-expression replacement. It is modelled for replacement texts without `$` or `\`, which decimal text never holds.
- Threads, `executeTest`, `reportDone`, `MemoryWatcherThread` and the report's floating-point rate: these concern concurrency and timing. The `synchronized` counters are plain updates here.
- `Math.random()`: the draw is the integer the `(int)` cast yields, given as a parameter (`IsDraw`). The uniform distribution is not modelled.
- `PGServiceFile.load`'s file access and `findPath`: the file is given as its lines. `load` swallowing the parse error is modelled.
- The `MessageFormat` texts of the errors: an error is its kind and line number.
- JDBC calls become entries in the connection's call log, answered by an oracle (`Transaction.Db`). `clearWarnings`, `rs.next` and `rs.getInt` are folded into the execute call before them: a fault in any of them is a fault of that call. When `stmt.clearWarnings()`, `rs.next` or `rs.getInt` throws after a successful `executeQuery`, the Java also closes the result set before the statement; the model logs no `CloseResultSet` there. The return value and the failed count are the same either way.
- The `verbose` printing and `printStackTrace` in the handlers.
- The select-only branch's rows are read and dropped, so the model does not keep their values.
- `dropTables`, `initTruncateTables`, `vacuum`, the primary- and foreign-key loops, and the execution of the DDL and insert statements: they are statement I/O. The statements themselves are modelled. `createDatabase` is called with `primaryKeys, foreignKeys` against parameters declared as `foreignKeys, primaryKeys`. Only the bigIntegers flag reaches the model, so the swap has no effect in it.
- Exceptions raised inside the seeding loops: the loops are modelled as running to completion.
- picocli option handling, `main`, `call` and the console output.
- Client.Bench.IncrementTransactionCount: the counter is an unbounded integer, so the 32-bit wrap-around after 2^31 increments is not modelled.
- Client.Bench.IncrementFailedTransactionCount: same as above, the counter is an unbounded integer.
- QueryUtils.PrepareQuery: the arguments are unbounded integers, but the Java arguments are `int`. Every `int` value is covered.
- QueryVectors.SelectVector: the expected texts are stated with the template constants for the fixed parts. For example, `SelectText + "4"`, where `SelectText` is the literal text of the template before its `?`. The same holds for the other four vector lemmas.
- Client.ClientThread.Run: the draws are a parameter holding at least `max(ntrans, 0)` values. The loop consumes them in order.

## Findings

| source | as written | input that shows it | evidently intended | confidence | as-written member | corrected member |
|---|---|---|---|---|---|---|
| src/main/java/rocks/postgres/JDBCBench.java:395 | `bigIntegers?"bigint":"int" + " not null"` binds `+` tighter than `?:`, so the key type is `bigint` without NOT NULL when bigIntegers is set | bigIntegers = true gives the column type `bigint` | `(bigIntegers?"bigint":"int") + " not null"`, as for the other tables' keys | not executed | Ddl.AsWrittenKeys | Ddl.KeysNotNull |
