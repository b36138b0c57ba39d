/** The connection service file of libpq ("pg_service.conf"): lines of
    `[name]` section headers and `key=value` entries, with '#' comments and
    blank lines, parsed into a map from service name to its entries
    (PGServiceFile). */
module ServiceFile {
  import opened Wrappers

  type Section = map<string, string>
  type Sections = map<string, Section>

  datatype ParseErrorKind = MissingBracket | NotInSection | BadSyntax

  /** A parse failure and the 1-based number of the line that caused it. */
  datatype ParseError = ParseError(kind: ParseErrorKind, line: nat)

  datatype ServiceError = UnknownService(name: string)

  /** What the parser carries from one line to the next: the sections found
      so far and the name of the section entries go to (null in the source
      until the first header). */
  datatype State = State(sections: Sections, current: Option<string>)

  /** The current section, once there is one, is a section of the map. */
  predicate Valid(st: State) {
    st.current.Some? ==> st.current.value in st.sections
  }

  /** Java's `\s`: space, tab, line feed, vertical tab, form feed, carriage return. */
  predicate IsSpace(c: char) {
    c as int in {9, 10, 11, 12, 13, 32}
  }

  /** `line.replaceAll("^\\s+", "")`. */
  function StripLeading(s: string): string {
    if s != [] && IsSpace(s[0]) then StripLeading(s[1..]) else s
  }

  /** What is left is a suffix of the line that does not start with whitespace. */
  lemma {:induction false} StripLeadingSuffix(s: string)
    ensures var r := StripLeading(s);
            |r| <= |s| && r == s[|s| - |r|..] && (r == [] || !IsSpace(r[0]))
  {
    if s != [] && IsSpace(s[0]) {
      StripLeadingSuffix(s[1..]);
    }
  }

  /** Position of the first `c` in `s`. */
  function IndexOf(s: string, c: char): Option<nat> {
    if s == [] then None
    else if s[0] == c then Some(0)
    else match IndexOf(s[1..], c)
      case None => None
      case Some(i) => Some(i + 1)
  }

  lemma {:induction false} IndexOfFirst(s: string, c: char)
    ensures var r := IndexOf(s, c);
            (r.None? <==> c !in s) &&
            (r.Some? ==> r.value < |s| && s[r.value] == c && c !in s[..r.value])
  {
    if s != [] && s[0] != c {
      IndexOfFirst(s[1..], c);
      assert c in s <==> c in s[1..] by { assert s == [s[0]] + s[1..]; }
      match IndexOf(s[1..], c)
      case None =>
      case Some(i) => assert s[..i + 1] == [s[0]] + s[1..][..i];
    }
  }

  /** `line.split("=", 2)` when it yields two segments: the text before the
      first '=' and everything after it. */
  function SplitFirstEquals(s: string): Option<(string, string)> {
    match IndexOf(s, '=')
    case None => None
    case Some(i) => if i < |s| then Some((s[..i], s[i + 1..])) else None
  }

  /** What a line is once its leading whitespace is stripped. */
  datatype LineKind =
    | Skip                                 // blank or a '#' comment
    | Header(name: string)                 // "[name]"
    | Unclosed                             // starts with '[' but does not end with ']'
    | Entry(key: string, value: string)    // split at the first '='
    | NoEquals                             // anything else

  function Classify(line: string): LineKind {
    var t := StripLeading(line);
    if t == [] || t[0] == '#' then Skip
    else if t[0] == '[' then
      if t[|t| - 1] != ']' then Unclosed else Header(t[1..|t| - 1])
    else match SplitFirstEquals(t)
      case None => NoEquals
      case Some((key, value)) => Entry(key, value)
  }

  /** One line of the loop body, numbered `lineNum`. */
  function Step(st: State, kind: LineKind, lineNum: nat): (r: Result<State, ParseError>)
    requires Valid(st)
    ensures r.Ok? ==> Valid(r.value)
    ensures r.Err? ==> r.error.line == lineNum
  {
    match kind
    case Skip => Ok(st)
    case Unclosed => Err(ParseError(MissingBracket, lineNum))
    case Header(name) => Ok(State(st.sections[name := map[]], Some(name)))
    case NoEquals =>
      if st.current.None? then Err(ParseError(NotInSection, lineNum))
      else Err(ParseError(BadSyntax, lineNum))
    case Entry(key, value) =>
      if st.current.None? then Err(ParseError(NotInSection, lineNum))
      else
        var name := st.current.value;
        Ok(State(st.sections[name := st.sections[name][key := value]], st.current))
  }

  /** Lines from `lineNum` on, stopping at the first error; the state
      returned with an error is the one before the faulty line. */
  function ParseFrom(st: State, lines: seq<string>, lineNum: nat): (r: (State, Option<ParseError>))
    requires Valid(st)
    ensures Valid(r.0)
    decreases |lines|
  {
    if lines == [] then (st, None)
    else match Step(st, Classify(lines[0]), lineNum)
      case Err(e) => (st, Some(e))
      case Ok(next) => ParseFrom(next, lines[1..], lineNum + 1)
  }

  /** What parse leaves in `sections`, starting from `sections`, and the error it throws, if any. */
  function ParseResult(sections: Sections, lines: seq<string>): (Sections, Option<ParseError>) {
    var r := ParseFrom(State(sections, None), lines, 1);
    (r.0.sections, r.1)
  }

  class PGServiceFile {
    var sections: Sections

    constructor ()
      ensures sections == map[]
    {
      sections := map[];
    }

    /** PGServiceFile.parse over the lines of the file; the ParseException
        becomes the returned error, and whatever was stored before the
        faulty line stays stored. */
    method Parse(lines: seq<string>) returns (error: Option<ParseError>)
      modifies this
      ensures (sections, error) == ParseResult(old(sections), lines)
    {
      var lineNum := 0;
      var sectionName: Option<string> := None;
      var i := 0;
      while i < |lines|
        invariant 0 <= i <= |lines| && lineNum == i
        invariant Valid(State(sections, sectionName))
        invariant ParseFrom(State(sections, sectionName), lines[i..], lineNum + 1) ==
                  ParseFrom(State(old(sections), None), lines, 1)
      {
        var line := lines[i];
        assert lines[i..][1..] == lines[i + 1..];
        i := i + 1;
        lineNum := lineNum + 1;
        line := StripLeading(line);
        if line == [] || line[0] == '#' {
          continue;
        } else if line[0] == '[' {
          if line[|line| - 1] != ']' {
            return Some(ParseError(MissingBracket, lineNum));
          }
          sectionName := Some(line[1..|line| - 1]);
          sections := sections[sectionName.value := map[]];
        } else if sectionName.None? {
          return Some(ParseError(NotInSection, lineNum));
        } else {
          var segment := SplitFirstEquals(line);
          if segment.None? {
            return Some(ParseError(BadSyntax, lineNum));
          }
          var (key, value) := segment.value;
          sections := sections[sectionName.value := sections[sectionName.value][key := value]];
        }
      }
      return None;
    }

    /** PGServiceFile.getService: the stored section, or "Unknown service". */
    function GetService(name: string): (r: Result<Section, ServiceError>)
      reads this
      ensures r.Ok? <==> name in sections
      ensures r.Ok? ==> r.value == sections[name]
      ensures r.Err? ==> r.error == UnknownService(name)
    {
      if name in sections then Ok(sections[name]) else Err(UnknownService(name))
    }
  }

  /** PGServiceFile.load with the file given as its lines: a parse error is
      reported and swallowed, and the file keeps what was stored before it. */
  method Load(lines: seq<string>) returns (file: PGServiceFile)
    ensures fresh(file)
    ensures file.sections == ParseResult(map[], lines).0
  {
    file := new PGServiceFile();
    var error := file.Parse(lines);
  }

  /** java.util.Properties, as far as copyProperties uses it. */
  class Properties {
    var entries: map<string, string>

    constructor (entries: map<string, string>)
      ensures this.entries == entries
    {
      this.entries := entries;
    }

    method SetProperty(key: string, value: string)
      modifies this
      ensures entries == old(entries)[key := value]
    {
      entries := entries[key := value];
    }
  }

  /** The libpq-style names that copyProperties sets from the service's
      `port`, `host` and `dbname`. */
  function Aliases(props: map<string, string>, service: Section): map<string, string> {
    var p1 := if "port" in service then props["PGPORT" := service["port"]] else props;
    var p2 := if "host" in service then p1["PGHOST" := service["host"]] else p1;
    if "dbname" in service then p2["PGDBNAME" := service["dbname"]] else p2
  }

  /** The properties after copyProperties: the three aliases first, then
      every entry of the service under its own key. */
  function CopiedProperties(props: map<string, string>, service: Section): map<string, string> {
    Aliases(props, service) + service
  }

  /** The first half of copyProperties: PGPORT, PGHOST and PGDBNAME. */
  method SetAliases(service: Section, urlProps: Properties)
    modifies urlProps
    ensures urlProps.entries == Aliases(old(urlProps.entries), service)
  {
    if "port" in service {
      urlProps.SetProperty("PGPORT", service["port"]);
    }
    if "host" in service {
      urlProps.SetProperty("PGHOST", service["host"]);
    }
    if "dbname" in service {
      urlProps.SetProperty("PGDBNAME", service["dbname"]);
    }
  }

  /** The second half of copyProperties: every entry of the service, in any order. */
  method SetEntries(service: Section, urlProps: Properties)
    modifies urlProps
    ensures urlProps.entries == old(urlProps.entries) + service
  {
    var todo := service.Keys;
    while todo != {}
      invariant todo <= service.Keys
      invariant urlProps.entries == old(urlProps.entries) + (service - todo)
      decreases todo
    {
      var key :| key in todo;
      urlProps.SetProperty(key, service[key]);
      assert (service - todo)[key := service[key]] == service - (todo - {key});
      todo := todo - {key};
    }
    assert service - {} == service;
  }

  /** PGServiceFile.copyProperties. */
  method CopyProperties(service: Section, urlProps: Properties)
    modifies urlProps
    ensures urlProps.entries == CopiedProperties(old(urlProps.entries), service)
  {
    SetAliases(service, urlProps);
    SetEntries(service, urlProps);
  }

  /** Leading Java whitespace does not change what a line means. */
  lemma {:induction false} StripLeadingSpaces(ws: string, s: string)
    requires forall i :: 0 <= i < |ws| ==> IsSpace(ws[i])
    ensures StripLeading(ws + s) == StripLeading(s)
  {
    if ws == [] {
      assert ws + s == s;
    } else {
      assert (ws + s)[0] == ws[0];
      assert (ws + s)[1..] == ws[1..] + s;
      StripLeadingSpaces(ws[1..], s);
    }
  }

  /** split("=", 2) cuts at the first '=' only: the key is everything before
      it (possibly empty) and the value everything after it, '=' included. */
  lemma SplitFirstEqualsIff(s: string, key: string, value: string)
    ensures SplitFirstEquals(s) == Some((key, value)) <==> s == key + "=" + value && '=' !in key
  {
    IndexOfFirst(s, '=');
    if s == key + "=" + value && '=' !in key {
      assert s[|key|] == '=';
      assert s[..|key|] == key;
      var i := IndexOf(s, '=').value;
      assert i == |key|;
      assert s[i + 1..] == value;
    }
    if SplitFirstEquals(s) == Some((key, value)) {
      var i := IndexOf(s, '=').value;
      assert s == s[..i] + "=" + s[i + 1..];
    }
  }

  /** A line without '=' is never split. */
  lemma SplitFirstEqualsNone(s: string)
    ensures SplitFirstEquals(s).None? <==> '=' !in s
  {
    IndexOfFirst(s, '=');
  }

  /** "[name]" makes `name` the current section with no entries, replacing a
      section of that name; it is accepted whether or not a section is open. */
  lemma StepHeader(st: State, name: string, lineNum: nat)
    requires Valid(st)
    ensures Step(st, Classify("[" + name + "]"), lineNum) == Ok(State(st.sections[name := map[]], Some(name)))
  {
    var t := "[" + name + "]";
    assert t[0] == '[' && !IsSpace(t[0]);
    assert t[1..|t| - 1] == name;
  }

  /** A header whose last character is not ']' (trailing whitespace included) is an error. */
  lemma StepUnclosedHeader(st: State, line: string, lineNum: nat)
    requires Valid(st)
    requires var t := StripLeading(line); t != [] && t[0] == '[' && t[|t| - 1] != ']'
    ensures Step(st, Classify(line), lineNum) == Err(ParseError(MissingBracket, lineNum))
  {
  }

  /** Within a section, "key=value" stores `value` under `key`, replacing an
      earlier value; no other section and no other key of it changes. */
  lemma StepEntry(st: State, key: string, value: string, lineNum: nat)
    requires Valid(st) && st.current.Some?
    requires '=' !in key
    requires key == [] || (!IsSpace(key[0]) && key[0] != '#' && key[0] != '[')
    ensures var name := st.current.value;
            Step(st, Classify(key + "=" + value), lineNum) ==
            Ok(State(st.sections[name := st.sections[name][key := value]], st.current))
  {
    var line := key + "=" + value;
    assert line[0] == if key == [] then '=' else key[0];
    assert StripLeading(line) == line;
    SplitFirstEqualsIff(line, key, value);
  }

  /** Outside any section, every line that is not blank, a comment or a
      header is an error, whatever it holds. */
  lemma StepOutsideSection(st: State, line: string, lineNum: nat)
    requires Valid(st) && st.current.None?
    requires var t := StripLeading(line); t != [] && t[0] != '#' && t[0] != '['
    ensures Step(st, Classify(line), lineNum) == Err(ParseError(NotInSection, lineNum))
  {
  }

  /** Within a section, a line that is not blank, a comment or a header and has no '=' is an error. */
  lemma StepBadSyntax(st: State, line: string, lineNum: nat)
    requires Valid(st) && st.current.Some?
    requires var t := StripLeading(line); t != [] && t[0] != '#' && t[0] != '[' && '=' !in t
    ensures Step(st, Classify(line), lineNum) == Err(ParseError(BadSyntax, lineNum))
  {
    SplitFirstEqualsNone(StripLeading(line));
  }

  predicate IsBlankOrComment(line: string) {
    var t := StripLeading(line); t == [] || t[0] == '#'
  }

  /** Blank and comment lines change nothing. */
  lemma {:induction false} ParseBlankAndComments(st: State, lines: seq<string>, lineNum: nat)
    requires Valid(st)
    requires forall i :: 0 <= i < |lines| ==> IsBlankOrComment(lines[i])
    ensures ParseFrom(st, lines, lineNum) == (st, None)
  {
    if lines != [] {
      ParseBlankAndComments(st, lines[1..], lineNum + 1);
    }
  }

  /** Parsing two runs of lines one after the other is parsing the first and,
      unless it failed, the second from where the first stopped. */
  lemma {:induction false} ParseAppend(st: State, a: seq<string>, b: seq<string>, lineNum: nat)
    requires Valid(st)
    decreases |a|
    ensures var (mid, err) := ParseFrom(st, a, lineNum);
            ParseFrom(st, a + b, lineNum) ==
            if err.Some? then (mid, err) else ParseFrom(mid, b, lineNum + |a|)
  {
    if a == [] {
      assert a + b == b;
    } else {
      assert (a + b)[0] == a[0];
      assert (a + b)[1..] == a[1..] + b;
      var r := Step(st, Classify(a[0]), lineNum);
      if r.Ok? {
        ParseAppend(r.value, a[1..], b, lineNum + 1);
      }
    }
  }

  /** On an error no further line is read: the error names a line of the
      input, the lines before it parse without error to exactly the state
      that is kept, and that line is the one that fails. */
  lemma {:induction false} ParseErrorLine(st: State, lines: seq<string>, lineNum: nat)
    requires Valid(st)
    requires ParseFrom(st, lines, lineNum).1.Some?
    decreases |lines|
    ensures var (kept, err) := ParseFrom(st, lines, lineNum);
            var k := err.value.line - lineNum;
            lineNum <= err.value.line < lineNum + |lines| &&
            ParseFrom(st, lines[..k], lineNum) == (kept, None) &&
            Step(kept, Classify(lines[k]), err.value.line) == Err(err.value)
  {
    match Step(st, Classify(lines[0]), lineNum)
    case Err(e) =>
      assert lines[..0] == [];
    case Ok(next) =>
      ParseErrorLine(next, lines[1..], lineNum + 1);
      var k := ParseFrom(st, lines, lineNum).1.value.line - lineNum;
      assert lines[..k][1..] == lines[1..][..k - 1];
      assert lines[..k][0] == lines[0];
  }

  /** The section named by a header line, if the line is one. */
  function HeaderName(line: string): Option<string> {
    var t := StripLeading(line);
    if t != [] && t[0] == '[' && t[|t| - 1] == ']' then Some(t[1..|t| - 1]) else None
  }

  /** Sections are only ever added or replaced by a header of the same name:
      a section no line names and that is not the current one keeps its
      entries, and no section disappears. */
  lemma {:induction false} ParseKeepsOtherSections(st: State, lines: seq<string>, lineNum: nat, name: string)
    requires Valid(st)
    requires st.current != Some(name)
    requires forall i :: 0 <= i < |lines| ==> HeaderName(lines[i]) != Some(name)
    decreases |lines|
    ensures var r := ParseFrom(st, lines, lineNum).0;
            st.sections.Keys <= r.sections.Keys &&
            (name in st.sections ==> r.sections[name] == st.sections[name])
  {
    if lines != [] {
      match Step(st, Classify(lines[0]), lineNum)
      case Err(e) =>
      case Ok(next) =>
        assert next.current != Some(name);
        ParseKeepsOtherSections(next, lines[1..], lineNum + 1, name);
    }
  }

  /** The names of the headers among the lines. */
  function HeaderNames(lines: seq<string>): set<string> {
    if lines == [] then {}
    else (if HeaderName(lines[0]).Some? then {HeaderName(lines[0]).value} else {}) + HeaderNames(lines[1..])
  }

  /** A name is among the header names exactly when some line is a header with that name. */
  lemma {:induction false} HeaderNamesMeaning(lines: seq<string>, name: string)
    ensures name in HeaderNames(lines) <==> exists i :: 0 <= i < |lines| && HeaderName(lines[i]) == Some(name)
  {
    if lines != [] {
      HeaderNamesMeaning(lines[1..], name);
      if name in HeaderNames(lines[1..]) {
        var i :| 0 <= i < |lines[1..]| && HeaderName(lines[1..][i]) == Some(name);
        assert HeaderName(lines[i + 1]) == Some(name);
      }
      if i :| 0 <= i < |lines| && HeaderName(lines[i]) == Some(name) {
        if i > 0 {
          assert lines[1..][i - 1] == lines[i];
        }
      }
    }
  }

  /** A parse that succeeds leaves exactly the sections there were plus one
      per header name in the lines. */
  lemma {:induction false} ParseSectionNames(st: State, lines: seq<string>, lineNum: nat)
    requires Valid(st)
    requires ParseFrom(st, lines, lineNum).1.None?
    decreases |lines|
    ensures ParseFrom(st, lines, lineNum).0.sections.Keys == st.sections.Keys + HeaderNames(lines)
  {
    if lines != [] {
      var next := Step(st, Classify(lines[0]), lineNum).value;
      ParseSectionNames(next, lines[1..], lineNum + 1);
    }
  }

  /** What copyProperties promises: every entry of the service is copied
      under its own key; `port`, `host` and `dbname` also appear as PGPORT,
      PGHOST and PGDBNAME unless the service sets those keys itself, and an
      alias whose source key is missing keeps its old value; every other
      property is left as it was. */
  lemma CopiedPropertiesMeaning(props: map<string, string>, service: Section)
    ensures var r := CopiedProperties(props, service);
      && (forall k :: k in service ==> k in r && r[k] == service[k])
      && ("port" in service && "PGPORT" !in service ==> "PGPORT" in r && r["PGPORT"] == service["port"])
      && ("host" in service && "PGHOST" !in service ==> "PGHOST" in r && r["PGHOST"] == service["host"])
      && ("dbname" in service && "PGDBNAME" !in service ==> "PGDBNAME" in r && r["PGDBNAME"] == service["dbname"])
      && (forall k :: k !in service && k != "PGPORT" && k != "PGHOST" && k != "PGDBNAME" ==>
                      (k in r <==> k in props) && (k in props ==> r[k] == props[k]))
      && ("port" !in service && "PGPORT" !in service ==>
            ("PGPORT" in r <==> "PGPORT" in props) && ("PGPORT" in props ==> r["PGPORT"] == props["PGPORT"]))
      && ("host" !in service && "PGHOST" !in service ==>
            ("PGHOST" in r <==> "PGHOST" in props) && ("PGHOST" in props ==> r["PGHOST"] == props["PGHOST"]))
      && ("dbname" !in service && "PGDBNAME" !in service ==>
            ("PGDBNAME" in r <==> "PGDBNAME" in props) && ("PGDBNAME" in props ==> r["PGDBNAME"] == props["PGDBNAME"]))
  {
  }

  /** One step through a line that parses: the rest of the parse goes on from there. */
  lemma ParseFromStep(st: State, next: State, lines: seq<string>, lineNum: nat)
    requires Valid(st) && lines != []
    requires Step(st, Classify(lines[0]), lineNum) == Ok(next)
    ensures ParseFrom(st, lines, lineNum) == ParseFrom(next, lines[1..], lineNum + 1)
  {
  }

  /** The lines of the example below, one at a time. */
  lemma ExampleComment(st: State)
    requires Valid(st)
    ensures Step(st, Classify("# comment"), 1) == Ok(st)
  {
    assert "# comment"[0] == '#';
  }

  lemma ExampleHeader()
    ensures Step(State(map[], None), Classify("[mydb]"), 2) == Ok(State(map["mydb" := map[]], Some("mydb")))
  {
    StepHeader(State(map[], None), "mydb", 2);
    assert "[" + "mydb" + "]" == "[mydb]";
  }

  lemma ExampleEntry(st: State, key: string, value: string, line: string, lineNum: nat)
    requires Valid(st) && st.current.Some?
    requires '=' !in key && key != [] && !IsSpace(key[0]) && key[0] != '#' && key[0] != '['
    requires line == key + "=" + value
    ensures var name := st.current.value;
            Step(st, Classify(line), lineNum) ==
            Ok(State(st.sections[name := st.sections[name][key := value]], st.current))
  {
    StepEntry(st, key, value, lineNum);
  }

  /** Leading whitespace does not change how a line is read. */
  lemma ClassifyIndented(ws: string, s: string)
    requires forall i :: 0 <= i < |ws| ==> IsSpace(ws[i])
    ensures Classify(ws + s) == Classify(s)
  {
    StripLeadingSpaces(ws, s);
  }

  /** An entry line indented by two spaces, with spaces around its '='. */
  const PortEntry: string := "port " + "=" + " 5433"
  const PortLine: string := "  " + PortEntry

  lemma ExampleIndented(st: State)
    requires Valid(st) && st.current.Some?
    ensures var name := st.current.value;
            Step(st, Classify(PortLine), 4) ==
            Ok(State(st.sections[name := st.sections[name]["port " := " 5433"]], st.current))
  {
    assert Classify(PortLine) == Classify(PortEntry) by {
      assert forall i :: 0 <= i < |"  "| ==> IsSpace("  "[i]);
      ClassifyIndented("  ", PortEntry);
    }
    ExampleEntry(st, "port ", " 5433", PortEntry, 4);
  }

  const MyDb1: Section := map["host" := "somehost"]
  const MyDb2: Section := map["host" := "somehost", "port " := " 5433"]
  const MyDb3: Section := map["host" := "somehost", "port " := " 5433", "dbname" := "x=y"]

  lemma ExampleLast()
    ensures ParseFrom(State(map["mydb" := MyDb2], Some("mydb")), ["dbname=x=y"], 5) ==
            (State(map["mydb" := MyDb3], Some("mydb")), None)
  {
    var st := State(map["mydb" := MyDb2], Some("mydb"));
    var next := State(map["mydb" := MyDb3], Some("mydb"));
    assert Step(st, Classify("dbname=x=y"), 5) == Ok(next) by {
      ExampleEntry(st, "dbname", "x=y", "dbname=x=y", 5);
      assert MyDb2["dbname" := "x=y"] == MyDb3;
      assert st.sections["mydb" := st.sections["mydb"]["dbname" := "x=y"]] == map["mydb" := MyDb3];
    }
    ParseFromStep(st, next, ["dbname=x=y"], 5);
  }

  lemma ExampleFromPort()
    ensures ParseFrom(State(map["mydb" := MyDb1], Some("mydb")), [PortLine, "dbname=x=y"], 4) ==
            (State(map["mydb" := MyDb3], Some("mydb")), None)
  {
    var st := State(map["mydb" := MyDb1], Some("mydb"));
    var next := State(map["mydb" := MyDb2], Some("mydb"));
    assert Step(st, Classify(PortLine), 4) == Ok(next) by {
      ExampleIndented(st);
      assert MyDb1["port " := " 5433"] == MyDb2;
      assert st.sections["mydb" := st.sections["mydb"]["port " := " 5433"]] == map["mydb" := MyDb2];
    }
    ParseFromStep(st, next, [PortLine, "dbname=x=y"], 4);
    assert [PortLine, "dbname=x=y"][1..] == ["dbname=x=y"];
    ExampleLast();
  }

  lemma ExampleFromHost()
    ensures ParseFrom(State(map["mydb" := map[]], Some("mydb")), ["host=somehost", PortLine, "dbname=x=y"], 3) ==
            (State(map["mydb" := MyDb3], Some("mydb")), None)
  {
    var st := State(map["mydb" := map[]], Some("mydb"));
    var next := State(map["mydb" := MyDb1], Some("mydb"));
    var lines := ["host=somehost", PortLine, "dbname=x=y"];
    assert Step(st, Classify("host=somehost"), 3) == Ok(next) by {
      ExampleEntry(st, "host", "somehost", "host=somehost", 3);
      assert map[]["host" := "somehost"] == MyDb1;
      assert st.sections["mydb" := st.sections["mydb"]["host" := "somehost"]] == map["mydb" := MyDb1];
    }
    ParseFromStep(st, next, lines, 3);
    assert lines[1..] == [PortLine, "dbname=x=y"];
    ExampleFromPort();
  }

  /** Services of the form used in libpq's documentation parse as expected;
      keys and values are not trimmed. */
  lemma ParseExample()
    ensures ParseResult(map[], ["# comment", "[mydb]", "host=somehost", PortLine, "dbname=x=y"]) ==
            (map["mydb" := map["host" := "somehost", "port " := " 5433", "dbname" := "x=y"]], None)
  {
    var lines := ["# comment", "[mydb]", "host=somehost", PortLine, "dbname=x=y"];
    var st0 := State(map[], None);
    ExampleComment(st0);
    ParseFromStep(st0, st0, lines, 1);
    ExampleHeader();
    assert lines[1..][0] == "[mydb]";
    ParseFromStep(st0, State(map["mydb" := map[]], Some("mydb")), lines[1..], 2);
    assert lines[1..][1..] == ["host=somehost", PortLine, "dbname=x=y"];
    ExampleFromHost();
  }
}
