/** JDBCBench.createUrl: the JDBC URL of the benchmarked database. */
module Url {
  import opened Wrappers
  import opened JavaInt
  import opened Decimal

  const JdbcProtocol: string := "jdbc:postgresql://"

  /** createUrl: the protocol, the host, ':', the port in decimal, '/', the database. */
  function CreateUrl(host: string, port: Int32, database: string): string {
    JdbcProtocol + host + ":" + IntToString(port) + "/" + database
  }

  /** The text before and after the first `c` in `s`, if there is one. */
  function SplitFirst(s: string, c: char): Option<(string, string)> {
    if s == [] then None
    else if s[0] == c then Some(([], s[1..]))
    else match SplitFirst(s[1..], c)
      case None => None
      case Some((before, after)) => Some(([s[0]] + before, after))
  }

  lemma {:induction false} SplitFirstAt(a: string, c: char, b: string)
    requires c !in a
    ensures SplitFirst(a + [c] + b, c) == Some((a, b))
  {
    if a == [] {
      assert a + [c] + b == [c] + b;
    } else {
      assert (a + [c] + b)[1..] == a[1..] + [c] + b;
      SplitFirstAt(a[1..], c, b);
      assert [a[0]] + a[1..] == a;
    }
  }

  /** Reads a URL of createUrl's form back: host up to the first ':', port
      up to the next '/', the database after it. */
  function ParseUrl(url: string): Option<(string, int, string)> {
    if |url| < |JdbcProtocol| || url[..|JdbcProtocol|] != JdbcProtocol then None
    else match SplitFirst(url[|JdbcProtocol|..], ':')
      case None => None
      case Some((host, rest)) =>
        match SplitFirst(rest, '/')
        case None => None
        case Some((digits, database)) =>
          match ParseInt(digits)
          case None => None
          case Some(port) => Some((host, port, database))
  }

  /** A host without ':' can be read back from the URL together with the
      port and the database, so createUrl loses nothing. */
  lemma CreateUrlRoundTrip(host: string, port: Int32, database: string)
    requires ':' !in host
    ensures ParseUrl(CreateUrl(host, port, database)) == Some((host, port, database))
  {
    var digits := IntToString(port);
    forall i | 0 <= i < |digits| ensures digits[i] != '/' {
      IntToStringChars(port, i);
    }
    var url := CreateUrl(host, port, database);
    assert url == JdbcProtocol + (host + [':'] + (digits + ['/'] + database));
    assert url[|JdbcProtocol|..] == host + [':'] + (digits + ['/'] + database);
    SplitFirstAt(host, ':', digits + ['/'] + database);
    SplitFirstAt(digits, '/', database);
    IntToStringRoundTrip(port);
  }

  /** Different connection targets give different URLs when the hosts hold no ':'. */
  lemma CreateUrlInjective(h1: string, p1: Int32, d1: string, h2: string, p2: Int32, d2: string)
    requires ':' !in h1 && ':' !in h2
    requires CreateUrl(h1, p1, d1) == CreateUrl(h2, p2, d2)
    ensures h1 == h2 && p1 == p2 && d1 == d2
  {
    CreateUrlRoundTrip(h1, p1, d1);
    CreateUrlRoundTrip(h2, p2, d2);
  }
}
