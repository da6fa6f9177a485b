/** The connection's URL as a record of its components, the server string
    composed from them (`NextcloudApi::server`), and a reader for that
    string that recovers the components, so that composing is shown to lose
    nothing but the credentials. */
module ServerUrl {

  import opened Wrappers
  import opened Sequences

  /** The port value of a URL that has none (QUrl::port() returns -1). */
  const NoPort: int := -1

  /** The components of a QUrl. The query and the fragment take part in
      comparing two URLs, but no setter of the connection reads or writes them. */
  datatype Url = Url(scheme: string, host: string, port: int, username: string, password: string, path: string,
                     query: string, fragment: string)

  /** A default-constructed QUrl: every component empty, no port. */
  const EmptyUrl: Url := Url("", "", NoPort, "", "", "", "", "")

  predicate IsDigit(c: char)
  {
    '0' <= c <= '9'
  }

  predicate IsColon(c: char)
  {
    c == ':'
  }

  predicate IsSlash(c: char)
  {
    c == '/'
  }

  /** The characters that end the host part of a URL. */
  predicate EndsHost(c: char)
  {
    c == ':' || c == '/'
  }

  /** The decimal digits of a number, without leading zeros. */
  function Decimal(n: nat): (s: string)
    ensures |s| > 0
    ensures forall j :: 0 <= j < |s| ==> IsDigit(s[j])
    decreases n
  {
    if n < 10 then [('0' as int + n) as char]
    else Decimal(n / 10) + [('0' as int + n % 10) as char]
  }

  /** The number a string of decimal digits denotes. */
  function DecimalValue(s: string): nat
    requires forall j :: 0 <= j < |s| ==> IsDigit(s[j])
    decreases |s|
  {
    if s == [] then 0
    else
      var last := s[|s| - 1];
      assert IsDigit(last);
      DecimalValue(s[..|s| - 1]) * 10 + (last as int - '0' as int)
  }

  lemma {:induction false} DecimalRoundTrip(n: nat)
    ensures DecimalValue(Decimal(n)) == n
    decreases n
  {
    if n >= 10 {
      var s := Decimal(n);
      assert s[..|s| - 1] == Decimal(n / 10);
      DecimalRoundTrip(n / 10);
    }
  }

  /** What `server()` keeps of a URL: scheme, host, a positive port, path. */
  function ServerPart(u: Url): Url
  {
    Url(u.scheme, u.host, if u.port > 0 then u.port else NoPort, "", "", u.path, "", "")
  }

  /** The server string `scheme://host[:port]path`; the port is written only
      when it is positive, and the user name and password never are.
      An empty scheme or host drops its part of the string, as QUrl does. */
  function Server(u: Url): string
  {
    (if u.scheme != "" then u.scheme + ":" else "")
    + (if u.host != "" || u.port > 0
       then "//" + u.host + (if u.port > 0 then ":" + Decimal(u.port) else "")
       else "")
    + u.path
  }

  /** Reads `scheme://host[:port]path` back into components (no credentials). */
  function ParseServer(s: string): Option<Url>
  {
    var c := FirstWhere(s, IsColon);
    if c == 0 || c + 3 > |s| || s[c..c + 3] != "://" then None
    else ParseHostPort(s[..c], s[c + 3..])
  }

  /** Reads `host[:port]path`: the host ends at the first `:` or `/`. */
  function ParseHostPort(scheme: string, rest: string): Option<Url>
  {
    var h := FirstWhere(rest, EndsHost);
    if h == 0 then None
    else if h < |rest| && rest[h] == ':' then ParsePortPath(scheme, rest[..h], rest[h + 1..])
    else Some(Url(scheme, rest[..h], NoPort, "", "", rest[h..], "", ""))
  }

  /** Reads `port path`: the digits end at the first `/`. */
  function ParsePortPath(scheme: string, host: string, tail: string): Option<Url>
  {
    var e := FirstWhere(tail, IsSlash);
    var digits := tail[..e];
    if digits == [] || exists j :: 0 <= j < |digits| && !IsDigit(digits[j]) then None
    else Some(Url(scheme, host, DecimalValue(digits), "", "", tail[e..], "", ""))
  }

  /** A URL whose server string can be read back: a scheme without a colon,
      a host without a colon or slash, a port that is absent or positive,
      and a path that is empty or absolute. */
  predicate Composable(u: Url)
  {
    && u.scheme != ""
    && (forall j :: 0 <= j < |u.scheme| ==> !IsColon(u.scheme[j]))
    && u.host != ""
    && (forall j :: 0 <= j < |u.host| ==> !EndsHost(u.host[j]))
    && (u.port == NoPort || u.port > 0)
    && (u.path == "" || u.path[0] == '/')
  }

  /** The part after the host: `:port` and the path. */
  function AfterHost(u: Url): string
  {
    (if u.port > 0 then ":" + Decimal(u.port) else "") + u.path
  }

  lemma ServerShape(u: Url)
    requires Composable(u)
    ensures Server(u) == u.scheme + ("://" + (u.host + AfterHost(u)))
  {
  }

  /** The scheme ends at the first colon, which starts `://`. */
  lemma SchemeRead(u: Url)
    requires Composable(u)
    ensures FirstWhere(Server(u), IsColon) == |u.scheme|
    ensures Server(u)[..|u.scheme|] == u.scheme
    ensures Server(u)[|u.scheme|..|u.scheme| + 3] == "://"
    ensures Server(u)[|u.scheme| + 3..] == u.host + AfterHost(u)
  {
    ServerShape(u);
    var tail := "://" + (u.host + AfterHost(u));
    FirstWhereAppend(u.scheme, tail, IsColon);
    assert tail[0] == ':';
  }

  /** The host ends at the first `:` or `/` after it. */
  lemma HostRead(u: Url)
    requires Composable(u)
    ensures FirstWhere(u.host + AfterHost(u), EndsHost) == |u.host|
  {
    var after := AfterHost(u);
    FirstWhereAppend(u.host, after, EndsHost);
    if u.port > 0 {
      assert after[0] == ':';
    } else if u.path != "" {
      assert after[0] == '/';
    }
  }

  /** The port's digits end at the path's slash and denote the port. */
  lemma PortRead(u: Url)
    requires Composable(u) && u.port > 0
    ensures ParsePortPath(u.scheme, u.host, Decimal(u.port) + u.path) == Some(ServerPart(u))
  {
    var d := Decimal(u.port);
    forall j | 0 <= j < |d|
      ensures !IsSlash(d[j])
    {
      assert IsDigit(d[j]);
    }
    FirstWhereAppend(d, u.path, IsSlash);
    assert (d + u.path)[..|d|] == d;
    assert (d + u.path)[|d|..] == u.path;
    DecimalRoundTrip(u.port);
  }

  /** Everything after `://` reads back as host, port and path. */
  lemma HostPortRead(u: Url)
    requires Composable(u)
    ensures ParseHostPort(u.scheme, u.host + AfterHost(u)) == Some(ServerPart(u))
  {
    var rest := u.host + AfterHost(u);
    HostRead(u);
    assert rest[..|u.host|] == u.host;
    if u.port > 0 {
      assert rest[|u.host|] == ':';
      assert rest[|u.host| + 1..] == Decimal(u.port) + u.path;
      PortRead(u);
    } else {
      assert rest[|u.host|..] == u.path;
    }
  }

  /** Reading the server string back gives the components `server()` keeps:
      the credentials never appear in it. */
  lemma ServerRoundTrip(u: Url)
    requires Composable(u)
    ensures ParseServer(Server(u)) == Some(ServerPart(u))
  {
    SchemeRead(u);
    HostPortRead(u);
  }
}
