/** Connection strings. Two builders exist: the Datastore and role controllers put one together from
    the specification and a password, the other controllers from the data of a Secret. What admission
    lets through is what makes the first one unambiguous; the two agree only under conditions. */
module ConnectionStrings {
  import opened Api
  import opened Cluster

  // ---------------------------------------------------------------- decimal numbers

  function Decimal(n: nat): (r: string)
    ensures |r| > 0 && forall c :: c in r ==> '0' <= c <= '9'
  {
    (if n < 10 then [] else Decimal(n / 10)) + [('0' as int + n % 10) as char]
  }

  lemma {:induction false} DecimalInjective(m: nat, n: nat)
    requires Decimal(m) == Decimal(n)
    ensures m == n
  {
    var dm, dn := Decimal(m), Decimal(n);
    assert dm[|dm| - 1] == dn[|dn| - 1];
    assert dm[..|dm| - 1] == dn[..|dn| - 1];
    if m >= 10 && n >= 10 {
      assert dm[..|dm| - 1] == Decimal(m / 10) && dn[..|dn| - 1] == Decimal(n / 10);
      DecimalInjective(m / 10, n / 10);
    }
  }

  // ---------------------------------------------------------------- the builders

  /** The builder of the Datastore and role controllers. */
  function Build(datastoreType: string, name: string, host: string, username: string, password: string,
                 port: nat, sslMode: string, instance: string): string
  {
    match EngineOf(datastoreType)
    case MySQL =>
      username + ":" + password + "@tcp(" + host + ":" + Decimal(if port == 0 then 3306 else port) + ")/" + name
      + "?parseTime=true"
    case PostgreSQL =>
      "postgres://" + username + ":" + password + "@" + host + ":" + Decimal(if port == 0 then 5432 else port)
      + "/" + name
      + "?sslmode=" + if sslMode == "" then "disable" else sslMode
    case SQLServer =>
      "sqlserver://" + username + ":" + password + "@" + host + ":" + Decimal(if port == 0 then 1433 else port)
      + (if instance != "" then "/" + instance else "") + "?database=" + name
    case Unsupported => username + "@" + name
  }

  function Look(data: map<string, string>, key: string, default: string): string {
    if key in data then data[key] else default
  }

  /** The builder of the Database, User and Migration controllers. */
  function BuildFromSecret(datastoreType: string, name: string, data: map<string, string>): string {
    var username, password, host := Look(data, "username", ""), Look(data, "password", ""), Look(data, "host", "");
    var port := Look(data, "port", "3306");
    match EngineOf(datastoreType)
    case MySQL => username + ":" + password + "@tcp(" + host + ":" + port + ")/" + name + "?parseTime=true"
    case PostgreSQL =>
      "postgres://" + username + ":" + password + "@" + host + ":" + (if port == "3306" then "5432" else port)
      + "/" + name
      + "?sslmode=" + Look(data, "sslmode", "disable")
    case SQLServer =>
      "sqlserver://" + username + ":" + password + "@" + host + ":" + (if port == "3306" then "1433" else port)
      + Look(data, "instance", "") + "?database=" + name
    case Unsupported => username + "@" + name
  }

  // ---------------------------------------------------------------- admission

  predicate AlphaNumeric(c: char) {
    'a' <= c <= 'z' || 'A' <= c <= 'Z' || '0' <= c <= '9'
  }

  predicate HostLike(s: string) {
    s != "" && forall c :: c in s ==> AlphaNumeric(c) || c == '.' || c == '-'
  }

  /** Names double as database names. Reserved names are refused too, which only narrows this. */
  predicate AdmittedName(s: string) {
    && 1 <= |s| <= 63
    && AlphaNumeric(s[0]) && AlphaNumeric(s[|s| - 1])
    && forall c :: c in s ==> AlphaNumeric(c) || c == '_' || c == '-'
  }

  const SSL_MODES := {"disable", "allow", "prefer", "require", "verify-ca", "verify-full"}

  predicate Admitted(datastoreType: string, host: string, username: string, port: nat, sslMode: string,
      instance: string) {
    && host != "" && username != ""
    && datastoreType in {"mysql", "mariadb", "postgres", "sqlserver"}
    && 1 <= port <= 65535
    && HostLike(host)
    && (datastoreType == "postgres" ==> sslMode in SSL_MODES || sslMode == "")
    && (datastoreType == "sqlserver" && instance != "" ==> HostLike(instance))
  }

  // ---------------------------------------------------------------- splitting

  lemma AtLast<T>(a: seq<T>, b: seq<T>, a': seq<T>, b': seq<T>, c: T)
    requires a + [c] + b == a' + [c] + b' && c !in b && c !in b'
    ensures a == a' && b == b'
  {
    var s := a + [c] + b;
    assert s[|a|] == c && s[|a'|] == c;
    assert forall i :: |a| < i < |s| ==> s[i] == b[i - |a| - 1];
    assert forall i :: |a'| < i < |s| ==> s[i] == b'[i - |a'| - 1];
    assert s[..|a|] == a && s[..|a'|] == a' && s[|a| + 1..] == b && s[|a'| + 1..] == b';
  }

  lemma AtFirst<T>(a: seq<T>, b: seq<T>, a': seq<T>, b': seq<T>, c: T)
    requires a + [c] + b == a' + [c] + b' && c !in a && c !in a'
    ensures a == a' && b == b'
  {
    var s := a + [c] + b;
    assert s[|a|] == c && s[|a'|] == c;
    assert forall i :: 0 <= i < |a| ==> s[i] == a[i];
    assert forall i :: 0 <= i < |a'| ==> s[i] == a'[i];
    assert s[..|a|] == a && s[..|a'|] == a' && s[|a| + 1..] == b && s[|a'| + 1..] == b';
  }

  /** What stands before and after a fixed piece. */
  lemma Ends<T>(a: seq<T>, a': seq<T>, end: seq<T>)
    requires a + end == a' + end
    ensures a == a'
  {
    assert (a + end)[..|a|] == a && (a' + end)[..|a'|] == a';
  }

  lemma Begins<T>(begin: seq<T>, a: seq<T>, a': seq<T>)
    requires begin + a == begin + a'
    ensures a == a'
  {
    assert (begin + a)[|begin|..] == a && (begin + a')[|begin|..] == a';
  }

  /** user:password, for user names without a colon. */
  lemma Credentials(u: string, p: string, u': string, p': string)
    requires u + ":" + p == u' + ":" + p' && ':' !in u && ':' !in u'
    ensures u == u' && p == p'
  {
    AtFirst(u, p, u', p', ':');
  }

  /** The host and port behind some credentials. */
  lemma Address(x: string, at: string, h: string, n: nat, x': string, h': string, n': nat)
    requires at != "" && HostLike(h) && HostLike(h') && at[|at| - 1] !in h && at[|at| - 1] !in h'
    requires x + at + h + ":" + Decimal(n) == x' + at + h' + ":" + Decimal(n')
    ensures x == x' && h == h' && n == n'
  {
    AtLast(x + at + h, Decimal(n), x' + at + h', Decimal(n'), ':');
    DecimalInjective(n, n');
    var front, last := at[..|at| - 1], at[|at| - 1];
    assert at == front + [last];
    assert x + at + h == (x + front) + [last] + h && x' + at + h' == (x' + front) + [last] + h';
    AtLast(x + front, h, x' + front, h', last);
    Ends(x, x', front);
  }

  lemma MySQLReadsBack(x: string, h: string, n: nat, d: string, x': string, h': string, n': nat, d': string)
    requires HostLike(h) && HostLike(h') && AdmittedName(d) && AdmittedName(d')
    requires x + "@tcp(" + h + ":" + Decimal(n) + ")/" + d + "?parseTime=true"
             == x' + "@tcp(" + h' + ":" + Decimal(n') + ")/" + d' + "?parseTime=true"
    ensures x == x' && h == h' && n == n' && d == d'
  {
    var y, y' := x + "@tcp(" + h + ":" + Decimal(n), x' + "@tcp(" + h' + ":" + Decimal(n');
    Ends(y + ")/" + d, y' + ")/" + d', "?parseTime=true");
    assert y + ")/" + d == (y + ")") + ['/'] + d && y' + ")/" + d' == (y' + ")") + ['/'] + d';
    AtLast(y + ")", d, y' + ")", d', '/');
    Ends(y, y', ")");
    Address(x, "@tcp(", h, n, x', h', n');
  }

  lemma PostgreSQLReadsBack(x: string, h: string, n: nat, d: string, m: string, x': string, h': string, n': nat,
                            d': string, m': string)
    requires HostLike(h) && HostLike(h') && AdmittedName(d) && AdmittedName(d')
    requires '=' !in m && '=' !in m'
    requires x + "@" + h + ":" + Decimal(n) + "/" + d + "?sslmode=" + m
             == x' + "@" + h' + ":" + Decimal(n') + "/" + d' + "?sslmode=" + m'
    ensures x == x' && h == h' && n == n' && d == d' && m == m'
  {
    hide Decimal, HostLike;
    var y, y' := x + "@" + h + ":" + Decimal(n), x' + "@" + h' + ":" + Decimal(n');
    assert y + "/" + d + "?sslmode=" + m == (y + "/" + d + "?sslmode") + ['='] + m;
    assert y' + "/" + d' + "?sslmode=" + m' == (y' + "/" + d' + "?sslmode") + ['='] + m';
    AtLast(y + "/" + d + "?sslmode", m, y' + "/" + d' + "?sslmode", m', '=');
    Ends(y + "/" + d, y' + "/" + d', "?sslmode");
    AtLast(y, d, y', d', '/');
    AddressAfterAt(x, h, n, x', h', n');
  }

  lemma AddressAfterAt(x: string, h: string, n: nat, x': string, h': string, n': nat)
    requires HostLike(h) && HostLike(h')
    requires x + "@" + h + ":" + Decimal(n) == x' + "@" + h' + ":" + Decimal(n')
    ensures x == x' && h == h' && n == n'
  {
    Address(x, "@", h, n, x', h', n');
  }

  /** What stands behind a scheme. */
  lemma Behind(scheme: string, u: string, p: string, u': string, p': string)
    ensures scheme + u + ":" + p == scheme + u' + ":" + p' <==> u + ":" + p == u' + ":" + p'
  {
    assert scheme + u + ":" + p == scheme + (u + ":" + p) && scheme + u' + ":" + p' == scheme + (u' + ":" + p');
    if scheme + u + ":" + p == scheme + u' + ":" + p' {
      Begins(scheme, u + ":" + p, u' + ":" + p');
    }
  }

  function Path(instance: string): string {
    if instance != "" then "/" + instance else ""
  }

  /** A port and a path: the path starts where the digits end. */
  lemma PortAndPath(n: nat, i: string, n': nat, i': string)
    requires Decimal(n) + Path(i) == Decimal(n') + Path(i')
    ensures n == n' && i == i'
  {
    var s := Decimal(n) + Path(i);
    assert i != "" ==> s[|Decimal(n)|] == '/';
    assert i' != "" ==> s[|Decimal(n')|] == '/';
    assert forall j :: 0 <= j < |Decimal(n)| ==> s[j] == Decimal(n)[j];
    assert forall j :: 0 <= j < |Decimal(n')| ==> s[j] == Decimal(n')[j];
    assert forall j :: 0 <= j < |Decimal(n)| ==> Decimal(n)[j] in Decimal(n);
    assert forall j :: 0 <= j < |Decimal(n')| ==> Decimal(n')[j] in Decimal(n');
    assert |Decimal(n)| == |Decimal(n')|;
    assert s[..|Decimal(n)|] == Decimal(n) && s[..|Decimal(n')|] == Decimal(n');
    Begins(Decimal(n), Path(i), Path(i'));
    DecimalInjective(n, n');
    assert i != "" ==> Path(i)[1..] == i;
    assert i' != "" ==> Path(i')[1..] == i';
  }

  function Endpoint(h: string, n: nat, i: string): string {
    h + ":" + (Decimal(n) + Path(i))
  }

  lemma EndpointHasNoAt(h: string, n: nat, i: string)
    requires HostLike(h) && (i == "" || HostLike(i))
    ensures '@' !in Endpoint(h, n, i)
  {
  }

  lemma EndpointLast(x: string, h: string, n: nat, i: string)
    ensures x + "@" + h + ":" + Decimal(n) + Path(i) == x + "@" + Endpoint(h, n, i)
  {
  }

  lemma SQLServerReadsBack(x: string, h: string, n: nat, i: string, d: string, x': string, h': string, n': nat,
                           i': string, d': string)
    requires HostLike(h) && HostLike(h') && AdmittedName(d) && AdmittedName(d')
    requires (i == "" || HostLike(i)) && (i' == "" || HostLike(i'))
    requires x + "@" + h + ":" + Decimal(n) + Path(i) + "?database=" + d
             == x' + "@" + h' + ":" + Decimal(n') + Path(i') + "?database=" + d'
    ensures x == x' && h == h' && n == n' && i == i' && d == d'
  {
    var z, z' := Endpoint(h, n, i), Endpoint(h', n', i');
    EndpointLast(x, h, n, i);
    EndpointLast(x', h', n', i');
    DatabaseBehind(x + "@" + z, d, x' + "@" + z', d');
    EndpointHasNoAt(h, n, i);
    EndpointHasNoAt(h', n', i');
    AtLast(x, z, x', z', '@');
    SameEndpoint(h, n, i, h', n', i');
  }

  lemma SameEndpoint(h: string, n: nat, i: string, h': string, n': nat, i': string)
    requires HostLike(h) && HostLike(h') && Endpoint(h, n, i) == Endpoint(h', n', i')
    ensures h == h' && n == n' && i == i'
  {
    AtFirst(h, Decimal(n) + Path(i), h', Decimal(n') + Path(i'), ':');
    PortAndPath(n, i, n', i');
  }

  lemma DatabaseBehind(a: string, d: string, a': string, d': string)
    requires a + "?database=" + d == a' + "?database=" + d' && AdmittedName(d) && AdmittedName(d')
    ensures a == a' && d == d'
  {
    assert a + "?database=" + d == (a + "?database") + ['='] + d;
    assert a' + "?database=" + d' == (a' + "?database") + ['='] + d';
    AtLast(a + "?database", d, a' + "?database", d', '=');
    Ends(a, a', "?database");
  }

  // ---------------------------------------------------------------- main results

  /** Within an engine, two connection strings that admission lets through are equal exactly when
      everything that the engine looks at is, but that of the credentials only user:password as one text. */
  lemma ReadsBack(t: string, d: string, h: string, u: string, p: string, n: nat, m: string, i: string,
                  t': string, d': string, h': string, u': string, p': string, n': nat, m': string, i': string)
    requires Admitted(t, h, u, n, m, i) && Admitted(t', h', u', n', m', i') && EngineOf(t) == EngineOf(t')
    requires AdmittedName(d) && AdmittedName(d')
    ensures Build(t, d, h, u, p, n, m, i) == Build(t', d', h', u', p', n', m', i') <==>
              && d == d' && h == h' && u + ":" + p == u' + ":" + p' && n == n'
              && (EngineOf(t) == PostgreSQL ==> (m == m' || (m in {"", "disable"} && m' in {"", "disable"})))
              && (EngineOf(t) == SQLServer ==> i == i')
  {
    hide Decimal, AdmittedName, HostLike;
    match EngineOf(t)
    case MySQL =>
      if Build(t, d, h, u, p, n, m, i) == Build(t', d', h', u', p', n', m', i') {
        MySQLReadsBack(u + ":" + p, h, n, d, u' + ":" + p', h', n', d');
      }
    case PostgreSQL =>
      Behind("postgres://", u, p, u', p');
      Modes(m);
      Modes(m');
      if Build(t, d, h, u, p, n, m, i) == Build(t', d', h', u', p', n', m', i') {
        PostgreSQLReadsBack("postgres://" + u + ":" + p, h, n, d, Mode(m), "postgres://" + u' + ":" + p', h', n', d',
            Mode(m'));
      }
    case SQLServer =>
      Behind("sqlserver://", u, p, u', p');
      if Build(t, d, h, u, p, n, m, i) == Build(t', d', h', u', p', n', m', i') {
        SQLServerReadsBack("sqlserver://" + u + ":" + p, h, n, i, d, "sqlserver://" + u' + ":" + p', h', n', i', d');
      }
  }

  function Mode(m: string): string {
    if m == "" then "disable" else m
  }

  lemma Modes(m: string)
    requires m in SSL_MODES || m == ""
    ensures '=' !in Mode(m)
  {
  }

  /** Within an engine, what admission lets through can be read back from the connection string, for
      any password, if the user name has no colon: two strings are equal exactly when everything that
      the engine looks at is. */
  lemma Unambiguous(t: string, d: string, h: string, u: string, p: string, n: nat, m: string, i: string,
                    t': string, d': string, h': string, u': string, p': string, n': nat, m': string, i': string)
    requires Admitted(t, h, u, n, m, i) && Admitted(t', h', u', n', m', i') && EngineOf(t) == EngineOf(t')
    requires AdmittedName(d) && AdmittedName(d') && ':' !in u && ':' !in u'
    ensures Build(t, d, h, u, p, n, m, i) == Build(t', d', h', u', p', n', m', i') <==>
              && d == d' && h == h' && u == u' && p == p' && n == n'
              && (EngineOf(t) == PostgreSQL ==> (m == m' || (m in {"", "disable"} && m' in {"", "disable"})))
              && (EngineOf(t) == SQLServer ==> i == i')
  {
    hide Build, Admitted, AdmittedName, EngineOf;
    ReadsBack(t, d, h, u, p, n, m, i, t', d', h', u', p', n', m', i');
    if u + ":" + p == u' + ":" + p' {
      Credentials(u, p, u', p');
    }
  }

  /** Another place than the one behind the user name where user:password can be split. */
  predicate Splits(credentials: string, u: string, j: nat) {
    1 <= j < |credentials| && j != |u| && credentials[j] == ':'
  }

  /** Admitted credentials share their connection string with other ones exactly if user:password has a
      second colon, past its first character, at which it could be split just as well: in a user name with
      one, or in a password. */
  lemma ColonIsAmbiguous(t: string, d: string, h: string, u: string, p: string, n: nat, m: string, i: string)
    requires Admitted(t, h, u, n, m, i) && AdmittedName(d)
    ensures (exists u', p' :: u' != u && Admitted(t, h, u', n, m, i)
                              && Build(t, d, h, u', p', n, m, i) == Build(t, d, h, u, p, n, m, i))
            <==> exists j: nat :: Splits(u + ":" + p, u, j)
  {
    var credentials := u + ":" + p;
    var same := Build(t, d, h, u, p, n, m, i);
    if u', p' :| u' != u && Admitted(t, h, u', n, m, i) && Build(t, d, h, u', p', n, m, i) == same {
      ReadsBack(t, d, h, u', p', n, m, i, t, d, h, u, p, n, m, i);
      OtherSplit(u, p, u', p');
      assert Splits(credentials, u, |u'|);
    }
    if j: nat :| Splits(credentials, u, j) {
      var u', p' := credentials[..j], credentials[j + 1..];
      assert u' + ":" + p' == credentials;
      assert Admitted(t, h, u', n, m, i);
      ReadsBack(t, d, h, u', p', n, m, i, t, d, h, u, p, n, m, i);
    }
  }

  lemma OtherSplit(u: string, p: string, u': string, p': string)
    requires u + ":" + p == u' + ":" + p' && u' != u && u' != ""
    ensures Splits(u + ":" + p, u, |u'|)
  {
    var credentials := u + ":" + p;
    assert credentials[..|u|] == u && credentials[..|u'|] == u' && credentials[|u'|] == ':';
  }

  /** A Secret with the same data as the specification: what is left empty there is left out here. */
  predicate Matches(data: map<string, string>, h: string, u: string, p: string, n: nat, m: string, i: string) {
    && Look(data, "username", "") == u && Look(data, "password", "") == p && Look(data, "host", "") == h
    && "port" in data && data["port"] == Decimal(n)
    && (if m == "" then "sslmode" !in data else "sslmode" in data && data["sslmode"] == m)
    && (if i == "" then "instance" !in data else "instance" in data && data["instance"] == i)
  }

  /** A Secret without a port stands for the default one of its engine; so does port 0 in a specification. */
  lemma MissingPort(t: string, d: string, h: string, u: string, p: string, m: string, data: map<string, string>)
    requires Look(data, "username", "") == u && Look(data, "password", "") == p && Look(data, "host", "") == h
    requires "port" !in data && Look(data, "sslmode", "disable") == if m == "" then "disable" else m
    ensures t in MYSQL_TYPES ==>
              BuildFromSecret(t, d, data) == Build(t, d, h, u, p, 3306, m, "") == Build(t, d, h, u, p, 0, m, "")
    ensures t in POSTGRESQL_TYPES ==>
              BuildFromSecret(t, d, data) == Build(t, d, h, u, p, 5432, m, "") == Build(t, d, h, u, p, 0, m, "")
    ensures t in SQLSERVER_TYPES && "instance" !in data ==>
              BuildFromSecret(t, d, data) == Build(t, d, h, u, p, 1433, m, "") == Build(t, d, h, u, p, 0, m, "")
  {
    hide Decimal;
    DefaultPorts();
    if t in SQLSERVER_TYPES && "instance" !in data {
      var begin := "sqlserver://" + u + ":" + p + "@" + h + ":" + "1433";
      assert begin + "" == begin;
    }
  }

  /** With an instance in the data, a SQL Server gets it directly behind the port, where the other builder
      puts a slash. */
  lemma MissingPortAndInstance(t: string, d: string, data: map<string, string>)
    requires t in SQLSERVER_TYPES && "port" !in data && "instance" in data
    ensures BuildFromSecret(t, d, data) ==
              "sqlserver://" + Look(data, "username", "") + ":" + Look(data, "password", "") + "@"
              + Look(data, "host", "") + ":1433" + data["instance"] + "?database=" + d
  {
    var begin := "sqlserver://" + Look(data, "username", "") + ":" + Look(data, "password", "") + "@"
                 + Look(data, "host", "");
    assert begin + ":" + "1433" == begin + ":1433";
  }

  /** A Secret with a user, a password and a host. */
  const EXAMPLE := map["username" := "u", "password" := "p", "host" := "h"]

  /** What the builders give for some concrete data. */
  lemma ConcreteMySQL()
    ensures Build("mysql", "d", "h", "u", "p", 3306, "", "") == "u:p@tcp(h:3306)/d?parseTime=true"
    ensures BuildFromSecret("mysql", "d", EXAMPLE["port" := "3306"]) == "u:p@tcp(h:3306)/d?parseTime=true"
  {
    DefaultPorts();
    hide Decimal;
    assert "u" + ":" + "p" + "@tcp(" + "h" + ":" == "u:p@tcp(h:";
    assert "u:p@tcp(h:" + "3306" + ")/" + "d" == "u:p@tcp(h:3306)/d";
  }

  lemma ConcretePostgreSQL()
    ensures Build("postgres", "d", "h", "u", "p", 5432, "", "") == "postgres://u:p@h:5432/d?sslmode=disable"
    ensures BuildFromSecret("postgres", "d", EXAMPLE["port" := "5432"]) == "postgres://u:p@h:5432/d?sslmode=disable"
  {
    DefaultPorts();
    hide Decimal;
    assert "postgres://" + "u" + ":" + "p" + "@" + "h" + ":" == "postgres://u:p@h:";
    assert "postgres://u:p@h:" + "5432" + "/" + "d" == "postgres://u:p@h:5432/d";
  }

  lemma ConcreteSQLServer()
    ensures Build("sqlserver", "d", "h", "u", "p", 1433, "", "I") == "sqlserver://u:p@h:1433/I?database=d"
  {
    DefaultPorts();
    hide Decimal;
    assert "sqlserver://" + "u" + ":" + "p" + "@" + "h" + ":" == "sqlserver://u:p@h:";
    assert "sqlserver://u:p@h:" + "1433" + "/I" == "sqlserver://u:p@h:1433/I";
  }

  lemma ConcreteSQLServerFromSecret()
    ensures BuildFromSecret("sqlserver", "d", EXAMPLE["port" := "1433"]["instance" := "I"])
              == "sqlserver://u:p@h:1433I?database=d"
  {
    DefaultPorts();
    hide Decimal;
    assert "sqlserver://" + "u" + ":" + "p" + "@" + "h" + ":" == "sqlserver://u:p@h:";
    assert "sqlserver://u:p@h:" + "1433" + "I" == "sqlserver://u:p@h:1433I";
  }

  lemma UnknownType(t: string, d: string, h: string, u: string, p: string, n: nat, m: string, i: string,
                    data: map<string, string>)
    requires t !in KNOWN_TYPES && Look(data, "username", "") == u
    ensures Build(t, d, h, u, p, n, m, i) == BuildFromSecret(t, d, data) == u + "@" + d
  {
  }

  lemma DefaultPorts()
    ensures Decimal(3306) == "3306" && Decimal(5432) == "5432" && Decimal(1433) == "1433"
  {
    assert Decimal(3) == "3" && Decimal(33) == "33" && Decimal(330) == "330";
    assert Decimal(5) == "5" && Decimal(54) == "54" && Decimal(543) == "543";
    assert Decimal(1) == "1" && Decimal(14) == "14" && Decimal(143) == "143";
  }

  lemma AgreeOnPostgreSQL(t: string, d: string, h: string, u: string, p: string, n: nat, m: string, i: string,
      data: map<string, string>)
    requires EngineOf(t) == PostgreSQL && Matches(data, h, u, p, n, m, i) && n > 0
    ensures BuildFromSecret(t, d, data) == Build(t, d, h, u, p, n, m, i) <==> n != 3306
  {
    hide Decimal;
    DefaultPorts();
    var begin, mode := "postgres://" + u + ":" + p + "@" + h + ":", if m == "" then "disable" else m;
    if n == 3306 {
      OtherPort(begin, "3306", "5432", "/", d, "?sslmode=", mode);
    } else if data["port"] == "3306" {
      DecimalInjective(n, 3306);
    }
  }

  lemma AgreeOnSQLServer(t: string, d: string, h: string, u: string, p: string, n: nat, m: string, i: string,
      data: map<string, string>)
    requires EngineOf(t) == SQLServer && Matches(data, h, u, p, n, m, i) && n > 0
    ensures BuildFromSecret(t, d, data) == Build(t, d, h, u, p, n, m, i) <==> n != 3306 && i == ""
  {
    hide Decimal;
    DefaultPorts();
    var port := data["port"];
    if n != 3306 && port == "3306" {
      DecimalInjective(n, 3306);
    }
    var begin, end := "sqlserver://" + u + ":" + p + "@" + h + ":", "?database=";
    var port' := if port == "3306" then "1433" else port;
    assert BuildFromSecret(t, d, data) == begin + port' + i + end + d;
    assert Build(t, d, h, u, p, n, m, i) == begin + port + Path(i) + end + d;
    Instances(begin, port, port', i, end, d);
  }

  lemma Instances(begin: string, port: string, port': string, i: string, end: string, d: string)
    requires port' == if port == "3306" then "1433" else port
    ensures begin + port' + i + end + d == begin + port + Path(i) + end + d <==> port != "3306" && i == ""
  {
    if i != "" {
      assert |begin + port' + i + end + d| + 1 == |begin + port + Path(i) + end + d|;
    } else if port == "3306" {
      OtherPort(begin, "3306", "1433", "", "", end, d);
      assert begin + "1433" + "" + "" == begin + port' + i && begin + "3306" + "" + "" == begin + port + Path(i);
    }
  }

  /** For matching data the two builders agree exactly on MySQL; on PostgreSQL unless the port is 3306;
      and on SQL Server unless the port is 3306 or an instance is named. */
  lemma BuildersAgree(t: string, d: string, h: string, u: string, p: string, n: nat, m: string, i: string,
      data: map<string, string>)
    requires Admitted(t, h, u, n, m, i) && Matches(data, h, u, p, n, m, i)
    ensures BuildFromSecret(t, d, data) == Build(t, d, h, u, p, n, m, i) <==>
              || EngineOf(t) == MySQL
              || (EngineOf(t) == PostgreSQL && n != 3306)
              || (EngineOf(t) == SQLServer && n != 3306 && i == "")
  {
    if EngineOf(t) == PostgreSQL {
      AgreeOnPostgreSQL(t, d, h, u, p, n, m, i, data);
    } else if EngineOf(t) == SQLServer {
      AgreeOnSQLServer(t, d, h, u, p, n, m, i, data);
    }
  }

  lemma OtherPort(begin: string, port: string, port': string, a: string, b: string, c: string, e: string)
    requires port != "" && port' != "" && port[0] != port'[0]
    ensures begin + port + a + b + c + e != begin + port' + a + b + c + e
  {
    assert (begin + port + a + b + c + e)[|begin|] == port[0] && (begin + port' + a + b + c + e)[|begin|] == port'[0];
  }
}
