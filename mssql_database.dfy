/** The SQL Server connection of the agents: the `host[:port]` split with its default port, the
    ordered ODBC-driver fallback of `connect`, the lazily connecting and once-reconnecting
    `cursor`, the three-attempt retry of `execute`, and the configuration lookup of
    `get_db_for_action`.

    The ODBC driver is an oracle (`Odbc`): it answers the k-th connect, the k-th cursor request
    and the k-th statement as its `Oracle` says, and records what it was asked. Each method of
    `MssqlDatabase` is proved equal to a specification function over a snapshot (`Link`) of the
    held connection and the driver's record; the lemmas state what the source promises about those
    functions. */
module MssqlDatabase {
  import opened Wrappers
  import Text

  datatype Port = PortText(text: string) | PortNumber(number: int)

  const DefaultPort: int := 1433

  datatype DbError =
    | ValueError(message: string)
    | DriverError(code: string)   // an error raised by the driver

  /** The driver's answer to one call. */
  datatype Reply = Granted | Refused(code: string)

  /** A connection, numbered by the connect call that opened it. */
  datatype Connection = Connection(serial: nat, connectionString: string)

  /** A cursor, numbered by the cursor request that opened it. */
  datatype CursorHandle = CursorHandle(serial: nat, connection: Connection)

  /** The driver's answers to the k-th connect, the k-th cursor request and the k-th statement. */
  datatype Oracle = Oracle(connectReply: nat -> Reply, cursorReply: nat -> Reply, executeReply: nat -> Reply)

  /** One call of `cursor.execute(query, params)`. */
  datatype Statement = Statement(query: string, params: Option<seq<string>>)

  /** The connection the database object holds and what the driver has been asked so far: the
      connection string of every connect, the number of cursor requests, every statement. */
  datatype Link = Link(connection: Option<Connection>, connects: seq<string>, cursors: nat, executes: seq<Statement>)

  /** The server and the credentials a connection string names. */
  datatype Target = Target(host: string, port: Port, database: string, user: string, password: string)

  // ---------------------------------------------------------------- host and port

  const UnpackError: string := "too many values to unpack (expected 2)"

  /** `__init__`'s split of the host: `h:p` is host h and port p, a host without a colon keeps the
      default port, and a host with two or more colons fails the two-way unpack. */
  function HostPort(host: string): (r: Result<(string, Port), DbError>)
    ensures ':' !in host ==> r == Ok((host, PortNumber(DefaultPort)))
    ensures r.Err? <==> multiset(host)[':'] >= 2
    ensures r.Err? ==> r.error == ValueError(UnpackError)
    ensures r.Ok? && r.value.1.PortText? ==> host == r.value.0 + ":" + r.value.1.text
    ensures r.Ok? ==> ':' !in r.value.0
  {
    if ':' in host then
      var parts := Text.Split(host, ':');
      Text.SplitCount(host, ':');
      Text.SplitJoin(host, ':');
      Text.SplitPartsFree(host, ':');
      if |parts| == 2 then Ok((parts[0], PortText(parts[1]))) else Err(ValueError(UnpackError))
    else
      Text.SplitCount(host, ':');
      Ok((host, PortNumber(DefaultPort)))
  }

  /** Joining a colon-free host and port with a colon and splitting again gives them back. */
  lemma {:induction false} HostPortOfJoined(h: string, p: string)
    requires ':' !in h && ':' !in p
    ensures HostPort(h + ":" + p) == Ok((h, PortText(p)))
  {
    Text.SplitAt(h, ':', p);
    Text.SplitNoSep(p, ':');
    assert h + ":" + p == h + [':'] + p;
    assert (h + [':'] + p)[|h|] == ':';
  }

  /** The port as it appears in the connection string. */
  function PortString(p: Port): string {
    match p
    case PortText(s) => s
    case PortNumber(n) => Text.IntToDecimal(n)
  }

  // ---------------------------------------------------------------- connect

  /** The ODBC drivers `connect` tries, in order of preference. */
  const Drivers: seq<string> := ["ODBC Driver 18 for SQL Server", "ODBC Driver 17 for SQL Server",
                                 "ODBC Driver 13 for SQL Server", "SQL Server"]

  const NoDriverMessage: string :=
    "Could not connect to MSSQL server with any available driver. Tried: " + Text.JoinWith(Drivers, ", ")

  function ConnectionString(driver: string, t: Target): string {
    "DRIVER={" + driver + "};" + ("SERVER=" + t.host + "," + PortString(t.port) + ";")
      + ("DATABASE=" + t.database + ";") + ("UID=" + t.user + ";") + ("PWD=" + t.password + ";")
      + "TrustServerCertificate=yes;"
  }

  /** The connection string names the driver first, then the server as `host,port`, the
      database and the credentials, and always trusts the server certificate. */
  lemma {:induction false} ConnectionStringShape(driver: string, t: Target)
    ensures var cs := ConnectionString(driver, t);
      && Text.StartsWith(cs, "DRIVER={" + driver + "};")
      && Text.Contains(cs, "SERVER=" + t.host + "," + PortString(t.port) + ";")
      && Text.Contains(cs, "DATABASE=" + t.database + ";")
      && Text.Contains(cs, "UID=" + t.user + ";")
      && Text.Contains(cs, "PWD=" + t.password + ";")
      && Text.EndsWith(cs, "TrustServerCertificate=yes;")
  {
    var a := "DRIVER={" + driver + "};";
    var s := "SERVER=" + t.host + "," + PortString(t.port) + ";";
    var d := "DATABASE=" + t.database + ";";
    var u := "UID=" + t.user + ";";
    var p := "PWD=" + t.password + ";";
    var z := "TrustServerCertificate=yes;";
    Text.PrefixOfConcat(a, s);
    Text.PrefixExtend(a + s, a, d);
    Text.PrefixExtend(a + s + d, a, u);
    Text.PrefixExtend(a + s + d + u, a, p);
    Text.PrefixExtend(a + s + d + u + p, a, z);
    Text.ContainsSuffix(a, s);
    Text.ContainsAppend(a + s, s, d);
    Text.ContainsAppend(a + s + d, s, u);
    Text.ContainsAppend(a + s + d + u, s, p);
    Text.ContainsAppend(a + s + d + u + p, s, z);
    Text.ContainsSuffix(a + s, d);
    Text.ContainsAppend(a + s + d, d, u);
    Text.ContainsAppend(a + s + d + u, d, p);
    Text.ContainsAppend(a + s + d + u + p, d, z);
    Text.ContainsSuffix(a + s + d, u);
    Text.ContainsAppend(a + s + d + u, u, p);
    Text.ContainsAppend(a + s + d + u + p, u, z);
    Text.ContainsInfix(a + s + d + u, p, z);
    Text.SuffixOfConcat(a + s + d + u + p, z);
  }

  /** The driver's answer to the k-th connect, with connection string cs. */
  function ConnectAnswer(o: Oracle, k: nat, cs: string): Result<Connection, DbError> {
    match o.connectReply(k)
    case Granted => Ok(Connection(k, cs))
    case Refused(code) => Err(DriverError(code))
  }

  /** The driver loop of `connect` over the connection strings css of the drivers: each attempt
      is recorded; the first granted one becomes the held connection and ends the loop; a refused
      one is passed over. */
  function ScanDrivers(o: Oracle, css: seq<string>, w: Link): (r: Link)
    ensures r.cursors == w.cursors && r.executes == w.executes
    ensures |w.connects| <= |r.connects| <= |w.connects| + |css| && r.connects[..|w.connects|] == w.connects
    ensures |css| > 0 ==> |r.connects| > |w.connects|
    ensures w.connection.Some? ==> r.connection.Some?
    decreases |css|
  {
    if |css| == 0 then w
    else
      var k := |w.connects|;
      var w1 := w.(connects := w.connects + [css[0]]);
      match ConnectAnswer(o, k, css[0])
      case Ok(c) => w1.(connection := Some(c))
      case Err(_) => ScanDrivers(o, css[1..], w1)
  }

  /** `connect` over the connection strings css of the drivers, in order (for a database object,
      `Attempted(Drivers, t)`): the driver loop, then the error when no connection is held
      afterwards. */
  function ConnectSpec(o: Oracle, css: seq<string>, w: Link): (Link, Result<Unit, DbError>) {
    var r := ScanDrivers(o, css, w);
    if r.connection.None? then (r, Err(ValueError(NoDriverMessage))) else (r, Ok(Unit))
  }

  /** The position of the first granted answer among the n connect calls from `from` on, or n
      when every one is refused. */
  function FirstGranted(reply: nat -> Reply, from: nat, n: nat): (k: nat)
    ensures k <= n
    ensures forall j :: from <= j < from + k ==> reply(j).Refused?
    ensures k < n ==> reply(from + k).Granted?
    decreases n
  {
    if n == 0 then 0
    else if reply(from).Granted? then 0
    else 1 + FirstGranted(reply, from + 1, n - 1)
  }

  /** The connection strings of the drivers ds, in order. */
  function Attempted(ds: seq<string>, t: Target): (r: seq<string>)
    ensures |r| == |ds|
    ensures forall i :: 0 <= i < |ds| ==> r[i] == ConnectionString(ds[i], t)
  {
    if |ds| == 0 then [] else [ConnectionString(ds[0], t)] + Attempted(ds[1..], t)
  }

  /** The driver loop tries the drivers in order, up to and including the first that is granted
      and none after it; the granted one's connection is then held, and when all are refused the
      connection held before is kept. */
  lemma {:induction false} ScanDriversResult(o: Oracle, css: seq<string>, w: Link)
    ensures var k := FirstGranted(o.connectReply, |w.connects|, |css|);
      var r := ScanDrivers(o, css, w);
      && (k < |css| ==> (r.connects == w.connects + css[..k + 1]
                      && r.connection == Some(Connection(|w.connects| + k, css[k]))))
      && (k == |css| ==> r.connects == w.connects + css && r.connection == w.connection)
  {
    if FirstGranted(o.connectReply, |w.connects|, |css|) < |css| {
      ScanDriversGranted(o, css, w, FirstGranted(o.connectReply, |w.connects|, |css|));
    } else {
      ScanDriversExhausted(o, css, w);
    }
  }

  /** The loop over css when the k-th attempt is the first one granted. */
  lemma {:induction false} ScanDriversGranted(o: Oracle, css: seq<string>, w: Link, k: nat)
    requires k < |css|
    requires forall j :: |w.connects| <= j < |w.connects| + k ==> o.connectReply(j).Refused?
    requires o.connectReply(|w.connects| + k).Granted?
    ensures var r := ScanDrivers(o, css, w);
      r.connects == w.connects + css[..k + 1] && r.connection == Some(Connection(|w.connects| + k, css[k]))
    decreases k
  {
    var w1 := w.(connects := w.connects + [css[0]]);
    if k > 0 {
      assert o.connectReply(|w.connects|).Refused?;
      assert ScanDrivers(o, css, w) == ScanDrivers(o, css[1..], w1);
      ScanDriversGranted(o, css[1..], w1, k - 1);
      assert css[..k + 1] == [css[0]] + css[1..][..k];
      assert w1.connects + css[1..][..k] == w.connects + css[..k + 1];
    } else {
      assert css[..1] == [css[0]];
    }
  }

  lemma {:induction false} ScanDriversExhausted(o: Oracle, css: seq<string>, w: Link)
    requires FirstGranted(o.connectReply, |w.connects|, |css|) == |css|
    ensures var r := ScanDrivers(o, css, w);
      r.connects == w.connects + css && r.connection == w.connection
    decreases |css|
  {
    if |css| > 0 {
      var w1 := w.(connects := w.connects + [css[0]]);
      assert o.connectReply(|w.connects|).Refused?;
      assert ScanDrivers(o, css, w) == ScanDrivers(o, css[1..], w1);
      ScanDriversExhausted(o, css[1..], w1);
      assert css == [css[0]] + css[1..];
    }
  }

  /** `connect` raises exactly when no connection was held and every driver was refused; it then
      raises the ValueError naming all four drivers. Otherwise the drivers up to the first granted
      one were tried, in order, and its connection is held. */
  lemma {:induction false} ConnectOutcome(o: Oracle, css: seq<string>, w: Link)
    ensures var k := FirstGranted(o.connectReply, |w.connects|, |css|);
      var (r, res) := ConnectSpec(o, css, w);
      && (res.Err? <==> k == |css| && w.connection.None?)
      && (res.Err? ==> res.error == ValueError(NoDriverMessage))
      && (k < |css| ==> (r.connects == w.connects + css[..k + 1]
                      && r.connection == Some(Connection(|w.connects| + k, css[k]))))
      && (k == |css| ==> r.connects == w.connects + css && r.connection == w.connection)
  {
    ScanDriversResult(o, css, w);
  }

  /** When every driver is refused, a connection held before keeps being held and nothing is
      raised; so the reconnect in `cursor` can never raise. */
  lemma {:induction false} ReconnectNeverRaises(o: Oracle, css: seq<string>, w: Link)
    requires w.connection.Some?
    ensures ConnectSpec(o, css, w).1 == Ok(Unit)
    ensures FirstGranted(o.connectReply, |w.connects|, |css|) == |css| ==> ConnectSpec(o, css, w).0.connection == w.connection
  {
    ScanDriversResult(o, css, w);
  }

  /** The error message lists every driver that was tried. */
  lemma {:induction false} NoDriverMessageNamesDrivers()
    ensures forall k :: 0 <= k < |Drivers| ==> Text.Contains(NoDriverMessage, Drivers[k])
  {
    var head := "Could not connect to MSSQL server with any available driver. Tried: ";
    forall k | 0 <= k < |Drivers|
      ensures Text.Contains(NoDriverMessage, Drivers[k])
    {
      Text.JoinHasPart(Drivers, k, ", ");
      Text.ContainsPrepend(head, Text.JoinWith(Drivers, ", "), Drivers[k]);
    }
  }

  // ---------------------------------------------------------------- cursor

  function CursorAnswer(o: Oracle, k: nat, c: Connection): Result<CursorHandle, DbError> {
    match o.cursorReply(k)
    case Granted => Ok(CursorHandle(k, c))
    case Refused(code) => Err(DriverError(code))
  }

  /** One cursor request on the held connection. */
  function CursorCall(o: Oracle, w: Link): (Link, Result<CursorHandle, DbError>)
    requires w.connection.Some?
  {
    (w.(cursors := w.cursors + 1), CursorAnswer(o, w.cursors, w.connection.value))
  }

  /** The `try` of `cursor`: a request, and after a failure a reconnect and a second request
      whose failure is not caught. */
  function RetriedCursor(o: Oracle, css: seq<string>, w: Link): (Link, Result<CursorHandle, DbError>)
    requires w.connection.Some?
  {
    var (w1, c) := CursorCall(o, w);
    if c.Ok? then (w1, c)
    else
      var (w2, _) := ConnectSpec(o, css, w1);
      CursorCall(o, w2)
  }

  /** `cursor`: connect first when no connection is held, then the retried request. */
  function CursorSpec(o: Oracle, css: seq<string>, w: Link): (Link, Result<CursorHandle, DbError>) {
    if w.connection.None? then
      var (w1, r) := ConnectSpec(o, css, w);
      if r.Err? then (w1, Err(r.error)) else RetriedCursor(o, css, w1)
    else RetriedCursor(o, css, w)
  }

  /** `cursor` connects only when it must: with a connection held and the request granted, no
      connect is made and the cursor is on the held connection. */
  lemma {:induction false} CursorLazy(o: Oracle, css: seq<string>, w: Link)
    requires w.connection.Some? && o.cursorReply(w.cursors).Granted?
    ensures CursorSpec(o, css, w) == (w.(cursors := w.cursors + 1), Ok(CursorHandle(w.cursors, w.connection.value)))
  {
  }

  /** `cursor` asks for at most two cursors; a cursor it returns is on the connection held
      afterwards; it fails only when the first connect raised, or when two requests were refused
      around one reconnect, and then with the second request's error. */
  lemma {:induction false} CursorOutcome(o: Oracle, css: seq<string>, w: Link)
    ensures var (r, c) := CursorSpec(o, css, w);
      && r.executes == w.executes
      && w.cursors <= r.cursors <= w.cursors + 2
      && |w.connects| <= |r.connects| <= |w.connects| + 2 * |css| && r.connects[..|w.connects|] == w.connects
      && (c.Ok? ==> (r.connection == Some(c.value.connection) && c.value.serial == r.cursors - 1
                  && o.cursorReply(c.value.serial).Granted?))
      && (c.Err? ==>
            (w.connection.None? && r.cursors == w.cursors && c.error == ValueError(NoDriverMessage))
            || (r.cursors == w.cursors + 2 && o.cursorReply(w.cursors).Refused?
                && c.error == DriverError(o.cursorReply(w.cursors + 1).code)))
  {
    if w.connection.None? {
      var (w1, res) := ConnectSpec(o, css, w);
      assert w1.cursors == w.cursors && w1.executes == w.executes;
      if res.Ok? {
        RetriedCursorOutcome(o, css, w1);
      }
    } else {
      RetriedCursorOutcome(o, css, w);
    }
  }

  /** The retried request on a held connection: one request and no connect when it is granted;
      otherwise exactly one reconnect, one pass over the drivers that keeps a connection held,
      and a second request. */
  lemma {:induction false} RetriedCursorOutcome(o: Oracle, css: seq<string>, w: Link)
    requires w.connection.Some?
    ensures var (r, c) := RetriedCursor(o, css, w);
      && r.executes == w.executes
      && w.cursors < r.cursors <= w.cursors + 2
      && |w.connects| <= |r.connects| <= |w.connects| + |css| && r.connects[..|w.connects|] == w.connects
      && (o.cursorReply(w.cursors).Granted? ==> r.connects == w.connects && r.connection == w.connection)
      && (o.cursorReply(w.cursors).Refused? ==>
            r.connects == ScanDrivers(o, css, w.(cursors := w.cursors + 1)).connects
            && (|css| > 0 ==> |w.connects| < |r.connects|))
      && (c.Ok? ==> (r.connection == Some(c.value.connection) && c.value.serial == r.cursors - 1
                  && o.cursorReply(c.value.serial).Granted?))
      && (c.Err? ==> (r.cursors == w.cursors + 2 && o.cursorReply(w.cursors).Refused?
                    && c.error == DriverError(o.cursorReply(w.cursors + 1).code)))
  {
    var (w1, c) := CursorCall(o, w);
    if c.Err? {
      var w2 := ConnectSpec(o, css, w1).0;
      assert w2.cursors == w.cursors + 1 && w2.executes == w.executes && w2.connection.Some?;
      assert RetriedCursor(o, css, w) == CursorCall(o, w2);
    }
  }

  // ---------------------------------------------------------------- execute

  function ExecuteAnswer(o: Oracle, k: nat, cur: CursorHandle): Result<CursorHandle, DbError> {
    match o.executeReply(k)
    case Granted => Ok(cur)
    case Refused(code) => Err(DriverError(code))
  }

  /** One statement on a cursor. */
  function ExecuteCall(o: Oracle, cur: CursorHandle, st: Statement, w: Link): (Link, Result<CursorHandle, DbError>) {
    (w.(executes := w.executes + [st]), ExecuteAnswer(o, |w.executes|, cur))
  }

  /** One pass of the `try` in `execute`: a cursor, then the statement on it. */
  function AttemptSpec(o: Oracle, css: seq<string>, st: Statement, w: Link): (Link, Result<CursorHandle, DbError>) {
    var (w1, c) := CursorSpec(o, css, w);
    if c.Err? then (w1, c) else ExecuteCall(o, c.value, st, w1)
  }

  /** The retry loop of `execute` with `sanity` passes left: a successful pass ends it, the
      failure of the last allowed pass is raised, any other failure costs one pass. */
  function ExecuteLoop(o: Oracle, css: seq<string>, st: Statement, w: Link, sanity: nat): (Link, Result<CursorHandle, DbError>)
    requires sanity >= 1
    decreases sanity
  {
    var (w1, r) := AttemptSpec(o, css, st, w);
    if r.Ok? || sanity == 1 then (w1, r) else ExecuteLoop(o, css, st, w1, sanity - 1)
  }

  const Sanity: nat := 3

  /** `execute` is at most three passes: the first that succeeds gives the cursor, and when all
      three fail the third pass's error is raised. */
  lemma {:induction false} ExecuteIsThreeAttempts(o: Oracle, css: seq<string>, st: Statement, w: Link)
    ensures ExecuteLoop(o, css, st, w, Sanity) ==
      var a1 := AttemptSpec(o, css, st, w);
      if a1.1.Ok? then a1
      else
        var a2 := AttemptSpec(o, css, st, a1.0);
        if a2.1.Ok? then a2 else AttemptSpec(o, css, st, a2.0)
  {
  }

  /** The log `after` is the log `before` followed by at most n copies of the statement st. */
  ghost predicate SentAtMost(before: seq<Statement>, after: seq<Statement>, st: Statement, n: nat) {
    && |before| <= |after| <= |before| + n
    && after[..|before|] == before
    && (forall i :: |before| <= i < |after| ==> after[i] == st)
  }

  lemma {:induction false} SentAtMostChain(a: seq<Statement>, b: seq<Statement>, c: seq<Statement>, st: Statement, m: nat, n: nat)
    requires SentAtMost(a, b, st, m) && SentAtMost(b, c, st, n)
    ensures SentAtMost(a, c, st, m + n)
  {
    assert c[..|a|] == c[..|b|][..|a|];
    forall i | |a| <= i < |b|
      ensures c[i] == st
    {
      assert c[i] == c[..|b|][i] == b[i];
    }
  }

  /** A pass sends the statement at most once, and only this statement. */
  lemma {:induction false} AttemptSends(o: Oracle, css: seq<string>, st: Statement, w: Link)
    ensures var (r, x) := AttemptSpec(o, css, st, w);
      && SentAtMost(w.executes, r.executes, st, 1)
      && (x.Ok? ==> r.executes == w.executes + [st] && o.executeReply(|w.executes|).Granted?)
  {
    CursorOutcome(o, css, w);
    var r := AttemptSpec(o, css, st, w).0;
    assert r.executes[..|w.executes|] == w.executes;
  }

  /** With n passes allowed, the statement is sent at most n times and nothing else is sent; a
      returned cursor is the one whose statement the driver granted last. */
  lemma {:induction false} ExecuteBounds(o: Oracle, css: seq<string>, st: Statement, w: Link, sanity: nat)
    requires sanity >= 1
    ensures var (r, x) := ExecuteLoop(o, css, st, w, sanity);
      && SentAtMost(w.executes, r.executes, st, sanity)
      && (x.Ok? ==> |r.executes| > |w.executes| && o.executeReply(|r.executes| - 1).Granted?)
    decreases sanity
  {
    AttemptSends(o, css, st, w);
    var (w1, x1) := AttemptSpec(o, css, st, w);
    if !(x1.Ok? || sanity == 1) {
      assert ExecuteLoop(o, css, st, w, sanity) == ExecuteLoop(o, css, st, w1, sanity - 1);
      ExecuteBounds(o, css, st, w1, sanity - 1);
      SentAtMostChain(w.executes, w1.executes, ExecuteLoop(o, css, st, w1, sanity - 1).0.executes, st, 1, sanity - 1);
    } else {
      assert ExecuteLoop(o, css, st, w, sanity) == (w1, x1);
    }
  }

  // ---------------------------------------------------------------- the objects

  /** The ODBC driver: it answers as its oracle says and records every call. */
  class Odbc {
    const oracle: Oracle
    var connects: seq<string>
    var cursors: nat
    var executes: seq<Statement>

    constructor (oracle: Oracle)
      ensures this.oracle == oracle && connects == [] && cursors == 0 && executes == []
    {
      this.oracle := oracle;
      connects := [];
      cursors := 0;
      executes := [];
    }

    /** `pyodbc.connect(connection_string, autocommit=True)`. */
    method Connect(cs: string) returns (r: Result<Connection, DbError>)
      modifies this
      ensures connects == old(connects) + [cs] && cursors == old(cursors) && executes == old(executes)
      ensures r == ConnectAnswer(oracle, |old(connects)|, cs)
    {
      r := ConnectAnswer(oracle, |connects|, cs);
      connects := connects + [cs];
    }

    /** `connection.cursor()`. */
    method OpenCursor(c: Connection) returns (r: Result<CursorHandle, DbError>)
      modifies this
      ensures connects == old(connects) && cursors == old(cursors) + 1 && executes == old(executes)
      ensures r == CursorAnswer(oracle, old(cursors), c)
    {
      r := CursorAnswer(oracle, cursors, c);
      cursors := cursors + 1;
    }

    /** `cursor.execute(query, params)`. */
    method Execute(cur: CursorHandle, st: Statement) returns (r: Result<CursorHandle, DbError>)
      modifies this
      ensures connects == old(connects) && cursors == old(cursors) && executes == old(executes) + [st]
      ensures r == ExecuteAnswer(oracle, |old(executes)|, cur)
    {
      r := ExecuteAnswer(oracle, |executes|, cur);
      executes := executes + [st];
    }
  }

  class MssqlDatabase {
    const host: string
    const port: Port
    const user: string
    const password: string
    const database: string
    const odbc: Odbc
    var connection: Option<Connection>
    /** The connection strings `connect` tries, one per driver in order; they depend only on the
        constant fields. */
    ghost const candidates: seq<string>

    function Tgt(): Target {
      Target(host, port, database, user, password)
    }

    /** The candidate connection strings are those of the constant fields. */
    ghost predicate Valid() {
      candidates == Attempted(Drivers, Tgt())
    }

    /** The held connection and the driver's record. */
    function Snap(): Link
      reads this, odbc
    {
      Link(connection, odbc.connects, odbc.cursors, odbc.executes)
    }

    constructor Init(host: string, port: Port, user: string, password: string, database: string, odbc: Odbc)
      ensures this.host == host && this.port == port && this.user == user
      ensures this.password == password && this.database == database
      ensures this.odbc == odbc && connection.None?
      ensures Valid()
    {
      this.host := host;
      this.port := port;
      this.user := user;
      this.password := password;
      this.database := database;
      this.odbc := odbc;
      connection := None;
      candidates := Attempted(Drivers, Target(host, port, database, user, password));
    }

    /** `MSSQLDatabase(host, user, password, database)`: no connection yet, and the host split
        into host and port, which raises for a host with two or more colons. */
    static method Open(host: string, user: string, password: string, database: string, odbc: Odbc)
      returns (r: Result<MssqlDatabase, DbError>)
      ensures HostPort(host).Err? ==> r == Err(HostPort(host).error)
      ensures HostPort(host).Ok? ==> (
        && r.Ok? && fresh(r.value) && r.value.odbc == odbc && r.value.connection.None?
        && (r.value.host, r.value.port) == HostPort(host).value
        && r.value.user == user && r.value.password == password && r.value.database == database
        && r.value.Valid())
    {
      var hp := HostPort(host);
      if hp.Err? {
        return Err(hp.error);
      }
      var db := new MssqlDatabase.Init(hp.value.0, hp.value.1, user, password, database, odbc);
      r := Ok(db);
    }

    /** `connect`: the drivers in order until one connects. */
    method Connect() returns (r: Result<Unit, DbError>)
      requires Valid()
      modifies this, odbc
      ensures (Snap(), r) == ConnectSpec(odbc.oracle, candidates, old(Snap()))
    {
      var i := 0;
      while i < |Drivers|
        invariant 0 <= i <= |Drivers|
        invariant ScanDrivers(odbc.oracle, candidates[i..], Snap()) == ScanDrivers(odbc.oracle, candidates, old(Snap()))
        decreases |Drivers| - i
      {
        ghost var before := Snap();
        var c := odbc.Connect(ConnectionString(Drivers[i], Tgt()));
        assert candidates[i] == ConnectionString(Drivers[i], Tgt());
        if c.Ok? {
          connection := Some(c.value);
          assert Snap() == ScanDrivers(odbc.oracle, candidates[i..], before);
          break;
        }
        assert candidates[i..][1..] == candidates[i + 1..];
        i := i + 1;
      }
      if connection.None? {
        return Err(ValueError(NoDriverMessage));
      }
      r := Ok(Unit);
    }

    /** `cursor`: a cursor on the held connection, connecting first when there is none and
        reconnecting once when the first request fails. */
    method Cursor() returns (r: Result<CursorHandle, DbError>)
      requires Valid()
      modifies this, odbc
      ensures (Snap(), r) == CursorSpec(odbc.oracle, candidates, old(Snap()))
    {
      if connection.None? {
        var c := Connect();
        if c.Err? {
          return Err(c.error);
        }
      }
      ghost var before := Snap();
      r := odbc.OpenCursor(connection.value);
      assert (Snap(), r) == CursorCall(odbc.oracle, before);
      if r.Err? {
        ghost var failed := Snap();
        var again := Connect();
        ReconnectNeverRaises(odbc.oracle, candidates, failed);
        ghost var reconnected := Snap();
        assert reconnected == ConnectSpec(odbc.oracle, candidates, failed).0 && connection.Some?;
        r := odbc.OpenCursor(connection.value);
        assert (Snap(), r) == CursorCall(odbc.oracle, reconnected);
      }
    }

    /** `execute`: up to three passes of cursor and statement; the cursor of the first pass that
        succeeds, or the error of the third failed pass. */
    method Execute(query: string, params: Option<seq<string>>) returns (r: Result<CursorHandle, DbError>)
      requires Valid()
      modifies this, odbc
      ensures (Snap(), r) == ExecuteLoop(odbc.oracle, candidates, Statement(query, params), old(Snap()), Sanity)
    {
      var st := Statement(query, params);
      var sanity: nat := Sanity;
      while true
        invariant 1 <= sanity <= Sanity
        invariant ExecuteLoop(odbc.oracle, candidates, st, Snap(), sanity) == ExecuteLoop(odbc.oracle, candidates, st, old(Snap()), Sanity)
        decreases sanity
      {
        ghost var before := Snap();
        var e: DbError;
        var c := Cursor();
        if c.Ok? {
          ghost var ready := Snap();
          var x := odbc.Execute(c.value, st);
          assert (Snap(), x) == ExecuteCall(odbc.oracle, c.value, st, ready);
          assert (Snap(), x) == AttemptSpec(odbc.oracle, candidates, st, before);
          if x.Ok? {
            assert ExecuteLoop(odbc.oracle, candidates, st, before, sanity) == (Snap(), Ok(c.value));
            return Ok(c.value);
          }
          e := x.error;
        } else {
          e := c.error;
        }
        assert (Snap(), Err(e)) == AttemptSpec(odbc.oracle, candidates, st, before);
        sanity := sanity - 1;
        if sanity == 0 {
          return Err(e);
        }
      }
    }
  }

  // ---------------------------------------------------------------- get_db_for_action

  /** A configuration or `sql_params` mapping; an absent key reads as None. */
  type Settings = map<string, string>

  /** The four settings `get_db_for_action` reads. */
  datatype Credentials = Credentials(host: string, user: string, password: string, database: string)

  /** The mapping the settings are read from: `sql_params` when it is a non-empty mapping, the
      action's configuration otherwise. */
  function SettingsSource(actionConfig: Settings, sqlParams: Option<Settings>): (s: Settings)
    ensures sqlParams.Some? && |sqlParams.value| > 0 ==> s == sqlParams.value
    ensures sqlParams.None? || |sqlParams.value| == 0 ==> s == actionConfig
  {
    if sqlParams.Some? && |sqlParams.value| > 0 then sqlParams.value else actionConfig
  }

  predicate Present(s: Settings, key: string) {
    key in s && |s[key]| > 0
  }

  /** The credentials when host, user, password and database are all present and non-empty. */
  function ResolveCredentials(actionConfig: Settings, sqlParams: Option<Settings>): (c: Option<Credentials>)
    ensures var s := SettingsSource(actionConfig, sqlParams);
      && (c.Some? <==> Present(s, "sql_host") && Present(s, "sql_user")
                       && Present(s, "sql_password") && Present(s, "sql_database"))
      && (c.Some? ==> c.value == Credentials(s["sql_host"], s["sql_user"], s["sql_password"], s["sql_database"]))
  {
    var s := SettingsSource(actionConfig, sqlParams);
    if Present(s, "sql_host") && Present(s, "sql_user") && Present(s, "sql_password") && Present(s, "sql_database")
    then Some(Credentials(s["sql_host"], s["sql_user"], s["sql_password"], s["sql_database"]))
    else None
  }

  /** A non-empty `sql_params` wins over the action configuration even when it lacks a setting
      the configuration has. */
  lemma {:induction false} SqlParamsTakePrecedence(actionConfig: Settings, sqlParams: Settings)
    requires |sqlParams| > 0 && !Present(sqlParams, "sql_host")
    ensures ResolveCredentials(actionConfig, Some(sqlParams)).None?
  {
  }

  function NotConfiguredMessage(actionName: string): string {
    "SQL database expected but not configured on " + actionName
  }

  /** `get_db_for_action`: a database for the resolved credentials, or the ValueError naming the
      action's class when any of the four is missing or empty. */
  method GetDbForAction(actionName: string, actionConfig: Settings, sqlParams: Option<Settings>, odbc: Odbc)
    returns (r: Result<MssqlDatabase, DbError>)
    ensures var c := ResolveCredentials(actionConfig, sqlParams);
      && (c.None? ==> r == Err(ValueError(NotConfiguredMessage(actionName))))
      && (c.Some? && HostPort(c.value.host).Err? ==> r == Err(HostPort(c.value.host).error))
      && (c.Some? && HostPort(c.value.host).Ok? ==>
            r.Ok? && fresh(r.value) && r.value.connection.None? && r.value.odbc == odbc
            && (r.value.host, r.value.port) == HostPort(c.value.host).value
            && r.value.user == c.value.user && r.value.password == c.value.password
            && r.value.database == c.value.database && r.value.Valid())
  {
    var c := ResolveCredentials(actionConfig, sqlParams);
    if c.None? {
      return Err(ValueError(NotConfiguredMessage(actionName)));
    }
    r := MssqlDatabase.Open(c.value.host, c.value.user, c.value.password, c.value.database, odbc);
  }
}
