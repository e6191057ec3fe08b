/** The SQL database service of the SQL-database agent: the per-dialect sampling query, the
    column-statistics query, the primary-key fallback and the per-backend engine configuration.
    The engine itself is an oracle: `Executor` maps the SQL text it is given to the rows it
    yields or the error it raises. */
module DatabaseService {
  import opened Wrappers
  import Text

  datatype SqlValue = SqlNull | SqlInt(i: int) | SqlText(s: string) | SqlBool(b: bool)

  /** One result row, keyed by column label (`result.mappings()`). */
  type Row = map<string, SqlValue>

  datatype ServiceError =
    | QueryError(message: string)   // raised by the engine (SQLAlchemyError), re-raised as is
    | KeyError(key: string)         // `row[column]` on a row without that column

  /** The engine: the rows a statement yields, or the error it raises. */
  type Executor = string -> Result<seq<Row>, ServiceError>

  const DefaultSampleLimit: int := 3
  const DefaultQueryTimeout: int := 30
  const PoolRecycleSeconds: int := 1800

  // ---------------------------------------------------------------- engines

  /** The four concrete subclasses of the service. */
  datatype ServiceKind = MySQLService | PostgresService | SQLiteService | MSSQLService

  /** The connection parameters handed to the service; an absent key reads as None. */
  type ConnectionParams = map<string, string>

  /** A URL's driver name: the dialect and, after a `+`, the DBAPI driver. */
  datatype DriverName = DriverName(dialect: string, dbapi: Option<string>)

  /** The driver name as written in the URL. */
  function DriverText(d: DriverName): string {
    match d.dbapi
    case None => d.dialect
    case Some(api) => d.dialect + "+" + api
  }

  datatype ConnectionUrl = ConnectionUrl(
    drivername: DriverName,
    username: Option<string>,
    password: Option<string>,
    host: Option<string>,
    port: Option<string>,
    database: Option<string>,
    query: map<string, string>)

  datatype PoolConfig = PoolConfig(
    poolSize: int,
    maxOverflow: Option<int>,   // None: the argument is not passed
    poolTimeout: Option<int>,   // None: the argument is not passed
    poolRecycle: int,
    poolPrePing: bool)

  /** The arguments of `sa.create_engine`. */
  datatype EngineSpec = EngineSpec(url: ConnectionUrl, pool: PoolConfig, connectArgs: map<string, int>)

  /** A service: its parameters and the engine built once by its constructor. */
  datatype Service = Service(connectionParams: ConnectionParams, queryTimeout: int, engine: EngineSpec)

  function Param(params: ConnectionParams, key: string): Option<string> {
    if key in params then Some(params[key]) else None
  }

  /** `_create_engine` of each subclass. */
  function CreateEngine(kind: ServiceKind, params: ConnectionParams, queryTimeout: int): EngineSpec {
    var networked := PoolConfig(5, Some(10), Some(30), PoolRecycleSeconds, true);
    match kind
    case MySQLService =>
      EngineSpec(ServerUrl(DriverName("mysql", Some("mysqlconnector")), params, map[]), networked,
                 map["connect_timeout" := queryTimeout])
    case PostgresService =>
      EngineSpec(ServerUrl(DriverName("postgresql", Some("psycopg2")), params, map[]), networked,
                 map["connect_timeout" := queryTimeout])
    case SQLiteService =>
      EngineSpec(ConnectionUrl(DriverName("sqlite", None), None, None, None, None, Param(params, "database"), map[]),
                 PoolConfig(1, None, None, PoolRecycleSeconds, true),
                 map["timeout" := queryTimeout])
    case MSSQLService =>
      EngineSpec(ServerUrl(DriverName("mssql", Some("pyodbc")), params,
                           map["driver" := "ODBC Driver 17 for SQL Server", "TrustServerCertificate" := "yes"]),
                 networked, map["timeout" := queryTimeout])
  }

  function ServerUrl(drivername: DriverName, params: ConnectionParams, query: map<string, string>): ConnectionUrl {
    ConnectionUrl(drivername, Param(params, "user"), Param(params, "password"), Param(params, "host"),
                  Param(params, "port"), Param(params, "database"), query)
  }

  /** SQLAlchemy's `engine.name`: the dialect, the part of the driver name before `+`. */
  function EngineName(e: EngineSpec): string {
    Text.Split(DriverText(e.url.drivername), '+')[0]
  }

  /** A driver name whose dialect holds no `+` reports that dialect as the engine name. */
  lemma DialectBeforePlus(d: DriverName)
    requires '+' !in d.dialect
    ensures Text.Split(DriverText(d), '+')[0] == d.dialect
  {
    match d.dbapi
    case None => Text.SplitNoSep(d.dialect, '+');
    case Some(api) => Text.SplitAt(d.dialect, '+', api);
  }

  /** The constructor: the engine is created once, from the parameters and the timeout. */
  function NewService(kind: ServiceKind, params: ConnectionParams, queryTimeout: int := DefaultQueryTimeout): (s: Service)
    ensures s.connectionParams == params && s.queryTimeout == queryTimeout
    ensures EngineName(s.engine) == DialectOf(kind)
  {
    EngineNameOfKind(kind, params, queryTimeout);
    Service(params, queryTimeout, CreateEngine(kind, params, queryTimeout))
  }

  /** The dialect name each subclass's driver belongs to. */
  function DialectOf(kind: ServiceKind): string {
    match kind
    case MySQLService => "mysql"
    case PostgresService => "postgresql"
    case SQLiteService => "sqlite"
    case MSSQLService => "mssql"
  }

  /** Every subclass's engine reports the dialect name its driver belongs to. */
  lemma EngineNameOfKind(kind: ServiceKind, params: ConnectionParams, queryTimeout: int)
    ensures EngineName(CreateEngine(kind, params, queryTimeout)) == DialectOf(kind)
  {
    var d := CreateEngine(kind, params, queryTimeout).url.drivername;
    assert d.dialect == DialectOf(kind);
    DialectBeforePlus(d);
  }

  /** The pool table: one connection for SQLite; 5 base, 10 overflow and a 30 s wait for the
      networked backends; every backend recycles after 1800 s and pings before reuse, and the
      service's query timeout is the driver's connect timeout. */
  lemma PoolConfiguration(kind: ServiceKind, params: ConnectionParams, queryTimeout: int)
    ensures var e := CreateEngine(kind, params, queryTimeout);
      && e.pool.poolRecycle == 1800 && e.pool.poolPrePing
      && (kind == SQLiteService ==> e.pool == PoolConfig(1, None, None, 1800, true))
      && (kind != SQLiteService ==>
            e.pool.poolSize == 5 && e.pool.maxOverflow == Some(10) && e.pool.poolTimeout == Some(30))
      && e.connectArgs == map[(if kind in {SQLiteService, MSSQLService} then "timeout" else "connect_timeout") := queryTimeout]
  {
  }

  /** SQLite is reached through a file: its URL carries only the database; the server backends
      carry user, password, host, port and database from the parameters. */
  lemma ConnectionUrls(kind: ServiceKind, params: ConnectionParams, queryTimeout: int)
    ensures var u := CreateEngine(kind, params, queryTimeout).url;
      && u.database == Param(params, "database")
      && (kind == SQLiteService ==> u.username.None? && u.password.None? && u.host.None? && u.port.None?)
      && (kind != SQLiteService ==>
            u.username == Param(params, "user") && u.password == Param(params, "password")
            && u.host == Param(params, "host") && u.port == Param(params, "port"))
      && (kind == MSSQLService <==> "driver" in u.query)
  {
  }

  // ---------------------------------------------------------------- queries

  /** FROM table WHERE column IS NOT NULL: the filter every sampling and statistics query ends its
      selection with. */
  function NotNullClause(table: string, column: string): string {
    " FROM " + table + " WHERE " + column + " IS NOT NULL"
  }

  /** The query `get_unique_values` sends, chosen on the engine's dialect name. */
  function SampleQuery(engineName: string, table: string, column: string, limit: int): string {
    SampleText(engineName, table, column, Text.IntToDecimal(limit))
  }

  /** The trailing row bound of every dialect but SQL Server's. */
  function LimitClause(n: string): string {
    " LIMIT " + n
  }

  /** The f-strings of `get_unique_values`, with the limit already rendered as the text n. */
  function SampleText(engineName: string, table: string, column: string, n: string): string {
    if engineName == "mysql" then
      "SELECT DISTINCT " + column + NotNullClause(table, column) + " ORDER BY RAND()" + LimitClause(n)
    else if engineName == "postgresql" then
      "SELECT DISTINCT ON (" + column + ") " + column + NotNullClause(table, column)
        + (" ORDER BY " + column + ", RANDOM()") + LimitClause(n)
    else if engineName == "mssql" then
      "SELECT DISTINCT TOP " + n + " " + column + NotNullClause(table, column) + " ORDER BY NEWID()"
    else
      "SELECT DISTINCT " + column + NotNullClause(table, column) + " ORDER BY RANDOM()" + LimitClause(n)
  }

  /** SQL Server: `TOP n` right after `SELECT DISTINCT`, random order by `NEWID()`, and no
      `LIMIT` anywhere unless the table or column name itself spells it. */
  lemma MssqlSampleQuery(table: string, column: string, limit: int)
    ensures var q := SampleQuery("mssql", table, column, limit);
      && Text.StartsWith(q, "SELECT DISTINCT TOP " + Text.IntToDecimal(limit) + " ")
      && Text.EndsWith(q, " ORDER BY NEWID()")
      && (!Text.Contains(table, "LIMIT") && !Text.Contains(column, "LIMIT") ==> !Text.Contains(q, "LIMIT"))
  {
    var n := Text.IntToDecimal(limit);
    MssqlSampleText(table, column, n);
    if !Text.Contains(table, "LIMIT") && !Text.Contains(column, "LIMIT") {
      Text.DecimalChars(limit, 'L');
      NoLimitIn(n);
      MssqlSampleHasNoLimit(table, column, n);
    }
  }

  lemma MssqlSampleText(table: string, column: string, n: string)
    ensures var q := SampleText("mssql", table, column, n);
      && Text.StartsWith(q, "SELECT DISTINCT TOP " + n + " ")
      && Text.EndsWith(q, " ORDER BY NEWID()")
  {
    var head := "SELECT DISTINCT TOP " + n + " ";
    Text.PrefixOfConcat(head, column);
    Text.PrefixExtend(head + column, head, NotNullClause(table, column));
    Text.PrefixExtend(head + column + NotNullClause(table, column), head, " ORDER BY NEWID()");
    Text.SuffixOfConcat(head + column + NotNullClause(table, column), " ORDER BY NEWID()");
  }

  lemma MssqlSampleHasNoLimit(table: string, column: string, n: string)
    requires !Text.Contains(table, "LIMIT") && !Text.Contains(column, "LIMIT") && !Text.Contains(n, "LIMIT")
    ensures !Text.Contains(SampleText("mssql", table, column, n), "LIMIT")
  {
    var w := "LIMIT";
    NoLimitIn("SELECT DISTINCT TOP ");
    NoLimitIn(" ");
    NoLimitIn(" ORDER BY NEWID()");
    var a1 := "SELECT DISTINCT TOP " + n;
    Text.ConcatAtSep("SELECT DISTINCT TOP ", n, ' ', w);
    Text.ConcatAtSep(a1, " ", ' ', w);
    Text.ConcatAtSep(a1 + " ", column, ' ', w);
    NotNullClauseHasNoLimit(table, column);
    assert NotNullClause(table, column)[0] == ' ';
    Text.ConcatAtSep(a1 + " " + column, NotNullClause(table, column), ' ', w);
    Text.ConcatAtSep(a1 + " " + column + NotNullClause(table, column), " ORDER BY NEWID()", ' ', w);
  }

  lemma NotNullClauseHasNoLimit(table: string, column: string)
    requires !Text.Contains(table, "LIMIT") && !Text.Contains(column, "LIMIT")
    ensures !Text.Contains(NotNullClause(table, column), "LIMIT")
  {
    var w := "LIMIT";
    NoLimitIn(" FROM ");
    NoLimitIn(" WHERE ");
    NoLimitIn(" IS NOT NULL");
    Text.ConcatAtSep(" FROM ", table, ' ', w);
    Text.ConcatAtSep(" FROM " + table, " WHERE ", ' ', w);
    Text.ConcatAtSep(" FROM " + table + " WHERE ", column, ' ', w);
    Text.ConcatAtSep(" FROM " + table + " WHERE " + column, " IS NOT NULL", ' ', w);
  }

  /** No `L` followed by `I` starts a window of five characters, so no `LIMIT` either. */
  lemma NoLimitIn(s: string)
    requires forall i | 0 <= i <= |s| - 5 :: s[i] != 'L' || s[i + 1] != 'I'
    ensures !Text.Contains(s, "LIMIT")
  {
    forall i | 0 <= i <= |s| - 5
      ensures !Text.OccursAt(s, "LIMIT", i)
    {
      assert s[i..i + 5][0] == s[i] && s[i..i + 5][1] == s[i + 1];
    }
  }

  /** MySQL: random order by `RAND()` and the row bound as a trailing `LIMIT n`. */
  lemma MysqlSampleQuery(table: string, column: string, limit: int)
    ensures var q := SampleQuery("mysql", table, column, limit);
      && Text.StartsWith(q, "SELECT DISTINCT " + column)
      && Text.EndsWith(q, " ORDER BY RAND()" + LimitClause(Text.IntToDecimal(limit)))
  {
    PlainSampleText("mysql", " ORDER BY RAND()", table, column, Text.IntToDecimal(limit));
  }

  /** Any other dialect name (SQLite's among them) gets `ORDER BY RANDOM() LIMIT n`, so the
      choice is total over engine names. */
  lemma FallbackSampleQuery(engineName: string, table: string, column: string, limit: int)
    requires engineName != "mysql" && engineName != "postgresql" && engineName != "mssql"
    ensures var q := SampleQuery(engineName, table, column, limit);
      && Text.StartsWith(q, "SELECT DISTINCT " + column)
      && Text.EndsWith(q, " ORDER BY RANDOM()" + LimitClause(Text.IntToDecimal(limit)))
  {
    PlainSampleText(engineName, " ORDER BY RANDOM()", table, column, Text.IntToDecimal(limit));
  }

  /** The MySQL query and the fallback differ only in the random-order clause. */
  lemma PlainSampleText(engineName: string, order: string, table: string, column: string, n: string)
    requires engineName == "mysql" ==> order == " ORDER BY RAND()"
    requires engineName != "mysql" ==> order == " ORDER BY RANDOM()"
    requires engineName != "postgresql" && engineName != "mssql"
    ensures var q := SampleText(engineName, table, column, n);
      && Text.StartsWith(q, "SELECT DISTINCT " + column)
      && Text.EndsWith(q, order + LimitClause(n))
  {
    var head := "SELECT DISTINCT " + column;
    var body := head + NotNullClause(table, column);
    assert SampleText(engineName, table, column, n) == body + order + LimitClause(n);
    Text.PrefixOfConcat(head, NotNullClause(table, column));
    Text.PrefixExtend(body, head, order);
    Text.PrefixExtend(body + order, head, LimitClause(n));
    assert body + order + LimitClause(n) == body + (order + LimitClause(n));
    Text.SuffixOfConcat(body, order + LimitClause(n));
  }

  /** PostgreSQL: `DISTINCT ON (column)`, ordered by the column and then `RANDOM()`, bounded by
      a trailing `LIMIT n`. */
  lemma PostgresSampleQuery(table: string, column: string, limit: int)
    ensures var q := SampleQuery("postgresql", table, column, limit);
      && Text.StartsWith(q, "SELECT DISTINCT ON (" + column + ") ")
      && Text.EndsWith(q, " ORDER BY " + column + ", RANDOM()" + LimitClause(Text.IntToDecimal(limit)))
  {
    PostgresSampleText(table, column, Text.IntToDecimal(limit));
  }

  lemma PostgresSampleText(table: string, column: string, n: string)
    ensures var q := SampleText("postgresql", table, column, n);
      && Text.StartsWith(q, "SELECT DISTINCT ON (" + column + ") ")
      && Text.EndsWith(q, " ORDER BY " + column + ", RANDOM()" + LimitClause(n))
  {
    var head := "SELECT DISTINCT ON (" + column + ") ";
    var order := " ORDER BY " + column + ", RANDOM()";
    var body := head + column + NotNullClause(table, column);
    Text.PrefixOfConcat(head, column);
    Text.PrefixExtend(head + column, head, NotNullClause(table, column));
    Text.PrefixExtend(body, head, order);
    Text.PrefixExtend(body + order, head, LimitClause(n));
    assert body + order + LimitClause(n) == body + (order + LimitClause(n));
    Text.SuffixOfConcat(body, order + LimitClause(n));
  }

  /** Every dialect's sampling query selects only non-null values of the column, and every dialect
      but SQL Server bounds it with a trailing `LIMIT n`. */
  lemma SampleQueryFiltersNulls(engineName: string, table: string, column: string, limit: int)
    ensures var q := SampleQuery(engineName, table, column, limit);
      && Text.Contains(q, NotNullClause(table, column))
      && (engineName != "mssql" <==> Text.EndsWith(q, LimitClause(Text.IntToDecimal(limit))))
  {
    Text.DecimalChars(limit, ')');
    SampleTextFiltersNulls(engineName, table, column, Text.IntToDecimal(limit));
  }

  lemma SampleTextFiltersNulls(engineName: string, table: string, column: string, n: string)
    requires ')' !in n
    ensures var q := SampleText(engineName, table, column, n);
      && Text.Contains(q, NotNullClause(table, column))
      && (engineName != "mssql" <==> Text.EndsWith(q, LimitClause(n)))
  {
    var f := NotNullClause(table, column);
    if engineName == "mysql" {
      var head := "SELECT DISTINCT " + column;
      Text.ContainsInfix(head, f, " ORDER BY RAND()");
      Text.ContainsAppend(head + f + " ORDER BY RAND()", f, LimitClause(n));
      Text.SuffixOfConcat(head + f + " ORDER BY RAND()", LimitClause(n));
    } else if engineName == "postgresql" {
      var head := "SELECT DISTINCT ON (" + column + ") " + column;
      var order := " ORDER BY " + column + ", RANDOM()";
      Text.ContainsInfix(head, f, order);
      Text.ContainsAppend(head + f + order, f, LimitClause(n));
      Text.SuffixOfConcat(head + f + order, LimitClause(n));
    } else if engineName == "mssql" {
      var head := "SELECT DISTINCT TOP " + n + " " + column;
      Text.ContainsInfix(head, f, " ORDER BY NEWID()");
      Text.SuffixOfConcat(head + f, " ORDER BY NEWID()");
      MssqlNotLimitEnded(head + f + " ORDER BY NEWID()", n);
    } else {
      var head := "SELECT DISTINCT " + column;
      Text.ContainsInfix(head, f, " ORDER BY RANDOM()");
      Text.ContainsAppend(head + f + " ORDER BY RANDOM()", f, LimitClause(n));
      Text.SuffixOfConcat(head + f + " ORDER BY RANDOM()", LimitClause(n));
    }
  }

  /** A text ending in `)` does not end in ` LIMIT n` when n holds no `)`. */
  lemma MssqlNotLimitEnded(q: string, n: string)
    requires ')' !in n
    requires Text.EndsWith(q, " ORDER BY NEWID()")
    ensures !Text.EndsWith(q, LimitClause(n))
  {
    var t := LimitClause(n);
    assert q[|q| - 1] == q[|q| - 17..][16] == ')';
    if |t| <= |q| {
      assert q[|q| - |t|..][|t| - 1] == q[|q| - 1];
      assert t[|t| - 1] != ')' by {
        if |n| > 0 { assert t[|t| - 1] == n[|n| - 1]; }
      }
    }
  }

  /** The aggregate query `get_column_stats` sends (its layout whitespace is normalised). */
  function StatsQuery(table: string, column: string): string {
    "SELECT COUNT(*) as count, " + ("COUNT(DISTINCT " + column + ") as unique_count") + ", "
      + ("MIN(" + column + ") as min_value") + ", " + ("MAX(" + column + ") as max_value")
      + NotNullClause(table, column)
  }

  /** One query computes all four aggregates, over the non-null values of the column. */
  lemma StatsQueryShape(table: string, column: string)
    ensures var q := StatsQuery(table, column);
      && Text.StartsWith(q, "SELECT COUNT(*) as count, " + ("COUNT(DISTINCT " + column + ") as unique_count"))
      && Text.Contains(q, "MIN(" + column + ") as min_value")
      && Text.Contains(q, "MAX(" + column + ") as max_value")
      && Text.EndsWith(q, NotNullClause(table, column))
  {
    var a := "SELECT COUNT(*) as count, " + ("COUNT(DISTINCT " + column + ") as unique_count");
    var mn := "MIN(" + column + ") as min_value";
    var mx := "MAX(" + column + ") as max_value";
    var nn := NotNullClause(table, column);
    Text.PrefixOfConcat(a, ", ");
    Text.PrefixExtend(a + ", ", a, mn);
    Text.PrefixExtend(a + ", " + mn, a, ", ");
    Text.PrefixExtend(a + ", " + mn + ", ", a, mx);
    Text.PrefixExtend(a + ", " + mn + ", " + mx, a, nn);
    Text.ContainsSuffix(a + ", ", mn);
    Text.ContainsAppend(a + ", " + mn, mn, ", ");
    Text.ContainsAppend(a + ", " + mn + ", ", mn, mx);
    Text.ContainsAppend(a + ", " + mn + ", " + mx, mn, nn);
    Text.ContainsInfix(a + ", " + mn + ", ", mx, nn);
    Text.SuffixOfConcat(a + ", " + mn + ", " + mx, nn);
  }

  // ---------------------------------------------------------------- operations

  /** The list comprehension `[row[column] for row in results]`. */
  function Project(rows: seq<Row>, column: string): (r: Result<seq<SqlValue>, ServiceError>)
    ensures r.Ok? <==> forall i :: 0 <= i < |rows| ==> column in rows[i]
    ensures r.Ok? ==> |r.value| == |rows| && forall i :: 0 <= i < |rows| ==> r.value[i] == rows[i][column]
    ensures r.Err? ==> r.error == KeyError(column)
  {
    if |rows| == 0 then Ok([])
    else if column !in rows[0] then Err(KeyError(column))
    else
      match Project(rows[1..], column)
      case Err(e) => Err(e)
      case Ok(vs) => Ok([rows[0][column]] + vs)
  }

  /** `get_unique_values`: the values of the column, one per result row and in result order, of
      the sampling query in the engine's dialect; the engine's error is passed on unchanged. */
  function GetUniqueValues(svc: Service, run: Executor, table: string, column: string,
                           limit: int := DefaultSampleLimit): (r: Result<seq<SqlValue>, ServiceError>)
    ensures var results := run(SampleQuery(EngineName(svc.engine), table, column, limit));
      && (results.Err? ==> r == Err(results.error))
      && (results.Ok? ==>
            && (r.Ok? <==> forall i :: 0 <= i < |results.value| ==> column in results.value[i])
            && (r.Ok? ==> (|r.value| == |results.value|
                  && forall i :: 0 <= i < |r.value| ==> r.value[i] == results.value[i][column]))
            && (r.Err? ==> r.error == KeyError(column)))
  {
    match run(SampleQuery(EngineName(svc.engine), table, column, limit))
    case Err(e) => Err(e)
    case Ok(rows) => Project(rows, column)
  }

  /** Each service subclass samples in its own dialect: PostgreSQL with `DISTINCT ON`, SQL Server
      with `TOP`, MySQL with `RAND()`, and SQLite through the `RANDOM()` fallback. */
  lemma SampleDialectOfService(kind: ServiceKind, params: ConnectionParams, queryTimeout: int,
                                table: string, column: string, limit: int)
    ensures var q := SampleQuery(EngineName(NewService(kind, params, queryTimeout).engine), table, column, limit);
      var n := Text.IntToDecimal(limit);
      && (kind == PostgresService ==> Text.StartsWith(q, "SELECT DISTINCT ON (" + column + ") "))
      && (kind == MSSQLService ==> Text.StartsWith(q, "SELECT DISTINCT TOP " + n + " "))
      && (kind == MySQLService ==> Text.EndsWith(q, " ORDER BY RAND()" + LimitClause(n)))
      && (kind == SQLiteService ==> Text.EndsWith(q, " ORDER BY RANDOM()" + LimitClause(n)))
  {
    EngineNameOfKind(kind, params, queryTimeout);
    match kind
    case PostgresService => PostgresSampleQuery(table, column, limit);
    case MSSQLService => MssqlSampleQuery(table, column, limit);
    case MySQLService => MysqlSampleQuery(table, column, limit);
    case SQLiteService => FallbackSampleQuery("sqlite", table, column, limit);
  }

  /** `get_column_stats`: the first row of the aggregate query, or the empty mapping when it
      yields no row; the engine's error is passed on unchanged. */
  function GetColumnStats(run: Executor, table: string, column: string): (r: Result<Row, ServiceError>)
    ensures var results := run(StatsQuery(table, column));
      && (results.Err? ==> r == Err(results.error))
      && (results.Ok? && |results.value| > 0 ==> r == Ok(results.value[0]))
      && (results.Ok? && |results.value| == 0 ==> r == Ok(map[]))
  {
    match run(StatsQuery(table, column))
    case Err(e) => Err(e)
    case Ok(rows) => Ok(if |rows| > 0 then rows[0] else map[])
  }

  /** The inspector's primary-key constraint; None stands for both None and the empty dict. */
  datatype PkConstraint = PkConstraint(constrainedColumns: seq<string>, name: Option<string>)

  /** `get_primary_keys`: the constrained columns, or none when there is no constraint. */
  function GetPrimaryKeys(pk: Option<PkConstraint>): (r: seq<string>)
    ensures pk.Some? ==> r == pk.value.constrainedColumns
    ensures r == [] <==> pk.None? || pk.value.constrainedColumns == []
  {
    if pk.Some? then pk.value.constrainedColumns else []
  }
}
