/** The SQL session-history store: the factory that picks a backend database class from its tag,
    the per-backend table-creation and upsert statements, and the provider whose store, get,
    list and delete operations run against a table keyed by the session id.

    The backend database is modelled by `BackendDatabase`: it holds the tables and records every
    statement it is sent, and each of its methods does what the statement it is given says, or
    raises the error its fault oracle names for that statement. The
    JSON serialiser is abstract: `Dumps` wraps a value into its text and `Loads` reads it back. */
module SqlHistory {
  import opened Wrappers
  import Text
  import MssqlDatabase

  // ---------------------------------------------------------------- JSON

  datatype Json =
    | JNull
    | JBool(b: bool)
    | JNumber(n: int)
    | JString(s: string)
    | JArray(items: seq<Json>)
    | JObject(members: map<string, Json>)

  /** The text `json.dumps` produces for a value; the serialiser itself is not modelled. */
  datatype JsonText = Dumped(value: Json)

  function Dumps(j: Json): JsonText {
    Dumped(j)
  }

  /** `json.loads` of a text `json.dumps` produced. */
  function Loads(t: JsonText): Json {
    t.value
  }

  lemma DumpsLoads(j: Json)
    ensures Loads(Dumps(j)) == j
  {
  }

  /** Python's truth value of a decoded JSON value. */
  predicate Truthy(j: Json) {
    match j
    case JNull => false
    case JBool(b) => b
    case JNumber(n) => n != 0
    case JString(s) => |s| > 0
    case JArray(items) => |items| > 0
    case JObject(members) => |members| > 0
  }

  const EmptyObject: Json := JObject(map[])

  // ---------------------------------------------------------------- factory

  datatype HistoryError =
    | ValueError(message: string)
    | TypeError(message: string)
    | LoadsError                    // `json.loads` of a value the driver already decoded into a non-dict
    | DatabaseError(message: string) // an error the backend database raises on a statement
    | RowLookupError(lookup: string) // a dict-style lookup on a row that is not a dict

  /** The three backend database classes the factory knows. */
  datatype BackendKind = PostgreSQL | MySQL | MSSQL

  /** A backend database object as the factory constructs it: its class and keyword arguments. */
  datatype BackendSpec = BackendSpec(
    kind: BackendKind,
    host: Option<string>,
    user: Option<string>,
    password: Option<string>,
    database: Option<string>)

  const SupportedTypes: set<string> := {"postgres", "mysql", "mssql"}

  /** What Python raises for `":" in None`. */
  const NoneNotIterable: string := "argument of type 'NoneType' is not iterable"

  /** `DatabaseFactory.get_database`: the class registered for the tag, built from the keyword
      arguments; any other tag (SQLite's among them) raises. The SQL Server class splits its host
      on construction, which raises for an absent host and for one with two or more colons; the
      PostgreSQL and MySQL constructors are not part of this model and are taken to succeed. */
  function GetDatabase(dbType: string, host: Option<string>, user: Option<string>,
                       password: Option<string>, database: Option<string>): (r: Result<BackendSpec, HistoryError>)
    ensures dbType !in SupportedTypes ==> r == Err(ValueError("Unsupported database type: " + dbType))
    ensures r.Ok? ==> (r.value.host == host && r.value.user == user
                    && r.value.password == password && r.value.database == database)
    ensures dbType == "postgres" ==> r.Ok? && r.value.kind == PostgreSQL
    ensures dbType == "mysql" ==> r.Ok? && r.value.kind == MySQL
    ensures dbType == "mssql" ==> (r.Ok? <==> host.Some? && multiset(host.value)[':'] < 2)
    ensures dbType == "mssql" && r.Ok? ==> r.value.kind == MSSQL
    ensures dbType == "mssql" && host.None? ==> r == Err(TypeError(NoneNotIterable))
    ensures dbType == "mssql" && host.Some? && multiset(host.value)[':'] >= 2 ==>
              r == Err(ValueError(MssqlDatabase.UnpackError))
  {
    if dbType == "postgres" then Ok(BackendSpec(PostgreSQL, host, user, password, database))
    else if dbType == "mysql" then Ok(BackendSpec(MySQL, host, user, password, database))
    else if dbType == "mssql" then
      if host.None? then Err(TypeError(NoneNotIterable))
      else if MssqlDatabase.HostPort(host.value).Err? then Err(ValueError(MssqlDatabase.UnpackError))
      else Ok(BackendSpec(MSSQL, host, user, password, database))
    else Err(ValueError("Unsupported database type: " + dbType))
  }

  lemma SqliteUnsupported(host: Option<string>, user: Option<string>, password: Option<string>, database: Option<string>)
    ensures GetDatabase("sqlite", host, user, password, database) == Err(ValueError("Unsupported database type: sqlite"))
  {
    assert "Unsupported database type: " + "sqlite" == "Unsupported database type: sqlite";
  }

  /** The provider's configuration; an absent key reads as None. */
  type Config = map<string, string>

  /** `config.get(key, default)`. */
  function ConfigGet(config: Config, key: string, default: string): (v: string)
    ensures key in config ==> v == config[key]
    ensures key !in config ==> v == default
  {
    if key in config then config[key] else default
  }

  /** `config.get(key)`. */
  function ConfigOption(config: Config, key: string): (v: Option<string>)
    ensures v.Some? <==> key in config
    ensures v.Some? ==> v.value == config[key]
  {
    if key in config then Some(config[key]) else None
  }

  const DefaultDbType: string := "postgres"
  const DefaultTableName: string := "session_history"

  // ---------------------------------------------------------------- statements

  /** The table-creation statement (its layout whitespace is normalised to single spaces): SQL
      Server tests `sysobjects` before creating the table and stores JSON as `NVARCHAR(MAX)`;
      every other type uses `CREATE TABLE IF NOT EXISTS` with a `JSON` column. */
  function CreateTableSql(dbType: string, table: string): string {
    if dbType == "mssql" then
      MssqlTableTest(table) + (" CREATE TABLE " + table)
        + " ( session_id NVARCHAR(255) PRIMARY KEY, data NVARCHAR(MAX) )"
    else
      "CREATE TABLE IF NOT EXISTS " + table + " ( session_id TEXT PRIMARY KEY, data JSON )"
  }

  function MssqlTableTest(table: string): string {
    "IF NOT EXISTS (SELECT * FROM sysobjects WHERE name='" + table + "' AND xtype='U')"
  }

  lemma CreateTableForms(dbType: string, table: string)
    ensures var q := CreateTableSql(dbType, table);
      && (dbType == "mssql" ==>
            && Text.StartsWith(q, MssqlTableTest(table))
            && Text.Contains(q, " CREATE TABLE " + table)
            && Text.EndsWith(q, " ( session_id NVARCHAR(255) PRIMARY KEY, data NVARCHAR(MAX) )"))
      && (dbType != "mssql" ==>
            && Text.StartsWith(q, "CREATE TABLE IF NOT EXISTS " + table)
            && Text.EndsWith(q, " ( session_id TEXT PRIMARY KEY, data JSON )"))
  {
    if dbType == "mssql" {
      var head := MssqlTableTest(table);
      var create := " CREATE TABLE " + table;
      var cols := " ( session_id NVARCHAR(255) PRIMARY KEY, data NVARCHAR(MAX) )";
      Text.PrefixOfConcat(head, create);
      Text.PrefixExtend(head + create, head, cols);
      Text.ContainsInfix(head, create, cols);
      Text.SuffixOfConcat(head + create, cols);
    } else {
      Text.PrefixOfConcat("CREATE TABLE IF NOT EXISTS " + table, " ( session_id TEXT PRIMARY KEY, data JSON )");
      Text.SuffixOfConcat("CREATE TABLE IF NOT EXISTS " + table, " ( session_id TEXT PRIMARY KEY, data JSON )");
    }
  }

  function InsertInto(table: string): string {
    "INSERT INTO " + table + " (session_id, data) VALUES (%s, %s)"
  }

  function MergeInto(table: string): string {
    "MERGE " + table + " AS target USING (SELECT %s AS session_id, %s AS data) AS source"
      + " ON target.session_id = source.session_id"
  }

  /** The upsert statement of `store_session` (layout whitespace normalised), or the error raised
      for a type without one. */
  function UpsertSql(dbType: string, table: string): (r: Result<string, HistoryError>)
    ensures r.Ok? <==> dbType in SupportedTypes
    ensures r.Err? ==> r.error == ValueError("Unsupported database type: " + dbType)
  {
    if dbType == "postgres" then Ok(PostgresUpsert(table))
    else if dbType == "mysql" then Ok(MysqlUpsert(table))
    else if dbType == "mssql" then Ok(MssqlUpsert(table))
    else Err(ValueError("Unsupported database type: " + dbType))
  }

  function PostgresUpsert(table: string): string {
    InsertInto(table) + " ON CONFLICT (session_id) DO UPDATE" + " SET data = EXCLUDED.data"
  }

  function MysqlUpsert(table: string): string {
    InsertInto(table) + " ON DUPLICATE KEY UPDATE data = VALUES(data)"
  }

  function MssqlUpsert(table: string): string {
    MergeInto(table) + WhenMatched + WhenNotMatched
  }

  const WhenMatched: string := " WHEN MATCHED THEN UPDATE SET data = source.data"

  const WhenNotMatched: string :=
    " WHEN NOT MATCHED THEN INSERT (session_id, data) VALUES (source.session_id, source.data);"

  /** PostgreSQL resolves the key conflict with `ON CONFLICT ... DO UPDATE`. */
  lemma UpsertPostgres(table: string)
    ensures var r := UpsertSql("postgres", table);
      && Text.StartsWith(r.value, InsertInto(table))
      && Text.Contains(r.value, " ON CONFLICT (session_id) DO UPDATE")
  {
    var ins := InsertInto(table);
    var conflict := " ON CONFLICT (session_id) DO UPDATE";
    assert UpsertSql("postgres", table).value == PostgresUpsert(table) == ins + conflict + " SET data = EXCLUDED.data";
    Text.PrefixOfConcat(ins, conflict);
    Text.PrefixExtend(ins + conflict, ins, " SET data = EXCLUDED.data");
    Text.ContainsInfix(ins, conflict, " SET data = EXCLUDED.data");
  }

  /** MySQL resolves it with a trailing `ON DUPLICATE KEY UPDATE`. */
  lemma UpsertMysql(table: string)
    ensures var r := UpsertSql("mysql", table);
      && Text.StartsWith(r.value, InsertInto(table))
      && Text.EndsWith(r.value, " ON DUPLICATE KEY UPDATE data = VALUES(data)")
  {
    var ins := InsertInto(table);
    assert UpsertSql("mysql", table).value == MysqlUpsert(table) == ins + " ON DUPLICATE KEY UPDATE data = VALUES(data)";
    Text.PrefixOfConcat(ins, " ON DUPLICATE KEY UPDATE data = VALUES(data)");
    Text.SuffixOfConcat(ins, " ON DUPLICATE KEY UPDATE data = VALUES(data)");
  }

  /** SQL Server uses a `MERGE` that updates the row when matched and inserts it otherwise. */
  lemma UpsertMssql(table: string)
    ensures var r := UpsertSql("mssql", table);
      && Text.StartsWith(r.value, MergeInto(table))
      && Text.Contains(r.value, WhenMatched)
      && Text.EndsWith(r.value, WhenNotMatched)
  {
    var merge := MergeInto(table);
    assert UpsertSql("mssql", table).value == merge + WhenMatched + WhenNotMatched;
    Text.PrefixOfConcat(merge, WhenMatched);
    Text.PrefixExtend(merge + WhenMatched, merge, WhenNotMatched);
    Text.ContainsInfix(merge, WhenMatched, WhenNotMatched);
    Text.SuffixOfConcat(merge + WhenMatched, WhenNotMatched);
  }

  function SelectDataSql(table: string): string {
    "SELECT data FROM " + table + " WHERE session_id = %s"
  }

  function SelectIdsSql(table: string): string {
    "SELECT session_id FROM " + table
  }

  function DeleteSql(table: string): string {
    "DELETE FROM " + table + " WHERE session_id = %s"
  }

  // ---------------------------------------------------------------- the table

  /** A session table: session id, its primary key, to the data column (None: SQL NULL). */
  type Table = map<string, Option<JsonText>>

  /** The data column of a fetched row as the driver hands it back: text, or a value the driver
      already decoded (PostgreSQL's JSON column), or NULL. */
  datatype Cell = NullCell | TextCell(text: JsonText) | ParsedCell(value: Json)

  /** The statement parameters: the session id and the serialised data. */
  datatype Param = TextParam(text: string) | JsonParam(json: JsonText)

  /** One call of the database's `execute(query, params)`. */
  datatype Statement = Statement(sql: string, params: seq<Param>)

  /** The tables after the create-if-absent statement: an existing table, rows and all, is kept. */
  function EnsuredTables(tables: map<string, Table>, name: string): (r: map<string, Table>)
    ensures name in r && r.Keys == tables.Keys + {name}
    ensures name in tables ==> r == tables
    ensures name !in tables ==> r[name] == map[]
    ensures forall t :: t in tables ==> t in r && r[t] == tables[t]
  {
    if name in tables then tables else tables[name := map[]]
  }

  /** Creating the table again changes nothing. */
  lemma EnsureIdempotent(tables: map<string, Table>, name: string)
    ensures EnsuredTables(EnsuredTables(tables, name), name) == EnsuredTables(tables, name)
  {
  }

  /** The table after `store_session(id, data)`: the row for id holds the serialised data, in
      place of any row it had; every other row is as it was. */
  function Stored(t: Table, id: string, data: map<string, Json>): (r: Table)
    ensures r.Keys == t.Keys + {id}
    ensures r[id] == Some(Dumps(JObject(data)))
    ensures forall k :: k in t && k != id ==> r[k] == t[k]
  {
    t[id := Some(Dumps(JObject(data)))]
  }

  /** The second store of a session replaces the first: one row for the id, holding the later
      data, and nothing else changed. */
  lemma StoreTwice(t: Table, id: string, d1: map<string, Json>, d2: map<string, Json>)
    ensures Stored(Stored(t, id, d1), id, d2) == Stored(t, id, d2)
  {
  }

  /** The table after `delete_session(id)`: the row for id, if any, is gone; the rest stays. */
  function Deleted(t: Table, id: string): (r: Table)
    ensures id !in r && r.Keys == t.Keys - {id}
    ensures forall k :: k in r ==> r[k] == t[k]
  {
    t - {id}
  }

  /** Deleting a session twice is deleting it once, and deleting an absent one changes nothing. */
  lemma DeleteIdempotent(t: Table, id: string)
    ensures Deleted(Deleted(t, id), id) == Deleted(t, id)
    ensures id !in t ==> Deleted(t, id) == t
  {
  }

  /** The row `fetchone` returns for a session id, with its data column as the driver hands it
      back. */
  function FetchRow(parsesJson: bool, t: Table, id: string): (row: Option<Cell>)
    ensures row.None? <==> id !in t
    ensures row == Some(NullCell) <==> id in t && t[id].None?
  {
    if id !in t then None
    else match t[id]
      case None => Some(NullCell)
      case Some(text) => Some(if parsesJson then ParsedCell(Loads(text)) else TextCell(text))
  }

  /** The decode branch of `get_session`: `{}` for a missing row or a falsy data column, a value
      already decoded into a dict as it is, and otherwise `json.loads` of the column. */
  function DecodeRow(row: Option<Cell>): (r: Result<Json, HistoryError>)
    ensures row.None? || row == Some(NullCell) ==> r == Ok(EmptyObject)
    ensures row.Some? && row.value.TextCell? ==> r == Ok(Loads(row.value.text))
    ensures row.Some? && row.value.ParsedCell? && row.value.value.JObject? ==> r == Ok(row.value.value)
    ensures row.Some? && row.value.ParsedCell? && !Truthy(row.value.value) ==> r == Ok(EmptyObject)
    ensures r.Err? <==> row.Some? && row.value.ParsedCell? && Truthy(row.value.value) && !row.value.value.JObject?
  {
    match row
    case None => Ok(EmptyObject)
    case Some(NullCell) => Ok(EmptyObject)
    case Some(TextCell(text)) => Ok(Loads(text))
    case Some(ParsedCell(v)) =>
      if !Truthy(v) then Ok(EmptyObject)
      else if v.JObject? then Ok(v)
      else Err(LoadsError)
  }

  /** Round trip: reading a session back after storing a dict gives that dict, whether the driver
      hands the column back as text or already decoded. */
  lemma SessionRoundTrip(parsesJson: bool, t: Table, id: string, data: map<string, Json>)
    ensures DecodeRow(FetchRow(parsesJson, Stored(t, id, data), id)) == Ok(JObject(data))
  {
    if parsesJson && |data| == 0 {
      assert data == map[];
    }
  }

  /** A session that was never stored, or has been deleted, reads as `{}`. */
  lemma MissingSession(parsesJson: bool, t: Table, id: string)
    ensures id !in t ==> DecodeRow(FetchRow(parsesJson, t, id)) == Ok(EmptyObject)
    ensures DecodeRow(FetchRow(parsesJson, Deleted(t, id), id)) == Ok(EmptyObject)
  {
  }

  // ---------------------------------------------------------------- rows as the SQL Server class returns them

  /** Whether the rows a backend's cursor fetches can be looked up by column name. The PostgreSQL
      and MySQL classes are taken to return dict rows. The SQL Server class's `execute` returns the
      ODBC driver's cursor, whose rows are read by position or attribute and have neither `get` nor
      lookup by column name. */
  predicate DictRows(kind: BackendKind) {
    kind != MSSQL
  }

  /** `get_session`'s decode as written, on the backend's own rows: `row.get("data")` raises on a
      fetched row that is not a dict; only a missing row gets past it. */
  function DecodeRowAsWritten(kind: BackendKind, row: Option<Cell>): (r: Result<Json, HistoryError>)
    ensures DictRows(kind) ==> r == DecodeRow(row)
    ensures !DictRows(kind) ==> (r.Err? <==> row.Some?)
    ensures !DictRows(kind) && row.None? ==> r == Ok(EmptyObject)
  {
    if !DictRows(kind) && row.Some? then Err(RowLookupError("get")) else DecodeRow(row)
  }

  /** `get_all_sessions`' list as written: `row["session_id"]` raises on the first fetched row that
      is not a dict. */
  function ListIdsAsWritten(kind: BackendKind, ids: seq<string>): (r: Result<seq<string>, HistoryError>)
    ensures DictRows(kind) ==> r == Ok(ids)
    ensures !DictRows(kind) ==> (r.Ok? <==> |ids| == 0)
  {
    if !DictRows(kind) && |ids| > 0 then Err(RowLookupError("session_id")) else Ok(ids)
  }

  /** On SQL Server a stored session cannot be read back as written, although the row holds the
      dict that the dict-row decode returns. */
  lemma {:induction false} MssqlStoredSessionUnreadable(t: Table, id: string, data: map<string, Json>)
    ensures DecodeRowAsWritten(MSSQL, FetchRow(false, Stored(t, id, data), id)) == Err(RowLookupError("get"))
    ensures DecodeRow(FetchRow(false, Stored(t, id, data), id)) == Ok(JObject(data))
  {
    SessionRoundTrip(false, t, id, data);
  }

  /** On SQL Server the listing fails as written once any session is stored. */
  lemma {:induction false} MssqlListingFails(t: Table, id: string, data: map<string, Json>, ids: seq<string>)
    requires forall k :: k in ids <==> k in Stored(t, id, data)
    ensures ListIdsAsWritten(MSSQL, ids).Err?
  {
    assert id in ids;
  }

  // ---------------------------------------------------------------- the backend database

  /** The backend database object: its tables and the statements it has been sent. Each method
      runs one statement (and, for a query, fetches its rows). Whether a statement fails is the
      backend's oracle `fault`: the statement at position k of the log raises the error
      `fault(k)` names, and a failed statement changes no table. */
  class BackendDatabase {
    const spec: BackendSpec
    /** Whether the driver hands a JSON column back already decoded. */
    const parsesJson: bool
    const fault: nat -> Option<string>
    var tables: map<string, Table>
    var log: seq<Statement>

    /** The outcome of the statement at position k of the log. */
    function Outcome(k: nat): (r: Result<Unit, HistoryError>)
      ensures r.Ok? <==> fault(k).None?
      ensures r.Err? ==> r.error == DatabaseError(fault(k).value)
    {
      if fault(k).Some? then Err(DatabaseError(fault(k).value)) else Ok(Unit)
    }

    constructor (spec: BackendSpec, parsesJson: bool, fault: nat -> Option<string>, existing: map<string, Table>)
      ensures this.spec == spec && this.parsesJson == parsesJson && this.fault == fault
      ensures tables == existing && log == []
    {
      this.spec := spec;
      this.parsesJson := parsesJson;
      this.fault := fault;
      tables := existing;
      log := [];
    }

    /** A create-if-absent statement. */
    method CreateTable(sql: string, name: string) returns (r: Result<Unit, HistoryError>)
      modifies this
      ensures log == old(log) + [Statement(sql, [])]
      ensures r == Outcome(|old(log)|)
      ensures tables == if r.Ok? then EnsuredTables(old(tables), name) else old(tables)
    {
      r := Outcome(|log|);
      if r.Ok? {
        tables := EnsuredTables(tables, name);
      }
      log := log + [Statement(sql, [])];
    }

    /** An upsert of one row keyed by the session id. */
    method Upsert(sql: string, name: string, id: string, data: JsonText) returns (r: Result<Unit, HistoryError>)
      requires name in tables
      modifies this
      ensures log == old(log) + [Statement(sql, [TextParam(id), JsonParam(data)])]
      ensures r == Outcome(|old(log)|)
      ensures tables == if r.Ok? then old(tables)[name := old(tables)[name][id := Some(data)]] else old(tables)
    {
      r := Outcome(|log|);
      if r.Ok? {
        tables := tables[name := tables[name][id := Some(data)]];
      }
      log := log + [Statement(sql, [TextParam(id), JsonParam(data)])];
    }

    /** A select of the data column of one session, then `fetchone`. */
    method FetchData(sql: string, name: string, id: string) returns (r: Result<Option<Cell>, HistoryError>)
      requires name in tables
      modifies this
      ensures tables == old(tables) && log == old(log) + [Statement(sql, [TextParam(id)])]
      ensures r.Ok? <==> fault(|old(log)|).None?
      ensures r.Ok? ==> r.value == FetchRow(parsesJson, tables[name], id)
      ensures r.Err? ==> r.error == DatabaseError(fault(|old(log)|).value)
    {
      var o := Outcome(|log|);
      if o.Err? {
        r := Err(o.error);
      } else {
        r := Ok(FetchRow(parsesJson, tables[name], id));
      }
      log := log + [Statement(sql, [TextParam(id)])];
    }

    /** A select of the key column of every row, then `fetchall`; the rows come in no
        particular order. */
    method FetchIds(sql: string, name: string) returns (r: Result<seq<string>, HistoryError>)
      requires name in tables
      modifies this
      ensures tables == old(tables) && log == old(log) + [Statement(sql, [])]
      ensures r.Ok? <==> fault(|old(log)|).None?
      ensures r.Err? ==> r.error == DatabaseError(fault(|old(log)|).value)
      ensures r.Ok? ==>
        && (forall k :: k in r.value <==> k in tables[name])
        && (forall i, j :: 0 <= i < j < |r.value| ==> r.value[i] != r.value[j])
        && |r.value| == |tables[name]|
    {
      var o := Outcome(|log|);
      log := log + [Statement(sql, [])];
      if o.Err? {
        return Err(o.error);
      }
      var keys := tables[name].Keys;
      var rest := keys;
      var ids := [];
      while rest != {}
        invariant rest <= keys
        invariant forall k :: k in ids <==> k in keys && k !in rest
        invariant forall i, j :: 0 <= i < j < |ids| ==> ids[i] != ids[j]
        invariant |ids| + |rest| == |keys|
        decreases |rest|
      {
        var k :| k in rest;
        ids := ids + [k];
        rest := rest - {k};
      }
      r := Ok(ids);
    }

    /** A delete of the row keyed by the session id. */
    method DeleteRow(sql: string, name: string, id: string) returns (r: Result<Unit, HistoryError>)
      requires name in tables
      modifies this
      ensures log == old(log) + [Statement(sql, [TextParam(id)])]
      ensures r == Outcome(|old(log)|)
      ensures tables == if r.Ok? then old(tables)[name := Deleted(old(tables)[name], id)] else old(tables)
    {
      r := Outcome(|log|);
      if r.Ok? {
        tables := tables[name := Deleted(tables[name], id)];
      }
      log := log + [Statement(sql, [TextParam(id)])];
    }
  }

  // ---------------------------------------------------------------- the provider

  class SqlHistoryProvider {
    const dbType: string
    const tableName: string
    const db: BackendDatabase

    /** The session table exists in the backend database. */
    predicate Valid()
      reads this, db
    {
      tableName in db.tables
    }

    /** The stored sessions. */
    function Sessions(): Table
      reads this, db
      requires Valid()
    {
      db.tables[tableName]
    }

    /** The next n statements the provider sends run without error. */
    predicate NextRuns(n: nat)
      reads this, db
    {
      forall k :: |db.log| <= k < |db.log| + n ==> db.fault(k).None?
    }

    constructor Init(dbType: string, tableName: string, db: BackendDatabase)
      ensures this.dbType == dbType && this.tableName == tableName && this.db == db
    {
      this.dbType := dbType;
      this.tableName := tableName;
      this.db := db;
    }

    /** `SQLHistoryProvider(config)`: the type and table name from the configuration (by default
        `postgres` and `session_history`), the backend from the factory (which may raise), and the
        session table created unless it exists (which may raise too). `existing` is what the
        database already holds, `fault` its failing statements. */
    static method Create(config: Config, parsesJson: bool, fault: nat -> Option<string>, existing: map<string, Table>)
      returns (r: Result<SqlHistoryProvider, HistoryError>)
      ensures var dbType := ConfigGet(config, "db_type", DefaultDbType);
        var spec := GetDatabase(dbType, ConfigOption(config, "sql_host"), ConfigOption(config, "sql_user"),
                                ConfigOption(config, "sql_password"), ConfigOption(config, "sql_database"));
        && (r.Ok? <==> spec.Ok? && fault(0).None?)
        && (spec.Err? ==> r.Err? && r.error == spec.error)
        && (spec.Ok? && fault(0).Some? ==> r.Err? && r.error == DatabaseError(fault(0).value))
        && (r.Ok? ==>
              var p := r.value;
              && fresh(p) && fresh(p.db) && p.Valid()
              && p.dbType == dbType
              && p.tableName == ConfigGet(config, "table_name", DefaultTableName)
              && p.db.spec == spec.value
              && p.db.parsesJson == parsesJson && p.db.fault == fault
              && p.db.tables == EnsuredTables(existing, p.tableName)
              && p.db.log == [Statement(CreateTableSql(p.dbType, p.tableName), [])])
    {
      var dbType := ConfigGet(config, "db_type", DefaultDbType);
      var tableName := ConfigGet(config, "table_name", DefaultTableName);
      var spec := GetDatabase(dbType, ConfigOption(config, "sql_host"), ConfigOption(config, "sql_user"),
                              ConfigOption(config, "sql_password"), ConfigOption(config, "sql_database"));
      if spec.Err? {
        return Err(spec.error);
      }
      var db := new BackendDatabase(spec.value, parsesJson, fault, existing);
      var p := new SqlHistoryProvider.Init(dbType, tableName, db);
      var created := p.EnsureTableExists();
      if created.Err? {
        return Err(created.error);
      }
      r := Ok(p);
    }

    /** `_ensure_table_exists`: the session table is created unless it exists; any rows it holds
        are kept, so running it again changes nothing. A failing statement is raised and changes
        nothing. */
    method EnsureTableExists() returns (r: Result<Unit, HistoryError>)
      modifies db
      ensures db.log == old(db.log) + [Statement(CreateTableSql(dbType, tableName), [])]
      ensures r.Ok? <==> db.fault(|old(db.log)|).None?
      ensures r.Err? ==> r.error == DatabaseError(db.fault(|old(db.log)|).value) && db.tables == old(db.tables)
      ensures r.Ok? ==> Valid() && db.tables == EnsuredTables(old(db.tables), tableName)
    {
      r := db.CreateTable(CreateTableSql(dbType, tableName), tableName);
    }

    /** `store_session`: the upsert of the serialised dict under the id, or the error for a type
        without an upsert statement, raised before anything is sent, or the backend's error. */
    method StoreSession(id: string, data: map<string, Json>) returns (r: Result<Unit, HistoryError>)
      requires Valid()
      modifies db
      ensures Valid()
      ensures r.Ok? <==> dbType in SupportedTypes && db.fault(|old(db.log)|).None?
      ensures dbType !in SupportedTypes ==>
        (r == Err(ValueError("Unsupported database type: " + dbType))
         && db.tables == old(db.tables) && db.log == old(db.log))
      ensures dbType in SupportedTypes ==>
        db.log == old(db.log) + [Statement(UpsertSql(dbType, tableName).value,
                                           [TextParam(id), JsonParam(Dumps(JObject(data)))])]
      ensures dbType in SupportedTypes && r.Err? ==>
        r.error == DatabaseError(db.fault(|old(db.log)|).value) && db.tables == old(db.tables)
      ensures r.Ok? ==> db.tables == old(db.tables)[tableName := Stored(old(Sessions()), id, data)]
    {
      var sql := UpsertSql(dbType, tableName);
      if sql.Err? {
        return Err(sql.error);
      }
      r := db.Upsert(sql.value, tableName, id, Dumps(JObject(data)));
    }

    /** `get_session`: the stored dict, `{}` when there is no row or its data is falsy, or the
        backend's error. */
    method GetSession(id: string) returns (r: Result<Json, HistoryError>)
      requires Valid()
      modifies db
      ensures Valid() && db.tables == old(db.tables)
      ensures db.log == old(db.log) + [Statement(SelectDataSql(tableName), [TextParam(id)])]
      ensures db.fault(|old(db.log)|).None? ==> r == DecodeRow(FetchRow(db.parsesJson, Sessions(), id))
      ensures db.fault(|old(db.log)|).Some? ==> r == Err(DatabaseError(db.fault(|old(db.log)|).value))
    {
      var row := db.FetchData(SelectDataSql(tableName), tableName, id);
      if row.Err? {
        return Err(row.error);
      }
      r := DecodeRow(row.value);
    }

    /** `get_all_sessions`: the id of every stored session, each once, or the backend's error. */
    method GetAllSessions() returns (r: Result<seq<string>, HistoryError>)
      requires Valid()
      modifies db
      ensures Valid() && db.tables == old(db.tables)
      ensures db.log == old(db.log) + [Statement(SelectIdsSql(tableName), [])]
      ensures r.Ok? <==> db.fault(|old(db.log)|).None?
      ensures r.Err? ==> r.error == DatabaseError(db.fault(|old(db.log)|).value)
      ensures r.Ok? ==>
        && (forall k :: k in r.value <==> k in Sessions())
        && (forall i, j :: 0 <= i < j < |r.value| ==> r.value[i] != r.value[j])
    {
      r := db.FetchIds(SelectIdsSql(tableName), tableName);
    }

    /** `delete_session`: the row of the id, if any, is removed and every other row stays; or the
        backend's error, which changes nothing. */
    method DeleteSession(id: string) returns (r: Result<Unit, HistoryError>)
      requires Valid()
      modifies db
      ensures Valid()
      ensures db.log == old(db.log) + [Statement(DeleteSql(tableName), [TextParam(id)])]
      ensures r.Ok? <==> db.fault(|old(db.log)|).None?
      ensures r.Err? ==> r.error == DatabaseError(db.fault(|old(db.log)|).value) && db.tables == old(db.tables)
      ensures r.Ok? ==> db.tables == old(db.tables)[tableName := Deleted(old(Sessions()), id)]
    {
      r := db.DeleteRow(DeleteSql(tableName), tableName, id);
    }
  }

  /** A configuration the factory accepts always has an upsert statement, so the `store_session`
      of a provider built from it raises only what the backend raises. */
  lemma CreatedProviderStores(config: Config)
    requires GetDatabase(ConfigGet(config, "db_type", DefaultDbType), ConfigOption(config, "sql_host"),
                         ConfigOption(config, "sql_user"), ConfigOption(config, "sql_password"),
                         ConfigOption(config, "sql_database")).Ok?
    ensures UpsertSql(ConfigGet(config, "db_type", DefaultDbType), ConfigGet(config, "table_name", DefaultTableName)).Ok?
  {
  }

  /** Storing a session and reading it back gives the stored dict, when neither statement fails. */
  method StoreThenGet(p: SqlHistoryProvider, id: string, data: map<string, Json>) returns (r: Result<Json, HistoryError>)
    requires p.Valid() && p.dbType in SupportedTypes && p.NextRuns(2)
    modifies p.db
    ensures p.Valid() && r == Ok(JObject(data))
  {
    ghost var n := |p.db.log|;
    assert p.db.fault(n).None? && p.db.fault(n + 1).None?;
    var _ := p.StoreSession(id, data);
    r := p.GetSession(id);
    SessionRoundTrip(p.db.parsesJson, old(p.Sessions()), id, data);
  }

  /** Storing twice under one id leaves one row for it, with the later data; the other sessions
      are untouched; when none of the three statements fails. */
  method StoreTwiceThenList(p: SqlHistoryProvider, id: string, d1: map<string, Json>, d2: map<string, Json>)
    returns (r: Result<seq<string>, HistoryError>)
    requires p.Valid() && p.dbType in SupportedTypes && p.NextRuns(3)
    modifies p.db
    ensures p.Valid() && p.Sessions() == Stored(old(p.Sessions()), id, d2)
    ensures r.Ok? && id in r.value && forall k :: k in r.value <==> k == id || k in old(p.Sessions())
    ensures forall i, j :: 0 <= i < j < |r.value| ==> r.value[i] != r.value[j]
  {
    ghost var n := |p.db.log|;
    assert p.db.fault(n).None? && p.db.fault(n + 1).None? && p.db.fault(n + 2).None?;
    var _ := p.StoreSession(id, d1);
    var _ := p.StoreSession(id, d2);
    StoreTwice(old(p.Sessions()), id, d1, d2);
    r := p.GetAllSessions();
  }

  /** Deleting a session twice leaves the table as one delete does, and it then reads as `{}`;
      when none of the three statements fails. */
  method DeleteTwiceThenGet(p: SqlHistoryProvider, id: string) returns (r: Result<Json, HistoryError>)
    requires p.Valid() && p.NextRuns(3)
    modifies p.db
    ensures p.Valid() && p.Sessions() == Deleted(old(p.Sessions()), id)
    ensures r == Ok(EmptyObject)
  {
    ghost var n := |p.db.log|;
    assert p.db.fault(n).None? && p.db.fault(n + 1).None? && p.db.fault(n + 2).None?;
    var _ := p.DeleteSession(id);
    var _ := p.DeleteSession(id);
    DeleteIdempotent(old(p.Sessions()), id);
    r := p.GetSession(id);
    MissingSession(p.db.parsesJson, old(p.Sessions()), id);
  }
}
