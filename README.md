# SQL backends of the agent mesh, modelled in Dafny

This project models three pieces of the agent mesh's database layer and proves what they promise:

- **The SQL database service** of the SQL-database agent (`database_service.dfy`, module
  `DatabaseService`). This covers:
  - the per-backend engine configuration table;
  - the random-sampling query of `get_unique_values`, written in the engine's dialect, and the
    projection of one column out of its rows;
  - the aggregate query of `get_column_stats` and its first-row-or-empty result;
  - the `[]` fallback of `get_primary_keys`.

  The engine is an oracle, `Executor`: it maps SQL text to the rows it yields or the error it
  raises.
- **The SQL session-history store** (`sql_history_provider.dfy`, module `SqlHistory`). This covers:
  - the closed factory from a type tag to a backend class;
  - the configuration defaults;
  - the per-backend create-table and upsert statements;
  - the provider class, whose store, get, list and delete methods run against a backend database
    object (`BackendDatabase`). That object holds the tables as a `map` from session id to data
    and records every statement it is sent. Whether a statement raises is the backend's oracle
    `fault`; the provider passes every such error on, as the source does.
- **The SQL Server connection** (`mssql_database.dfy`, module `MssqlDatabase`). This covers:
  - the `host[:port]` split with port 1433 as the default;
  - the ordered ODBC-driver fallback of `connect`;
  - the lazily connecting `cursor`, which reconnects once;
  - the three-pass retry loop of `execute`;
  - the configuration check of `get_db_for_action`.

  The ODBC driver is an oracle object, `Odbc`. It answers the k-th connect, the k-th cursor
  request and the k-th statement as its `Oracle` says, and it records every call. Each method of
  the `MssqlDatabase` class is proved equal to a specification function over a snapshot (`Link`)
  of the held connection and the driver's record:
  - `ConnectSpec`, built on `ScanDrivers`, for `connect`;
  - `CursorSpec`, built on `RetriedCursor`, for `cursor`;
  - `ExecuteLoop`, built on `AttemptSpec`, for `execute`.

  The lemmas state the source's promises about those functions.

Two shared modules support the rest:
- `text.dfy`: prefix, suffix and infix tests, Python's `sep.join`, `str.split` for a single
  character, and `str()` of integers.
- `wrappers.dfy`: `Option` and `Result`. A raised exception is an `Err`.

The history store's factory knows only the tags `postgres`, `mysql` and `mssql`
(sql_history_provider.py:13-17); `SqlHistory.SqliteUnsupported` states that the tag `sqlite` is
rejected.

## Model

| member | source | states |
|---|---|---|
| DatabaseService.NewService | tmp/sam_sql_database/src/agents/sql_database/services/database_service.py:19-28 | The service keeps its parameters and its query timeout; its engine, created once, reports the dialect of its subclass. |
| DatabaseService.CreateEngine | tmp/sam_sql_database/src/agents/sql_database/services/database_service.py:196-291 | A definition with no contract of its own; the `_create_engine` of each subclass: URL, pool arguments and connect arguments. See EngineNameOfKind, PoolConfiguration, ConnectionUrls. |
| DatabaseService.EngineName | tmp/sam_sql_database/src/agents/sql_database/services/database_service.py:158-167 | A definition with no contract of its own; the `engine.name` the sampling branches test, the dialect of the URL's driver name. See DialectBeforePlus, EngineNameOfKind. |
| DatabaseService.EngineNameOfKind | tmp/sam_sql_database/src/agents/sql_database/services/database_service.py:196-291 | The engine name of every subclass is its driver's dialect: mysql, postgresql, sqlite, mssql. |
| DatabaseService.DialectBeforePlus | tmp/sam_sql_database/src/agents/sql_database/services/database_service.py:201-202 | A `dialect+dbapi` driver name reports the part before `+` as the engine name. |
| DatabaseService.PoolConfiguration | tmp/sam_sql_database/src/agents/sql_database/services/database_service.py:210-291 | SQLite passes pool size 1 and neither `max_overflow` nor `pool_timeout`, so SQLAlchemy's defaults for those apply. The networked backends pass 5, 10 and 30. Every backend recycles at 1800 s and pings first. The query timeout is passed as `connect_timeout` (MySQL, PostgreSQL) or `timeout` (SQLite, SQL Server). |
| DatabaseService.ConnectionUrls | tmp/sam_sql_database/src/agents/sql_database/services/database_service.py:201-281 | A SQLite URL carries only the database. The server URLs carry user, password, host, port and database from the parameters. Only SQL Server names an ODBC driver. |
| DatabaseService.SampleQuery | tmp/sam_sql_database/src/agents/sql_database/services/database_service.py:158-169 | A definition with no contract of its own; the query of `get_unique_values` for a limit. See MssqlSampleQuery, MysqlSampleQuery, PostgresSampleQuery, FallbackSampleQuery, SampleQueryFiltersNulls. |
| DatabaseService.SampleText | tmp/sam_sql_database/src/agents/sql_database/services/database_service.py:158-169 | A definition with no contract of its own; the four f-strings of lines 160, 163, 166 and 169 for a rendered limit. See MssqlSampleText, PostgresSampleText, PlainSampleText, SampleTextFiltersNulls. |
| DatabaseService.MssqlSampleQuery | tmp/sam_sql_database/src/agents/sql_database/services/database_service.py:164-166 | The SQL Server query starts `SELECT DISTINCT TOP n ` and ends `ORDER BY NEWID()`. It holds no `LIMIT` unless the table or column name does. |
| DatabaseService.MssqlSampleText | tmp/sam_sql_database/src/agents/sql_database/services/database_service.py:166 | The same prefix and suffix for any rendered limit. |
| DatabaseService.MssqlSampleHasNoLimit | tmp/sam_sql_database/src/agents/sql_database/services/database_service.py:166 | No `LIMIT` can straddle the blanks between the query's pieces, so none occurs when no piece holds one. |
| DatabaseService.NotNullClauseHasNoLimit | tmp/sam_sql_database/src/agents/sql_database/services/database_service.py:166 | The `FROM … WHERE … IS NOT NULL` part holds no `LIMIT` of its own. |
| DatabaseService.MysqlSampleQuery | tmp/sam_sql_database/src/agents/sql_database/services/database_service.py:158-160 | The MySQL query starts `SELECT DISTINCT column` and ends `ORDER BY RAND() LIMIT n`. |
| DatabaseService.PostgresSampleQuery | tmp/sam_sql_database/src/agents/sql_database/services/database_service.py:161-163 | The PostgreSQL query starts `SELECT DISTINCT ON (column) ` and ends `ORDER BY column, RANDOM() LIMIT n`. |
| DatabaseService.PostgresSampleText | tmp/sam_sql_database/src/agents/sql_database/services/database_service.py:163 | The same for any rendered limit. |
| DatabaseService.FallbackSampleQuery | tmp/sam_sql_database/src/agents/sql_database/services/database_service.py:167-169 | Every other engine name gets `ORDER BY RANDOM() LIMIT n`, so the choice is total over engine names. |
| DatabaseService.PlainSampleText | tmp/sam_sql_database/src/agents/sql_database/services/database_service.py:158-169 | The MySQL query and the fallback query differ only in their random-order clause. |
| DatabaseService.SampleQueryFiltersNulls | tmp/sam_sql_database/src/agents/sql_database/services/database_service.py:147-169 | Every dialect's query keeps only the column's non-null values. A query ends in ` LIMIT n` exactly when the engine is not SQL Server. |
| DatabaseService.SampleTextFiltersNulls | tmp/sam_sql_database/src/agents/sql_database/services/database_service.py:158-169 | The same for any rendered limit without `)`. |
| DatabaseService.MssqlNotLimitEnded | tmp/sam_sql_database/src/agents/sql_database/services/database_service.py:166 | A query ending in `NEWID()` cannot end in ` LIMIT n`. |
| DatabaseService.StatsQuery | tmp/sam_sql_database/src/agents/sql_database/services/database_service.py:183-191 | A definition with no contract of its own; the aggregate query of `get_column_stats`, its whitespace normalised. See StatsQueryShape. |
| DatabaseService.StatsQueryShape | tmp/sam_sql_database/src/agents/sql_database/services/database_service.py:183-191 | One query computes count, unique count, minimum and maximum over the column's non-null values. |
| DatabaseService.Project | tmp/sam_sql_database/src/agents/sql_database/services/database_service.py:171 | The result is `row[column]` for every row, in order and with the same length. It fails with KeyError exactly when some row lacks the column. |
| DatabaseService.GetUniqueValues | tmp/sam_sql_database/src/agents/sql_database/services/database_service.py:147-171 | Runs the query of the engine's dialect. It returns the column of each result row, in order, passes the engine's error on unchanged, and uses a default limit of 3. |
| DatabaseService.SampleDialectOfService | tmp/sam_sql_database/src/agents/sql_database/services/database_service.py:158-169 | Each subclass samples in its own dialect: `DISTINCT ON` for PostgreSQL, `TOP` for SQL Server, `RAND()` for MySQL, `RANDOM()` for SQLite. |
| DatabaseService.GetColumnStats | tmp/sam_sql_database/src/agents/sql_database/services/database_service.py:173-193 | Returns the first result row, or the empty mapping when the query yields none; the engine's error is passed on. |
| DatabaseService.GetPrimaryKeys | tmp/sam_sql_database/src/agents/sql_database/services/database_service.py:110-121 | Returns the constrained columns when a constraint is present. The result is empty exactly when there is no constraint or it has no columns. |
| SqlHistory.DumpsLoads | src/services/history_service/history_providers/sql_history_provider.py:94-105 | Loading the text that dumping produced gives back the value. |
| SqlHistory.GetDatabase | src/services/history_service/history_providers/sql_history_provider.py:13-23 | Any tag other than `postgres`, `mysql` and `mssql` raises `ValueError("Unsupported database type: …")`. The two other supported tags build their class with the keyword arguments passed through. `mssql` runs the SQL Server constructor's host split: it raises TypeError for an absent host and the unpack ValueError for a host with two or more colons, and succeeds exactly otherwise. |
| SqlHistory.SqliteUnsupported | src/services/history_service/history_providers/sql_history_provider.py:21-22 | The tag `sqlite` raises. |
| SqlHistory.ConfigGet | src/services/history_service/history_providers/sql_history_provider.py:31-32 | The configured value when present, the default otherwise. |
| SqlHistory.ConfigOption | src/services/history_service/history_providers/sql_history_provider.py:35-38 | The configured value when present, None otherwise. |
| SqlHistory.CreateTableSql | src/services/history_service/history_providers/sql_history_provider.py:46-61 | A definition with no contract of its own; the create statement of each type. See CreateTableForms. |
| SqlHistory.CreateTableForms | src/services/history_service/history_providers/sql_history_provider.py:46-61 | SQL Server tests `sysobjects` and then creates `NVARCHAR` columns. Every other type uses `CREATE TABLE IF NOT EXISTS` with a `JSON` column. |
| SqlHistory.UpsertSql | src/services/history_service/history_providers/sql_history_provider.py:68-92 | There is an upsert statement exactly for the three supported types; any other type gets the ValueError. |
| SqlHistory.PostgresUpsert | src/services/history_service/history_providers/sql_history_provider.py:69-74 | A definition with no contract of its own; the PostgreSQL upsert. See UpsertPostgres. |
| SqlHistory.MysqlUpsert | src/services/history_service/history_providers/sql_history_provider.py:76-80 | A definition with no contract of its own; the MySQL upsert. See UpsertMysql. |
| SqlHistory.MssqlUpsert | src/services/history_service/history_providers/sql_history_provider.py:82-90 | A definition with no contract of its own; the SQL Server `MERGE`. See UpsertMssql. |
| SqlHistory.UpsertPostgres | src/services/history_service/history_providers/sql_history_provider.py:68-74 | PostgreSQL inserts with `ON CONFLICT (session_id) DO UPDATE`. |
| SqlHistory.UpsertMysql | src/services/history_service/history_providers/sql_history_provider.py:75-80 | MySQL inserts with a trailing `ON DUPLICATE KEY UPDATE`. |
| SqlHistory.UpsertMssql | src/services/history_service/history_providers/sql_history_provider.py:81-90 | SQL Server uses `MERGE`, updating when matched and inserting when not matched. |
| SqlHistory.SelectDataSql | src/services/history_service/history_providers/sql_history_provider.py:100 | A definition with no contract of its own; the select of `get_session`. See SqlHistoryProvider.GetSession. |
| SqlHistory.SelectIdsSql | src/services/history_service/history_providers/sql_history_provider.py:112 | A definition with no contract of its own; the select of `get_all_sessions`. See SqlHistoryProvider.GetAllSessions. |
| SqlHistory.DeleteSql | src/services/history_service/history_providers/sql_history_provider.py:120 | A definition with no contract of its own; the delete of `delete_session`. See SqlHistoryProvider.DeleteSession. |
| SqlHistory.EnsuredTables | src/services/history_service/history_providers/sql_history_provider.py:42-62 | The session table exists afterwards. An existing table, rows and all, is kept, as is every other table. |
| SqlHistory.EnsureIdempotent | src/services/history_service/history_providers/sql_history_provider.py:42-62 | Creating the table twice is creating it once. |
| SqlHistory.Stored | src/services/history_service/history_providers/sql_history_provider.py:64-94 | After a store, the row for the id holds the dumped dict, and every other row is unchanged. |
| SqlHistory.StoreTwice | src/services/history_service/history_providers/sql_history_provider.py:64-94 | Two stores under one id leave one row holding the second dict. |
| SqlHistory.Deleted | src/services/history_service/history_providers/sql_history_provider.py:116-121 | Only the id's row is removed. |
| SqlHistory.DeleteIdempotent | src/services/history_service/history_providers/sql_history_provider.py:116-121 | Deleting twice is deleting once, and deleting an absent id changes nothing. |
| SqlHistory.FetchRow | src/services/history_service/history_providers/sql_history_provider.py:100-102 | There is no row exactly when the id is absent, and the cell is NULL exactly when the data is NULL. |
| SqlHistory.DecodeRow | src/services/history_service/history_providers/sql_history_provider.py:102-106 | `{}` for a missing row, a NULL cell or any falsy value the driver already decoded; a decoded dict as is; text through `loads`. Decoding fails exactly for a truthy value the driver already decoded that is not a dict (a decoded string is not re-parsed; see Left out). |
| SqlHistory.SessionRoundTrip | src/services/history_service/history_providers/sql_history_provider.py:94-106 | Reading a session after storing a dict gives the dict, whether or not the driver decodes JSON. |
| SqlHistory.MissingSession | src/services/history_service/history_providers/sql_history_provider.py:102-104 | An absent or deleted session reads as `{}`. |
| SqlHistory.DecodeRowAsWritten | src/services/history_service/history_providers/sql_history_provider.py:102-105 | On dict rows it is `DecodeRow`. On the SQL Server class's rows it raises exactly for a fetched row, because `row.get` does not exist there; a missing row still reads as `{}`. |
| SqlHistory.ListIdsAsWritten | src/services/history_service/history_providers/sql_history_provider.py:113-114 | On dict rows it lists the ids. On the SQL Server class's rows it succeeds exactly when no row was fetched. |
| SqlHistory.MssqlStoredSessionUnreadable | src/services/history_service/history_providers/sql_history_provider.py:94-105 | On SQL Server a stored session raises at `row.get` as written, while the dict-row decode returns the stored dict. |
| SqlHistory.MssqlListingFails | src/services/history_service/history_providers/sql_history_provider.py:108-114 | On SQL Server the listing raises as written once any session is stored. |
| SqlHistory.BackendDatabase.CreateTable | src/services/history_service/history_providers/sql_history_provider.py:62 | Records the create-if-absent statement. It either runs it, or raises the statement's fault and changes no table. |
| SqlHistory.BackendDatabase.Outcome | src/services/history_service/history_providers/sql_history_provider.py:62 | A statement runs exactly when its fault oracle names no error, and otherwise raises the error it names. |
| SqlHistory.BackendDatabase.Upsert | src/services/history_service/history_providers/sql_history_provider.py:94 | Records the statement with the id and the data. Either the id's row then holds the data, or the statement's fault is raised and no table changes. |
| SqlHistory.BackendDatabase.FetchData | src/services/history_service/history_providers/sql_history_provider.py:100-102 | Returns the id's row, or raises the statement's fault; changes no table. |
| SqlHistory.BackendDatabase.FetchIds | src/services/history_service/history_providers/sql_history_provider.py:112-114 | Returns every key of the table once, in some order, or raises the statement's fault. |
| SqlHistory.BackendDatabase.DeleteRow | src/services/history_service/history_providers/sql_history_provider.py:120-121 | Records the statement. Either the id's row is removed, or the statement's fault is raised and no table changes. |
| SqlHistory.SqlHistoryProvider.Create | src/services/history_service/history_providers/sql_history_provider.py:29-40 | Reads the type and table name, defaulting to `postgres` and `session_history`. Builds the backend through the factory and raises the factory's error. Then creates the table, keeping any existing rows, or raises the create statement's error. It succeeds exactly when neither raises. |
| SqlHistory.SqlHistoryProvider.EnsureTableExists | src/services/history_service/history_providers/sql_history_provider.py:42-62 | Sends the create statement of the provider's type. Either the table exists afterwards with its rows kept, or the statement's error is raised and no table changes. |
| SqlHistory.SqlHistoryProvider.StoreSession | src/services/history_service/history_providers/sql_history_provider.py:64-94 | An unsupported type raises before anything is sent. Otherwise the upsert of the dumped dict under the id is sent, and it either replaces the id's row or raises the backend's error and changes nothing. |
| SqlHistory.SqlHistoryProvider.GetSession | src/services/history_service/history_providers/sql_history_provider.py:96-106 | Returns the decoded row of the id, or raises the backend's error; changes no table. This is the dict-row behaviour; see Findings for SQL Server as written. |
| SqlHistory.SqlHistoryProvider.GetAllSessions | src/services/history_service/history_providers/sql_history_provider.py:108-114 | Returns the id of every stored session, each once, or raises the backend's error. This is the dict-row behaviour; see Findings for SQL Server as written. |
| SqlHistory.SqlHistoryProvider.DeleteSession | src/services/history_service/history_providers/sql_history_provider.py:116-121 | Either removes the id's row and leaves every other row, or raises the backend's error and changes nothing. |
| SqlHistory.CreatedProviderStores | src/services/history_service/history_providers/sql_history_provider.py:29-94 | A configuration the factory accepts always has an upsert statement, so its stores raise only the backend's errors. |
| SqlHistory.StoreThenGet | src/services/history_service/history_providers/sql_history_provider.py:64-106 | When neither statement fails, a store followed by a get returns the stored dict. This is the dict-row behaviour; see Findings for SQL Server as written. |
| SqlHistory.StoreTwiceThenList | src/services/history_service/history_providers/sql_history_provider.py:64-114 | When no statement fails, two stores under one id leave one row with the later dict; the listing holds that id and the earlier ids, each once. This is the dict-row behaviour; see Findings. |
| SqlHistory.DeleteTwiceThenGet | src/services/history_service/history_providers/sql_history_provider.py:96-121 | When no statement fails, two deletes act as one, and the session then reads as `{}`. |
| MssqlDatabase.HostPort | src/common/mssql_database.py:15-18 | With no colon, the port is 1433. With one colon, `h:p` is host h and port p. With two or more colons the unpack raises ValueError. The host never keeps a colon. |
| MssqlDatabase.HostPortOfJoined | src/common/mssql_database.py:15-16 | Splitting `h:p` gives back h and p. |
| MssqlDatabase.ConnectionString | src/common/mssql_database.py:41-48 | A definition with no contract of its own; the connection string of one driver. See ConnectionStringShape, Attempted. |
| MssqlDatabase.ConnectionStringShape | src/common/mssql_database.py:41-48 | The string starts `DRIVER={d};`, names `SERVER=host,port;`, the database and the credentials, and ends `TrustServerCertificate=yes;`. |
| MssqlDatabase.ScanDrivers | src/common/mssql_database.py:39-53 | The driver loop records one connect per tried driver, asks for no cursor or statement, and keeps a held connection. |
| MssqlDatabase.Attempted | src/common/mssql_database.py:39-48 | One connection string per driver, in order. |
| MssqlDatabase.ConnectSpec | src/common/mssql_database.py:29-56 | A definition with no contract of its own; `connect` over the drivers' connection strings, the specification MssqlDatabase.Connect is proved equal to. See ConnectOutcome, ReconnectNeverRaises. |
| MssqlDatabase.ScanDriversResult | src/common/mssql_database.py:39-53 | The drivers up to and including the first granted one are tried, and none after it; its connection is held. When every driver is refused, all are tried and the old connection is kept. |
| MssqlDatabase.ScanDriversGranted | src/common/mssql_database.py:49-50 | The case where the k-th attempt is the first one granted. |
| MssqlDatabase.ScanDriversExhausted | src/common/mssql_database.py:51-53 | The case where every attempt is refused. |
| MssqlDatabase.ConnectOutcome | src/common/mssql_database.py:38-56 | `connect` raises exactly when no connection was held and every driver was refused, and then with the message naming the drivers. |
| MssqlDatabase.ReconnectNeverRaises | src/common/mssql_database.py:55-56 | With a connection held, `connect` never raises; when every driver is refused it keeps that connection. |
| MssqlDatabase.NoDriverMessageNamesDrivers | src/common/mssql_database.py:56 | The error message names every driver. |
| MssqlDatabase.RetriedCursor | src/common/mssql_database.py:23-27 | A definition with no contract of its own; the `try` of `cursor` with its reconnect and second request. See RetriedCursorOutcome. |
| MssqlDatabase.CursorSpec | src/common/mssql_database.py:20-27 | A definition with no contract of its own; `cursor`, the specification MssqlDatabase.Cursor is proved equal to. See CursorLazy, CursorOutcome. |
| MssqlDatabase.CursorLazy | src/common/mssql_database.py:20-24 | With a connection held and the request granted, no connect is made. |
| MssqlDatabase.CursorOutcome | src/common/mssql_database.py:20-27 | At most two cursor requests, at most two passes over the drivers, and no statement. A returned cursor is on the connection held afterwards. It fails only when the first connect raised, or with the second request's error after two refusals. |
| MssqlDatabase.RetriedCursorOutcome | src/common/mssql_database.py:23-27 | On a held connection: a granted request makes no connect and keeps the connection. A refused one is followed by exactly one reconnect, which is one pass over the drivers and tries at least one, and then a second request. |
| MssqlDatabase.AttemptSpec | src/common/mssql_database.py:65-68 | A definition with no contract of its own; one pass of the `try` in `execute`. See AttemptSends. |
| MssqlDatabase.ExecuteLoop | src/common/mssql_database.py:62-75 | A definition with no contract of its own; the retry loop of `execute`, the specification MssqlDatabase.Execute is proved equal to. See ExecuteIsThreeAttempts, ExecuteBounds. |
| MssqlDatabase.ExecuteIsThreeAttempts | src/common/mssql_database.py:62-75 | `execute` is at most three passes: the first success wins, and after three failures the third error is raised. |
| MssqlDatabase.AttemptSends | src/common/mssql_database.py:65-68 | A pass sends the statement at most once; a successful pass sent it and it was granted. |
| MssqlDatabase.ExecuteBounds | src/common/mssql_database.py:62-75 | With n passes allowed, the statement is sent at most n times and nothing else is sent. A returned cursor's statement was the one granted last. |
| MssqlDatabase.Odbc.Connect | src/common/mssql_database.py:49 | Records the connection string and answers as the oracle says. |
| MssqlDatabase.Odbc.OpenCursor | src/common/mssql_database.py:24 | Counts the request and answers as the oracle says. |
| MssqlDatabase.Odbc.Execute | src/common/mssql_database.py:67 | Records the statement and answers as the oracle says. |
| MssqlDatabase.MssqlDatabase.Open | src/common/mssql_database.py:8-18 | Holds no connection and stores the split host and port, or raises for a host with two or more colons. |
| MssqlDatabase.MssqlDatabase.Connect | src/common/mssql_database.py:29-56 | The driver loop with its break, proved equal to `ConnectSpec` over the database's connection strings. |
| MssqlDatabase.MssqlDatabase.Cursor | src/common/mssql_database.py:20-27 | Proved equal to `CursorSpec`. |
| MssqlDatabase.MssqlDatabase.Execute | src/common/mssql_database.py:62-75 | The `while True` loop on `sanity`, proved equal to `ExecuteLoop` with three passes. |
| MssqlDatabase.SettingsSource | src/common/mssql_database.py:79-88 | A non-empty `sql_params` is read; otherwise the action's configuration is. |
| MssqlDatabase.ResolveCredentials | src/common/mssql_database.py:79-91 | Credentials exist exactly when host, user, password and database are all present and non-empty. |
| MssqlDatabase.SqlParamsTakePrecedence | src/common/mssql_database.py:79-83 | A non-empty `sql_params` wins even when it lacks a setting that the configuration has. |
| MssqlDatabase.GetDbForAction | src/common/mssql_database.py:78-104 | A fresh, unconnected database for the credentials, or `ValueError` naming the action's class when any setting is missing or empty. |

## Left out

- Introspection (`get_tables`, `get_columns`, `get_foreign_keys`, `get_indexes`, and the inspector behind `get_primary_keys`): thin wrappers over SQLAlchemy. The inspector's constraint is a parameter.
- `execute_query` and `get_connection`: the engine is the `Executor` oracle. The `finally` of `get_connection` references `connection` when `engine.connect()` itself failed; that failure path is not modelled.
- Connection pooling behaviour (timeouts, recycling, pings): only its constant configuration is modelled.
- CSV import: it delegates to a service that is not part of this model.
- Logging: every `log` call.
- The PostgreSQL and MySQL database classes of the history store: they are not part of this model. The factory's result names the class and its keyword arguments.
- SqlHistory.GetDatabase: the PostgreSQL and MySQL constructors are taken to succeed, because their classes are not part of this model.
- SqlHistory.DictRows: the PostgreSQL and MySQL classes are taken to return rows that support `get` and lookup by column name, because their classes are not part of this model. SessionRoundTrip, StoreThenGet, StoreTwiceThenList and the provider's GetSession and GetAllSessions rest on this for those backends.
- The SQL Server class behind the history store is not composed with `MssqlDatabase.MssqlDatabase`. The errors of its `connect` and `execute` come from the backend's fault oracle, which stands for any error the database raises.
- JSON: the serialiser is abstract; `Dumps` wraps a value and `Loads` reads it back.
- The layout whitespace of the triple-quoted SQL (create table, upsert, statistics): the model normalises it to single spaces.
- `%s` placeholders and the driver's parameter binding are left out. A statement is recorded as its text and its parameters.
- SqlHistory.DecodeRow: a value the driver already decoded is not re-parsed. A truthy decoded value that is not a dict becomes `LoadsError`, but Python's `json.loads` parses a decoded string and may succeed.
- `cursor(**kwargs)`: the keyword arguments are not modelled.
- Exceptions other than the driver's: on `connect`, only driver errors are caught; other exceptions are not modelled.
- `close()`: it only releases the connection.
- DatabaseService.MssqlSampleQuery: promises no `LIMIT` only when the table and column names hold none, because a name that spells `LIMIT` puts it in the query.
- DatabaseService.GetPrimaryKeys: an absent constraint and the empty dict are one case (`None`), because both are falsy to the source.
- MssqlDatabase.HostPort: the port taken from the host stays text, as in the source; the default is the integer 1433.
- Clocks and real I/O: the SQL engine, the ODBC driver and the history backend answer through oracles, and nothing waits.

## Findings

| source | as written | input that shows it | evidently intended | confidence | as-written member | corrected member |
|---|---|---|---|---|---|---|
| src/services/history_service/history_providers/sql_history_provider.py:103 | `get_session` calls `row.get("data")` on the fetched row. The SQL Server class's `execute` returns the ODBC driver's cursor (src/common/mssql_database.py:75), whose rows have no `get`. | `db_type` `mssql`: `store_session("s", {"a": 1})`, then `get_session("s")` | The stored dict reads back on every backend | not executed; relies on the ODBC driver's rows lacking `get`; the statements use `%s` markers where the ODBC driver binds `?`, so the example input may fail earlier, at the `execute` of line 94 or 101 | SqlHistory.MssqlStoredSessionUnreadable | SqlHistory.SessionRoundTrip |
| src/services/history_service/history_providers/sql_history_provider.py:114 | `get_all_sessions` reads `row["session_id"]` on each fetched row, which the ODBC driver's rows do not support. | `db_type` `mssql`: `store_session("s", {})`, then `get_all_sessions()` | The listing names every stored session on every backend | not executed; relies on the ODBC driver's rows lacking lookup by column name; the statements use `%s` markers where the ODBC driver binds `?`, so the example input may fail earlier, at the `execute` of line 94 or 113 | SqlHistory.MssqlListingFails | SqlHistory.StoreTwiceThenList |
