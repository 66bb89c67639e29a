# PSF Database and DAOGeneric, modelled in Dafny

This project models the data layer of the PSF PHP framework. It covers two
classes.

- `Database` (class.Database_1.0.php) is a connection manager. It
  resolves an option array through key aliases. It normalises the driver
  type and picks a driver and default port from a table. It assembles the
  PDO connection string (the DSN). It opens and drops one PDO session.
- `DAOGeneric` (docs/classes/class.DAOGeneric.php) is a generic data-access
  object. It binds a DTO (table name, database name and column list) to a
  `Database`. It builds a row template. It looks up columns and infers PDO
  parameter types. It wraps the session's transaction calls, runs
  `Truncate`, and has CRUD methods that are still stubs.

Files:

- `php.dfy` (module `Php`) holds the pieces of PHP semantics both classes
  rely on:
  - `isset` on option entries;
  - the `(boolean)` cast;
  - `strtolower` and `trim`;
  - "the first alias that is set wins".
- `pdo.dfy` (module `Pdo`) is the PDO session as the classes see it. It has
  an in-transaction flag and a ghost trace of the calls made on it. Every
  call takes a `fail` input, which stands for the driver throwing a
  `PDOException`. PDO's own rules also hold:
  - beginning while a transaction is open throws;
  - committing or rolling back with none open throws.
- `database.dfy` (module `Connection`) holds the pure definitions (alias
  resolution, type normalisation, driver table, DSN) and the class
  `Database`. The class has the same fields as the PHP class, and methods
  that update them in place.
- `dao.dfy` (module `Dao`) holds the DTO, the row template, the
  primary-key scan, parameter-type inference, the session effect of the
  transaction wrappers and `Truncate`, and the class `DAOGeneric`.

Names follow the source. A PHP private name `_X` becomes `X` because
Dafny reserves a leading underscore. `_OptionsSet` becomes `ApplyOptions`,
`_Load_Driver` becomes `LoadDriver`, and `_IsReady` becomes `IsReady`.
PHP 7 semantics are assumed, because both classes use old-style
constructors named after the class. Under PHP 7, `count(null)` is 0.

The classes keep the code as written, bugs included. The contracts state
those bugs outright, and "## Findings" pairs each one with a corrected
definition.

Three places where the code does something other than what it evidently
means are kept as written:

- The driver switch (class.Database_1.0.php:206-217) maps both oracle and
  odbc to mysql/3306.
- The option setter (class.Database_1.0.php:434-437) overwrites the port
  with the lowercased type.
- `PrimaryKeysGet` (docs/classes/class.DAOGeneric.php:46-48) always returns
  an empty list.

## Model

| member | source | states |
|---|---|---|
| Php.Truthy | docs/classes/class.DAOGeneric.php:603-609 | The `(boolean)` cast: null is false, a boolean is itself, an integer or float is true unless zero, an array is true unless empty, an object is true, and a string is true unless it is "" or "0". |
| Php.FirstSome | class.Database_1.0.php:385-418 | The result is None exactly when every candidate is None. Otherwise it is some candidate all of whose predecessors are None. |
| Php.FirstSomeHead | class.Database_1.0.php:385-418 | A set candidate preceded only by unset ones decides the result, whatever follows it. |
| Php.LowerChar | class.Database_1.0.php:421-422 | `strtolower` on one character: an upper-case ASCII letter becomes the letter at the same place in "a".."z", and anything else is unchanged. |
| Php.ToLower | class.Database_1.0.php:421-422 | `strtolower` keeps the length and lowercases each character in place. |
| Php.ToLowerFixes | class.Database_1.0.php:421-422 | A string with no upper-case letter is its own lowercase. |
| Php.TrimLeft | class.Database_1.0.php:297 | Left trim is no longer than its input and does not start with whitespace. |
| Php.TrimLeftDrops | class.Database_1.0.php:297 | Left trim gives a suffix of the input, and everything it cuts off is whitespace. |
| Php.TrimRight | class.Database_1.0.php:297 | Right trim is no longer than its input and does not end with whitespace. |
| Php.TrimRightDrops | class.Database_1.0.php:297 | Right trim gives a prefix of the input, and everything it cuts off is whitespace. |
| Php.TrimCuts | class.Database_1.0.php:297 | `trim` gives a slice of its input with only whitespace outside it, and the slice neither starts nor ends with whitespace. |
| Php.TrimFixes | class.Database_1.0.php:297 | A name that neither starts nor ends with whitespace is its own trim. |
| Pdo.Session.constructor | class.Database_1.0.php:61-66 | A new session carries the DSN, user and password it was opened with. It has no transaction and no calls. |
| Pdo.Session.BeginTransaction | docs/classes/class.DAOGeneric.php:116 | Succeeds exactly when no transaction is open and the driver does not throw. The open flag becomes "was open or succeeded", and the call is appended to the trace. |
| Pdo.Session.Commit | docs/classes/class.DAOGeneric.php:148 | Succeeds exactly when a transaction is open and the driver does not throw. A success closes the transaction, and the call is appended to the trace. |
| Pdo.Session.RollBack | docs/classes/class.DAOGeneric.php:180 | Succeeds exactly when a transaction is open and the driver does not throw. A success closes the transaction, and the call is appended to the trace. |
| Pdo.Session.Statement | docs/classes/class.DAOGeneric.php:439-441 | prepare, execute and closeCursor succeed unless the driver throws. They leave the transaction flag alone and are appended to the trace. |
| Connection.FirstAliasWins | class.Database_1.0.php:385-418 | The first alias in list order whose value is set gives the field's value, whatever the later aliases hold. |
| Connection.NoAliasKeeps | class.Database_1.0.php:385-418 | A field none of whose aliases is set keeps its current value. |
| Connection.NormalizeType | class.Database_1.0.php:421-432 | The normalised type is always one of oracle, mysql, mssql, sqlite and odbc. It is the lowercased input or, failing that, mysql. |
| Connection.NormalizeTypeIdempotent | class.Database_1.0.php:421-432 | Normalising a normalised type changes nothing. |
| Connection.NormalizeTypeFolds | class.Database_1.0.php:421-432 | Any case spelling of a known kind is accepted as that kind. |
| Connection.ApplyNothing | class.Database_1.0.php:355-446 | Applying an empty option array leaves every setting unchanged. |
| Connection.ApplyTypeKnown | class.Database_1.0.php:421-432 | Applying options preserves "the type is empty or a known kind". |
| Connection.SetThenGet | class.Database_1.0.php:292-353 | A database, server or user value set under any one alias reads back under that alias. |
| Connection.PasswordNotReadable | class.Database_1.0.php:292-353 | No password alias can be read back: `OptionGet` has no password branch. |
| Connection.DriverFor | class.Database_1.0.php:200-221 | The driver switch as written. sqlite gives sqlite/5432 and mssql gives mssql/1433. oci is chosen only for the misspelling "ocacle", odbc never. Everything else gives mysql/3306. |
| Connection.OracleAndOdbcFallToMysql | class.Database_1.0.php:200-221 | No type the options can produce selects oci or odbc. oracle and odbc both connect with mysql on 3306. |
| Connection.DsnShape | class.Database_1.0.php:224-248 | Every DSN is driver, ":host=" server, ";port=" (the port, or the driver default when the port is empty), ";dbname=" database. The odbc form is never built. |
| Connection.TypeBecomesPort | class.Database_1.0.php:434-437 | A `type` of sqlite in any case also sets the port to "sqlite", and the DSN then reads `sqlite:host=..;port=sqlite;dbname=..`. |
| Connection.SqliteDsn | class.Database_1.0.php:224-248 | With type and port both "sqlite", the DSN is `sqlite:host=<server>;port=sqlite;dbname=<database>`. |
| Connection.ConfigReady | class.Database_1.0.php:169-183 | Database, host, user and pass given under mixed aliases make a manager that is not connected ready, whatever the type, with the database and server taken from those aliases. |
| Connection.ConfigSqliteDsn | class.Database_1.0.php:434-437 | With type sqlite in any case, the same configuration connects with DSN `sqlite:host=<host>;port=sqlite;dbname=<database>`. |
| Connection.IntendedDriverFor | class.Database_1.0.php:200-221 | The corrected table: oracle gives oci/1521, odbc gives odbc with no default port, the other kinds are as written, and unknown names give mysql. |
| Connection.IntendedDriversDistinct | class.Database_1.0.php:200-221 | Under the corrected table, distinct known kinds get distinct drivers. |
| Connection.IntendedApplyArgs | class.Database_1.0.php:434-437 | The corrected option setter keeps the same type. The port changes only through a `port` option. |
| Connection.IntendedDefaultPort | class.Database_1.0.php:224-231 | With the correction, a configuration without a port connects on the driver's default port. |
| Connection.Database.constructor | class.Database_1.0.php:262-271 | A new manager has no session and is not flagged connected. Its settings are the defaults with the options (if any) applied, and the derived DSN fields are empty. |
| Connection.Database.ApplyOptions | class.Database_1.0.php:355-446 | The six settings become `ApplyArgs` of the old ones. No other field changes, and the type invariant is kept. |
| Connection.Database.OptionSet | class.Database_1.0.php:273-290 | With options, it applies them. Without options, the settings are unchanged. |
| Connection.Database.OptionGet | class.Database_1.0.php:292-353 | The trimmed name selects the database, server, user or type field. A password alias, or any other name, returns unset. |
| Connection.Database.LoadDriver | class.Database_1.0.php:194-256 | The driver and default port come from `DriverFor`. The three DSN fragments are filled in, and their concatenation equals `Dsn` of the settings. |
| Connection.Database.Connect | class.Database_1.0.php:37-101 | Options are applied first. An existing session is kept, and no session is opened when `_IsReady` fails. Otherwise the driver is loaded (all five DSN fields as in `LoadDriver`) and the session is a fresh one on `Dsn(settings)` when the PDO constructor accepts, and null when it fails. The connected flag is not changed. |
| Connection.Database.IsReady | class.Database_1.0.php:169-192 | True exactly when database, server, user and password are all non-empty and the manager is not flagged connected. |
| Connection.Database.IsConnected | class.Database_1.0.php:140-151 | Returns true exactly when a session exists and stores that answer in the connected flag. |
| Connection.Database.Disconnect | class.Database_1.0.php:103-130 | Afterwards there is no session and the manager is not flagged connected. Without a session nothing changes at all. |
| Connection.Database.SessionGet | class.Database_1.0.php:132-138 | Returns the current session (possibly null). |
| Dao.Template | docs/classes/class.DAOGeneric.php:82-84 | The row template has one entry per column, in column order, with the column name as key and "" as value. |
| Dao.TemplateKeys | docs/classes/class.DAOGeneric.php:82-84 | The template's keys are distinct. A string is a key of the template exactly when it names a column. |
| Dao.TemplateAppend | docs/classes/class.DAOGeneric.php:82-84 | Adding a column to the list adds its ("name", "") entry at the end of the template. |
| Dao.PrimaryKeysAsWrittenEmpty | docs/classes/class.DAOGeneric.php:43-51 | With the unassigned `$key` (null), the primary-key scan never reports a column. |
| Dao.PrimaryKeys | docs/classes/class.DAOGeneric.php:40-67 | The corrected scan: a name is reported exactly when some column of that name has `is_key` 'PRI'. There are never more names than columns. |
| Dao.PrimaryKeyLost | docs/classes/class.DAOGeneric.php:43-51 | A one-column table keyed 'PRI' gets [] from the scan as written and ["id"] from the corrected one. |
| Dao.InferPDOParam | docs/classes/class.DAOGeneric.php:509-529 | Exactly one of the four constants. PARAM_NULL exactly for null, PARAM_BOOL exactly for booleans, PARAM_INT exactly for integers, and PARAM_STR for everything else. |
| Dao.BoolNeverInt | docs/classes/class.DAOGeneric.php:512-517 | Because booleans are tested before integers, true and false are typed bool and never int, while 1 and 0 are typed int. |
| Dao.AcidPrecedence | docs/classes/class.DAOGeneric.php:603-609 | `acid` wins over `use_acid`, and neither keeps the flag. The string "false" turns transactions on and "0" turns them off. |
| Dao.TruncateCommits | docs/classes/class.DAOGeneric.php:436-443 | With transactions on and nothing failing, the calls are begin, prepare, execute, closeCursor, commit, and no transaction is left open. |
| Dao.TruncateCommitsOpenTransaction | docs/classes/class.DAOGeneric.php:437-442 | With transactions on and a transaction already open, the nested begin throws and is ignored, and the final commit closes the caller's transaction. |
| Dao.TruncateRollsBack | docs/classes/class.DAOGeneric.php:451-452 | With transactions on, when the statement throws, the last call is a rollback and no commit is made. |
| Dao.TruncateIgnoresBegin | docs/classes/class.DAOGeneric.php:437-439 | The TRUNCATE is prepared whatever `TransactionBegin` returned, right after it (or first, with transactions off). |
| Dao.TruncateWithoutAcid | docs/classes/class.DAOGeneric.php:434-459 | With transactions off, only the statement's calls are made and the transaction flag is untouched. |
| Dao.TruncateClosesTransaction | docs/classes/class.DAOGeneric.php:434-459 | Starting outside a transaction, Truncate leaves none open unless the commit or rollback itself throws. |
| Dao.DAOGeneric.ApplyOptions | docs/classes/class.DAOGeneric.php:576-618 | Database object, DTO and acid flag each come from their first set alias, and stay unchanged when none is set. The acid value goes through the `(boolean)` cast. |
| Dao.DAOGeneric.OptionsSet | docs/classes/class.DAOGeneric.php:626-639 | With options, as `ApplyOptions`. Without options, nothing changes. Ready and the cached template are never touched. |
| Dao.DAOGeneric.InterfaceGet | docs/classes/class.DAOGeneric.php:75-102 | Without a DTO, []. With a non-empty cache, the cached row, unchanged. Otherwise the template of the DTO's columns, which is then cached. |
| Dao.DAOGeneric.IsReady | docs/classes/class.DAOGeneric.php:682-702 | True exactly when a database with a session, a DTO, the template, the table name and the database name are all set. Asking refreshes the database's connected flag and changes nothing else. |
| Dao.DAOGeneric.constructor | docs/classes/class.DAOGeneric.php:541-568 | Options first. With a DTO, the table and database names are copied from it, the template is built, and `_Ready` is computed once. Without a DTO nothing else is set, the DAO is not ready and the bound database's connected flag is untouched. The bound database keeps its session and settings; with a DTO its connected flag then records whether a session exists. |
| Dao.DAOGeneric.IsColumn | docs/classes/class.DAOGeneric.php:467-501 | True exactly when the DAO is ready, the name is not null, and some column has exactly that name. |
| Dao.DAOGeneric.PrimaryKeysGet | docs/classes/class.DAOGeneric.php:40-67 | The loop as written, equal to `PrimaryKeysAsWritten` with a null key, which is always []. |
| Dao.DAOGeneric.InferParam | docs/classes/class.DAOGeneric.php:509-529 | Returns `InferPDOParam` of the value. |
| Dao.DAOGeneric.TransactionBegin | docs/classes/class.DAOGeneric.php:111-134 | True exactly when ready, transactions are on, no transaction is open and the driver does not throw. When not ready or with transactions off, the session is not touched. |
| Dao.DAOGeneric.TransactionCommit | docs/classes/class.DAOGeneric.php:143-166 | True exactly when ready, transactions are on, a transaction is open and the driver does not throw. When not ready or with transactions off, the session is not touched. |
| Dao.DAOGeneric.TransactionRollback | docs/classes/class.DAOGeneric.php:175-199 | True exactly when ready, transactions are on, a transaction is open and the driver does not throw. When not ready or with transactions off, the session is not touched. |
| Dao.DAOGeneric.Truncate | docs/classes/class.DAOGeneric.php:434-459 | When ready, the session's new calls and transaction flag are exactly `TruncateEffect` on `TRUNCATE <database>.<table>`. When not ready, no session call is made. |
| Dao.DAOGeneric.RunStatement | docs/classes/class.DAOGeneric.php:439-441 | prepare, execute and closeCursor up to the first that throws. It succeeds exactly when none throws, and the transaction flag is untouched. |
| Dao.DAOGeneric.Query | docs/classes/class.DAOGeneric.php:208-242 | Always []. When ready, a prepare followed (unless it throws) by closeCursor, with no bind and no execute. |
| Dao.DAOGeneric.Execute | docs/classes/class.DAOGeneric.php:251-272 | Always 0. |
| Dao.DAOGeneric.CountAll | docs/classes/class.DAOGeneric.php:281-302 | Always 0. |
| Dao.DAOGeneric.GetAll | docs/classes/class.DAOGeneric.php:311-333 | Always 0, not an array. |
| Dao.DAOGeneric.Insert | docs/classes/class.DAOGeneric.php:342-364 | Always 0. |
| Dao.DAOGeneric.Update | docs/classes/class.DAOGeneric.php:373-395 | Always 0. |
| Dao.DAOGeneric.Delete | docs/classes/class.DAOGeneric.php:404-426 | Always 0. |

`_Ready` is written only by the constructor: no other method of
`Dao.DAOGeneric` has `ready` in its frame, so no later call recomputes it.

## Left out

- Logging (`_Log` in both classes) echoes HTML or forwards to an external log object. It is a no-op in the model, and every "logs a warning" path is just the path with no state change.
- The `verbose`, `debug`, `log_object`, `data_sanitize` and `data_validation` options, and the getters `DataSanitizeGet` and `DataValidationGet`, only pass external objects through. They are not modelled.
- Connection.Database.OptionGet: requires the trimmed name not to be `verbose`, `data_sanitize` or `data_validation`. The `verbose` branch reads a variable property through an undefined variable, and the other two return external objects.
- Calling a session method when the `Database` holds no session is a PHP fatal error, which `catch (Exception ...)` does not catch. The transaction wrappers, `Truncate` and `Query` therefore require a session when they would use it.
- Driver failures are modelled as under `PDO::ERRMODE_EXCEPTION`: a failing PDO call throws. `Database` never sets `ATTR_ERRMODE` (class.Database_1.0.php:61-66), so under PHP 7's silent default a failing `beginTransaction`, `commit`, `rollBack` or `execute` returns false instead, and `prepare` returning false is then followed by a call on false. The members below differ under that default.
- Dao.DAOGeneric.TransactionBegin: under the silent default a failing `beginTransaction` returns false and the wrapper still returns true; the model returns false.
- Dao.DAOGeneric.TransactionCommit: under the silent default a failing `commit` returns false and the wrapper still returns true; the model returns false.
- Dao.DAOGeneric.TransactionRollback: under the silent default a failing `rollBack` returns false and the wrapper still returns true; the model returns false.
- Dao.DAOGeneric.Truncate: under the silent default a failing `execute` is followed by `closeCursor` and the commit wrapper, not by a rollback; the model rolls back.
- PDO internals are not modelled: SQL semantics, the effect of TRUNCATE on data, cursor contents and result sets. The statement object returned by `prepare` is folded into the session's call trace.
- Dao.DAOGeneric.Query: does not model `bindValue`. The binding loop reads an undefined `$Params`, so it never runs.
- `strtolower` is modelled as ASCII lowercasing, as in the "C" locale. PHP 7 takes `LC_CTYPE` from the environment, so other locales may also fold non-ASCII bytes. PHP strings are bytes, while the model's strings are sequences of `char`.
- Option values of `Database` are strings or null. Non-string values (which PHP would convert on concatenation) are not modelled.
- Dao.DaoOptions: the DAO option array is a record with one field per accepted key. A value of the wrong type (a non-object database, for example) would be a PHP fatal error later and is not modelled.
- Column keys are strings. PHP's conversion of numeric-string keys to integers is not modelled.
- The DTO is a value copied into the DAO, not a shared object. Later changes made to the DTO object from outside are not seen.
- The PDO constructor is an input (`accepted`) of `Connect`. Its failure reasons are not modelled.
- PHP 8 behaviour (`count(null)` throwing, constructors named after the class no longer being constructors) is not modelled. The model follows PHP 7.
- configuration/class.Configuration.php holds only constants and a literal array. It is not part of this model.

## Findings

| source | as written | input that shows it | evidently intended | confidence | as-written member | corrected member |
|---|---|---|---|---|---|---|
| class.Database_1.0.php:206-217 | the oracle case is spelled `'ocacle'`, and the odbc case is a second `case 'mssql'` that cannot be reached | option `type` = "oracle" or "odbc" | oracle connects with oci on 1521, odbc with odbc | not executed | Connection.OracleAndOdbcFallToMysql | Connection.IntendedDriversDistinct |
| class.Database_1.0.php:434-437 | the port is set to the lowercased `type` option | option `type` = "sqlite" with no port: the DSN has `;port=sqlite` | the port comes from its own option, and the driver default applies when none is given | not executed | Connection.TypeBecomesPort | Connection.IntendedDefaultPort |
| docs/classes/class.DAOGeneric.php:46-48 | each column key is compared with `$key`, which is never assigned in that method | a ready DAO whose DTO has column "id" with `is_key` 'PRI': the result is [] | the names of the columns whose `is_key` is 'PRI' | not executed | Dao.PrimaryKeyLost | Dao.PrimaryKeys |
