/** The connection manager of class.Database_1.0.php: an option array
    resolved through aliases, a driver/port table, the DSN handed to the
    PDO constructor, and the state machine over one session handle. */
module Connection {
  import opened Php
  import Pdo

  // ---------------------------------------------------------------------
  // Option array
  // ---------------------------------------------------------------------

  /** The option array passed to the constructor, `OptionSet` or `Connect`;
      a key mapped to None holds PHP null. */
  type Options = map<string, Option<string>>

  /** `isset($args[key]) ? $args[key] : <not set>` */
  function Get(args: Options, key: string): Option<string> {
    if key in args then args[key] else None
  }

  const DatabaseKeys: seq<string> := ["db", "database", "name", "schema"]
  const ServerKeys: seq<string> := ["host", "server"]
  const UserKeys: seq<string> := ["user", "username", "usr"]
  const PasswordKeys: seq<string> := ["pass", "password", "pwd"]
  const TypeKey := "type"

  const TypeDefault := "mysql"
  const KnownTypes: set<string> := {"oracle", "mysql", "mssql", "sqlite", "odbc"}

  /** The value of the first alias in `keys` that is set, else `current`. */
  function Resolve(args: Options, keys: seq<string>, current: string): string {
    FirstSome(seq(|keys|, i requires 0 <= i < |keys| => Get(args, keys[i]))).GetOr(current)
  }

  /** The alias that comes first in the list wins over every later one,
      whatever the later ones hold. */
  lemma {:induction false} FirstAliasWins(args: Options, keys: seq<string>, current: string, i: nat)
    requires i < |keys| && Get(args, keys[i]).Some?
    requires forall j :: 0 <= j < i ==> Get(args, keys[j]).None?
    ensures Resolve(args, keys, current) == Get(args, keys[i]).value
  {
    var cands := seq(|keys|, k requires 0 <= k < |keys| => Get(args, keys[k]));
    FirstSomeHead(cands, i);
  }

  /** A field none of whose aliases is set keeps its value. */
  lemma NoAliasKeeps(args: Options, keys: seq<string>, current: string)
    requires forall j :: 0 <= j < |keys| ==> Get(args, keys[j]).None?
    ensures Resolve(args, keys, current) == current
  {
    var cands := seq(|keys|, k requires 0 <= k < |keys| => Get(args, keys[k]));
    assert forall j :: 0 <= j < |cands| ==> cands[j].None?;
  }

  /** The `type` option: lowercased, and anything outside the five known
      kinds becomes the default `mysql`. */
  function NormalizeType(raw: string): (t: string)
    ensures t in KnownTypes
    ensures t == ToLower(raw) || t == TypeDefault
  {
    var lower := ToLower(raw);
    if lower in KnownTypes then lower else TypeDefault
  }

  /** Normalising twice changes nothing: a normalised type is a fixed point. */
  lemma NormalizeTypeIdempotent(raw: string)
    ensures NormalizeType(NormalizeType(raw)) == NormalizeType(raw)
  {
    var t := NormalizeType(raw);
    assert forall i :: 0 <= i < |t| ==> !IsUpper(t[i]);
    ToLowerFixes(t);
  }

  /** The upper-case spelling of a known kind is accepted. */
  lemma NormalizeTypeFolds(raw: string)
    requires ToLower(raw) in KnownTypes
    ensures NormalizeType(raw) == ToLower(raw)
  {
  }

  /** The values `ApplyOptions` writes, as one record. */
  datatype Settings = Settings(
    database: string, server: string, username: string, password: string,
    typeName: string, port: string)

  /** What `_OptionsSet` does to the settings. As written, a supplied `type`
      also overwrites the port with the lowercased raw type string. */
  function ApplyArgs(s: Settings, args: Options): Settings {
    var t := Get(args, TypeKey);
    Settings(
      Resolve(args, DatabaseKeys, s.database),
      Resolve(args, ServerKeys, s.server),
      Resolve(args, UserKeys, s.username),
      Resolve(args, PasswordKeys, s.password),
      if t.Some? then NormalizeType(t.value) else s.typeName,
      if t.Some? then ToLower(t.value) else s.port)
  }

  /** Applying an empty option array changes nothing. */
  lemma ApplyNothing(s: Settings)
    ensures ApplyArgs(s, map[]) == s
  {
    NoAliasKeeps(map[], DatabaseKeys, s.database);
    NoAliasKeeps(map[], ServerKeys, s.server);
    NoAliasKeeps(map[], UserKeys, s.username);
    NoAliasKeeps(map[], PasswordKeys, s.password);
  }

  /** After a `type` option, the type is always one of the known kinds. */
  lemma ApplyTypeKnown(s: Settings, args: Options)
    requires s.typeName == "" || s.typeName in KnownTypes
    ensures ApplyArgs(s, args).typeName == "" || ApplyArgs(s, args).typeName in KnownTypes
  {
  }

  /** `OptionGet`'s answer for a trimmed name (the `verbose`,
      `data_sanitize` and `data_validation` branches are not modelled). The
      password has no getter. */
  function OptionValue(s: Settings, name: string): Option<string> {
    var n := Trim(name);
    if n in DatabaseKeys then Some(s.database)
    else if n in ServerKeys then Some(s.server)
    else if n in UserKeys then Some(s.username)
    else if n == TypeKey then Some(s.typeName)
    else None
  }

  /** Names whose `OptionGet` branch is part of this model. */
  predicate Modelled(n: string) {
    n != "verbose" && n != "data_sanitize" && n != "data_validation"
  }

  /** An option array holding only `key` resolves every alias list that
      contains `key` to its value. */
  lemma OnlyAliasWins(keys: seq<string>, key: string, v: string, current: string)
    requires key in keys
    ensures Resolve(map[key := Some(v)], keys, current) == v
  {
    var args: Options := map[key := Some(v)];
    var cands := seq(|keys|, k requires 0 <= k < |keys| => Get(args, keys[k]));
    assert forall k :: 0 <= k < |keys| ==> cands[k] == None || cands[k] == Some(v);
    var i :| 0 <= i < |keys| && keys[i] == key;
    assert cands[i].Some?;
  }

  /** Setting a database, server or user under any single alias and reading
      it back under the same alias gives the value set. */
  lemma SetThenGet(s: Settings, key: string, v: string)
    requires key in DatabaseKeys || key in ServerKeys || key in UserKeys
    ensures OptionValue(ApplyArgs(s, map[key := Some(v)]), key) == Some(v)
  {
    var t := ApplyArgs(s, map[key := Some(v)]);
    TrimFixes(key);
    assert Trim(key) == key;
    if key in DatabaseKeys {
      OnlyAliasWins(DatabaseKeys, key, v, s.database);
      assert OptionValue(t, key) == Some(t.database);
    } else if key in ServerKeys {
      OnlyAliasWins(ServerKeys, key, v, s.server);
      assert OptionValue(t, key) == Some(t.server);
    } else {
      OnlyAliasWins(UserKeys, key, v, s.username);
      assert OptionValue(t, key) == Some(t.username);
    }
  }

  /** A name that is its own trim is looked up as it stands. */
  lemma OptionValueUntrimmed(s: Settings, name: string)
    requires Trim(name) == name
    ensures OptionValue(s, name) ==
      if name in DatabaseKeys then Some(s.database)
      else if name in ServerKeys then Some(s.server)
      else if name in UserKeys then Some(s.username)
      else if name == TypeKey then Some(s.typeName)
      else None
  {
  }

  /** The password cannot be read back under any of its aliases. */
  lemma PasswordNotReadable(s: Settings, key: string)
    requires key in PasswordKeys
    ensures OptionValue(s, key).None?
  {
    TrimFixes(key);
    OptionValueUntrimmed(s, key);
    assert key !in DatabaseKeys && key !in ServerKeys && key !in UserKeys && key != TypeKey;
  }

  // ---------------------------------------------------------------------
  // Readiness, driver table and DSN
  // ---------------------------------------------------------------------

  /** `_IsReady`: all four credentials non-empty and not flagged connected. */
  predicate ReadyFor(s: Settings, isConnected: bool) {
    s.database != "" && s.server != "" && s.username != "" && s.password != "" && !isConnected
  }

  datatype DriverEntry = DriverEntry(driver: string, portDefault: string)

  /** The `switch` of `_Load_Driver` as written: the oracle case is spelled
      "ocacle" and the second `mssql` case (meant for odbc) can never be
      reached, so every kind but sqlite and mssql gets mysql. */
  function DriverFor(typeName: string): (e: DriverEntry)
    ensures e.driver != "odbc"
    ensures e.driver == "oci" <==> typeName == "ocacle"
    ensures typeName == "sqlite" ==> e == DriverEntry("sqlite", "5432")
    ensures typeName == "mssql" ==> e == DriverEntry("mssql", "1433")
    ensures typeName !in {"sqlite", "ocacle", "mssql"} ==> e == DriverEntry("mysql", "3306")
  {
    if typeName == "sqlite" then DriverEntry("sqlite", "5432")
    else if typeName == "ocacle" then DriverEntry("oci", "1521")
    else if typeName == "mssql" then DriverEntry("mssql", "1433")
    else DriverEntry("mysql", "3306")
  }

  /** No type the options can produce selects the oci or odbc driver:
      "oracle" and "odbc" both connect with mysql on port 3306. */
  lemma OracleAndOdbcFallToMysql(s: Settings, args: Options)
    requires s.typeName == "" || s.typeName in KnownTypes
    ensures DriverFor(ApplyArgs(s, args).typeName).driver in {"sqlite", "mssql", "mysql"}
    ensures DriverFor("oracle") == DriverFor("odbc") == DriverEntry("mysql", "3306")
  {
  }

  function PortPart(port: string, portDefault: string): string {
    ";port=" + (if port == "" then portDefault else port)
  }

  function ServerPart(server: string): string {
    ":host=" + server
  }

  /** The database part, with the odbc separator `_Load_Driver` has. */
  function DatabasePart(driver: string, database: string): string {
    if driver == "odbc" then ":" + database else ";dbname=" + database
  }

  /** The connection string `Connect` builds from the settings. */
  function Dsn(s: Settings): string {
    var e := DriverFor(s.typeName);
    e.driver + ServerPart(s.server) + PortPart(s.port, e.portDefault) + DatabasePart(e.driver, s.database)
  }

  /** Every DSN has the one shape driver:host=..;port=..;dbname=.. : the
      odbc form is never produced. */
  lemma DsnShape(s: Settings)
    ensures Dsn(s) == DriverFor(s.typeName).driver + ":host=" + s.server + ";port="
      + (if s.port == "" then DriverFor(s.typeName).portDefault else s.port)
      + ";dbname=" + s.database
  {
  }

  /** As written, a `type` option also becomes the port: `sqlite` (in any
      case) connects on "port" sqlite. */
  lemma TypeBecomesPort(s: Settings, args: Options, raw: string)
    requires Get(args, TypeKey) == Some(raw) && ToLower(raw) == "sqlite"
    ensures ApplyArgs(s, args).port == ApplyArgs(s, args).typeName == "sqlite"
    ensures Dsn(ApplyArgs(s, args)) ==
      "sqlite:host=" + ApplyArgs(s, args).server + ";port=sqlite;dbname=" + ApplyArgs(s, args).database
  {
    var t := ApplyArgs(s, args);
    NormalizeTypeFolds(raw);
    assert t.typeName == "sqlite" && t.port == "sqlite";
    SqliteDsn(t);
  }

  lemma SqliteDsn(t: Settings)
    requires t.typeName == "sqlite" && t.port == "sqlite"
    ensures Dsn(t) == "sqlite:host=" + t.server + ";port=sqlite;dbname=" + t.database
  {
    var e := DriverFor(t.typeName);
    assert e == DriverEntry("sqlite", "5432");
    assert PortPart(t.port, e.portDefault) == ";port=" + "sqlite";
    assert DatabasePart(e.driver, t.database) == ";dbname=" + t.database;
    assert "sqlite" + ":host=" == "sqlite:host=";
    assert ";port=" + "sqlite" + ";dbname=" == ";port=sqlite;dbname=";
  }

  /** Database, host, user and pass given under mixed aliases make a
      manager that is not connected ready, whatever the type. */
  lemma ConfigReady(s: Settings, args: Options, d: string, h: string, u: string, p: string)
    requires Get(args, "db").None? && Get(args, "database") == Some(d)
    requires Get(args, "host") == Some(h) && Get(args, "user") == Some(u) && Get(args, "pass") == Some(p)
    requires d != "" && h != "" && u != "" && p != ""
    ensures ReadyFor(ApplyArgs(s, args), false)
    ensures ApplyArgs(s, args).database == d && ApplyArgs(s, args).server == h
  {
    FirstAliasWins(args, DatabaseKeys, s.database, 1);
    FirstAliasWins(args, ServerKeys, s.server, 0);
    FirstAliasWins(args, UserKeys, s.username, 0);
    FirstAliasWins(args, PasswordKeys, s.password, 0);
  }

  /** The same configuration with a type of sqlite in any case connects on
      "port" sqlite. */
  lemma ConfigSqliteDsn(s: Settings, args: Options, d: string, h: string, u: string, p: string, raw: string)
    requires Get(args, "db").None? && Get(args, "database") == Some(d)
    requires Get(args, "host") == Some(h) && Get(args, "user") == Some(u) && Get(args, "pass") == Some(p)
    requires Get(args, TypeKey) == Some(raw) && ToLower(raw) == "sqlite"
    requires d != "" && h != "" && u != "" && p != ""
    ensures Dsn(ApplyArgs(s, args)) == "sqlite:host=" + h + ";port=sqlite;dbname=" + d
  {
    ConfigReady(s, args, d, h, u, p);
    TypeBecomesPort(s, args, raw);
  }

  // ---------------------------------------------------------------------
  // Corrected readings (see README "Findings")
  // ---------------------------------------------------------------------

  /** The driver table with the oracle case spelled right and the second
      `mssql` case read as odbc: every known kind gets its own driver. */
  function IntendedDriverFor(typeName: string): (e: DriverEntry)
    ensures typeName == "oracle" ==> e == DriverEntry("oci", "1521")
    ensures typeName == "odbc" ==> e == DriverEntry("odbc", "")
    ensures typeName in {"sqlite", "mssql", "mysql"} ==> e == DriverFor(typeName)
    ensures typeName !in KnownTypes ==> e == DriverEntry("mysql", "3306")
  {
    match typeName
    case "sqlite" => DriverEntry("sqlite", "5432")
    case "oracle" => DriverEntry("oci", "1521")
    case "mssql" => DriverEntry("mssql", "1433")
    case "odbc" => DriverEntry("odbc", "")
    case _ => DriverEntry("mysql", "3306")
  }

  /** Under the corrected table distinct known kinds get distinct drivers. */
  lemma IntendedDriversDistinct(a: string, b: string)
    requires a in KnownTypes && b in KnownTypes && a != b
    ensures IntendedDriverFor(a).driver != IntendedDriverFor(b).driver
  {
  }

  /** `_OptionsSet` with the `_Port` block reading a `port` option instead
      of the type. */
  function IntendedApplyArgs(s: Settings, args: Options): (t: Settings)
    ensures t.typeName == ApplyArgs(s, args).typeName
    ensures Get(args, "port").None? ==> t.port == s.port
  {
    var p := Get(args, "port");
    ApplyArgs(s, args).(port := if p.Some? then p.value else s.port)
  }

  /** With the correction, a configuration without a port connects on the
      driver's default port. */
  lemma IntendedDefaultPort(s: Settings, args: Options)
    requires s.port == "" && Get(args, "port").None?
    ensures Dsn(IntendedApplyArgs(s, args)) ==
      DriverFor(IntendedApplyArgs(s, args).typeName).driver + ":host=" + IntendedApplyArgs(s, args).server
      + ";port=" + DriverFor(IntendedApplyArgs(s, args).typeName).portDefault
      + ";dbname=" + IntendedApplyArgs(s, args).database
  {
  }

  // ---------------------------------------------------------------------
  // The class
  // ---------------------------------------------------------------------

  class Database {
    var session: Pdo.Session?
    var isConnected: bool
    var database: string
    var server: string
    var username: string
    var password: string
    var typeName: string
    var port: string
    var databaseCurrent: string
    var serverCurrent: string
    var portCurrent: string
    var portDefault: string
    var driver: string

    /** The connected flag is only ever raised by `IsConnected` while a
        session exists, and cleared with the session. */
    ghost predicate Valid()
      reads this
    {
      (isConnected ==> session != null) && (typeName == "" || typeName in KnownTypes)
    }

    function Current(): Settings
      reads this
    {
      Settings(database, server, username, password, typeName, port)
    }

    /** `_IsReady` */
    predicate IsReady()
      reads this
      ensures IsReady() <==>
        database != "" && server != "" && username != "" && password != "" && !isConnected
    {
      ReadyFor(Current(), isConnected)
    }

    /** `new Database()` / `new Database($options)` */
    constructor (args: Option<Options>)
      ensures Valid() && session == null && !isConnected
      ensures Current() == if args.Some? then ApplyArgs(Settings("", "", "", "", "", ""), args.value)
                            else Settings("", "", "", "", "", "")
      ensures driver == portDefault == portCurrent == serverCurrent == databaseCurrent == ""
    {
      session := null;
      isConnected := false;
      database, server, username, password, typeName, port := "", "", "", "", "", "";
      databaseCurrent, serverCurrent, portCurrent, portDefault, driver := "", "", "", "", "";
      new;
      if args.Some? {
        ApplyOptions(args.value);
      }
    }

    /** `_OptionsSet`: each field takes the value of its first alias that
        is set and keeps its value when none is. */
    method ApplyOptions(args: Options)
      requires Valid()
      modifies this`database, this`server, this`username, this`password, this`typeName, this`port
      ensures Valid()
      ensures Current() == ApplyArgs(old(Current()), args)
    {
      database := Resolve(args, DatabaseKeys, database);
      server := Resolve(args, ServerKeys, server);
      username := Resolve(args, UserKeys, username);
      password := Resolve(args, PasswordKeys, password);
      var t := Get(args, TypeKey);
      if t.Some? {
        typeName := NormalizeType(t.value);
      }
      if t.Some? {
        port := ToLower(t.value);
      }
    }

    /** `OptionSet` */
    method OptionSet(args: Option<Options>)
      requires Valid()
      modifies this`database, this`server, this`username, this`password, this`typeName, this`port
      ensures Valid()
      ensures Current() == if args.Some? then ApplyArgs(old(Current()), args.value) else old(Current())
    {
      if args.Some? {
        ApplyOptions(args.value);
      }
    }

    /** `OptionGet` */
    method OptionGet(name: string) returns (r: Option<string>)
      requires Modelled(Trim(name))
      ensures Trim(name) in DatabaseKeys ==> r == Some(database)
      ensures Trim(name) in ServerKeys ==> r == Some(server)
      ensures Trim(name) in UserKeys ==> r == Some(username)
      ensures Trim(name) == TypeKey ==> r == Some(typeName)
      ensures Trim(name) in PasswordKeys ==> r == None
      ensures r == OptionValue(Current(), name)
    {
      var n := Trim(name);
      r := None;
      if n in DatabaseKeys {
        r := Some(database);
      }
      if n in ServerKeys {
        r := Some(server);
      }
      if n in UserKeys {
        r := Some(username);
      }
      if n == TypeKey {
        r := Some(typeName);
      }
    }

    /** `_Load_Driver`: the driver and default port from the type, then the
        three DSN fragments. */
    method LoadDriver()
      modifies this`driver, this`portDefault, this`portCurrent, this`serverCurrent, this`databaseCurrent
      ensures DriverEntry(driver, portDefault) == DriverFor(typeName)
      ensures portCurrent == PortPart(port, portDefault)
      ensures serverCurrent == ServerPart(server)
      ensures databaseCurrent == DatabasePart(driver, database)
      ensures driver + serverCurrent + portCurrent + databaseCurrent == Dsn(Current())
    {
      if typeName == "sqlite" {
        driver, portDefault := "sqlite", "5432";
      } else if typeName == "ocacle" {
        driver, portDefault := "oci", "1521";
      } else if typeName == "mssql" {
        driver, portDefault := "mssql", "1433";
      } else {
        driver, portDefault := "mysql", "3306";
      }
      if port == "" {
        portCurrent := ";port=" + portDefault;
      } else {
        portCurrent := ";port=" + port;
      }
      serverCurrent := ":host=" + server;
      databaseCurrent := DatabasePart(driver, database);
    }

    /** `Connect`: options first; then, only when there is no session yet
        and the credentials are complete, a new PDO session on the DSN.
        `accepted` is whether the PDO constructor returns (true) or throws. */
    method Connect(args: Option<Options>, accepted: bool)
      requires Valid()
      modifies this
      ensures Valid()
      ensures Current() == if args.Some? then ApplyArgs(old(Current()), args.value) else old(Current())
      ensures isConnected == old(isConnected)
      ensures old(session) != null ==> session == old(session)
      ensures old(session) == null && !IsReady() ==> session == null
      ensures old(session) == null && IsReady() ==>
        DriverEntry(driver, portDefault) == DriverFor(typeName) &&
        portCurrent == PortPart(port, portDefault) && serverCurrent == ServerPart(server) &&
        databaseCurrent == DatabasePart(driver, database) &&
        (session != null <==> accepted) &&
        (session != null ==> fresh(session) && session.dsn == Dsn(Current()) &&
                             session.username == username && session.password == password &&
                             !session.inTransaction && session.calls == [])
      ensures old(session) != null || !IsReady() ==>
        driver == old(driver) && portDefault == old(portDefault) && portCurrent == old(portCurrent) &&
        serverCurrent == old(serverCurrent) && databaseCurrent == old(databaseCurrent)
    {
      if args.Some? {
        ApplyOptions(args.value);
      }
      if session == null {
        if IsReady() {
          LoadDriver();
          var dsn := driver + serverCurrent + portCurrent + databaseCurrent;
          if accepted {
            session := new Pdo.Session(dsn, username, password);
          } else {
            session := null;
          }
        }
      }
    }

    /** `IsConnected`: whether a session exists, recorded in the flag. */
    method IsConnected() returns (r: bool)
      requires Valid()
      modifies this`isConnected
      ensures Valid()
      ensures r <==> session != null
      ensures isConnected == r
    {
      isConnected := session != null;
      r := isConnected;
    }

    /** `Disconnect`: drops the session when there is one, and otherwise
        changes nothing at all. */
    method Disconnect()
      requires Valid()
      modifies this
      ensures Valid()
      ensures session == null && !isConnected
      ensures old(session) == null ==> unchanged(this)
      ensures Current() == old(Current())
      ensures driver == old(driver) && portDefault == old(portDefault) && portCurrent == old(portCurrent)
      ensures serverCurrent == old(serverCurrent) && databaseCurrent == old(databaseCurrent)
    {
      var connected := IsConnected();
      if connected {
        session := null;
        isConnected := false;
      }
    }

    /** `SessionGet` */
    method SessionGet() returns (s: Pdo.Session?)
      ensures s == session
    {
      s := session;
    }
  }
}
