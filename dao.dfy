/** The generic data-access object of docs/classes/class.DAOGeneric.php: a
    DTO (table, database and column list) bound to a `Database`, a row
    template, column lookups, parameter-type inference, transaction
    wrappers over the PDO session, `Truncate`, and the unfinished CRUD
    methods that return fixed values. */
module Dao {
  import opened Php
  import Pdo
  import Connection

  // ---------------------------------------------------------------------
  // The Data Transfer Object
  // ---------------------------------------------------------------------

  /** One entry of `$dto->Columns`: its key and its `is_key` attribute. */
  datatype Column = Column(name: string, isKey: Value)

  /** Keys of a PHP array are distinct. */
  predicate UniqueNames(cols: seq<Column>) {
    forall i, j :: 0 <= i < j < |cols| ==> cols[i].name != cols[j].name
  }

  type Columns = cols: seq<Column> | UniqueNames(cols) witness []

  /** `$dto->Table`, `$dto->Database` (None when null) and `$dto->Columns`. */
  datatype Dto = Dto(table: Option<string>, database: Option<string>, columns: Columns)

  /** A row as a PHP array: (key, value) pairs in insertion order. */
  type Row = seq<(string, string)>

  /** The empty row: every column name, in order, mapped to "". */
  function Template(cols: seq<Column>): (r: Row)
    ensures |r| == |cols|
    ensures forall i :: 0 <= i < |cols| ==> r[i].0 == cols[i].name && r[i].1 == ""
  {
    if cols == [] then [] else [(cols[0].name, "")] + Template(cols[1..])
  }

  /** The template's keys are distinct, so it is a well-formed PHP array,
      and a string is one of its keys exactly when it names a column. */
  lemma TemplateKeys(cols: Columns, n: string)
    ensures forall i, j :: 0 <= i < j < |Template(cols)| ==> Template(cols)[i].0 != Template(cols)[j].0
    ensures (exists i :: 0 <= i < |Template(cols)| && Template(cols)[i].0 == n) <==>
            (exists i :: 0 <= i < |cols| && cols[i].name == n)
  {
    var t := Template(cols);
    if exists i :: 0 <= i < |t| && t[i].0 == n {
      var i :| 0 <= i < |t| && t[i].0 == n;
      assert cols[i].name == n;
    }
    if exists i :: 0 <= i < |cols| && cols[i].name == n {
      var i :| 0 <= i < |cols| && cols[i].name == n;
      assert t[i].0 == n;
    }
  }

  predicate IsPrimary(c: Column) {
    c.isKey == VString("PRI")
  }

  /** `PrimaryKeysGet`'s loop as written: it compares each column key with
      `key` and adds `key` when they are equal and the column is 'PRI'. In
      the source `key` is `$key`, a variable never assigned in that method,
      so null (None). */
  function PrimaryKeysAsWritten(cols: seq<Column>, key: Option<string>): seq<string> {
    if cols == [] then []
    else if key == Some(cols[0].name) && IsPrimary(cols[0]) then [key.value] + PrimaryKeysAsWritten(cols[1..], key)
    else PrimaryKeysAsWritten(cols[1..], key)
  }

  /** As written (with `$key` null), no column is ever reported as a
      primary key. */
  lemma {:induction false} PrimaryKeysAsWrittenEmpty(cols: seq<Column>)
    ensures PrimaryKeysAsWritten(cols, None) == []
  {
    if cols != [] {
      PrimaryKeysAsWrittenEmpty(cols[1..]);
    }
  }

  /** The evidently intended result: the names of the columns whose
      `is_key` is 'PRI', in column order. */
  function PrimaryKeys(cols: seq<Column>): (r: seq<string>)
    ensures |r| <= |cols|
    ensures forall n :: n in r <==> exists i :: 0 <= i < |cols| && cols[i].name == n && IsPrimary(cols[i])
  {
    if cols == [] then []
    else
      var rest := PrimaryKeys(cols[1..]);
      assert forall i :: 1 <= i < |cols| ==> cols[i] == cols[1..][i - 1];
      if IsPrimary(cols[0]) then [cols[0].name] + rest else rest
  }

  /** A table with a primary key shows the difference. */
  lemma PrimaryKeyLost()
    ensures PrimaryKeysAsWritten([Column("id", VString("PRI"))], None) == []
    ensures PrimaryKeys([Column("id", VString("PRI"))]) == ["id"]
  {
    PrimaryKeysAsWrittenEmpty([Column("id", VString("PRI"))]);
  }

  // ---------------------------------------------------------------------
  // Parameter-type inference
  // ---------------------------------------------------------------------

  const ParamNull := "PDO::PARAM_NULL"
  const ParamBool := "PDO::PARAM_BOOL"
  const ParamInt := "PDO::PARAM_INT"
  const ParamStr := "PDO::PARAM_STR"

  /** `InferPDOParam`: null, then bool, then int, and a string for anything
      else (the names of the constants, as strings). */
  function InferPDOParam(v: Value): (t: string)
    ensures t in {ParamNull, ParamBool, ParamInt, ParamStr}
    ensures t == ParamNull <==> v.VNull?
    ensures t == ParamBool <==> v.VBool?
    ensures t == ParamInt <==> v.VInt?
    ensures t == ParamStr <==> !(v.VNull? || v.VBool? || v.VInt?)
  {
    if v.VNull? then ParamNull
    else if v.VBool? then ParamBool
    else if v.VInt? then ParamInt
    else ParamStr
  }

  /** Booleans are tested before integers: true and false are never typed
      as integers, while 0 and 1 are. */
  lemma BoolNeverInt(b: bool)
    ensures InferPDOParam(VBool(b)) == ParamBool != InferPDOParam(VInt(if b then 1 else 0))
    ensures InferPDOParam(VInt(if b then 1 else 0)) == ParamInt
  {
  }

  // ---------------------------------------------------------------------
  // Option array
  // ---------------------------------------------------------------------

  /** The option array: one field per accepted key, None when the key is
      absent or null. (`verbose`/`debug` only drive logging.) */
  datatype DaoOptions = DaoOptions(
    databaseObject: Option<Connection.Database>,
    database: Option<Connection.Database>,
    db: Option<Connection.Database>,
    dto: Option<Dto>,
    datatransferobject: Option<Dto>,
    acid: Option<SetValue>,
    useAcid: Option<SetValue>)

  /** `DatabaseObject`, then `database`, then `db`. */
  function ChosenDatabase(o: DaoOptions): Option<Connection.Database> {
    FirstSome([o.databaseObject, o.database, o.db])
  }

  /** `dto`, then `datatransferobject`. */
  function ChosenDto(o: DaoOptions): Option<Dto> {
    FirstSome([o.dto, o.datatransferobject])
  }

  /** The database object the constructor binds, or null. */
  function DatabaseOf(args: Option<DaoOptions>): Connection.Database? {
    if args.Some? && ChosenDatabase(args.value).Some? then ChosenDatabase(args.value).value else null
  }

  /** `acid`, then `use_acid`, cast with `(boolean)`; unchanged otherwise. */
  function AcidAfter(o: DaoOptions, current: bool): bool {
    match FirstSome([o.acid, o.useAcid])
    case Some(v) => Truthy(v)
    case None => current
  }

  /** `acid` wins over `use_acid`; only the `(boolean)` cast reads it, so
      the string "false" turns transactions on and "0" turns them off. */
  lemma AcidPrecedence(o: DaoOptions, current: bool)
    ensures o.acid.Some? ==> AcidAfter(o, current) == Truthy(o.acid.value)
    ensures o.acid.None? && o.useAcid.Some? ==> AcidAfter(o, current) == Truthy(o.useAcid.value)
    ensures o.acid.None? && o.useAcid.None? ==> AcidAfter(o, current) == current
    ensures o.acid.Some? && o.acid.value == VString("false") ==> AcidAfter(o, current)
    ensures o.acid.Some? && o.acid.value == VString("0") ==> !AcidAfter(o, current)
  {
    if o.acid.None? && o.useAcid.Some? {
      FirstSomeHead([o.acid, o.useAcid], 1);
    }
  }

  // ---------------------------------------------------------------------
  // Session calls of Truncate
  // ---------------------------------------------------------------------

  /** The session calls the driver makes throw during one operation. */
  datatype Step = BeginStep | PrepareStep | ExecuteStep | CloseStep | CommitStep | RollbackStep

  /** Calls added to the session and the transaction flag after them. */
  datatype Effect = Effect(calls: seq<Pdo.Call>, inTransaction: bool)

  /** One of `TransactionBegin`/`Commit`/`Rollback` on a ready DAO: with
      transactions off it makes no call at all. */
  function WrapperEffect(call: Pdo.Call, useAcid: bool, inTx: bool, fail: bool): Effect {
    if !useAcid then Effect([], inTx)
    else if call.BeginTransaction? then Effect([call], inTx || !fail)
    else Effect([call], inTx && fail)
  }

  predicate StatementFails(fails: set<Step>) {
    PrepareStep in fails || ExecuteStep in fails || CloseStep in fails
  }

  /** prepare, execute, closeCursor, stopping at the first that throws. */
  function StatementCalls(sql: string, fails: set<Step>): seq<Pdo.Call> {
    if PrepareStep in fails then [Pdo.Prepare(sql)]
    else if ExecuteStep in fails then [Pdo.Prepare(sql), Pdo.Execute]
    else [Pdo.Prepare(sql), Pdo.Execute, Pdo.CloseCursor]
  }

  function TruncateSql(database: string, table: string): string {
    "TRUNCATE " + database + "." + table
  }

  /** `Truncate` on a ready DAO: begin (its result ignored), the statement,
      then commit; a statement that throws sends it to rollback instead. */
  function TruncateEffect(useAcid: bool, inTx: bool, fails: set<Step>, sql: string): Effect {
    var b := WrapperEffect(Pdo.BeginTransaction, useAcid, inTx, BeginStep in fails);
    var e := if StatementFails(fails)
             then WrapperEffect(Pdo.RollBack, useAcid, b.inTransaction, RollbackStep in fails)
             else WrapperEffect(Pdo.Commit, useAcid, b.inTransaction, CommitStep in fails);
    Effect(b.calls + StatementCalls(sql, fails) + e.calls, e.inTransaction)
  }

  /** `TruncateEffect` is begin, statement, then commit or rollback. */
  lemma TruncateEffectSteps(useAcid: bool, inTx: bool, fails: set<Step>, sql: string)
    ensures var b := WrapperEffect(Pdo.BeginTransaction, useAcid, inTx, BeginStep in fails);
      var e := if StatementFails(fails)
               then WrapperEffect(Pdo.RollBack, useAcid, b.inTransaction, RollbackStep in fails)
               else WrapperEffect(Pdo.Commit, useAcid, b.inTransaction, CommitStep in fails);
      TruncateEffect(useAcid, inTx, fails, sql) == Effect(b.calls + StatementCalls(sql, fails) + e.calls, e.inTransaction)
  {
  }

  /** With nothing failing, the truncate runs inside one transaction that
      is committed. */
  lemma TruncateCommits(sql: string)
    ensures TruncateEffect(true, false, {}, sql) ==
      Effect([Pdo.BeginTransaction, Pdo.Prepare(sql), Pdo.Execute, Pdo.CloseCursor, Pdo.Commit], false)
  {
  }

  /** Called inside a transaction the caller opened, the nested begin
      throws and is swallowed, and the final commit then commits the
      caller's transaction. */
  lemma TruncateCommitsOpenTransaction(sql: string)
    ensures TruncateEffect(true, true, {}, sql) ==
      Effect([Pdo.BeginTransaction, Pdo.Prepare(sql), Pdo.Execute, Pdo.CloseCursor, Pdo.Commit], false)
  {
  }

  /** A statement that throws is followed by a rollback and never by a
      commit, and the rollback is the last call. */
  lemma TruncateRollsBack(inTx: bool, fails: set<Step>, sql: string)
    requires StatementFails(fails)
    ensures var c := TruncateEffect(true, inTx, fails, sql).calls;
      c[|c| - 1] == Pdo.RollBack && Pdo.Commit !in c
  {
    var c := TruncateEffect(true, inTx, fails, sql).calls;
    assert c == [Pdo.BeginTransaction] + StatementCalls(sql, fails) + [Pdo.RollBack];
  }

  /** The statement is issued whatever `TransactionBegin` returned, and
      always starts with the prepare of the truncate. */
  lemma TruncateIgnoresBegin(useAcid: bool, inTx: bool, fails: set<Step>, sql: string)
    ensures var c := TruncateEffect(useAcid, inTx, fails, sql).calls;
      Pdo.Prepare(sql) in c &&
      c[if useAcid then 1 else 0] == Pdo.Prepare(sql)
  {
  }

  /** Without transactions only the statement's own calls are made and the
      session's transaction flag is left alone. */
  lemma TruncateWithoutAcid(inTx: bool, fails: set<Step>, sql: string)
    ensures TruncateEffect(false, inTx, fails, sql) == Effect(StatementCalls(sql, fails), inTx)
  {
  }

  /** Starting outside a transaction, `Truncate` never leaves one open
      unless the commit or rollback itself throws. */
  lemma TruncateClosesTransaction(useAcid: bool, fails: set<Step>, sql: string)
    requires CommitStep !in fails && RollbackStep !in fails
    ensures !TruncateEffect(useAcid, false, fails, sql).inTransaction
  {
  }

  // ---------------------------------------------------------------------
  // The class
  // ---------------------------------------------------------------------

  class DAOGeneric {
    var ready: bool
    var iface: Option<Row>
    var tableName: Option<string>
    var databaseName: Option<string>
    var useAcid: bool
    var database: Connection.Database?
    var dto: Option<Dto>

    /** `_Ready` was computed from fields that no later call unsets. */
    ghost predicate Valid()
      reads this
    {
      ready ==> database != null && dto.Some? && iface.Some? && tableName.Some? && databaseName.Some?
    }

    /** `_OptionsSet` */
    method ApplyOptions(o: DaoOptions)
      requires Valid()
      modifies this`database, this`dto, this`useAcid
      ensures Valid()
      ensures database == (if ChosenDatabase(o).Some? then ChosenDatabase(o).value else old(database))
      ensures dto == (if ChosenDto(o).Some? then ChosenDto(o) else old(dto))
      ensures useAcid == AcidAfter(o, old(useAcid))
    {
      var d := FirstSome([o.databaseObject, o.database, o.db]);
      if d.Some? {
        database := d.value;
      }
      var t := FirstSome([o.dto, o.datatransferobject]);
      if t.Some? {
        dto := t;
      }
      var a := FirstSome([o.acid, o.useAcid]);
      if a.Some? {
        useAcid := Truthy(a.value);
      }
    }

    /** `OptionsSet`: the option fields change, `_Ready` and the cached
        template do not. */
    method OptionsSet(args: Option<DaoOptions>)
      requires Valid()
      modifies this`database, this`dto, this`useAcid
      ensures Valid()
      ensures args.None? ==> database == old(database) && dto == old(dto) && useAcid == old(useAcid)
      ensures args.Some? ==> database == (if ChosenDatabase(args.value).Some? then ChosenDatabase(args.value).value else old(database))
      ensures args.Some? ==> dto == (if ChosenDto(args.value).Some? then ChosenDto(args.value) else old(dto))
      ensures args.Some? ==> useAcid == AcidAfter(args.value, old(useAcid))
    {
      if args.Some? {
        ApplyOptions(args.value);
      }
    }

    /** `InterfaceGet`: with a DTO, the cached template when there is a
        non-empty one, else the template of the current columns, which is
        then cached; without a DTO, an empty array. */
    method InterfaceGet() returns (r: Row)
      modifies this`iface
      ensures dto.None? ==> r == [] && iface == old(iface)
      ensures dto.Some? && old(iface).Some? && |old(iface).value| > 0 ==> r == old(iface).value && iface == old(iface)
      ensures dto.Some? && (old(iface).None? || |old(iface).value| == 0) ==>
        r == Template(dto.value.columns) && iface == Some(r)
    {
      r := [];
      if dto.Some? {
        if iface.Some? && |iface.value| > 0 {
          r := iface.value;
        } else {
          var cols := dto.value.columns;
          var i := 0;
          while i < |cols|
            invariant 0 <= i <= |cols|
            invariant r == Template(cols[..i])
          {
            assert cols[..i + 1] == cols[..i] + [cols[i]];
            TemplateAppend(cols[..i], cols[i]);
            r := r + [(cols[i].name, "")];
            i := i + 1;
          }
          assert cols[..i] == cols;
          iface := Some(r);
        }
      }
    }

    /** `_IsReady`; asking the database whether it is connected refreshes
        the database's own connected flag. */
    method IsReady() returns (r: bool)
      requires database != null ==> database.Valid()
      modifies {database}`isConnected
      ensures database != null ==> database.Valid() && database.isConnected == (database.session != null)
      ensures database != null ==>
        (database.session == old(database.session) && database.Current() == old(database.Current()))
      ensures r <==>
        (database != null && database.session != null && dto.Some? &&
         iface.Some? && tableName.Some? && databaseName.Some?)
    {
      r := false;
      if database != null {
        var connected := database.IsConnected();
        r := connected && dto.Some? && iface.Some? && tableName.Some? && databaseName.Some?;
      }
    }

    /** `new DAOGeneric($options)`: the options, then, with a DTO, its
        table and database names, the template, and `_Ready` once. */
    constructor (args: Option<DaoOptions>)
      requires DatabaseOf(args) != null ==> DatabaseOf(args).Valid()
      modifies {DatabaseOf(args)}`isConnected
      ensures Valid()
      ensures database == DatabaseOf(args)
      ensures dto == (if args.Some? then ChosenDto(args.value) else None)
      ensures useAcid == (if args.Some? then AcidAfter(args.value, true) else true)
      ensures dto.None? ==> !ready && iface.None? && tableName.None? && databaseName.None?
      ensures dto.Some? ==>
        (tableName == dto.value.table && databaseName == dto.value.database &&
         iface == Some(Template(dto.value.columns)))
      ensures dto.Some? ==>
        (ready <==> database != null && database.session != null && tableName.Some? && databaseName.Some?)
      ensures var d := DatabaseOf(args);
        d != null ==> d.Valid() && d.session == old(d.session) && d.Current() == old(d.Current())
      ensures var d := DatabaseOf(args);
        d != null && dto.Some? ==> d.isConnected == (d.session != null)
      ensures var d := DatabaseOf(args);
        d != null && dto.None? ==> d.isConnected == old(d.isConnected)
    {
      ready := false;
      iface := None;
      tableName := None;
      databaseName := None;
      useAcid := true;
      database := null;
      dto := None;
      new;
      if args.Some? {
        ApplyOptions(args.value);
      }
      if dto.Some? {
        tableName := dto.value.table;
        databaseName := dto.value.database;
        var t := InterfaceGet();
        iface := Some(t);
        ready := IsReady();
      }
    }

    /** `IsColumn`: ready, a non-null name, and a column key equal to it;
        the scan stops at the first match. */
    method IsColumn(name: Option<string>) returns (r: bool)
      requires Valid()
      ensures r <==>
        (ready && name.Some? &&
         exists i :: 0 <= i < |dto.value.columns| && dto.value.columns[i].name == name.value)
    {
      r := false;
      if ready {
        if name.Some? {
          var cols := dto.value.columns;
          var i := 0;
          while i < |cols|
            invariant 0 <= i <= |cols|
            invariant !r
            invariant forall j :: 0 <= j < i ==> cols[j].name != name.value
          {
            if cols[i].name == name.value {
              r := true;
              break;
            }
            i := i + 1;
          }
        }
      }
    }

    /** `PrimaryKeysGet` as written: empty when not ready, and otherwise the
        loop above, which never adds a name. */
    method PrimaryKeysGet() returns (r: seq<string>)
      requires Valid()
      ensures r == (if ready then PrimaryKeysAsWritten(dto.value.columns, None) else [])
      ensures r == []
    {
      r := [];
      if ready {
        var cols := dto.value.columns;
        var key: Option<string> := None;
        var i := 0;
        while i < |cols|
          invariant 0 <= i <= |cols|
          invariant r + PrimaryKeysAsWritten(cols[i..], key) == PrimaryKeysAsWritten(cols, key)
        {
          var c := cols[i];
          assert cols[i..][1..] == cols[i + 1..];
          if key == Some(c.name) {
            if IsPrimary(c) {
              r := r + [c.name];
            }
          }
          i := i + 1;
        }
        assert cols[i..] == [];
        PrimaryKeysAsWrittenEmpty(cols);
      }
    }

    /** `InferPDOParam` */
    method InferParam(v: Value) returns (t: string)
      ensures t == InferPDOParam(v)
    {
      if v.VNull? {
        t := ParamNull;
      } else if v.VBool? {
        t := ParamBool;
      } else if v.VInt? {
        t := ParamInt;
      } else {
        t := ParamStr;
      }
    }

    /** `TransactionBegin`: true only when ready, transactions are on and
        the session's beginTransaction does not throw; not ready or
        transactions off, the session is not touched. */
    method TransactionBegin(fail: bool) returns (r: bool)
      requires Valid()
      requires ready && useAcid ==> database.session != null
      modifies if ready && useAcid then {database.session} else {}
      ensures r <==> ready && useAcid && !old(database.session.inTransaction) && !fail
      ensures ready && database.session != null ==>
        var e := WrapperEffect(Pdo.BeginTransaction, useAcid, old(database.session.inTransaction), fail);
        database.session.calls == old(database.session.calls) + e.calls &&
        database.session.inTransaction == e.inTransaction
    {
      r := false;
      if ready {
        if useAcid {
          var s := database.SessionGet();
          r := s.BeginTransaction(fail);
        }
      }
    }

    /** `TransactionCommit`, gated like `TransactionBegin`. */
    method TransactionCommit(fail: bool) returns (r: bool)
      requires Valid()
      requires ready && useAcid ==> database.session != null
      modifies if ready && useAcid then {database.session} else {}
      ensures r <==> ready && useAcid && old(database.session.inTransaction) && !fail
      ensures ready && database.session != null ==>
        var e := WrapperEffect(Pdo.Commit, useAcid, old(database.session.inTransaction), fail);
        database.session.calls == old(database.session.calls) + e.calls &&
        database.session.inTransaction == e.inTransaction
    {
      r := false;
      if ready {
        if useAcid {
          var s := database.SessionGet();
          r := s.Commit(fail);
        }
      }
    }

    /** `TransactionRollback`, gated like `TransactionBegin`. */
    method TransactionRollback(fail: bool) returns (r: bool)
      requires Valid()
      requires ready && useAcid ==> database.session != null
      modifies if ready && useAcid then {database.session} else {}
      ensures r <==> ready && useAcid && old(database.session.inTransaction) && !fail
      ensures ready && database.session != null ==>
        var e := WrapperEffect(Pdo.RollBack, useAcid, old(database.session.inTransaction), fail);
        database.session.calls == old(database.session.calls) + e.calls &&
        database.session.inTransaction == e.inTransaction
    {
      r := false;
      if ready {
        if useAcid {
          var s := database.SessionGet();
          r := s.RollBack(fail);
        }
      }
    }

    /** `Truncate`: not ready, no session call; ready, the calls and final
        transaction state of `TruncateEffect`. */
    method Truncate(fails: set<Step>)
      requires Valid()
      requires ready ==> database.session != null
      modifies if ready then {database.session} else {}
      ensures ready ==>
        var e := TruncateEffect(useAcid, old(database.session.inTransaction), fails,
                                TruncateSql(databaseName.value, tableName.value));
        database.session.calls == old(database.session.calls) + e.calls &&
        database.session.inTransaction == e.inTransaction
    {
      if ready {
        var s := database.SessionGet();
        ghost var calls0, tx0 := s.calls, s.inTransaction;
        var sql := TruncateSql(databaseName.value, tableName.value);
        TruncateEffectSteps(useAcid, tx0, fails, sql);
        var t := TransactionBegin(BeginStep in fails);
        ghost var b := WrapperEffect(Pdo.BeginTransaction, useAcid, tx0, BeginStep in fails);
        assert s.calls == calls0 + b.calls && s.inTransaction == b.inTransaction;
        var ok := RunStatement(s, sql, fails);
        assert s.calls == calls0 + b.calls + StatementCalls(sql, fails) && s.inTransaction == b.inTransaction;
        ghost var e: Effect;
        if ok {
          e := WrapperEffect(Pdo.Commit, useAcid, b.inTransaction, CommitStep in fails);
          t := TransactionCommit(CommitStep in fails);
        } else {
          e := WrapperEffect(Pdo.RollBack, useAcid, b.inTransaction, RollbackStep in fails);
          t := TransactionRollback(RollbackStep in fails);
        }
        assert s.calls == calls0 + b.calls + StatementCalls(sql, fails) + e.calls;
        AppendAssoc(calls0, b.calls, StatementCalls(sql, fails), e.calls);
      }
    }

    /** The try-block body of `Truncate` between begin and commit:
        prepare, execute, closeCursor, up to the first call that throws. */
    method RunStatement(s: Pdo.Session, sql: string, fails: set<Step>) returns (ok: bool)
      modifies s
      ensures ok == !StatementFails(fails)
      ensures s.calls == old(s.calls) + StatementCalls(sql, fails)
      ensures s.inTransaction == old(s.inTransaction)
    {
      ok := s.Statement(Pdo.Prepare(sql), PrepareStep in fails);
      if ok {
        ok := s.Statement(Pdo.Execute, ExecuteStep in fails);
      }
      if ok {
        ok := s.Statement(Pdo.CloseCursor, CloseStep in fails);
      }
    }

    /** `Query` as written: prepares the statement and closes its cursor
        (the binding loop reads an undefined array and runs zero times),
        and always returns an empty result. */
    method Query(sql: string, fails: set<Step>) returns (r: seq<Row>)
      requires Valid()
      requires ready ==> database.session != null
      modifies if ready then {database.session} else {}
      ensures r == []
      ensures ready ==>
        database.session.calls == old(database.session.calls) +
          (if PrepareStep in fails then [Pdo.Prepare(sql)] else [Pdo.Prepare(sql), Pdo.CloseCursor]) &&
        database.session.inTransaction == old(database.session.inTransaction)
    {
      r := [];
      if ready {
        var s := database.SessionGet();
        var ok := s.Statement(Pdo.Prepare(sql), PrepareStep in fails);
        if ok {
          ok := s.Statement(Pdo.CloseCursor, CloseStep in fails);
        }
      }
    }

    /** `Execute`: unfinished; 0 on every path. */
    method Execute(sql: string) returns (r: int)
      ensures r == 0
    {
      r := 0;
    }

    /** `CountAll`: unfinished; 0 on every path. */
    method CountAll() returns (r: int)
      ensures r == 0
    {
      r := 0;
    }

    /** `GetAll`: unfinished; 0 (not an array) on every path. */
    method GetAll() returns (r: int)
      ensures r == 0
    {
      r := 0;
    }

    /** `Insert`: unfinished; 0 on every path. */
    method Insert() returns (r: int)
      ensures r == 0
    {
      r := 0;
    }

    /** `Update`: unfinished; 0 on every path. */
    method Update() returns (r: int)
      ensures r == 0
    {
      r := 0;
    }

    /** `Delete`: unfinished; 0 on every path. */
    method Delete() returns (r: int)
      ensures r == 0
    {
      r := 0;
    }
  }

  lemma AppendAssoc<T>(a: seq<T>, b: seq<T>, c: seq<T>, d: seq<T>)
    ensures a + b + c + d == a + (b + c + d)
  {
  }

  lemma TemplateAppend(cols: seq<Column>, c: Column)
    ensures Template(cols + [c]) == Template(cols) + [(c.name, "")]
  {
    var t := Template(cols + [c]);
    assert |t| == |cols| + 1;
    assert forall i :: 0 <= i < |cols| ==> (cols + [c])[i] == cols[i];
  }
}
