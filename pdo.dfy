/** The PDO session, seen from outside: a handle that remembers whether a
    transaction is open and the calls made on it. Whether the database
    driver makes a call fail is not known to the model, so every call takes
    a `fail` input; a call that does not succeed stands for a call that
    throws a PDOException. */
module Pdo {

  /** One call on the session (the statement object returned by `prepare`
      is folded into the session). */
  datatype Call =
    | BeginTransaction
    | Commit
    | RollBack
    | Prepare(sql: string)
    | Execute
    | CloseCursor

  class Session {
    const dsn: string
    const username: string
    const password: string
    var inTransaction: bool
    /** Every call made on this session, in order, including failed ones. */
    ghost var calls: seq<Call>

    /** `new PDO($dsn, $user, $password, ...)` when the driver accepts it. */
    constructor (dsn: string, username: string, password: string)
      ensures this.dsn == dsn && this.username == username && this.password == password
      ensures !inTransaction && calls == []
    {
      this.dsn := dsn;
      this.username := username;
      this.password := password;
      inTransaction := false;
      calls := [];
    }

    /** PDO refuses to nest: beginning while a transaction is open throws. */
    method BeginTransaction(fail: bool) returns (ok: bool)
      modifies this
      ensures ok <==> !old(inTransaction) && !fail
      ensures inTransaction == (old(inTransaction) || ok)
      ensures calls == old(calls) + [Call.BeginTransaction]
    {
      ok := !inTransaction && !fail;
      if ok {
        inTransaction := true;
      }
      calls := calls + [Call.BeginTransaction];
    }

    /** Committing without an open transaction throws. */
    method Commit(fail: bool) returns (ok: bool)
      modifies this
      ensures ok <==> old(inTransaction) && !fail
      ensures inTransaction == (old(inTransaction) && !ok)
      ensures calls == old(calls) + [Call.Commit]
    {
      ok := inTransaction && !fail;
      if ok {
        inTransaction := false;
      }
      calls := calls + [Call.Commit];
    }

    /** Rolling back without an open transaction throws. */
    method RollBack(fail: bool) returns (ok: bool)
      modifies this
      ensures ok <==> old(inTransaction) && !fail
      ensures inTransaction == (old(inTransaction) && !ok)
      ensures calls == old(calls) + [Call.RollBack]
    {
      ok := inTransaction && !fail;
      if ok {
        inTransaction := false;
      }
      calls := calls + [Call.RollBack];
    }

    /** `prepare`, `execute` and `closeCursor` leave the transaction state
        alone; only the driver decides whether they throw. */
    method Statement(call: Call, fail: bool) returns (ok: bool)
      requires call.Prepare? || call.Execute? || call.CloseCursor?
      modifies this
      ensures ok == !fail
      ensures inTransaction == old(inTransaction)
      ensures calls == old(calls) + [call]
    {
      ok := !fail;
      calls := calls + [call];
    }
  }
}
