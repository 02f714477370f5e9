/** The pooled statement proxy as an object: a `ProxyStatement` owns one
    native statement, belongs to one `ProxyConnection`, keeps a closed flag and a
    single cached `ProxyResultSet`, and records every call it makes on its
    collaborators in an append-only log. Each method that serves a request is
    proved to keep `Valid()`, to change that state exactly as `StatementSpec.Step`
    says, and to return what the source returns; the properties over whole call sequences are the lemmas of
    `StatementSpec`. What the driver answers is a parameter of each method. */
module Pool {
  import opened Sql
  import opened StatementSpec

  /** The owning pooled connection, seen only through what the statement uses of
      it: `classify` is what its `checkException` returns for a native error.
      Its other notices (dirty commit state, untracking) are calls in the
      statement's log. */
  class ProxyConnection {
    const classify: SqlError -> SqlError

    constructor (classify: SqlError -> SqlError)
      ensures this.classify == classify
    {
      this.classify := classify;
    }
  }

  /** A result-set proxy as the proxy factory builds it: it wraps one native
      result (possibly null) on behalf of a statement and its connection. */
  class ProxyResultSet {
    const connection: ProxyConnection
    const statement: ProxyStatement
    const delegate: NativeResult

    constructor (connection: ProxyConnection, statement: ProxyStatement, delegate: NativeResult)
      ensures this.connection == connection && this.statement == statement && this.delegate == delegate
    {
      this.connection := connection;
      this.statement := statement;
      this.delegate := delegate;
    }
  }

  class ProxyStatement {
    const connection: ProxyConnection
    const delegate: Handle
    var closed: bool
    var cache: ProxyResultSet?
    /** The calls made on the collaborators, oldest first. */
    var calls: seq<Call>

    /** A cached result-set proxy was made for this statement and its connection. */
    ghost predicate Valid()
      reads this
    {
      cache != null ==> cache.statement == this && cache.connection == connection
    }

    /** The abstract state `StatementSpec` speaks about. */
    function State(): StatementState
      reads this
    {
      StatementState(delegate, closed, if cache == null then None else Some(cache.delegate), calls)
    }

    constructor (connection: ProxyConnection, statement: Handle)
      ensures this.connection == connection && delegate == statement
      ensures Valid() && cache == null
      ensures State() == Initial(statement)
    {
      this.connection := connection;
      delegate := statement;
      closed := false;
      cache := null;
      calls := [];
    }

    /** Routes a native error through the connection's classifier. */
    method CheckException(error: SqlError) returns (translated: SqlError)
      requires Valid()
      modifies this
      ensures Valid()
      ensures translated == connection.classify(error)
      ensures closed == old(closed) && cache == old(cache)
      ensures State() == Step(old(State()), Request.CheckException(error))
    {
      calls := calls + [Call.CheckException(error)];
      translated := connection.classify(error);
    }

    /** Closes the statement once: the flag is set first, then the connection
        stops tracking the delegate, then the delegate is closed; a failure of
        that close is classified and the classified error is thrown, with the
        flag still set. `nativeClose` is what the delegate's close does. */
    method Close(nativeClose: Outcome) returns (r: Outcome)
      requires Valid()
      modifies this
      ensures Valid()
      ensures closed && cache == old(cache)
      ensures State() == Step(old(State()), Request.Close(nativeClose))
      ensures r == if old(closed) || nativeClose.Done? then Done
                   else Failed(connection.classify(nativeClose.error))
    {
      if closed {
        return Done;
      }
      closed := true;
      calls := calls + [UntrackStatement];
      calls := calls + [Native(NativeOp.Close)];
      match nativeClose
      case Done =>
        r := Done;
      case Failed(e) =>
        var translated := CheckException(e);
        r := Failed(translated);
    }

    method GetConnection() returns (c: ProxyConnection)
      ensures c == connection
    {
      c := connection;
    }

    /** The part every execute-family method shares: tell the connection its
        commit state is dirty, then forward the call to the delegate. */
    method NotifyDirtyThenDelegate(op: NativeOp)
      requires op.IsExecution()
      requires Valid()
      modifies this
      ensures Valid()
      ensures closed == old(closed) && cache == old(cache)
      ensures calls == old(calls) + [MarkCommitStateDirty, Native(op)]
    {
      calls := calls + [MarkCommitStateDirty];
      calls := calls + [Native(op)];
    }

    /** `execute(sql)` and its three overloads with a keys argument; `native` is
        what the delegate answers, passed back unchanged. */
    method Execute(sql: string, keys: KeysRequest, native: Result<bool>) returns (r: Result<bool>)
      requires Valid()
      modifies this
      ensures Valid()
      ensures r == native
      ensures closed == old(closed) && cache == old(cache)
      ensures State() == Step(old(State()), Request.Execute(Execution.Execute(sql, keys)))
    {
      NotifyDirtyThenDelegate(Exec(Execution.Execute(sql, keys)));
      r := native;
    }

    /** `executeUpdate(sql)` and its three overloads with a keys argument. */
    method ExecuteUpdate(sql: string, keys: KeysRequest, native: Result<int32>) returns (r: Result<int32>)
      requires Valid()
      modifies this
      ensures Valid()
      ensures r == native
      ensures closed == old(closed) && cache == old(cache)
      ensures State() == Step(old(State()), Request.Execute(Execution.ExecuteUpdate(sql, keys)))
    {
      NotifyDirtyThenDelegate(Exec(Execution.ExecuteUpdate(sql, keys)));
      r := native;
    }

    /** `executeLargeUpdate(sql)` and its three overloads with a keys argument. */
    method ExecuteLargeUpdate(sql: string, keys: KeysRequest, native: Result<int64>) returns (r: Result<int64>)
      requires Valid()
      modifies this
      ensures Valid()
      ensures r == native
      ensures closed == old(closed) && cache == old(cache)
      ensures State() == Step(old(State()), Request.Execute(Execution.ExecuteLargeUpdate(sql, keys)))
    {
      NotifyDirtyThenDelegate(Exec(Execution.ExecuteLargeUpdate(sql, keys)));
      r := native;
    }

    method ExecuteBatch(native: Result<seq<int32>>) returns (r: Result<seq<int32>>)
      requires Valid()
      modifies this
      ensures Valid()
      ensures r == native
      ensures closed == old(closed) && cache == old(cache)
      ensures State() == Step(old(State()), Request.Execute(Execution.ExecuteBatch))
    {
      NotifyDirtyThenDelegate(Exec(Execution.ExecuteBatch));
      r := native;
    }

    method ExecuteLargeBatch(native: Result<seq<int64>>) returns (r: Result<seq<int64>>)
      requires Valid()
      modifies this
      ensures Valid()
      ensures r == native
      ensures closed == old(closed) && cache == old(cache)
      ensures State() == Step(old(State()), Request.Execute(Execution.ExecuteLargeBatch))
    {
      NotifyDirtyThenDelegate(Exec(Execution.ExecuteLargeBatch));
      r := native;
    }

    /** `executeQuery(sql)`: the delegate's result comes back in a new proxy,
        which is not cached; a native error comes back unchanged. */
    method ExecuteQuery(sql: string, native: Result<NativeResult>) returns (r: Result<ProxyResultSet>)
      requires Valid()
      modifies this
      ensures Valid()
      ensures closed == old(closed) && cache == old(cache)
      ensures State() == Step(old(State()), Request.ExecuteQuery(sql, native))
      ensures native.Err? ==> r == Err(native.error)
      ensures native.Ok? ==> && r.Ok? && fresh(r.value)
                             && r.value.delegate == native.value
                             && r.value.statement == this && r.value.connection == connection
    {
      NotifyDirtyThenDelegate(NativeOp.ExecuteQuery(sql));
      match native
      case Err(e) =>
        r := Err(e);
      case Ok(resultSet) =>
        calls := calls + [Wrap(resultSet)];
        var proxy := new ProxyResultSet(connection, this, resultSet);
        r := Ok(proxy);
    }

    /** The identity cache: keep the cached proxy when it wraps `resultSet`,
        otherwise cache a new proxy around it. */
    method Rewrap(resultSet: NativeResult)
      requires Valid()
      modifies this
      ensures Valid() && cache != null && cache.delegate == resultSet && closed == old(closed)
      ensures old(cache) != null && old(cache).delegate == resultSet ==> cache == old(cache) && calls == old(calls)
      ensures old(cache) == null || old(cache).delegate != resultSet ==>
                fresh(cache) && calls == old(calls) + [Wrap(resultSet)]
    {
      if cache == null || cache.delegate != resultSet {
        calls := calls + [Wrap(resultSet)];
        cache := new ProxyResultSet(connection, this, resultSet);
      }
    }

    /** `getResultSet()`: a null native result empties the cache and is returned;
        the native result the cached proxy already wraps returns that very proxy;
        any other result is wrapped, cached and returned. Whatever is returned is
        what the cache holds afterwards. */
    method GetResultSet(native: Result<NativeResult>) returns (r: Result<ProxyResultSet?>)
      requires Valid()
      modifies this
      ensures Valid() && closed == old(closed)
      ensures State() == Step(old(State()), Request.GetResultSet(native))
      ensures native.Err? ==> r == Err(native.error) && cache == old(cache)
      ensures native.Ok? ==> r == Ok(cache)
      ensures native == Ok(Null) ==> cache == null
      ensures (native.Ok? && native.value != Null && old(cache) != null && old(cache).delegate == native.value)
                ==> cache == old(cache)
      ensures (native.Ok? && native.value != Null && (old(cache) == null || old(cache).delegate != native.value))
                ==> fresh(cache) && cache.delegate == native.value
    {
      calls := calls + [Native(NativeOp.GetResultSet)];
      match native
      case Err(e) =>
        r := Err(e);
      case Ok(resultSet) =>
        if resultSet != Null {
          Rewrap(resultSet);
        } else {
          cache := null;
        }
        r := Ok(cache);
    }

    /** `getGeneratedKeys()`: like `getResultSet()` but with no null case, so a
        null native result is compared and wrapped like any other. */
    method GetGeneratedKeys(native: Result<NativeResult>) returns (r: Result<ProxyResultSet?>)
      requires Valid()
      modifies this
      ensures Valid() && closed == old(closed)
      ensures State() == Step(old(State()), Request.GetGeneratedKeys(native))
      ensures native.Err? ==> r == Err(native.error) && cache == old(cache)
      ensures native.Ok? ==> r == Ok(cache) && cache != null && cache.delegate == native.value
      ensures native.Ok? && old(cache) != null && old(cache).delegate == native.value ==> cache == old(cache)
      ensures native.Ok? && (old(cache) == null || old(cache).delegate != native.value) ==> fresh(cache)
    {
      calls := calls + [Native(NativeOp.GetGeneratedKeys)];
      match native
      case Err(e) =>
        r := Err(e);
      case Ok(resultSet) =>
        Rewrap(resultSet);
        r := Ok(cache);
    }

    /** `unwrap(iface)`: the delegate itself when it is an instance of `iface`,
        otherwise what the delegate's own `unwrap(iface)` answers (`nested`). */
    method Unwrap(iface: Iface, nested: Result<Handle>) returns (r: Result<Handle>)
      requires Valid()
      modifies this
      ensures Valid()
      ensures closed == old(closed) && cache == old(cache)
      ensures State() == Step(old(State()), Request.Unwrap(iface))
      ensures r == UnwrapAnswer(iface, Some(delegate), nested)
      ensures UnwrapDispatch(iface, Some(delegate)) == ReturnDelegate ==> r == Ok(delegate)
      ensures UnwrapDispatch(iface, Some(delegate)) == AskDelegate ==> r == nested
    {
      if IsInstance(iface, Some(delegate)) {
        r := Ok(delegate);
      } else {
        calls := calls + [Native(NativeOp.Unwrap(iface))];
        r := nested;
      }
    }
  }

  /** Closing a new statement twice untracks it once and closes the delegate
      once, whatever either native close does. */
  method CloseTwice(connection: ProxyConnection, statement: Handle, first: Outcome, second: Outcome)
    returns (untracks: nat, nativeCloses: nat, again: Outcome)
    ensures untracks == 1 && nativeCloses == 1 && again == Done
  {
    var proxy := new ProxyStatement(connection, statement);
    var once := proxy.Close(first);
    ghost var afterFirst := proxy.State();
    again := proxy.Close(second);
    var reqs := [Request.Close(first), Request.Close(second)];
    assert reqs[1..] == [Request.Close(second)];
    assert Run(afterFirst, [Request.Close(second)]) == proxy.State();
    assert proxy.State() == Run(Initial(statement), reqs);
    TeardownAtMostOnce(statement, reqs);
    untracks := Count(proxy.calls, UntrackStatement);
    nativeCloses := Count(proxy.calls, Native(NativeOp.Close));
  }

  /** A query followed by two getResultSet calls that both see the query's
      native result: the proxy from executeQuery is not the cached one, so the
      first getResultSet wraps the same native result a second time, and the
      second getResultSet returns the proxy the first one made. */
  method QueryThenGetResultSetTwice(connection: ProxyConnection, statement: Handle, sql: string, id: nat)
    returns (fromQuery: ProxyResultSet, first: ProxyResultSet?, second: ProxyResultSet?)
    ensures first != null && first == second && first != fromQuery
    ensures fromQuery.delegate == first.delegate == ResultSet(id)
  {
    var proxy := new ProxyStatement(connection, statement);
    var q := proxy.ExecuteQuery(sql, Ok(ResultSet(id)));
    fromQuery := q.value;
    var g1 := proxy.GetResultSet(Ok(ResultSet(id)));
    first := g1.value;
    var g2 := proxy.GetResultSet(Ok(ResultSet(id)));
    second := g2.value;
  }
}
