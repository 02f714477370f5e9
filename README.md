# HikariCP statement proxy, modelled in Dafny

HikariCP hands out a `ProxyStatement` instead of the driver's own
`java.sql.Statement`. The proxy forwards every call to the native statement
(its *delegate*) and adds bookkeeping for the pool:

- `close()` closes at most once: it sets the closed flag, asks the owning
  connection to stop tracking the delegate, then closes the delegate. A failure of
  that close goes through the connection's `checkException`, and the classified
  error is what is thrown.
- Every execute-family call tells the connection that its commit state is dirty
  before it forwards the call.
- `getResultSet()` and `getGeneratedKeys()` keep one cached result-set proxy. They
  reuse it when the native result is the very object it already wraps, and wrap
  the native result afresh otherwise.
- `unwrap(iface)` returns the delegate itself when it is an instance of `iface`,
  and otherwise asks the delegate.

The model has three modules.

- `Sql` (sql.dfy) holds the java.sql values the proxy handles. A native handle is
  an identity plus the set of types it is an instance of. A native result set is
  an identity or `Null`. Errors are `SqlError`. Java `int` and `long` are `int32`
  and `int64`.
- `StatementSpec` (statement_spec.dfy) is the proxy's behaviour as values. The
  state is the delegate, the closed flag, what the cached result-set proxy wraps,
  and the ordered log of calls the proxy has made on its collaborators:
  `markCommitStateDirty`, `untrackStatement`, `checkException`, the result-set
  proxy factory, and the native statement. `Step` is the effect of one request;
  `Run` is the effect of any sequence of requests. The lemmas hold over every
  such sequence.
- `Pool` (pool.dfy) holds the classes. `ProxyStatement` has the fields `closed`,
  `cache` (the cached `ProxyResultSet`, or null) and the call log `calls`. Each
  method that serves a request changes them exactly as `Step` says, and keeps the
  object invariant `Valid()`. Each such method also states what it returns, including object identity: the cached proxy itself, or a freshly
  allocated one.

What the driver does is not visible here, so it is always a parameter. Examples
are what the native `close` did, what the native `getResultSet` returned, and
what the delegate's own `unwrap` answers. The owning connection's
`checkException` is the function `ProxyConnection.classify`.

## Model

| member | source | states |
|---|---|---|
| `Pool.ProxyStatement.constructor` | src/main/java/com/zaxxer/hikari/pool/ProxyStatement.java:37-40 | a new proxy keeps its connection and delegate, is open, has no cached result set and has made no calls |
| `Pool.ProxyStatement.CheckException` | src/main/java/com/zaxxer/hikari/pool/ProxyStatement.java:42-44 | returns exactly what the connection's classifier returns for the error, and logs one classification call |
| `Pool.ProxyStatement.Close` | src/main/java/com/zaxxer/hikari/pool/ProxyStatement.java:60-76 | afterwards the proxy is closed. On an already closed proxy nothing is logged and nothing is thrown. Otherwise it logs untrack, then the native close, then the classification of a native failure, and it throws the classified error rather than the native one |
| `Pool.ProxyStatement.GetConnection` | src/main/java/com/zaxxer/hikari/pool/ProxyStatement.java:79-82 | returns the owning proxy connection |
| `Pool.ProxyStatement.NotifyDirtyThenDelegate` | src/main/java/com/zaxxer/hikari/pool/ProxyStatement.java:86-188 | the shared body of the execute family: exactly one dirty notice, then exactly one native execute call; the flag and the cache are untouched |
| `Pool.ProxyStatement.Execute` | src/main/java/com/zaxxer/hikari/pool/ProxyStatement.java:86-153 | the four `execute` overloads (86-96 and 143-153): dirty notice, then delegation; the native answer or error comes back unchanged; the flag and the cache are untouched |
| `Pool.ProxyStatement.ExecuteUpdate` | src/main/java/com/zaxxer/hikari/pool/ProxyStatement.java:106-139 | the four `executeUpdate` overloads: dirty notice, then delegation; the native count or error comes back unchanged |
| `Pool.ProxyStatement.ExecuteBatch` | src/main/java/com/zaxxer/hikari/pool/ProxyStatement.java:113-118 | dirty notice, then delegation; the native counts or error come back unchanged |
| `Pool.ProxyStatement.ExecuteLargeBatch` | src/main/java/com/zaxxer/hikari/pool/ProxyStatement.java:155-160 | dirty notice, then delegation; the native counts or error come back unchanged |
| `Pool.ProxyStatement.ExecuteLargeUpdate` | src/main/java/com/zaxxer/hikari/pool/ProxyStatement.java:162-188 | the four `executeLargeUpdate` overloads: dirty notice, then delegation; the native count or error comes back unchanged |
| `Pool.ProxyStatement.ExecuteQuery` | src/main/java/com/zaxxer/hikari/pool/ProxyStatement.java:100-104 | dirty notice, then delegation. On success it returns a freshly made proxy that wraps the native result for this statement and connection. That proxy is not cached: the closed flag and the cached proxy are left as they were. A native error comes back unchanged |
| `Pool.ProxyStatement.Rewrap` | src/main/java/com/zaxxer/hikari/pool/ProxyStatement.java:195-196 | keeps the cached proxy, with no new wrap, when it wraps exactly this native result. Otherwise it caches a freshly made proxy around it and logs one wrap |
| `Pool.ProxyStatement.GetResultSet` | src/main/java/com/zaxxer/hikari/pool/ProxyStatement.java:192-202 | a null native result empties the cache. The native result the cached proxy already wraps gives back that identical proxy. Any other result gives a fresh proxy around it. The returned value is always the cache after the call. A native error leaves the cache alone |
| `Pool.ProxyStatement.GetGeneratedKeys` | src/main/java/com/zaxxer/hikari/pool/ProxyStatement.java:206-212 | the same cache rule, with no null case: a null native result is compared and wrapped like any other. The returned value is the cache after the call |
| `Pool.ProxyStatement.Unwrap` | src/main/java/com/zaxxer/hikari/pool/ProxyStatement.java:217-225 | returns the delegate itself, asking it nothing, when it is an instance of the type. Otherwise it asks the delegate's own `unwrap` once and returns its answer |
| `Pool.CloseTwice` | src/main/java/com/zaxxer/hikari/pool/ProxyStatement.java:60-76 | closing a new proxy twice untracks once, closes the delegate once, and the second close returns normally, whatever the native closes did |
| `Pool.QueryThenGetResultSetTwice` | src/main/java/com/zaxxer/hikari/pool/ProxyStatement.java:100-202 | after `executeQuery`, two `getResultSet` calls that see the same native result return one and the same proxy, and it is not the proxy `executeQuery` returned |
| `StatementSpec.UnwrapDispatch` | src/main/java/com/zaxxer/hikari/pool/ProxyStatement.java:217-225 | the delegate is returned exactly when it is an instance of the type. The delegate is asked exactly when it exists but is not an instance. The "not an instance" error is raised exactly when there is no delegate |
| `StatementSpec.UnwrapAnswer` | src/main/java/com/zaxxer/hikari/pool/ProxyStatement.java:217-225 | the answer of `unwrap`: the delegate itself when it is an instance of the type, the delegate's own answer when it exists but is not, and the proxy's own `NotAnInstance(iface)` error exactly when there is no delegate (unless the delegate's answer is that same error) |
| `StatementSpec.Step` | src/main/java/com/zaxxer/hikari/pool/ProxyStatement.java:60-225 | one request: the log only grows, the closed flag goes only from open to closed and only by `close`, and only the two fetches touch the cache |
| `StatementSpec.Run` | src/main/java/com/zaxxer/hikari/pool/ProxyStatement.java:60-225 | any sequence of requests: the log only grows and a closed proxy stays closed |
| `StatementSpec.CloseCallsTearDownOnce` | src/main/java/com/zaxxer/hikari/pool/ProxyStatement.java:66-75 | a first close, failing or not, untracks once and closes the delegate once |
| `StatementSpec.AppendedTeardownCounts` | src/main/java/com/zaxxer/hikari/pool/ProxyStatement.java:60-76 | a request untracks and closes the delegate once if it is a close of an open proxy, and otherwise not at all |
| `StatementSpec.AppendedExecutionCounts` | src/main/java/com/zaxxer/hikari/pool/ProxyStatement.java:86-188 | an execute-family request makes one dirty notice and one native execution; any other request makes neither |
| `StatementSpec.StepTeardownCounts` | src/main/java/com/zaxxer/hikari/pool/ProxyStatement.java:60-76 | across one request, the untrack and native-close counts grow by one exactly for the close of an open proxy |
| `StatementSpec.RunKeepsTeardown` | src/main/java/com/zaxxer/hikari/pool/ProxyStatement.java:60-76 | "untracked once and natively closed once if closed, neither if open" is kept by every sequence of requests |
| `StatementSpec.TeardownAtMostOnce` | src/main/java/com/zaxxer/hikari/pool/ProxyStatement.java:60-76 | over any sequence of requests on a new proxy, untrack and native close each happen at most once, and each has happened exactly when the proxy is closed |
| `StatementSpec.NoTeardownOnceClosed` | src/main/java/com/zaxxer/hikari/pool/ProxyStatement.java:60-67 | once closed, no sequence of requests untracks or closes the delegate again |
| `StatementSpec.RepeatedCloseIsNoOp` | src/main/java/com/zaxxer/hikari/pool/ProxyStatement.java:61-64 | any number of closes on a closed proxy change nothing, not even the log |
| `StatementSpec.FailedCloseStaysClosed` | src/main/java/com/zaxxer/hikari/pool/ProxyStatement.java:66-75 | when the native close fails, the proxy stays closed, the untrack is not undone, the classification of that error is the last call, and later closes are no-ops |
| `StatementSpec.AppendedWellOrdered` | src/main/java/com/zaxxer/hikari/pool/ProxyStatement.java:60-188 | within one request, the native close comes right after the untrack and each native execution comes right after a dirty notice; no request starts with a call that needs such a notice |
| `StatementSpec.RunKeepsOrder` | src/main/java/com/zaxxer/hikari/pool/ProxyStatement.java:60-188 | that ordering of the whole log is kept by every sequence of requests |
| `StatementSpec.CallsWellOrdered` | src/main/java/com/zaxxer/hikari/pool/ProxyStatement.java:60-188 | on a new proxy, under any requests, every native execution comes immediately after a dirty notice and the native close immediately after the untrack |
| `StatementSpec.OneNoticeAndOneDelegationPerExecution` | src/main/java/com/zaxxer/hikari/pool/ProxyStatement.java:86-188 | over any sequence of requests, the dirty notices and the native executions added each equal the number of execute-family requests, whether the native calls succeed or fail |
| `StatementSpec.FetchUpdatesCache` | src/main/java/com/zaxxer/hikari/pool/ProxyStatement.java:192-212 | after a successful fetch the cache holds the native result, or nothing for a null from getResultSet. A new proxy is wrapped exactly when the cache did not already wrap that result (never for a null from getResultSet) |
| `StatementSpec.FailedFetchKeepsCache` | src/main/java/com/zaxxer/hikari/pool/ProxyStatement.java:192-212 | a fetch whose native call throws leaves the cache alone and logs only the native call |
| `StatementSpec.RefetchIsNoOp` | src/main/java/com/zaxxer/hikari/pool/ProxyStatement.java:192-212 | right after a fetch, the same fetch again only logs its native call |
| `StatementSpec.RefetchesAreNoOps` | src/main/java/com/zaxxer/hikari/pool/ProxyStatement.java:192-212 | from a state where a fetch only logs its native call, repeating it k times keeps the cache and logs exactly k native calls, and no wraps |
| `StatementSpec.RepeatedFetchIsStable` | src/main/java/com/zaxxer/hikari/pool/ProxyStatement.java:192-212 | fetching the same native result any number of times wraps it at most once; after the first fetch the cache never changes |
| `StatementSpec.RunWithoutFetchesKeepsCache` | src/main/java/com/zaxxer/hikari/pool/ProxyStatement.java:60-188 | requests other than the two fetches never change what the cache holds |
| `StatementSpec.CacheHoldsLatestFetch` | src/main/java/com/zaxxer/hikari/pool/ProxyStatement.java:192-212 | whatever came before, the cache holds the result of the last successful fetch (nothing after a null from getResultSet) as long as no fetch followed it |

## Behaviour of the code worth knowing

- Only `close` routes a native error through `checkException` (line 74). Errors
  from the execute methods and the fetches come back unchanged. HikariCP's
  generated subclass may wrap those methods, which is not part of this model.
- `executeQuery` does not cache its proxy (lines 100-104), so a later
  `getResultSet()` wraps the same native result again.
  `Pool.QueryThenGetResultSetTwice` proves this.
- Close calls `connection.checkException` directly (line 74). The model calls
  `ProxyStatement.CheckException` (lines 42-44), which does the same thing.

## Left out

- Thread safety of `close()`: the `synchronized` block (lines 61-67) is a
  concurrency primitive. `close` is modelled sequentially, and only its
  idempotence is proved.
- That the closed flag is written before the collaborators are called (line 66
  before 69) cannot be observed in a sequential model. The model keeps that order
  in `Close`'s body. Its contract states only the consequence: a failing native
  close still leaves the flag set.
- `toString()` (lines 48-52) is left out. It is diagnostic only and depends on JVM
  identity hash codes and class names.
- What `checkException`, `untrackStatement` and `markCommitStateDirty` do inside
  the connection is not modelled. They appear only as calls in the log, plus the
  classifier function.
- How `ProxyFactory` builds a `ProxyResultSet`, and everything the result-set
  proxy does itself, are not modelled. `ProxyResultSet` only records what it wraps
  and for whom.
- Driver behaviour is not modelled: SQL semantics, what the execute methods return,
  and whether a superseded native result set is closed. Native answers are
  parameters.
- The delegate's own `unwrap` is foreign; its answer is the parameter `nested`.
- Pool.ProxyStatement.Unwrap: its contract does not state the "not an instance"
  branch (line 224). The class always holds a delegate, so that branch cannot be
  reached there. The branch is stated in `StatementSpec.UnwrapAnswer`, which also
  takes an absent delegate and then answers `NotAnInstance(iface)`. The message
  text of that error is reduced to the requested type.
- `PropertyElfTest.java` tests a reflective property binder that is not part of
  this model.
