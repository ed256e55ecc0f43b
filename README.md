# MapExecutionContextDao, modelled in Dafny

Spring Batch's `MapExecutionContextDao` is the in-memory implementation of
`ExecutionContextDao`. It keeps snapshots of execution contexts in two maps:
one keyed by step-execution id, one keyed by job-execution id. Every context
that goes into the store, and every context that comes out of it, is
deep-copied through serialization. `updateExecutionContext` stores a copy of
the execution's context under the execution's id and replaces any earlier
snapshot. It does nothing when the context is null. `saveExecutionContext`
just calls `updateExecutionContext`. `getExecutionContext` returns a copy of
the stored snapshot. `clear` empties both maps.

The project has four modules:

- `Wrappers` (`wrappers.dfy`): `Option`, which stands for a Java reference that may be null.
- `Executions` (`executions.dfy`): the values the DAO handles. These are the
  64-bit `Long` id, the `ExecutionContext` snapshot, and `StepExecution` and
  `JobExecution`, each reduced to an id and an optional context.
- `ContextStore` (`context_store.dfy`): the abstract behaviour.
  - `Copy`, `Find`, `Get` and `Put` give the read path and the write path on one map.
  - `DaoState` is the pair of maps.
  - `Call` is the DAO's public calls, `Next` is one call's effect, and `Run` replays a sequence of calls.
  - `Latest` is an independent backwards "last write wins" reference.
  - The lemmas relate these definitions.
- `Dao` (`map_execution_context_dao.dfy`): the class `MapExecutionContextDao`.
  It has the two map fields, which its methods update in place. Each
  mutator (update, save, clear) ensures `State() == Next(old(State()), call)`.
  The constructor ensures `State() == Empty`. The gets have no modifies
  clause, so they leave the state unchanged, which is what `Next` does for a
  get. `ReplaceThenClear` is a client that runs a store / replace /
  null-update / clear scenario using only the contracts. It records its calls
  in a ghost sequence, shows that after every call the state is `Run(Empty,
  calls)`, and then uses `LastWriteWins` to read off what its gets return.

Java overloads get distinct names: `GetStepExecutionContext` and
`GetJobExecutionContext` stand for the two `getExecutionContext` methods, and
so on. Values cannot be aliased in Dafny, so the copy discipline is
automatic. A caller can never mutate a stored snapshot, and `Copy` is the
identity on values.

## Model

| member | source | states |
|---|---|---|
| `Dao.MapExecutionContextDao.constructor` | spring-batch-core/src/main/java/org/springframework/batch/core/repository/dao/MapExecutionContextDao.java:35-39 | A new DAO starts with both maps empty. |
| `Dao.MapExecutionContextDao.Clear` | spring-batch-core/src/main/java/org/springframework/batch/core/repository/dao/MapExecutionContextDao.java:41-44 | Both maps are empty afterwards. |
| `Dao.MapExecutionContextDao.GetStepExecutionContext` | spring-batch-core/src/main/java/org/springframework/batch/core/repository/dao/MapExecutionContextDao.java:50-52 | Returns a context exactly when one is stored for the step execution's id, and it equals the stored one. The method has no modifies clause, so it changes nothing. |
| `Dao.MapExecutionContextDao.UpdateStepExecutionContext` | spring-batch-core/src/main/java/org/springframework/batch/core/repository/dao/MapExecutionContextDao.java:54-59 | A non-null context replaces the entry for the id, and every other step entry is kept. A null context leaves the step map as it was. The job map is never touched. |
| `Dao.MapExecutionContextDao.GetJobExecutionContext` | spring-batch-core/src/main/java/org/springframework/batch/core/repository/dao/MapExecutionContextDao.java:61-63 | Returns a context exactly when one is stored for the job execution's id, and it equals the stored one. It changes nothing. |
| `Dao.MapExecutionContextDao.UpdateJobExecutionContext` | spring-batch-core/src/main/java/org/springframework/batch/core/repository/dao/MapExecutionContextDao.java:65-70 | A non-null context replaces the entry for the id, and every other job entry is kept. A null context leaves the job map as it was. The step map is never touched. |
| `Dao.MapExecutionContextDao.SaveJobExecutionContext` | spring-batch-core/src/main/java/org/springframework/batch/core/repository/dao/MapExecutionContextDao.java:72-74 | The new state is exactly the state a job-scoped update would produce. |
| `Dao.MapExecutionContextDao.SaveStepExecutionContext` | spring-batch-core/src/main/java/org/springframework/batch/core/repository/dao/MapExecutionContextDao.java:76-78 | The new state is exactly the state a step-scoped update would produce. |
| `ContextStore.GetAfterPut` | spring-batch-core/src/main/java/org/springframework/batch/core/repository/dao/MapExecutionContextDao.java:50-58 | After a put with a non-null context, a get of the same id returns that context. |
| `ContextStore.PutNullIsNoOp` | spring-batch-core/src/main/java/org/springframework/batch/core/repository/dao/MapExecutionContextDao.java:56-58 | A put with a null context leaves the map unchanged. |
| `ContextStore.PutLeavesOtherIds` | spring-batch-core/src/main/java/org/springframework/batch/core/repository/dao/MapExecutionContextDao.java:57 | A put under one id does not change what any other id reads. |
| `ContextStore.PutKeepsKeys` | spring-batch-core/src/main/java/org/springframework/batch/core/repository/dao/MapExecutionContextDao.java:57 | A put never removes a key. It adds at most its own key. |
| `ContextStore.PutReplaces` | spring-batch-core/src/main/java/org/springframework/batch/core/repository/dao/MapExecutionContextDao.java:57 | A second non-null put under the same id wipes out the first one, and a get returns the second context. |
| `ContextStore.SaveIsUpdate` | spring-batch-core/src/main/java/org/springframework/batch/core/repository/dao/MapExecutionContextDao.java:72-78 | A save has the same effect on the state as an update, for both the step and the job overloads. |
| `ContextStore.ScopesAreIndependent` | spring-batch-core/src/main/java/org/springframework/batch/core/repository/dao/MapExecutionContextDao.java:35-39 | A step-scoped update leaves the job map as it was, and a job-scoped update leaves the step map as it was. |
| `ContextStore.GetAfterNext` | spring-batch-core/src/main/java/org/springframework/batch/core/repository/dao/MapExecutionContextDao.java:41-78 | After any single call, a get in either scope returns one of three things: nothing (after a clear), the written context (after a non-null write of that id in that scope), or whatever it returned before. |
| `ContextStore.LastWriteWins` | spring-batch-core/src/main/java/org/springframework/batch/core/repository/dao/MapExecutionContextDao.java:41-78 | After any sequence of calls, a get in either scope returns the latest non-null write of that id in that scope since the last clear. If there is none, it returns nothing after a clear, or the initial entry when no clear happened. |
| `ContextStore.GetsChangeNothing` | spring-batch-core/src/main/java/org/springframework/batch/core/repository/dao/MapExecutionContextDao.java:50-52 | Any sequence of gets, in either scope, leaves the state as it was. |
| `ContextStore.AppendOnly` | spring-batch-core/src/main/java/org/springframework/batch/core/repository/dao/MapExecutionContextDao.java:54-78 | In a sequence of calls with no clear, an id present in either map stays present. |
| `ContextStore.ClearForgetsEarlierCalls` | spring-batch-core/src/main/java/org/springframework/batch/core/repository/dao/MapExecutionContextDao.java:41-44 | After some calls, then a clear, then more calls, the whole state equals the state the later calls alone leave a fresh DAO in. So every get returns the latest write among the later calls, or nothing. |
| `ContextStore.ClearedFindsNothing` | spring-batch-core/src/main/java/org/springframework/batch/core/repository/dao/MapExecutionContextDao.java:41-44 | Right after a clear, a get in either scope finds nothing. |

## Left out

- Transactional visibility. Both maps are built by `TransactionAwareProxyFactory.createAppendOnlyTransactionalMap()`, which is not part of this model. That proxy buffers writes per transaction and discards them on rollback. Here both maps are plain maps, and every write is immediately visible.
- Concurrency. Calls are modelled as happening one after another. Thread safety comes from the transactional proxy, which is not part of this model.
- `ContextStore.Copy`: `SerializationUtils` is not part of this model, so the copy is the identity on immutable values by assumption, not a proved round trip through a codec. A context that fails to serialize is not modelled.
- A null step or job execution argument throws at `getId()` or `getExecutionContext()` (lines 51, 55, 62 and 66); the model always has an execution. A null id goes to the map built at lines 35-39, whose handling of null keys is not shown, so it is not modelled: ids are always present here. A missing entry is read as an explicit `None`, which stands for the null that `copy(null)` is taken to give back.
- Id range. The DAO accepts any `Long` id, so the model accepts every 64-bit value. It does not require ids to be positive.
- Internals of `StepExecution`, `JobExecution` and `ExecutionContext` are not part of this model. An execution is an id plus an optional context, and a context is a map of named values whose values are modelled as strings. The store never inspects them.
