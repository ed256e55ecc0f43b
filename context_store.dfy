/**
 * The abstract behaviour of the in-memory execution-context DAO: the state is
 * a pair of maps (one per id space), every public call of the DAO is a
 * transition on that state, and a sequence of calls is replayed from left to
 * right. The lemmas state what a client observes through `get`.
 */
module ContextStore {
  import opened Wrappers
  import opened Executions

  /**
   * The serialize-then-deserialize copy the DAO puts every context through.
   * With the codec taken to be a faithful round trip, a copy carries exactly
   * the content of its original, and a missing entry stays missing.
   */
  function Copy(original: Option<ExecutionContext>): Option<ExecutionContext>
  {
    original
  }

  /** `Map.get`: the stored entry for `id`, or null when there is none. */
  function Find(m: map<Long, ExecutionContext>, id: Long): Option<ExecutionContext>
  {
    if id in m then Some(m[id]) else None
  }

  /** The read path of `getExecutionContext`: look the id up, copy what is found. */
  function Get(m: map<Long, ExecutionContext>, id: Long): Option<ExecutionContext>
  {
    Copy(Find(m, id))
  }

  /**
   * The write path of `updateExecutionContext`: a non-null context is copied
   * and put under `id`, replacing any earlier entry; a null context is ignored.
   */
  function Put(m: map<Long, ExecutionContext>, id: Long, context: Option<ExecutionContext>): map<Long, ExecutionContext>
  {
    if context.Some? then m[id := Copy(context).value] else m
  }

  /** After a non-null put, a get of the same id yields the supplied context. */
  lemma GetAfterPut(m: map<Long, ExecutionContext>, id: Long, context: Option<ExecutionContext>)
    requires context.Some?
    ensures Get(Put(m, id, context), id) == context
  {
  }

  /** A put of a null context changes nothing. */
  lemma PutNullIsNoOp(m: map<Long, ExecutionContext>, id: Long, context: Option<ExecutionContext>)
    requires context.None?
    ensures Put(m, id, context) == m
  {
  }

  /** A put under `id` leaves what every other id reads unchanged. */
  lemma PutLeavesOtherIds(m: map<Long, ExecutionContext>, id: Long, context: Option<ExecutionContext>, other: Long)
    requires other != id
    ensures Get(Put(m, id, context), other) == Get(m, other)
  {
  }

  /** A put never removes a key, and adds at most its own. */
  lemma PutKeepsKeys(m: map<Long, ExecutionContext>, id: Long, context: Option<ExecutionContext>)
    ensures m.Keys <= Put(m, id, context).Keys <= m.Keys + {id}
  {
  }

  /** A second non-null put under the same id wipes out the first. */
  lemma PutReplaces(m: map<Long, ExecutionContext>, id: Long, first: Option<ExecutionContext>, second: Option<ExecutionContext>)
    requires second.Some?
    ensures Put(Put(m, id, first), id, second) == Put(m, id, second)
    ensures Get(Put(Put(m, id, first), id, second), id) == second
  {
  }

  /** The two id spaces of the DAO. */
  datatype Scope = StepScope | JobScope

  /** The DAO's state: the two maps, keyed by step-execution id and job-execution id. */
  datatype DaoState = DaoState(contextsByStepExecutionId: map<Long, ExecutionContext>,
                               contextsByJobExecutionId: map<Long, ExecutionContext>)
  {
    /** The map that holds the entries of one id space. */
    function In(scope: Scope): map<Long, ExecutionContext>
    {
      match scope
      case StepScope => contextsByStepExecutionId
      case JobScope => contextsByJobExecutionId
    }
  }

  /** The state of a freshly built DAO, and of one just cleared. */
  const Empty := DaoState(map[], map[])

  /** A public call on the DAO, with the execution it is given. */
  datatype Call =
    | GetStepContext(stepExecution: StepExecution)
    | GetJobContext(jobExecution: JobExecution)
    | UpdateStepContext(stepExecution: StepExecution)
    | UpdateJobContext(jobExecution: JobExecution)
    | SaveStepContext(stepExecution: StepExecution)
    | SaveJobContext(jobExecution: JobExecution)
    | ClearAll

  /** The state after a step-scoped update: only the step map is written. */
  function AfterStepUpdate(s: DaoState, e: StepExecution): DaoState
  {
    s.(contextsByStepExecutionId := Put(s.contextsByStepExecutionId, e.id, e.executionContext))
  }

  /** The state after a job-scoped update: only the job map is written. */
  function AfterJobUpdate(s: DaoState, e: JobExecution): DaoState
  {
    s.(contextsByJobExecutionId := Put(s.contextsByJobExecutionId, e.id, e.executionContext))
  }

  /** The state after one call: gets read only, saves delegate to updates, clear empties both maps. */
  function Next(s: DaoState, call: Call): DaoState
  {
    match call
    case GetStepContext(_) => s
    case GetJobContext(_) => s
    case UpdateStepContext(e) => AfterStepUpdate(s, e)
    case UpdateJobContext(e) => AfterJobUpdate(s, e)
    case SaveStepContext(e) => AfterStepUpdate(s, e)
    case SaveJobContext(e) => AfterJobUpdate(s, e)
    case ClearAll => Empty
  }

  /** The state after the calls, made in order from `s`. */
  function Run(s: DaoState, calls: seq<Call>): DaoState
    decreases |calls|
  {
    if calls == [] then s else Run(Next(s, calls[0]), calls[1..])
  }

  /** A save has exactly the effect of an update, in both id spaces. */
  lemma SaveIsUpdate(s: DaoState, step: StepExecution, job: JobExecution)
    ensures Next(s, SaveStepContext(step)) == Next(s, UpdateStepContext(step))
    ensures Next(s, SaveJobContext(job)) == Next(s, UpdateJobContext(job))
  {
  }

  /** A step-scoped write never touches the job map, and a job-scoped write never touches the step map. */
  lemma ScopesAreIndependent(s: DaoState, step: StepExecution, job: JobExecution)
    ensures Next(s, UpdateStepContext(step)).contextsByJobExecutionId == s.contextsByJobExecutionId
    ensures Next(s, UpdateJobContext(job)).contextsByStepExecutionId == s.contextsByStepExecutionId
  {
  }

  /**
   * The write a call makes in one id space, if any: the id and the
   * (non-null) context it stores. Gets, clears, calls on the other id space
   * and updates with a null context write nothing.
   */
  function WriteIn(scope: Scope, call: Call): Option<(Long, ExecutionContext)>
  {
    match call
    case UpdateStepContext(e) =>
      if scope == StepScope && e.executionContext.Some? then Some((e.id, e.executionContext.value)) else None
    case SaveStepContext(e) =>
      if scope == StepScope && e.executionContext.Some? then Some((e.id, e.executionContext.value)) else None
    case UpdateJobContext(e) =>
      if scope == JobScope && e.executionContext.Some? then Some((e.id, e.executionContext.value)) else None
    case SaveJobContext(e) =>
      if scope == JobScope && e.executionContext.Some? then Some((e.id, e.executionContext.value)) else None
    case _ => None
  }

  /**
   * Last write wins, read backwards: what a get of `id` in `scope` sees after
   * `calls` is the context of the latest write of `id` in that scope, unless
   * a clear came after it (then nothing), or, when neither happened, what the
   * initial state held.
   */
  function Latest(scope: Scope, initial: DaoState, calls: seq<Call>, id: Long): Option<ExecutionContext>
    decreases |calls|
  {
    if calls == [] then Find(initial.In(scope), id)
    else
      var last := calls[|calls| - 1];
      var w := WriteIn(scope, last);
      if last.ClearAll? then None
      else if w.Some? && w.value.0 == id then Some(w.value.1)
      else Latest(scope, initial, calls[..|calls| - 1], id)
  }

  /** What one call does to what a get of `id` in `scope` observes. */
  lemma GetAfterNext(scope: Scope, s: DaoState, call: Call, id: Long)
    ensures var w := WriteIn(scope, call);
            Get(Next(s, call).In(scope), id) ==
              if call.ClearAll? then None
              else if w.Some? && w.value.0 == id then Some(w.value.1)
              else Get(s.In(scope), id)
  {
  }

  /** Replaying calls one more call at a time: the last call acts on the state the others left. */
  lemma {:induction false} RunSnoc(s: DaoState, calls: seq<Call>, call: Call)
    ensures Run(s, calls + [call]) == Next(Run(s, calls), call)
    decreases |calls|
  {
    if calls == [] {
      assert calls + [call] == [call];
    } else {
      assert (calls + [call])[0] == calls[0];
      assert (calls + [call])[1..] == calls[1..] + [call];
      RunSnoc(Next(s, calls[0]), calls[1..], call);
    }
  }

  /** Replaying two batches of calls is replaying the first, then the second from where it left off. */
  lemma {:induction false} RunAppend(s: DaoState, first: seq<Call>, second: seq<Call>)
    ensures Run(s, first + second) == Run(Run(s, first), second)
    decreases |first|
  {
    if first == [] {
      assert first + second == second;
    } else {
      assert (first + second)[0] == first[0];
      assert (first + second)[1..] == first[1..] + second;
      RunAppend(Next(s, first[0]), first[1..], second);
    }
  }

  /**
   * Last write wins: after any sequence of calls, a get of `id` in either
   * scope returns the context of the latest non-null write of `id` in that
   * scope since the last clear, and nothing if there is none (or what the
   * initial state held, if no clear happened either).
   */
  lemma {:induction false} LastWriteWins(scope: Scope, s: DaoState, calls: seq<Call>, id: Long)
    ensures Get(Run(s, calls).In(scope), id) == Latest(scope, s, calls, id)
    decreases |calls|
  {
    if calls != [] {
      var prefix, last := calls[..|calls| - 1], calls[|calls| - 1];
      assert calls == prefix + [last];
      RunSnoc(s, prefix, last);
      LastWriteWins(scope, s, prefix, id);
      GetAfterNext(scope, Run(s, prefix), last, id);
    }
  }

  /** Gets are read-only: any number of them leaves the state as it was. */
  lemma {:induction false} GetsChangeNothing(s: DaoState, calls: seq<Call>)
    requires forall i :: 0 <= i < |calls| ==> calls[i].GetStepContext? || calls[i].GetJobContext?
    ensures Run(s, calls) == s
    decreases |calls|
  {
    if calls != [] {
      GetsChangeNothing(Next(s, calls[0]), calls[1..]);
    }
  }

  /**
   * Updates and saves never remove an entry: as long as no clear is made,
   * every id present in either map stays present, whatever is written.
   */
  lemma {:induction false} AppendOnly(scope: Scope, s: DaoState, calls: seq<Call>)
    requires forall i :: 0 <= i < |calls| ==> !calls[i].ClearAll?
    ensures s.In(scope).Keys <= Run(s, calls).In(scope).Keys
    decreases |calls|
  {
    if calls != [] {
      var t := Next(s, calls[0]);
      assert s.In(scope).Keys <= t.In(scope).Keys by {
        match calls[0]
        case UpdateStepContext(e) => PutKeepsKeys(s.contextsByStepExecutionId, e.id, e.executionContext);
        case SaveStepContext(e) => PutKeepsKeys(s.contextsByStepExecutionId, e.id, e.executionContext);
        case UpdateJobContext(e) => PutKeepsKeys(s.contextsByJobExecutionId, e.id, e.executionContext);
        case SaveJobContext(e) => PutKeepsKeys(s.contextsByJobExecutionId, e.id, e.executionContext);
        case _ =>
      }
      AppendOnly(scope, t, calls[1..]);
    }
  }

  /**
   * A clear forgets everything before it: after `before`, a clear and then
   * `after`, the DAO is in exactly the state `after` alone leaves a fresh DAO
   * in, whatever `before` wrote and whatever the initial state held; so a get
   * sees the latest write of `after` alone.
   */
  lemma {:induction false} ClearForgetsEarlierCalls(scope: Scope, s: DaoState, before: seq<Call>, after: seq<Call>, id: Long)
    ensures Run(s, before + [ClearAll] + after) == Run(Empty, after)
    ensures Get(Run(s, before + [ClearAll] + after).In(scope), id) == Latest(scope, Empty, after, id)
  {
    RunAppend(s, before + [ClearAll], after);
    RunSnoc(s, before, ClearAll);
    LastWriteWins(scope, Empty, after, id);
  }

  /** On a fresh DAO, or right after a clear, a get in either scope finds nothing. */
  lemma ClearedFindsNothing(scope: Scope, s: DaoState, id: Long)
    ensures Get(Next(s, ClearAll).In(scope), id) == None
  {
  }
}
