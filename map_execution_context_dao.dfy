/**
 * The in-memory execution-context DAO: two maps, one keyed by step-execution
 * id and one by job-execution id, updated in place. Every method is proved
 * against the transitions of `ContextStore`, so the lemmas there speak about
 * any sequence of calls on an instance.
 */
module Dao {
  import opened Wrappers
  import opened Executions
  import opened ContextStore

  class MapExecutionContextDao {
    var contextsByStepExecutionId: map<Long, ExecutionContext>
    var contextsByJobExecutionId: map<Long, ExecutionContext>

    /** The abstract value of this DAO. */
    function State(): DaoState
      reads this
    {
      DaoState(contextsByStepExecutionId, contextsByJobExecutionId)
    }

    /** Both maps start empty. */
    constructor ()
      ensures State() == Empty
    {
      contextsByStepExecutionId := map[];
      contextsByJobExecutionId := map[];
    }

    /** Empties both maps. */
    method Clear()
      modifies this
      ensures contextsByJobExecutionId == map[] && contextsByStepExecutionId == map[]
      ensures State() == Next(old(State()), ClearAll)
    {
      contextsByJobExecutionId := map[];
      contextsByStepExecutionId := map[];
    }

    /**
     * A copy of the context stored for the step execution's id, or nothing
     * when none is stored. Changes nothing (there is no modifies clause).
     */
    method GetStepExecutionContext(stepExecution: StepExecution) returns (r: Option<ExecutionContext>)
      ensures r.Some? <==> stepExecution.id in contextsByStepExecutionId
      ensures r.Some? ==> r.value == contextsByStepExecutionId[stepExecution.id]
      ensures r == Get(State().In(StepScope), stepExecution.id)
    {
      var stored := Find(contextsByStepExecutionId, stepExecution.id);
      r := Copy(stored);
    }

    /**
     * Stores a copy of the step execution's context under its id, replacing
     * any earlier one; does nothing when the context is null. The job map
     * is left alone.
     */
    method UpdateStepExecutionContext(stepExecution: StepExecution)
      modifies this
      ensures contextsByStepExecutionId ==
                if stepExecution.executionContext.Some?
                then old(contextsByStepExecutionId)[stepExecution.id := stepExecution.executionContext.value]
                else old(contextsByStepExecutionId)
      ensures contextsByJobExecutionId == old(contextsByJobExecutionId)
      ensures State() == Next(old(State()), UpdateStepContext(stepExecution))
    {
      var executionContext := stepExecution.executionContext;
      if executionContext.Some? {
        contextsByStepExecutionId := contextsByStepExecutionId[stepExecution.id := Copy(executionContext).value];
      }
    }

    /**
     * A copy of the context stored for the job execution's id, or nothing
     * when none is stored. Changes nothing (there is no modifies clause).
     */
    method GetJobExecutionContext(jobExecution: JobExecution) returns (r: Option<ExecutionContext>)
      ensures r.Some? <==> jobExecution.id in contextsByJobExecutionId
      ensures r.Some? ==> r.value == contextsByJobExecutionId[jobExecution.id]
      ensures r == Get(State().In(JobScope), jobExecution.id)
    {
      var stored := Find(contextsByJobExecutionId, jobExecution.id);
      r := Copy(stored);
    }

    /**
     * Stores a copy of the job execution's context under its id, replacing
     * any earlier one; does nothing when the context is null. The step map
     * is left alone.
     */
    method UpdateJobExecutionContext(jobExecution: JobExecution)
      modifies this
      ensures contextsByJobExecutionId ==
                if jobExecution.executionContext.Some?
                then old(contextsByJobExecutionId)[jobExecution.id := jobExecution.executionContext.value]
                else old(contextsByJobExecutionId)
      ensures contextsByStepExecutionId == old(contextsByStepExecutionId)
      ensures State() == Next(old(State()), UpdateJobContext(jobExecution))
    {
      var executionContext := jobExecution.executionContext;
      if executionContext.Some? {
        contextsByJobExecutionId := contextsByJobExecutionId[jobExecution.id := Copy(executionContext).value];
      }
    }

    /** Saving a job execution's context is updating it. */
    method SaveJobExecutionContext(jobExecution: JobExecution)
      modifies this
      ensures State() == Next(old(State()), UpdateJobContext(jobExecution))
      ensures State() == Next(old(State()), SaveJobContext(jobExecution))
    {
      UpdateJobExecutionContext(jobExecution);
    }

    /** Saving a step execution's context is updating it. */
    method SaveStepExecutionContext(stepExecution: StepExecution)
      modifies this
      ensures State() == Next(old(State()), UpdateStepContext(stepExecution))
      ensures State() == Next(old(State()), SaveStepContext(stepExecution))
    {
      UpdateStepExecutionContext(stepExecution);
    }
  }

  /**
   * A client of the DAO: what a caller can conclude from the contracts
   * alone. A context is stored, replaced, survives an update with a null
   * context, is not seen in the other id space, and is gone after a clear.
   * The ghost `calls` records every call made, and after each one the DAO's
   * state is shown to be `Run(Empty, calls)`, so the lemmas about `Run`
   * (here `LastWriteWins`) speak about this chain of method calls.
   */
  method ReplaceThenClear()
  {
    var dao := new MapExecutionContextDao();
    ghost var calls: seq<Call> := [];
    var first := ExecutionContext(map["count" := "1"]);
    var second := ExecutionContext(map["count" := "2"]);

    var c := UpdateStepContext(StepExecution(7, Some(first)));
    dao.UpdateStepExecutionContext(c.stepExecution);
    RunSnoc(Empty, calls, c);
    calls := calls + [c];

    c := GetStepContext(StepExecution(7, None));
    var r := dao.GetStepExecutionContext(c.stepExecution);
    RunSnoc(Empty, calls, c);
    calls := calls + [c];
    assert r == Some(first);

    c := SaveStepContext(StepExecution(7, Some(second)));
    dao.SaveStepExecutionContext(c.stepExecution);
    RunSnoc(Empty, calls, c);
    calls := calls + [c];

    c := UpdateStepContext(StepExecution(7, None));
    dao.UpdateStepExecutionContext(c.stepExecution);
    RunSnoc(Empty, calls, c);
    calls := calls + [c];
    assert dao.State() == Run(Empty, calls);

    c := GetStepContext(StepExecution(7, None));
    r := dao.GetStepExecutionContext(c.stepExecution);
    LastWriteWins(StepScope, Empty, calls, 7);
    assert r == Latest(StepScope, Empty, calls, 7) == Some(second);
    RunSnoc(Empty, calls, c);
    calls := calls + [c];

    var j := dao.GetJobExecutionContext(JobExecution(7, None));
    assert j == None;

    c := ClearAll;
    dao.Clear();
    RunSnoc(Empty, calls, c);
    calls := calls + [c];

    r := dao.GetStepExecutionContext(StepExecution(7, None));
    LastWriteWins(StepScope, Empty, calls, 7);
    assert r == Latest(StepScope, Empty, calls, 7) == None;
  }
}
