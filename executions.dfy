/**
 * The domain values the DAO handles. Their Java classes (`ExecutionContext`,
 * `StepExecution`, `JobExecution`) are not part of this model; only what the
 * DAO reads from them is kept: an execution's id and its (possibly null)
 * execution context.
 */
module Executions {
  import opened Wrappers

  /** Java's `long`: the value range of the boxed `Long` execution ids. */
  newtype Long = x: int | -0x8000_0000_0000_0000 <= x < 0x8000_0000_0000_0000

  /**
   * An execution context: a bag of named values, each value rendered here
   * as a string (the Java values are arbitrary serializable objects). The
   * store never looks inside; it only stores, replaces and hands out whole
   * snapshots. Being a value, a context cannot be aliased, so a mutation by
   * a caller can never reach the stored snapshot.
   */
  datatype ExecutionContext = ExecutionContext(entries: map<string, string>)

  /** A step execution as the DAO sees it: `getId()` and `getExecutionContext()`. */
  datatype StepExecution = StepExecution(id: Long, executionContext: Option<ExecutionContext>)

  /** A job execution as the DAO sees it: `getId()` and `getExecutionContext()`. */
  datatype JobExecution = JobExecution(id: Long, executionContext: Option<ExecutionContext>)
}
