/** Failure-carrying results and the two kinds of error the engine raises. */
module Common {

  datatype Option<+T> = None | Some(value: T)

  /** The outcome of an operation that may raise one of the engine's errors. */
  datatype Result<+T> = Ok(value: T) | Err(error: Error) {
    predicate IsFailure() { Err? }

    function PropagateFailure<U>(): Result<U>
      requires Err?
    {
      Err(error)
    }

    function Extract(): T
      requires Ok?
    {
      value
    }
  }

  /**
   * Execution errors (PipelineExecutionException and PHP's own TypeError) are
   * raised while a stage runs; configuration errors (StageConfigurationException)
   * while the stage tree is built.
   */
  datatype Error =
    | MissingSetting(setting: string)
    | InvalidOperator(operator: string)
    | MissingBlock(block: string)
    | ZeroStep
    | NotAnArray(what: string)
    | TypeError(what: string)
    | InvalidOperatorConfiguration(operator: string)
    | ReferenceWithItems(param: string)
    | UnknownStageType(stageType: string)
  {
    predicate IsConfigurationError() {
      InvalidOperatorConfiguration? || ReferenceWithItems? || UnknownStageType?
    }
  }
}
