/** The error values the core returns (common-lib/errors/errors.go), plus the
    ad-hoc errors it builds with fmt.Errorf, each as its own constructor. */
module Errors {

  datatype Error =
    | TaskNotFound
    | ExpressionNotFound
    | InternalServerError
    | InvalidExpression
    | DivideByZero
      /** "task manager not found for expression ID" from GetTaskManager */
    | TaskManagerNotFound
      /** a failed uuid.Parse of a request field */
    | MalformedId
      /** an error reported by the storage adapter */
    | StorageFailure
      /** an error reported by a transport adapter, identified only by a code */
    | Transport(code: nat)
}
