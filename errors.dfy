/**
 * The runtime exceptions the template engine raises, as values.
 */
module Errors {

  datatype SqlError =
    // TokenNotClosedRuntimeException: a comment opener with no closer after it; carries the
    // closing marker looked for and the rest of the text.
    | TokenNotClosed(token: string, sql: string)
    /** EndCommentNotFoundRuntimeException: an IF or BEGIN block reached the end of the text. */
    | EndCommentNotFound
    /** IfConditionNotFoundRuntimeException: `IF` with nothing after it. */
    | IfConditionNotFound
    /** "IllegalBoolExpression=[...]": an IF condition evaluated to null. */
    | IllegalBoolExpression(expression: string)
    /** NullReferenceException while flattening the parameter `name`: its value is null where
        it is enumerated or asked for its type. */
    | NullParameter(name: string)
    /** InvalidCastException while flattening the parameter `name`: its value is not the
        collection its declared type promises. */
    | InvalidCast(name: string)

  datatype Option<+T> = None | Some(value: T)

  datatype Result<+T> = Ok(value: T) | Err(error: SqlError) {
    predicate IsFailure() { Err? }
    function PropagateFailure<U>(): Result<U> requires Err? { Err(error) }
    function Extract(): T requires Ok? { value }
  }
}
