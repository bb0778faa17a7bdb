/** The result of an INSERT, UPDATE or DELETE: a 0/1 success flag, a message, the
    number of rows modified and the auto-increment value an insert produced. */
module UpdateQueryResults {
  import opened PhpValues

  datatype UpdateQueryResult = UpdateQueryResult(success: int, errorMessage: string, rowsModified: int, insertedID: int)

  /** new UpdateQueryResult($success, $message): the flag is 1 exactly when $success
      is truthy; the counters start at 0. */
  function NewUpdateQueryResult(success: Value, message: string): (r: UpdateQueryResult)
    ensures r.success == 0 || r.success == 1
    ensures r.success == 1 <==> IsTruthy(success)
    ensures r.errorMessage == message
    ensures r.rowsModified == 0 && r.insertedID == 0
  {
    UpdateQueryResult(if IsTruthy(success) then 1 else 0, message, 0, 0)
  }

  function CreateSuccess(message: string): (r: UpdateQueryResult)
    ensures r.success == 1 && r.errorMessage == message
    ensures r.rowsModified == 0 && r.insertedID == 0
  {
    NewUpdateQueryResult(Bool(true), message)
  }

  function CreateError(message: string): (r: UpdateQueryResult)
    ensures r.success == 0 && r.errorMessage == message
    ensures r.rowsModified == 0 && r.insertedID == 0
  {
    NewUpdateQueryResult(Bool(false), message)
  }
}
