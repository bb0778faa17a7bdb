/** The result a model operation hands back to the API: a success flag, a message and
    optional return data. vsprintf is a parameter: formatting is not modelled. */
module OperationResults {
  import opened PhpValues
  import opened UpdateQueryResults

  datatype OperationResult = OperationResult(success: bool, message: string, returnData: Value)

  /** The message of the *Formatted factories: no argument gives "", one argument is
      used verbatim, more arguments format the first with the rest. */
  function GetFormattedMessage(args: seq<string>, vsprintf: (string, seq<string>) -> string): (m: string)
    ensures |args| == 0 ==> m == ""
    ensures |args| == 1 ==> m == args[0]
    ensures |args| > 1 ==> m == vsprintf(args[0], args[1..])
  {
    if |args| == 0 then ""
    else if |args| == 1 then args[0]
    else vsprintf(args[0], args[1..])
  }

  function Success(message: string, returnData: Value): (r: OperationResult)
    ensures r.success && r.message == message && r.returnData == returnData
  {
    OperationResult(true, message, returnData)
  }

  function SuccessFormatted(args: seq<string>, vsprintf: (string, seq<string>) -> string): (r: OperationResult)
    ensures r.success && r.message == GetFormattedMessage(args, vsprintf) && r.returnData == Null
  {
    OperationResult(true, GetFormattedMessage(args, vsprintf), Null)
  }

  function Failed(message: string, returnData: Value): (r: OperationResult)
    ensures !r.success && r.message == message && r.returnData == returnData
  {
    OperationResult(false, message, returnData)
  }

  function FailedFormatted(args: seq<string>, vsprintf: (string, seq<string>) -> string): (r: OperationResult)
    ensures !r.success && r.message == GetFormattedMessage(args, vsprintf) && r.returnData == Null
  {
    OperationResult(false, GetFormattedMessage(args, vsprintf), Null)
  }

  /** Success follows the database flag and the database message is carried over. */
  function FromUpdateQueryResult(u: UpdateQueryResult): (r: OperationResult)
    ensures r.success <==> u.success != 0
    ensures r.message == u.errorMessage
    ensures r.returnData == Null
  {
    if u.success != 0 then Success(u.errorMessage, Null) else Failed(u.errorMessage, Null)
  }

  /** With at most one argument the *Formatted factories never format: the message
      is the one argument, or "" without any, exactly as Success and Failed give. */
  lemma FormattedWithoutArguments(args: seq<string>, vsprintf: (string, seq<string>) -> string)
    requires |args| <= 1
    ensures var message := if |args| == 0 then "" else args[0];
      SuccessFormatted(args, vsprintf) == Success(message, Null)
      && FailedFormatted(args, vsprintf) == Failed(message, Null)
  {
  }

  /** A database success or error converts to an operation success or failure with
      the same message. */
  lemma FromCreated(message: string)
    ensures FromUpdateQueryResult(CreateSuccess(message)) == Success(message, Null)
    ensures FromUpdateQueryResult(CreateError(message)) == Failed(message, Null)
  {
  }
}
