/** The exceptions the query layer raises, and the outcome of an operation that may
    raise one. DBOperationException is the layer's own exception type: a message, a
    code, a fatal flag fixed at construction, and a map of extra report data. */
module Exceptions {

  datatype Exception =
    | DBOperationException(message: string, code: int, isFatal: bool, additionalData: map<string, string>)
      /** PHP's DomainException: a builder used on a query type that does not support it. */
    | DomainException(message: string)
      /** PHP's InvalidArgumentException: a bulk builder given something it cannot iterate. */
    | InvalidArgumentException(message: string)
      /** A plain Exception, or one the mysqli driver raises while running a query. */
    | RuntimeException(message: string)

  /** The value an operation returns, or the exception it throws. */
  datatype Outcome<T> = Ok(value: T) | Throws(ex: Exception)

  /** Applies f to a returned value; an exception passes through unchanged. */
  function MapOk<T, U>(o: Outcome<T>, f: T -> U): (r: Outcome<U>)
    ensures o.Ok? ==> r == Ok(f(o.value))
    ensures o.Throws? ==> r == Throws(o.ex)
  {
    match o
    case Ok(v) => Ok(f(v))
    case Throws(e) => Throws(e)
  }

  /** new DBOperationException($message, $code, null, $isFatal): no additional data yet. */
  function NewDBOperationException(message: string, code: int, isFatal: bool): (e: Exception)
    ensures e.DBOperationException?
    ensures e.message == message && e.code == code
    ensures e.isFatal == isFatal
    ensures e.additionalData == map[]
  {
    DBOperationException(message, code, isFatal, map[])
  }

  /** setAdditionalData replaces the whole map and leaves message and fatal flag alone. */
  function SetAdditionalData(e: Exception, data: map<string, string>): (r: Exception)
    requires e.DBOperationException?
    ensures r.DBOperationException?
    ensures r.additionalData == data
    ensures r.message == e.message && r.code == e.code && r.isFatal == e.isFatal
  {
    e.(additionalData := data)
  }

  /** Setting the data twice keeps only the second map. */
  lemma SetAdditionalDataReplaces(e: Exception, first: map<string, string>, second: map<string, string>)
    requires e.DBOperationException?
    ensures SetAdditionalData(SetAdditionalData(e, first), second) == SetAdditionalData(e, second)
  {
  }
}
