/** The provider's error type, its numeric codes, and the conversions from
 *  storage results to the records returned to callers.
 */
module ProviderErrors {

  import opened ProviderTypes
  import opened SqliteConnection

  datatype ProviderError =
    | SqliteConnectorError(err: ConnectorError)
    | CorruptedMessage(values: seq<Value>)
    | InternalError(message: string)
    | InvalidArgument(message: string)
    | UnexpectedValueType(value: Value, expectedType: string)

  /** The result type of every storage operation. */
  datatype Result<T> = Ok(value: T) | Err(error: ProviderError)

  /** Every connector error becomes the SqliteConnectorError variant carrying it. */
  function FromConnectorError(err: ConnectorError): (e: ProviderError)
    ensures e.SqliteConnectorError? && e.err == err
  {
    SqliteConnectorError(err)
  }

  /** The numeric classification of an error. */
  function ToErrorCode(e: ProviderError): (c: i32)
    ensures 0 <= c <= 4
    ensures c == SUCCESS_CODE <==> e.SqliteConnectorError?
  {
    match e
    case SqliteConnectorError(_) => 0
    case CorruptedMessage(_) => 1
    case InternalError(_) => 2
    case InvalidArgument(_) => 3
    case UnexpectedValueType(_, _) => 4
  }

  /** Two errors are of the same variant. */
  predicate SameVariant(a: ProviderError, b: ProviderError) {
    (a.SqliteConnectorError? && b.SqliteConnectorError?) ||
    (a.CorruptedMessage? && b.CorruptedMessage?) ||
    (a.InternalError? && b.InternalError?) ||
    (a.InvalidArgument? && b.InvalidArgument?) ||
    (a.UnexpectedValueType? && b.UnexpectedValueType?)
  }

  /** The codes lie in 0..4 and tell the variants apart: equal codes mean the same variant. */
  lemma ErrorCodesDistinct(a: ProviderError, b: ProviderError)
    ensures 0 <= ToErrorCode(a) <= 4
    ensures ToErrorCode(a) == ToErrorCode(b) <==> SameVariant(a, b)
  {
  }

  /** A connector error has the same code as success, so a return code alone cannot reveal a storage failure. */
  lemma ConnectorErrorCodeIsSuccess(err: ConnectorError)
    ensures ToErrorCode(FromConnectorError(err)) == SUCCESS_CODE
    ensures ToServiceResult(Err(FromConnectorError(err))).retCode == ToServiceResult(Ok(())).retCode
    ensures forall e :: ToErrorCode(e) == SUCCESS_CODE ==> e.SqliteConnectorError?
  {
  }

  /** A stand-in for the connector's Debug text of an error; the real text is not modelled. */
  function ConnectorDebug(err: ConnectorError): string {
    match err
    case SyntaxError => "SyntaxError"
    case NoSuchTable => "NoSuchTable"
    case ConstraintViolation => "ConstraintViolation"
    case EngineFailure(m) => m
  }

  /** A stand-in for the connector's Debug text of a value. */
  function ValueDebug(v: Value): string {
    match v
    case Integer(_) => "Integer"
    case Text(t) => "String(" + t + ")"
    case Binary(_) => "Binary"
    case Null => "Null"
  }

  /** The values, separated by ", ". */
  function ValuesDebug(values: seq<Value>): string {
    if values == [] then ""
    else if |values| == 1 then ValueDebug(values[0])
    else ValueDebug(values[0]) + ", " + ValuesDebug(values[1..])
  }

  /** The Display text of an error; every variant is written with writeln, so the text ends in a newline. */
  function Display(e: ProviderError): (s: string)
    ensures |s| > 0 && s[|s| - 1] == '\n'
  {
    match e
    case SqliteConnectorError(err) => ConnectorDebug(err) + "\n"
    case CorruptedMessage(values) =>
      "message can't be constructed from returned values: [" + ValuesDebug(values) + "]\n"
    case InternalError(m) => m + "\n"
    case InvalidArgument(m) => m + "\n"
    case UnexpectedValueType(v, t) => "expected type " + t + ", but value " + ValueDebug(v) + " received\n"
  }

  /** A boolean storage result as a get_status record. */
  function ToStatusResult(r: Result<bool>): (s: GetStatusServiceResult)
    ensures s.status.isRegistered <==> r == Ok(true)
    ensures s.errMsg == "" <==> r.Ok?
    ensures r.Ok? ==> s.retCode == SUCCESS_CODE
    ensures r.Err? ==> s.retCode == ToErrorCode(r.error)
  {
    match r
    case Ok(b) => GetStatusServiceResult(SUCCESS_CODE, "", Status(b))
    case Err(e) => GetStatusServiceResult(ToErrorCode(e), Display(e), Status(false))
  }

  /** A unit storage result as a register / remove record. */
  function ToServiceResult(r: Result<()>): (s: ProviderServiceResult)
    ensures s.errMsg == "" <==> r.Ok?
    ensures r.Ok? ==> s.retCode == SUCCESS_CODE
    ensures r.Err? ==> s.retCode == ToErrorCode(r.error)
  {
    match r
    case Ok(_) => ProviderServiceResult(SUCCESS_CODE, "")
    case Err(e) => ProviderServiceResult(ToErrorCode(e), Display(e))
  }

  /** Only the message tells a failure from a success: a converted result has code
   *  SUCCESS_CODE and an empty message exactly when the storage call succeeded.
   */
  lemma MessageRevealsFailure(r: Result<()>)
    ensures ToServiceResult(r) == ProviderServiceResult(SUCCESS_CODE, "") <==> r.Ok?
  {
  }
}
