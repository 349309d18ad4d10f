/** The error taxonomy and the two error-response builders (`ErrorCode`).
    The codes are those of the error table in section 5.1 of the JSON-RPC 2.0
    specification, but written as positive numbers, as the source has them. */
module ErrorCodes {
  import opened Wrappers
  import opened Json

  datatype ErrorCode = ParseError | InvalidRequest | MethodNotFound | InvalidParams | InternalError

  /** The numeric code each constant is constructed with. */
  function Code(c: ErrorCode): int32
  {
    match c
    case ParseError => 32700
    case InvalidRequest => 32600
    case MethodNotFound => 32601
    case InvalidParams => 32602
    case InternalError => 32603
  }

  /** The code of the same condition in the table of section 5.1 of the JSON-RPC 2.0 specification. */
  function StandardCode(c: ErrorCode): int
  {
    match c
    case ParseError => -32700
    case InvalidRequest => -32600
    case MethodNotFound => -32601
    case InvalidParams => -32602
    case InternalError => -32603
  }

  /** Reads a numeric code back as the constant that carries it. */
  function FromCode(n: int): Option<ErrorCode>
  {
    if n == 32700 then Some(ParseError)
    else if n == 32600 then Some(InvalidRequest)
    else if n == 32601 then Some(MethodNotFound)
    else if n == 32602 then Some(InvalidParams)
    else if n == 32603 then Some(InternalError)
    else None
  }

  /** Every constant's code reads back as that constant, and only the five
      codes read back at all: the codes are pairwise distinct. Each is the
      standard's code with its sign dropped. */
  lemma CodeRoundTrip(c: ErrorCode, n: int)
    ensures FromCode(Code(c) as int) == Some(c)
    ensures FromCode(n).Some? ==> Code(FromCode(n).value) as int == n
    ensures Code(c) as int == -StandardCode(c)
  {
  }

  lemma CodesDistinct(a: ErrorCode, b: ErrorCode)
    ensures Code(a) == Code(b) ==> a == b
  {
    CodeRoundTrip(a, 0);
    CodeRoundTrip(b, 0);
  }

  /** An error response as a client would read it back. */
  datatype ErrorView = ErrorView(code: ErrorCode, message: Value, data: Option<Value>, id: Value)

  /** Reads an error response: an object with exactly the keys `error` and `id`,
      whose `error` is an object with exactly `code` and `message`, or exactly
      `code`, `message` and `data`, and whose code is one of the five. */
  function ReadError(v: Value): Option<ErrorView>
  {
    if !v.Obj? || v.fields.Keys != {"error", "id"} then None
    else
      var err := v.fields["error"];
      if !err.Obj? || !(err.fields.Keys == {"code", "message"} || err.fields.Keys == {"code", "message", "data"}) then None
      else
        var code := err.fields["code"];
        if !code.Int32? || FromCode(code.i as int).None? then None
        else
          var data := if "data" in err.fields then Some(err.fields["data"]) else None;
          Some(ErrorView(FromCode(code.i as int).value, err.fields["message"], data, v.fields["id"]))
  }

  /** The body of `getResponse(id, Throwable)` once `e` is known to be non-null. */
  function ThrowableEnvelope(c: ErrorCode, id: Value, e: Throwable): (r: Value)
    ensures ReadError(r) == Some(ErrorView(c, MessageOf(e), Some(Thrown(e)), id))
    ensures r.Obj? && "jsonrpc" !in r.fields
  {
    CodeRoundTrip(c, 0);
    Obj(map["error" := Obj(map["code" := Int32(Code(c)), "message" := MessageOf(e), "data" := Thrown(e)]), "id" := id])
  }

  /** The body of `getResponse(id, String)` once the message is known to be non-null. */
  function MessageEnvelope(c: ErrorCode, id: Value, message: string): (r: Value)
    ensures ReadError(r) == Some(ErrorView(c, Str(message), None, id))
    ensures r.Obj? && "jsonrpc" !in r.fields
  {
    CodeRoundTrip(c, 0);
    Obj(map["error" := Obj(map["code" := Int32(Code(c)), "message" := Str(message)]), "id" := id])
  }

  /** `getResponse(id, Throwable)`: a null throwable fails the precondition check. */
  function GetResponse(c: ErrorCode, id: Value, e: Option<Throwable>): (r: Result<Value, Throwable>)
    ensures r.Failure? <==> e.None?
    ensures r.Failure? ==> r.error == NullPointer("Exception")
    ensures r.Success? ==> ReadError(r.value) == Some(ErrorView(c, MessageOf(e.value), Some(Thrown(e.value)), id))
    ensures r.Success? ==> r.value.Obj? && "jsonrpc" !in r.value.fields
  {
    match e
    case None => Failure(NullPointer("Exception"))
    case Some(t) => Success(ThrowableEnvelope(c, id, t))
  }

  /** `getResponse(id, String)`: a null message fails the precondition check. */
  function GetMessageResponse(c: ErrorCode, id: Value, message: Option<string>): (r: Result<Value, Throwable>)
    ensures r.Failure? <==> message.None?
    ensures r.Failure? ==> r.error == NullPointer("Message")
    ensures r.Success? ==> ReadError(r.value) == Some(ErrorView(c, Str(message.value), None, id))
    ensures r.Success? ==> r.value.Obj? && "jsonrpc" !in r.value.fields
  {
    match message
    case None => Failure(NullPointer("Message"))
    case Some(m) => Success(MessageEnvelope(c, id, m))
  }
}
