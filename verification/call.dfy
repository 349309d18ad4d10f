/** The call context (`JsonRpcCall`): the arguments and the connection a
    command runs with, plus a scoped store created on first use. */
module Calls {
  import opened Wrappers
  import opened Json
  import opened Arguments

  /** The identity of a connection (`getConnectionId()`). */
  type ConnectionId = string

  /** `scoped` is the lazily created context map: None until `context()` runs. */
  datatype JsonRpcCall = JsonRpcCall(arguments: IpcArguments, connection: ConnectionId, scoped: Option<map<string, Value>>)

  /** The constructor: arguments are checked first, then the connection. */
  function New(arguments: Option<IpcArguments>, connection: Option<ConnectionId>): (r: Result<JsonRpcCall, Throwable>)
    ensures r.Success? <==> arguments.Some? && connection.Some?
    ensures arguments.None? ==> r == Failure(NullPointer("Arguments"))
    ensures arguments.Some? && connection.None? ==> r == Failure(NullPointer("Connection"))
    ensures r.Success? ==> r.value.arguments == arguments.value && r.value.connection == connection.value
    ensures r.Success? ==> r.value.scoped.None?
  {
    match arguments
    case None => Failure(NullPointer("Arguments"))
    case Some(a) =>
      match connection
      case None => Failure(NullPointer("Connection"))
      case Some(c) => Success(JsonRpcCall(a, c, None))
  }

  /** `context()`: the scoped map, created empty on the first call. Returns the
      call as it is afterwards together with the map. */
  function Context(call: JsonRpcCall): (r: (JsonRpcCall, map<string, Value>))
    ensures r.0.scoped == Some(r.1)
    ensures call.scoped.None? ==> r.1 == map[]
    ensures call.scoped.Some? ==> r.0 == call && r.1 == call.scoped.value
    ensures r.0.arguments == call.arguments && r.0.connection == call.connection
  {
    match call.scoped
    case Some(m) => (call, m)
    case None => (call.(scoped := Some(map[])), map[])
  }

  /** A second `context()` returns the map the first one created and changes nothing. */
  lemma ContextStable(call: JsonRpcCall)
    ensures Context(Context(call).0) == Context(call)
  {
  }
}
