/** The collaborators the handlers drive, reduced to what the handlers observe:
    the connection (its session and identifier markers), the command executor
    and session provider (as functions supplied by the caller), and the
    lifecycle notifications and scope entry/exit (as an event trace). */
module Ipc {
  import opened Wrappers
  import opened Json
  import opened Calls

  type SessionId = nat

  /** The private identifier key each single-call handler stamps on a connection. */
  datatype Marker = Json1Identifier | Json2Identifier

  /** A connection: its identity, the attached session and the identifier markers. */
  datatype Connection = Connection(id: ConnectionId, session: Option<SessionId>, markers: map<Marker, string>)

  /** Everything the handlers make happen besides their return value. */
  datatype Event =
    | SessionAttached(session: SessionId)
    | MarkerSet(key: Marker, value: string)
    | CallCreated(call: JsonRpcCall)
    | ScopeEntered(call: JsonRpcCall)
    | Executed(command: string, call: JsonRpcCall)
    | ScopeExited
    | CallDestroyed(call: JsonRpcCall)
    | CallCleared(call: JsonRpcCall)
    | SessionCleared(session: SessionId)

  datatype World = World(conn: Connection, trace: seq<Event>)

  /** How the command executor can end: a result map, or one of the three
      exceptions its signature allows (the exception object itself). */
  datatype ExecOutcome =
    | Completed(result: map<string, Value>)
    | Unchecked(e: Throwable)        // a RuntimeException
    | NotAvailable(e: Throwable)     // IpcCommandNotAvailableException
    | ExecutionFailed(e: Throwable)  // IpcCommandExecutionException

  /** The session provider (`getSession(connectionId, secondaryKey)`) and the
      command executor (`execute(method, call)`). */
  datatype Env = Env(
    getSession: (Option<ConnectionId>, Option<string>) -> SessionId,
    execute: (string, JsonRpcCall) -> ExecOutcome)

  /** What a handler hands back to the transport: a response value, or the
      `NO_RESPONSE` sentinel. */
  datatype Reply = Response(body: Value) | NoResponse

  /** A handler's `process` either returns or throws. */
  datatype Outcome = Returned(reply: Reply) | Raised(failure: Throwable)

  datatype Step = Step(outcome: Outcome, world: World)

  /** The events of `connection.attachTo(session)` and `connection.set(key, value)`. */
  function BindEvents(session: SessionId, key: Marker, value: string): seq<Event>
  {
    [SessionAttached(session), MarkerSet(key, value)]
  }

  /** `connection.attachTo(session)` followed by `connection.set(key, value)`. */
  function Bind(w: World, session: SessionId, key: Marker, value: string): World
  {
    World(
      w.conn.(session := Some(session), markers := w.conn.markers[key := value]),
      w.trace + BindEvents(session, key, value))
  }

  /** The teardown hook both single-call handlers share, for their own key and
      value: the session is cleared only when the marker under the handler's
      key equals the handler's value. A connection without a session has
      nothing to clear. */
  function ConnectionDestroyed(conn: Connection, key: Marker, value: string): (events: seq<Event>)
    ensures events != [] <==> key in conn.markers && conn.markers[key] == value && conn.session.Some?
    ensures events != [] ==> events == [SessionCleared(conn.session.value)]
  {
    if key !in conn.markers then []
    else if conn.markers[key] == value && conn.session.Some? then [SessionCleared(conn.session.value)]
    else []
  }
}
