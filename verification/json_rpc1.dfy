/** The JSON-RPC 1.0 single-call handler (`JsonRpcProtocol`). */
module JsonRpcProtocol {
  import opened Wrappers
  import opened Json
  import opened Arguments
  import opened Calls
  import opened Ipc

  const IdentifierValue := "Json-RPC 1.0"

  const MethodError := "method must be a string"
  const ParamsError := "params must be an array"

  const ProtocolExceptionClass := "de.cosmocode.palava.ipc.protocol.ProtocolException"
  const CommandExecutionExceptionClass := "de.cosmocode.palava.ipc.IpcCommandExecutionException"

  /** `KEYS`: the only key set a 1.0 request may have. */
  const Keys: set<string> := {"method", "params", "id"}

  /** `supports`: three keys, all of `method`, `params` and `id` among them. */
  function Supports(request: map<string, Value>): (b: bool)
    ensures b <==> request.Keys == Keys
  {
    assert |request.Keys| == |request|;
    if |request| == |Keys| && Keys <= request.Keys then
      assert |request.Keys - Keys| == |request.Keys| - |Keys|;
      true
    else
      false
  }

  /** A request missing any of `method`, `params` or `id` is never supported. */
  lemma SupportsNeedsAllKeys(request: map<string, Value>)
    requires "method" !in request || "params" !in request || "id" !in request
    ensures !Supports(request)
  {
  }

  /** `new ProtocolException(message)`. */
  function ProtocolFailure(message: string): Throwable
  {
    Throwable(ProtocolExceptionClass, Some(message), None)
  }

  /** `Throwable.toString()`: the class name, then ": " and the message if there is one. */
  function Describe(e: Throwable): string
  {
    match e.message
    case Some(m) => e.className + ": " + m
    case None => e.className
  }

  /** `new IpcCommandExecutionException(e)`: the wrapper keeps e as its cause and,
      like `Throwable(Throwable)`, takes e's description as its message. */
  function WrapUnchecked(e: Throwable): (w: Throwable)
    ensures w.cause == Some(e) && w.className == CommandExecutionExceptionClass
  {
    Throwable(CommandExecutionExceptionClass, Some(Describe(e)), Some(e))
  }

  /** The 1.0 response shape, with `result`, `error` and `id`. */
  function Envelope(result: Value, error: Value, id: Value): Value
  {
    Obj(map["result" := result, "error" := error, "id" := id])
  }

  /** A 1.0 response as a client reads it: exactly `result`, `error` and `id`. */
  function ReadResponse(v: Value): Option<(Value, Value, Value)>
  {
    if v.Obj? && v.fields.Keys == {"result", "error", "id"}
    then Some((v.fields["result"], v.fields["error"], v.fields["id"]))
    else None
  }

  /** The try/catch around the executor: a completed call answers with its
      result (or not at all for a null id); every failure, the unchecked one
      wrapped first, becomes the `error` of a response, whatever the id. */
  function Respond(id: Value, outcome: ExecOutcome): (r: Reply)
    ensures outcome.Completed? && id == Null ==> r == NoResponse
    ensures outcome.Completed? && id != Null ==>
              r.Response? && ReadResponse(r.body) == Some((Obj(outcome.result), Null, id))
    ensures outcome.Unchecked? ==>
              r.Response? && ReadResponse(r.body) == Some((Null, Thrown(WrapUnchecked(outcome.e)), id))
    ensures outcome.NotAvailable? || outcome.ExecutionFailed? ==>
              r.Response? && ReadResponse(r.body) == Some((Null, Thrown(outcome.e), id))
  {
    match outcome
    case Completed(result) => if id == Null then NoResponse else Response(Envelope(Obj(result), Null, id))
    case Unchecked(e) => Response(Envelope(Null, Thrown(WrapUnchecked(e)), id))
    case NotAvailable(e) => Response(Envelope(Null, Thrown(e), id))
    case ExecutionFailed(e) => Response(Envelope(Null, Thrown(e), id))
  }

  /** A request that passed the method and params checks. */
  datatype Accepted = Accepted(command: string, params: seq<Value>, id: Value)

  /** The checks of `process`: method first, then params; the first that fails
      decides the protocol failure thrown. */
  function Validate(request: map<string, Value>): (r: Result<Accepted, Throwable>)
    ensures !Get(request, "method").Str? ==> r == Failure(ProtocolFailure(MethodError))
    ensures Get(request, "method").Str? && !Get(request, "params").Arr? ==> r == Failure(ProtocolFailure(ParamsError))
    ensures r.Success? <==> Get(request, "method").Str? && Get(request, "params").Arr?
    ensures r.Success? ==> r.value.command == Get(request, "method").s && r.value.params == Get(request, "params").items
                           && r.value.id == Get(request, "id")
  {
    match Get(request, "method")
    case Str(command) =>
      (match Get(request, "params")
       case Arr(params) => Success(Accepted(command, params, Get(request, "id")))
       case _ => Failure(ProtocolFailure(ParamsError)))
    case _ => Failure(ProtocolFailure(MethodError))
  }

  /** The call an accepted request runs: positional arguments from the params. */
  function CallOf(a: Accepted, connection: ConnectionId): JsonRpcCall
  {
    JsonRpcCall(Positional(FromParams(a.params)), connection, None)
  }

  /** The events around the command: call created, scope entered, command
      run, destroy notification (inner finally), scope exited (outer
      finally). The call is never cleared. */
  function Lifecycle(command: string, call: JsonRpcCall): seq<Event>
  {
    [CallCreated(call), ScopeEntered(call), Executed(command, call), CallDestroyed(call), ScopeExited]
  }

  /** The events of an accepted request: session bound and marker stamped,
      then the lifecycle. */
  function Effects(env: Env, command: string, call: JsonRpcCall): seq<Event>
  {
    BindEvents(env.getSession(None, None), Json1Identifier, IdentifierValue) + Lifecycle(command, call)
  }

  /** The events `process` adds for a request on a connection: none when it is
      refused. */
  function EventsOf(env: Env, request: map<string, Value>, connection: ConnectionId): seq<Event>
  {
    match Validate(request)
    case Success(a) => Effects(env, a.command, CallOf(a, connection))
    case Failure(_) => []
  }

  /** The session binding, marker stamp and execution after the checks passed. */
  function Run(env: Env, a: Accepted, w: World): Step
  {
    var bound := Bind(w, env.getSession(None, None), Json1Identifier, IdentifierValue);
    var call := CallOf(a, w.conn.id);
    Step(Returned(Respond(a.id, env.execute(a.command, call))), World(bound.conn, bound.trace + Lifecycle(a.command, call)))
  }

  /** `process`. A refused request throws its protocol failure and touches
      nothing. Otherwise the params become positional arguments, the session
      is obtained without any key, the marker is set, and the command runs;
      the reply never throws. */
  function Process(env: Env, request: map<string, Value>, w: World): (s: Step)
    ensures Validate(request).Failure? ==> s == Step(Raised(Validate(request).error), w)
    ensures Validate(request).Success? ==>
              var a := Validate(request).value;
              && s.outcome == Returned(Respond(a.id, env.execute(a.command, CallOf(a, w.conn.id))))
              && s.world.conn == Connection(w.conn.id, Some(env.getSession(None, None)),
                                            w.conn.markers[Json1Identifier := IdentifierValue])
    ensures s.world.trace == w.trace + EventsOf(env, request, w.conn.id)
  {
    match Validate(request)
    case Success(a) => Run(env, a, w)
    case Failure(e) => Step(Raised(e), w)
  }

  /** `onError`: the throwable as `error`, echoing the request's id. */
  function OnError(t: Throwable, request: map<string, Value>): (r: Value)
    ensures ReadResponse(r) == Some((Null, Thrown(t), Get(request, "id")))
  {
    Envelope(Null, Thrown(t), Get(request, "id"))
  }

  /** `eventIpcConnectionDestroy`: clears the session only for a connection
      stamped with this handler's marker value. */
  function ConnectionDestroyedEvent(conn: Connection): (events: seq<Event>)
    ensures events != [] <==>
              Json1Identifier in conn.markers && conn.markers[Json1Identifier] == IdentifierValue && conn.session.Some?
    ensures events != [] ==> events == [SessionCleared(conn.session.value)]
  {
    ConnectionDestroyed(conn, Json1Identifier, IdentifierValue)
  }

  /** Whenever the scope is entered it is exited afterwards, after the destroy
      notification, and exactly one command runs in between. */
  lemma ScopeAlwaysExited(env: Env, request: map<string, Value>, w: World)
    ensures var added := Process(env, request, w).world.trace[|w.trace|..];
            (exists c :: ScopeEntered(c) in added) ==>
              && |added| == 7
              && added[3].ScopeEntered? && added[4].Executed? && added[5].CallDestroyed? && added[6] == ScopeExited
    ensures Process(env, request, w).outcome.Raised? ==> Process(env, request, w).world == w
  {
    var s := Process(env, request, w);
    match Validate(request)
    case Success(a) =>
      assert s.world.trace[|w.trace|..] == Effects(env, a.command, CallOf(a, w.conn.id));
    case Failure(_) =>
      assert s.world.trace[|w.trace|..] == [];
  }
}
