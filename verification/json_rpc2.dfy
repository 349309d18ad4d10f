/** The JSON-RPC 2.0 single-call handler (`JsonRpc2Protocol`): sections 4,
    4.1 and 4.2 of the JSON-RPC 2.0 specification, as this implementation
    reads them. */
module JsonRpc2Protocol {
  import opened Wrappers
  import opened Json
  import opened ErrorCodes
  import opened Arguments
  import opened Calls
  import opened Ipc

  const Version := "2.0"
  const IdentifierValue := "Json-RPC 2.0"

  const IdMessage := "id must be on of [string, number, boolean]"
  const VersionMessage := "jsonrpc must be 2.0"
  const MethodMessage := "method must be a string"
  const ParamsMessage := "params must be either an array or an object"

  /** The four permitted key sets: call, call without params, notification,
      notification without params. */
  const KeySets: set<set<string>> := {
    {"jsonrpc", "method", "params", "id"},
    {"jsonrpc", "method", "id"},
    {"jsonrpc", "method", "params"},
    {"jsonrpc", "method"}
  }

  lemma SubsetOfSameSize<T>(a: set<T>, b: set<T>)
    requires a <= b && |a| == |b|
    ensures a == b
  {
    assert |b - a| == |b| - |a|;
  }

  /** The loop of `supports`: some permitted key set has the request's size
      and is contained in its key set. */
  predicate SizeAndContainment(request: map<string, Value>)
  {
    exists shape | shape in KeySets :: |request| == |shape| && shape <= request.Keys
  }

  /** `supports`: accepted exactly when the key set is one of the four. */
  function Supports(request: map<string, Value>): (b: bool)
    ensures b <==> request.Keys in KeySets
  {
    if SizeAndContainment(request) then
      var shape :| shape in KeySets && |request| == |shape| && shape <= request.Keys;
      assert |request.Keys| == |request|;
      SubsetOfSameSize(shape, request.Keys);
      true
    else
      assert request.Keys in KeySets ==> |request.Keys| == |request| && request.Keys <= request.Keys;
      false
  }

  /** A request missing `jsonrpc` or `method` is never supported. */
  lemma SupportsNeedsVersionAndMethod(request: map<string, Value>)
    requires "jsonrpc" !in request || "method" !in request
    ensures !Supports(request)
  {
  }

  /** `VALID_ID_TYPES`: exactly the classes String, Long, Integer and Boolean. */
  predicate ValidIdType(id: Value)
  {
    id.Str? || id.Int64? || id.Int32? || id.Bool?
  }

  /** A request that passed validation. */
  datatype Accepted = Accepted(id: Value, command: string, arguments: IpcArguments)

  /** The params branch: no `params` key gives empty named arguments, a list
      positional ones, an object named ones; anything else, an explicit null
      included, is refused. */
  function ReadParams(request: map<string, Value>): (r: Option<IpcArguments>)
    ensures "params" !in request ==> r == Some(Named(map[]))
    ensures "params" in request && request["params"] == Null ==> r.None?
    ensures "params" in request ==> (r.Some? <==> request["params"].Arr? || request["params"].Obj?)
    ensures "params" in request && request["params"].Arr? ==>
              r == Some(Positional(FromParams(request["params"].items)))
    ensures "params" in request && request["params"].Obj? ==> r == Some(Named(request["params"].fields))
  {
    var params := Get(request, "params");
    if params == Null && "params" !in request then Some(Named(map[]))
    else
      match params
      case Arr(items) => Some(Positional(FromParams(items)))
      case Obj(fields) => Some(Named(fields))
      case _ => None
  }

  /** The validation chain of `process`: id type, then version, then method,
      then params; the first failing check decides the error response. */
  function Validate(request: map<string, Value>): (r: Result<Accepted, Value>)
    ensures var id := Get(request, "id");
            id != Null && !ValidIdType(id) ==>
              r == Failure(MessageEnvelope(InvalidRequest, id, IdMessage))
    ensures var id := Get(request, "id");
            (id == Null || ValidIdType(id)) && Get(request, "jsonrpc") != Str(Version) ==>
              r == Failure(MessageEnvelope(InvalidRequest, id, VersionMessage))
    ensures var id := Get(request, "id");
            (id == Null || ValidIdType(id)) && Get(request, "jsonrpc") == Str(Version) && !Get(request, "method").Str? ==>
              r == Failure(MessageEnvelope(InvalidRequest, id, MethodMessage))
    ensures var id := Get(request, "id");
            (id == Null || ValidIdType(id)) && Get(request, "jsonrpc") == Str(Version) && Get(request, "method").Str?
              && ReadParams(request).None? ==>
              r == Failure(MessageEnvelope(InvalidParams, id, ParamsMessage))
    ensures r.Success? <==>
              var id := Get(request, "id");
              (id == Null || ValidIdType(id)) && Get(request, "jsonrpc") == Str(Version)
              && Get(request, "method").Str? && ReadParams(request).Some?
    ensures r.Success? ==>
              r.value == Accepted(Get(request, "id"), Get(request, "method").s, ReadParams(request).value)
    ensures r.Failure? ==> ReadError(r.error).Some? && ReadError(r.error).value.id == Get(request, "id")
  {
    var id := Get(request, "id");
    if id != Null && !ValidIdType(id) then Failure(MessageEnvelope(InvalidRequest, id, IdMessage))
    else if Get(request, "jsonrpc") != Str(Version) then Failure(MessageEnvelope(InvalidRequest, id, VersionMessage))
    else
      match Get(request, "method")
      case Str(command) =>
        (match ReadParams(request)
         case Some(arguments) => Success(Accepted(id, command, arguments))
         case None => Failure(MessageEnvelope(InvalidParams, id, ParamsMessage)))
      case _ => Failure(MessageEnvelope(InvalidRequest, id, MethodMessage))
  }

  /** A success response as a client reads it: exactly `jsonrpc` (equal to
      "2.0"), `result` and `id`. */
  function ReadResult(v: Value): Option<(Value, Value)>
  {
    if v.Obj? && v.fields.Keys == {"jsonrpc", "result", "id"} && v.fields["jsonrpc"] == Str(Version)
    then Some((v.fields["result"], v.fields["id"]))
    else None
  }

  /** `newResult(result, id)`. */
  function NewResult(result: map<string, Value>, id: Value): (r: Value)
    ensures ReadResult(r) == Some((Obj(result), id))
    ensures ReadError(r).None?
  {
    Obj(map["jsonrpc" := Str(Version), "result" := Obj(result), "id" := id])
  }

  /** The try/catch of `execute`: what each way the executor ends turns into.
      A null cause makes the error builder's precondition check throw. */
  function Respond(id: Value, outcome: ExecOutcome): (r: Outcome)
    ensures outcome.Completed? && id == Null ==> r == Returned(NoResponse)
    ensures outcome.Completed? && id != Null ==>
              r.Returned? && r.reply.Response? && ReadResult(r.reply.body) == Some((Obj(outcome.result), id))
    ensures outcome.Unchecked? ==>
              r.Returned? && r.reply.Response?
              && ReadError(r.reply.body) == Some(ErrorView(InternalError, MessageOf(outcome.e), Some(Thrown(outcome.e)), id))
    ensures (outcome.NotAvailable? || outcome.ExecutionFailed?) && outcome.e.cause.Some? ==>
              var cause := outcome.e.cause.value;
              var code := if outcome.NotAvailable? then MethodNotFound else InternalError;
              r.Returned? && r.reply.Response?
              && ReadError(r.reply.body) == Some(ErrorView(code, MessageOf(cause), Some(Thrown(cause)), id))
    ensures (outcome.NotAvailable? || outcome.ExecutionFailed?) && outcome.e.cause.None? ==>
              r == Raised(NullPointer("Exception"))
    ensures r.Raised? ==> r.failure == NullPointer("Exception")
  {
    match outcome
    case Completed(result) =>
      if id == Null then Returned(NoResponse) else Returned(Response(NewResult(result, id)))
    case Unchecked(e) => Returned(Response(ThrowableEnvelope(InternalError, id, e)))
    case NotAvailable(e) =>
      (match GetResponse(MethodNotFound, id, e.cause)
       case Success(v) => Returned(Response(v))
       case Failure(npe) => Raised(npe))
    case ExecutionFailed(e) =>
      (match GetResponse(InternalError, id, e.cause)
       case Success(v) => Returned(Response(v))
       case Failure(npe) => Raised(npe))
  }

  /** The events of `execute`: created, entered, executed, then the finally
      block's exit, destroy notification and clear, on every outcome. */
  function Lifecycle(command: string, call: JsonRpcCall): seq<Event>
  {
    [CallCreated(call), ScopeEntered(call), Executed(command, call), ScopeExited, CallDestroyed(call), CallCleared(call)]
  }

  /** The session binding, marker stamp and execution after validation passed. */
  function Run(env: Env, a: Accepted, w: World): Step
  {
    var session := env.getSession(Some(w.conn.id), None);
    var bound := Bind(w, session, Json2Identifier, IdentifierValue);
    var call := JsonRpcCall(a.arguments, w.conn.id, None);
    Step(Respond(a.id, env.execute(a.command, call)), World(bound.conn, bound.trace + Lifecycle(a.command, call)))
  }

  /** `process`. A refused request is answered with its error response and
      leaves the connection and trace untouched; an accepted one binds the
      session keyed by the connection id, stamps this handler's marker, and
      runs the command inside the lifecycle. */
  function Process(env: Env, request: map<string, Value>, w: World): (s: Step)
    ensures Validate(request).Failure? ==> s == Step(Returned(Response(Validate(request).error)), w)
    ensures Validate(request).Success? ==>
              var a := Validate(request).value;
              var session := env.getSession(Some(w.conn.id), None);
              var call := JsonRpcCall(a.arguments, w.conn.id, None);
              && s.outcome == Respond(a.id, env.execute(a.command, call))
              && s.world.conn == Connection(w.conn.id, Some(session), w.conn.markers[Json2Identifier := IdentifierValue])
              && s.world.trace == w.trace + [SessionAttached(session), MarkerSet(Json2Identifier, IdentifierValue),
                                             CallCreated(call), ScopeEntered(call), Executed(a.command, call),
                                             ScopeExited, CallDestroyed(call), CallCleared(call)]
  {
    match Validate(request)
    case Failure(response) => Step(Returned(Response(response)), w)
    case Success(a) => Run(env, a, w)
  }

  /** `onError`: the internal-error response for the throwable, echoing the request's id. */
  function OnError(t: Throwable, request: map<string, Value>): (r: Value)
    ensures ReadError(r) == Some(ErrorView(InternalError, MessageOf(t), Some(Thrown(t)), Get(request, "id")))
  {
    ThrowableEnvelope(InternalError, Get(request, "id"), t)
  }

  /** `eventIpcConnectionDestroy`: clears the session only for a connection
      stamped with this handler's marker value. */
  function ConnectionDestroyedEvent(conn: Connection): (events: seq<Event>)
    ensures events != [] <==>
              Json2Identifier in conn.markers && conn.markers[Json2Identifier] == IdentifierValue && conn.session.Some?
    ensures events != [] ==> events == [SessionCleared(conn.session.value)]
  {
    ConnectionDestroyed(conn, Json2Identifier, IdentifierValue)
  }

  /** A notification that passes validation and whose command completes gets
      no response, whatever the command returned. */
  lemma NotificationGetsNoResponse(env: Env, request: map<string, Value>, w: World)
    requires Validate(request).Success? && Get(request, "id") == Null
    requires var a := Validate(request).value;
             env.execute(a.command, JsonRpcCall(a.arguments, w.conn.id, None)).Completed?
    ensures Process(env, request, w).outcome == Returned(NoResponse)
  {
  }

  /** After a processed request, teardown clears the session it bound; and
      teardown never clears for a connection this handler has not stamped. */
  lemma TeardownAfterProcess(env: Env, request: map<string, Value>, w: World)
    ensures Validate(request).Success? ==>
              ConnectionDestroyedEvent(Process(env, request, w).world.conn)
                == [SessionCleared(env.getSession(Some(w.conn.id), None))]
    ensures Json2Identifier !in w.conn.markers && Validate(request).Failure? ==>
              ConnectionDestroyedEvent(Process(env, request, w).world.conn) == []
  {
  }
}
