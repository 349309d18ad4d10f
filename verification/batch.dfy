/** The batch handler (`JsonRpc2BatchProtocol`), section 6 of the JSON-RPC 2.0
    specification: written over any single-call handler, then instantiated
    with the handler the source injects. */
module JsonRpc2BatchProtocol {
  import opened Wrappers
  import opened Json
  import opened ErrorCodes
  import opened Ipc
  import V1 = JsonRpcProtocol
  import V2 = JsonRpc2Protocol

  /** What the batch needs of a single-call handler: its map-typed `supports`,
      `process` (threading state S) and `onError`. */
  datatype Handler<!S> = Handler(
    supports: map<string, Value> -> bool,
    process: (map<string, Value>, S) -> (Outcome, S),
    onError: (Throwable, map<string, Value>) -> Value)

  /** The delegate's `supports(Object)` on one element: a non-object element
      is taken to be unsupported. */
  predicate SupportsElement<S>(h: Handler<S>, element: Value)
  {
    element.Obj? && h.supports(element.fields)
  }

  /** `Iterables.all(request, supports)`, element by element. */
  function Supports<S>(h: Handler<S>, request: seq<Value>): (b: bool)
    ensures b <==> forall i :: 0 <= i < |request| ==> SupportsElement(h, request[i])
    decreases |request|
  {
    if |request| == 0 then true
    else
      var rest := Supports(h, request[1..]);
      assert forall i :: 1 <= i < |request| ==> request[1..][i - 1] == request[i];
      SupportsElement(h, request[0]) && rest
  }

  predicate AllObjects(request: seq<Value>)
  {
    forall i :: 0 <= i < |request| ==> request[i].Obj?
  }

  /** One element of the transform: its own reply, or the delegate's `onError`
      for whatever its `process` threw. */
  function Slot<S>(h: Handler<S>, element: map<string, Value>, s: S): (r: (Reply, S))
    ensures h.process(element, s).0.Returned? ==> r.0 == h.process(element, s).0.reply
    ensures h.process(element, s).0.Raised? ==>
              r.0 == Response(h.onError(h.process(element, s).0.failure, element))
    ensures r.1 == h.process(element, s).1
  {
    var (outcome, s') := h.process(element, s);
    match outcome
    case Returned(reply) => (reply, s')
    case Raised(t) => (Response(h.onError(t, element)), s')
  }

  /** `process`: the elements in order, every slot kept, `NO_RESPONSE` included.
      The supports check is not repeated: every object element is processed. */
  function Process<S>(h: Handler<S>, request: seq<Value>, s: S): (r: (seq<Reply>, S))
    requires AllObjects(request)
    ensures |r.0| == |request|
    decreases |request|
  {
    if |request| == 0 then ([], s)
    else
      var (first, s1) := Slot(h, request[0].fields, s);
      var (rest, s2) := Process(h, request[1..], s1);
      ([first] + rest, s2)
  }

  lemma ProcessUnfold<S>(h: Handler<S>, request: seq<Value>, s: S)
    requires AllObjects(request) && |request| > 0
    ensures Process(h, request, s).1 == Process(h, request[1..], Slot(h, request[0].fields, s).1).1
  {
  }

  /** Slot i is element i's own reply, computed in the state the elements
      before it left behind. */
  lemma {:induction false} SlotsInOrder<S>(h: Handler<S>, request: seq<Value>, s: S, i: nat)
    requires AllObjects(request) && i < |request|
    ensures Process(h, request, s).0[i] == Slot(h, request[i].fields, Process(h, request[..i], s).1).0
    decreases i
  {
    if i > 0 {
      var s1 := Slot(h, request[0].fields, s).1;
      SlotsInOrder(h, request[1..], s1, i - 1);
      assert request[..i][1..] == request[1..][..i - 1];
      assert request[..i][0] == request[0];
    } else {
      assert request[..0] == [];
    }
  }

  /** The handlers whose reply depends on the element and the connection's
      identity only, and which keep that identity. */
  ghost predicate ConnectionIndependent(h: Handler<World>)
  {
    forall e, w1: World, w2: World {:trigger h.process(e, w1), h.process(e, w2)} ::
      w1.conn.id == w2.conn.id ==>
        h.process(e, w1).0 == h.process(e, w2).0 && h.process(e, w1).1.conn.id == w1.conn.id
  }

  lemma {:induction false} ProcessKeepsConnection(h: Handler<World>, request: seq<Value>, w: World)
    requires ConnectionIndependent(h) && AllObjects(request)
    ensures Process(h, request, w).1.conn.id == w.conn.id
    decreases |request|
  {
    if |request| > 0 {
      ProcessKeepsConnection(h, request[1..], Slot(h, request[0].fields, w).1);
    }
  }

  /** Failure isolation: for such a handler, slot i is exactly what element i
      gets when processed on its own, whatever the other elements are. */
  lemma SlotsIsolated(h: Handler<World>, request: seq<Value>, w: World, i: nat)
    requires ConnectionIndependent(h) && AllObjects(request) && i < |request|
    ensures Process(h, request, w).0[i] == Slot(h, request[i].fields, w).0
  {
    SlotsInOrder(h, request, w, i);
    var wi := Process(h, request[..i], w).1;
    ProcessKeepsConnection(h, request[..i], w);
    assert h.process(request[i].fields, wi).0 == h.process(request[i].fields, w).0;
  }

  /** The delegate the source injects: the JSON-RPC 1.0 handler. */
  function V1Handler(env: Env): Handler<World>
  {
    Handler(
      (request: map<string, Value>) => V1.Supports(request),
      (request: map<string, Value>, w: World) => var st := V1.Process(env, request, w); (st.outcome, st.world),
      (t: Throwable, request: map<string, Value>) => V1.OnError(t, request))
  }

  /** The JSON-RPC 2.0 handler, which the batch handler evidently meant to delegate to. */
  function V2Handler(env: Env): Handler<World>
  {
    Handler(
      (request: map<string, Value>) => V2.Supports(request),
      (request: map<string, Value>, w: World) => var st := V2.Process(env, request, w); (st.outcome, st.world),
      (t: Throwable, request: map<string, Value>) => V2.OnError(t, request))
  }

  lemma V1ConnectionIndependent(env: Env)
    ensures ConnectionIndependent(V1Handler(env))
  {
  }

  lemma V2ConnectionIndependent(env: Env)
    ensures ConnectionIndependent(V2Handler(env))
  {
  }

  /** `supports` as written: every element is a 1.0 request. */
  function SupportsAsWritten(env: Env, request: seq<Value>): (b: bool)
    ensures b <==> forall i :: 0 <= i < |request| ==> request[i].Obj? && request[i].fields.Keys == V1.Keys
    ensures request == [] ==> b
  {
    Supports(V1Handler(env), request)
  }

  /** `process` as written, over the 1.0 handler. Each slot is the element's
      own 1.0 reply, or the 1.0 `onError` response for what it threw. */
  function ProcessAsWritten(env: Env, request: seq<Value>, w: World): (r: (seq<Reply>, World))
    requires AllObjects(request)
    ensures |r.0| == |request|
    ensures forall i :: 0 <= i < |request| ==>
              var st := V1.Process(env, request[i].fields, w);
              r.0[i] == (if st.outcome.Returned? then st.outcome.reply
                         else Response(V1.OnError(st.outcome.failure, request[i].fields)))
  {
    var r := Process(V1Handler(env), request, w);
    V1ConnectionIndependent(env);
    forall i | 0 <= i < |request|
      ensures var st := V1.Process(env, request[i].fields, w);
              r.0[i] == (if st.outcome.Returned? then st.outcome.reply
                         else Response(V1.OnError(st.outcome.failure, request[i].fields)))
    {
      SlotsIsolated(V1Handler(env), request, w, i);
    }
    r
  }

  /** `supports` with the 2.0 handler as delegate: every element is a 2.0 request. */
  function SupportsCorrected(env: Env, request: seq<Value>): (b: bool)
    ensures b <==> forall i :: 0 <= i < |request| ==> request[i].Obj? && request[i].fields.Keys in V2.KeySets
    ensures request == [] ==> b
  {
    Supports(V2Handler(env), request)
  }

  /** `process` with the 2.0 handler as delegate: each slot is the element's own
      2.0 reply, or the 2.0 `onError` response for what it threw. */
  function ProcessCorrected(env: Env, request: seq<Value>, w: World): (r: (seq<Reply>, World))
    requires AllObjects(request)
    ensures |r.0| == |request|
    ensures forall i :: 0 <= i < |request| ==>
              var st := V2.Process(env, request[i].fields, w);
              r.0[i] == (if st.outcome.Returned? then st.outcome.reply
                         else Response(V2.OnError(st.outcome.failure, request[i].fields)))
  {
    var r := Process(V2Handler(env), request, w);
    V2ConnectionIndependent(env);
    forall i | 0 <= i < |request|
      ensures var st := V2.Process(env, request[i].fields, w);
              r.0[i] == (if st.outcome.Returned? then st.outcome.reply
                         else Response(V2.OnError(st.outcome.failure, request[i].fields)))
    {
      SlotsIsolated(V2Handler(env), request, w, i);
    }
    r
  }

  /** A batch holding one well-formed JSON-RPC 2.0 call is refused as written,
      and accepted with the 2.0 handler as delegate. */
  lemma V2BatchRefusedAsWritten(env: Env)
    ensures var call := Obj(map["jsonrpc" := Str("2.0"), "method" := Str("Echo"), "id" := Int32(1)]);
            !SupportsAsWritten(env, [call]) && SupportsCorrected(env, [call])
  {
    var call := Obj(map["jsonrpc" := Str("2.0"), "method" := Str("Echo"), "id" := Int32(1)]);
    assert "jsonrpc" in call.fields.Keys && "jsonrpc" !in V1.Keys;
    assert call.fields.Keys == {"jsonrpc", "method", "id"};
  }

  /** Handlers whose `process` only appends the given events to the trace,
      for the element and the connection's identity, and keeps that identity. */
  ghost predicate AppendsEvents(h: Handler<World>, events: (map<string, Value>, Calls.ConnectionId) -> seq<Event>)
  {
    forall e, w: World {:trigger h.process(e, w)} ::
      h.process(e, w).1.conn.id == w.conn.id && h.process(e, w).1.trace == w.trace + events(e, w.conn.id)
  }

  /** The elements' events, one block per element, in input order. */
  function EventBlocks(events: (map<string, Value>, Calls.ConnectionId) -> seq<Event>, request: seq<Value>, id: Calls.ConnectionId): seq<Event>
    requires AllObjects(request)
    decreases |request|
  {
    if |request| == 0 then []
    else events(request[0].fields, id) + EventBlocks(events, request[1..], id)
  }

  /** The batch appends each element's events as one contiguous block, in
      input order: one element's lifecycle ends before the next one begins. */
  lemma {:induction false} TraceInBlocks(h: Handler<World>, events: (map<string, Value>, Calls.ConnectionId) -> seq<Event>,
                                         request: seq<Value>, w: World)
    requires AppendsEvents(h, events) && AllObjects(request)
    ensures Process(h, request, w).1.trace == w.trace + EventBlocks(events, request, w.conn.id)
    decreases |request|
  {
    if |request| == 0 {
      assert w.trace + [] == w.trace;
    } else {
      var w1 := Slot(h, request[0].fields, w).1;
      assert h.process(request[0].fields, w).1 == w1;
      TraceInBlocks(h, events, request[1..], w1);
      ProcessUnfold(h, request, w);
      var first := events(request[0].fields, w.conn.id);
      var rest := EventBlocks(events, request[1..], w.conn.id);
      assert (w.trace + first) + rest == w.trace + (first + rest);
    }
  }

  lemma V1AppendsEvents(env: Env)
    ensures AppendsEvents(V1Handler(env), (e: map<string, Value>, id: Calls.ConnectionId) => V1.EventsOf(env, e, id))
  {
  }

  /** As written, a batch's trace is the 1.0 lifecycles of its elements, one
      after the other in input order. */
  lemma TraceAsWritten(env: Env, request: seq<Value>, w: World)
    requires AllObjects(request)
    ensures var events := (e: map<string, Value>, id: Calls.ConnectionId) => V1.EventsOf(env, e, id);
            Process(V1Handler(env), request, w).1.trace == w.trace + EventBlocks(events, request, w.conn.id)
  {
    V1AppendsEvents(env);
    TraceInBlocks(V1Handler(env), (e: map<string, Value>, id: Calls.ConnectionId) => V1.EventsOf(env, e, id), request, w);
  }

  /** `onError` of the whole batch: the internal-error response with a null id. */
  function OnError(t: Throwable): (r: Value)
    ensures ReadError(r) == Some(ErrorView(InternalError, MessageOf(t), Some(Thrown(t)), Null))
  {
    ThrowableEnvelope(InternalError, Null, t)
  }
}
