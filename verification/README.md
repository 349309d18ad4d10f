# palava-ipc-json-rpc request engine, in Dafny

This project models the JSON-RPC request engine of palava-ipc-json-rpc. It
proves properties of that model. The engine has these parts:

- **JSON-RPC 2.0 handler (`JsonRpc2Protocol`).** It accepts a decoded request
  object by its key set. It validates id, version, method and params in that
  order, binds a session to the connection and stamps its marker. It runs the
  command inside a call lifecycle and turns each way the command can end into
  a result, an error response or no response (notifications).
- **JSON-RPC 1.0 handler (`JsonRpcProtocol`).** It does the same for 1.0
  requests. It throws a protocol failure for a bad method or bad params, and it
  answers command failures with a `result`/`error`/`id` object.
- **Batch handler (`JsonRpc2BatchProtocol`).** It maps a list of requests
  through a single-call handler, slot by slot. A failure in one slot becomes
  that slot's error response.
- **Error taxonomy (`ErrorCode`).** The five error codes and the two
  error-response builders.
- **Positional arguments (`JsonRpcArguments`).** A list of params becomes a
  map keyed "0", "1", …. Lookups use the key's string form.
- **The call (`JsonRpcCall`).** It holds the arguments and the connection,
  and a scope context that is created lazily.

Requests and responses are `Json.Value` trees (objects are
`map<string, Value>`). The collaborators are the session provider, the command
executor, the call scope and the event listeners. They are not part of this
model. Instead they enter as an `Ipc.Env`: the session lookup and the
executor's outcome are functions. Their effects are recorded as an `Ipc.Event`
trace in an `Ipc.World`, next to the connection's session and markers. That
lets the lifecycle order be stated and proved: create, enter, execute, then
exit, destroy and clear (2.0), or destroy then exit (1.0).

Modules:

- `Wrappers` and `Json`: values, throwables and Java's `Map.get`.
- `Decimal`: `Integer.toString` and its inverse on naturals.
- `ErrorCodes`
- `Arguments`
- `Calls`
- `Ipc`: the collaborator interface, connection and trace.
- `JsonRpc2Protocol`
- `JsonRpcProtocol`
- `JsonRpc2BatchProtocol`: written once over any single-call `Handler`, then
  instantiated twice.
- `SharedConnection`: both handlers on one connection.
- `Scenarios`: worked requests against the `Echo` command.

The model follows the code, including where a reader might expect otherwise:

- The 1.0 handler never calls `call.clear()`.
- The 1.0 handler sends its destroy notification before it exits the scope.
- The error codes are positive (32700 … 32603). Section 5.1 of the JSON-RPC
  2.0 specification uses the negative codes (-32700 … -32603).
  `ErrorCodes.CodeRoundTrip` proves that each code is the standard's code with
  the sign dropped.
- The 2.0 handler calls `ErrorCode.newResponse`, but `ErrorCode.java`
  declares `getResponse`. The model takes them to be the same operation.

## Model

| member | source | states |
|---|---|---|
| ErrorCodes.CodeRoundTrip | src/main/java/de/cosmocode/palava/ipc/json/rpc/ErrorCode.java:34-60 | every constant's code reads back as that constant, and only the five codes read back at all; each code is the negation of the JSON-RPC 2.0 standard's code |
| ErrorCodes.CodesDistinct | src/main/java/de/cosmocode/palava/ipc/json/rpc/ErrorCode.java:34-54 | two constants with the same code are the same constant |
| ErrorCodes.GetResponse | src/main/java/de/cosmocode/palava/ipc/json/rpc/ErrorCode.java:71-85 | fails with NullPointerException("Exception") exactly when the throwable is null; otherwise a client reads back the code, the throwable's message, the throwable as data and the id, with no `jsonrpc` key |
| ErrorCodes.GetMessageResponse | src/main/java/de/cosmocode/palava/ipc/json/rpc/ErrorCode.java:96-109 | fails with NullPointerException("Message") exactly when the message is null; otherwise a client reads back the code, the message, no data and the id |
| ErrorCodes.ThrowableEnvelope | src/main/java/de/cosmocode/palava/ipc/json/rpc/ErrorCode.java:73-84 | the response built for a throwable reads back as code, message, data and id |
| ErrorCodes.MessageEnvelope | src/main/java/de/cosmocode/palava/ipc/json/rpc/ErrorCode.java:98-108 | the response built for a message reads back as code, message and id, without data |
| Decimal.NatToString | src/main/java/de/cosmocode/palava/ipc/json/rpc/JsonRpcArguments.java:45 | `Integer.toString` of a natural: non-empty, all digits, no leading zero |
| Decimal.IntToString | src/main/java/de/cosmocode/palava/ipc/json/rpc/JsonRpcArguments.java:51 | `toString` of an integer key: the decimal form for non-negatives; for negatives a minus sign followed by the magnitude's decimal form |
| Decimal.ParseNatToString | src/main/java/de/cosmocode/palava/ipc/json/rpc/JsonRpcArguments.java:45 | parsing the decimal form of n gives back n |
| Decimal.NatToStringInjective | src/main/java/de/cosmocode/palava/ipc/json/rpc/JsonRpcArguments.java:45 | distinct indices get distinct keys, so no param overwrites another |
| Arguments.FromParams | src/main/java/de/cosmocode/palava/ipc/json/rpc/JsonRpcArguments.java:40-47 | the keys are exactly the decimal forms of 0 … n-1, and key i holds param i |
| Arguments.IndexKeysStep | src/main/java/de/cosmocode/palava/ipc/json/rpc/JsonRpcArguments.java:43-46 | one more loop iteration adds exactly the next index's key |
| Arguments.New | src/main/java/de/cosmocode/palava/ipc/json/rpc/JsonRpcArguments.java:40-47 | fails with NullPointerException("Params") exactly when the list is null; an empty list gives empty arguments; otherwise the keys are the index keys and key i holds param i, as `FromParams` builds them |
| Arguments.LookupIntKey | src/main/java/de/cosmocode/palava/ipc/json/rpc/JsonRpcArguments.java:49-52 | integer key i finds param i when i is in range, and null otherwise (negative or too large) |
| Arguments.LookupStrKey | src/main/java/de/cosmocode/palava/ipc/json/rpc/JsonRpcArguments.java:49-52 | a string key finds the param whose index it spells, and null when it spells none |
| Arguments.IntAndStringKeysAgree | src/main/java/de/cosmocode/palava/ipc/json/rpc/JsonRpcArguments.java:49-52 | integer key i and string key "i" find the same value |
| Arguments.Put | src/main/java/de/cosmocode/palava/ipc/json/rpc/JsonRpcArguments.java:59-62 | after a put the key finds the new value; the previous value is returned; every other key is unchanged; the key set gains the key |
| Arguments.EntrySet | src/main/java/de/cosmocode/palava/ipc/json/rpc/JsonRpcArguments.java:54-57 | a pair is an entry exactly when the map binds that key to that value |
| Arguments.EntrySetAfterPut | src/main/java/de/cosmocode/palava/ipc/json/rpc/JsonRpcArguments.java:54-62 | after a put, the entries are the old ones for other keys plus the new pair |
| Calls.New | src/main/java/de/cosmocode/palava/ipc/json/rpc/JsonRpcCall.java:42-45 | succeeds exactly when both arguments and connection are non-null; the arguments are checked first (NullPointerException "Arguments", then "Connection"); a new call keeps both and has no context yet |
| Calls.Context | src/main/java/de/cosmocode/palava/ipc/json/rpc/JsonRpcCall.java:47-53 | the first access creates an empty context and stores it; later accesses return the stored one; arguments and connection never change |
| Calls.ContextStable | src/main/java/de/cosmocode/palava/ipc/json/rpc/JsonRpcCall.java:47-53 | accessing the context a second time changes nothing |
| JsonRpc2Protocol.Supports | src/main/java/de/cosmocode/palava/ipc/json/rpc/JsonRpc2Protocol.java:72-136 | the size-and-containment loop accepts a request exactly when its key set is one of the four permitted sets |
| JsonRpc2Protocol.SupportsNeedsVersionAndMethod | src/test/java/de/cosmocode/palava/ipc/json/rpc/JsonRpc2ProtocolSupportsTest.java:84-108 | a request without `jsonrpc` or without `method` is never supported |
| JsonRpc2Protocol.ReadParams | src/main/java/de/cosmocode/palava/ipc/json/rpc/JsonRpc2Protocol.java:165-184 | no `params` key gives empty named arguments; a list gives positional arguments from `FromParams`; an object gives named arguments; anything else, an explicit null included, is refused |
| JsonRpc2Protocol.Validate | src/main/java/de/cosmocode/palava/ipc/json/rpc/JsonRpc2Protocol.java:142-184 | the id type is checked first, then the version, then the method, then the params, and the first failing check decides the error response (code, message, echoed id); a request is accepted exactly when all four pass; an explicit null params is refused |
| JsonRpc2Protocol.NewResult | src/main/java/de/cosmocode/palava/ipc/json/rpc/JsonRpc2Protocol.java:223-237 | a client reads the result back with version "2.0" and the id, and does not read it as an error |
| JsonRpc2Protocol.Respond | src/main/java/de/cosmocode/palava/ipc/json/rpc/JsonRpc2Protocol.java:198-215 | a completed call gives a result, or no response for a null id; an unchecked failure gives an internal error carrying the failure itself; an unavailable command gives method-not-found and an execution failure gives an internal error, both carrying the cause; a null cause escapes as NullPointerException("Exception") |
| JsonRpc2Protocol.Process | src/main/java/de/cosmocode/palava/ipc/json/rpc/JsonRpc2Protocol.java:139-221 | a refused request is answered with its error response and leaves connection and trace untouched; an accepted one binds the session keyed by the connection id, stamps the 2.0 marker, and appends session, marker, create, enter, execute, exit, destroy and clear, in that order |
| JsonRpc2Protocol.OnError | src/main/java/de/cosmocode/palava/ipc/json/rpc/JsonRpc2Protocol.java:239-242 | an internal error carrying the throwable, echoing the request's id |
| JsonRpc2Protocol.ConnectionDestroyedEvent | src/main/java/de/cosmocode/palava/ipc/json/rpc/JsonRpc2Protocol.java:244-251 | the session is cleared exactly when the connection carries the 2.0 marker value |
| JsonRpc2Protocol.NotificationGetsNoResponse | src/main/java/de/cosmocode/palava/ipc/json/rpc/JsonRpc2Protocol.java:199-203 | a valid notification whose command completes gets no response |
| JsonRpc2Protocol.TeardownAfterProcess | src/main/java/de/cosmocode/palava/ipc/json/rpc/JsonRpc2Protocol.java:186-251 | after an accepted request, teardown clears exactly the session it bound; a refused request on an unmarked connection leaves nothing to clear |
| JsonRpcProtocol.Supports | src/main/java/de/cosmocode/palava/ipc/json/rpc/JsonRpcProtocol.java:68-100 | accepted exactly when the key set is {method, params, id} |
| JsonRpcProtocol.SupportsNeedsAllKeys | src/test/java/de/cosmocode/palava/ipc/json/rpc/JsonRpcProtocolSupportsTest.java:67-81 | a request missing any of the three keys is never supported |
| JsonRpcProtocol.WrapUnchecked | src/main/java/de/cosmocode/palava/ipc/json/rpc/JsonRpcProtocol.java:153-155 | the wrapping execution failure keeps the unchecked failure as its cause |
| JsonRpcProtocol.Validate | src/main/java/de/cosmocode/palava/ipc/json/rpc/JsonRpcProtocol.java:106-126 | the method is checked before the params; a non-string method and then a non-list params each fail with their own protocol failure; otherwise the method, params and id are what the request holds |
| JsonRpcProtocol.Respond | src/main/java/de/cosmocode/palava/ipc/json/rpc/JsonRpcProtocol.java:147-182 | a completed call answers result, null error and id, or nothing for a null id; an unchecked failure is answered wrapped; the other failures are answered as they are, whatever the id |
| JsonRpcProtocol.Process | src/main/java/de/cosmocode/palava/ipc/json/rpc/JsonRpcProtocol.java:103-186 | a refused request throws and touches nothing; an accepted one binds the session without any key, stamps the 1.0 marker, answers as `Respond` says, and appends exactly its events |
| JsonRpcProtocol.OnError | src/main/java/de/cosmocode/palava/ipc/json/rpc/JsonRpcProtocol.java:188-195 | result null, the throwable as error, the request's id |
| JsonRpcProtocol.ConnectionDestroyedEvent | src/main/java/de/cosmocode/palava/ipc/json/rpc/JsonRpcProtocol.java:197-204 | the session is cleared exactly when the connection carries the 1.0 marker value |
| JsonRpcProtocol.ScopeAlwaysExited | src/main/java/de/cosmocode/palava/ipc/json/rpc/JsonRpcProtocol.java:145-185 | whenever the scope is entered, exactly one command runs, the destroy notification follows it, and the scope is exited last; a thrown failure leaves the world unchanged |
| Ipc.ConnectionDestroyed | src/main/java/de/cosmocode/palava/ipc/json/rpc/JsonRpc2Protocol.java:245-251 | teardown emits one session clear exactly when the marker carries the handler's value and a session is attached |
| JsonRpc2BatchProtocol.Supports | src/main/java/de/cosmocode/palava/ipc/json/rpc/JsonRpc2BatchProtocol.java:50-73 | a batch is supported exactly when every element is an object the delegate supports; the empty batch is supported |
| JsonRpc2BatchProtocol.Slot | src/main/java/de/cosmocode/palava/ipc/json/rpc/JsonRpc2BatchProtocol.java:81-88 | an element's slot is its own reply, or the delegate's error response for what it threw |
| JsonRpc2BatchProtocol.Process | src/main/java/de/cosmocode/palava/ipc/json/rpc/JsonRpc2BatchProtocol.java:76-91 | one slot per element, no-response slots included |
| JsonRpc2BatchProtocol.SlotsInOrder | src/main/java/de/cosmocode/palava/ipc/json/rpc/JsonRpc2BatchProtocol.java:76-91 | slot i is element i's reply, computed in the state the elements before it left behind |
| JsonRpc2BatchProtocol.ProcessKeepsConnection | src/main/java/de/cosmocode/palava/ipc/json/rpc/JsonRpc2BatchProtocol.java:76-91 | the batch never changes which connection it runs on |
| JsonRpc2BatchProtocol.SlotsIsolated | src/main/java/de/cosmocode/palava/ipc/json/rpc/JsonRpc2BatchProtocol.java:82-88 | for a handler whose reply depends only on the element and the connection's identity, slot i is exactly what element i gets when processed alone, whatever the other elements are; this holds for the two handlers here because a command's outcome is modelled as a function of the method and the call only |
| JsonRpc2BatchProtocol.TraceInBlocks | src/main/java/de/cosmocode/palava/ipc/json/rpc/JsonRpc2BatchProtocol.java:78-91 | the elements' lifecycles are appended one whole block at a time, in input order |
| JsonRpc2BatchProtocol.V1ConnectionIndependent | src/main/java/de/cosmocode/palava/ipc/json/rpc/JsonRpcProtocol.java:103-186 | with commands whose outcome depends only on the method and the call, the 1.0 reply depends only on the request and the connection's identity |
| JsonRpc2BatchProtocol.V2ConnectionIndependent | src/main/java/de/cosmocode/palava/ipc/json/rpc/JsonRpc2Protocol.java:139-221 | with commands whose outcome depends only on the method and the call, the 2.0 reply depends only on the request and the connection's identity |
| JsonRpc2BatchProtocol.V1AppendsEvents | src/main/java/de/cosmocode/palava/ipc/json/rpc/JsonRpcProtocol.java:129-185 | the 1.0 handler only appends its own events and keeps the connection |
| JsonRpc2BatchProtocol.SupportsAsWritten | src/main/java/de/cosmocode/palava/ipc/json/rpc/JsonRpc2BatchProtocol.java:48-73 | with the injected 1.0 delegate, a batch is supported exactly when every element has exactly the 1.0 keys |
| JsonRpc2BatchProtocol.ProcessAsWritten | src/main/java/de/cosmocode/palava/ipc/json/rpc/JsonRpc2BatchProtocol.java:76-91 | with the 1.0 delegate, every slot is the element's standalone 1.0 reply or its 1.0 error response (for commands whose outcome depends only on the method and the call) |
| JsonRpc2BatchProtocol.TraceAsWritten | src/main/java/de/cosmocode/palava/ipc/json/rpc/JsonRpc2BatchProtocol.java:76-91 | the batch's trace is the 1.0 lifecycles of its elements, one after another in input order |
| JsonRpc2BatchProtocol.V2BatchRefusedAsWritten | src/main/java/de/cosmocode/palava/ipc/json/rpc/JsonRpc2BatchProtocol.java:48-73 | a batch of one well-formed 2.0 call is refused as written and accepted with the 2.0 delegate |
| JsonRpc2BatchProtocol.SupportsCorrected | src/main/java/de/cosmocode/palava/ipc/json/rpc/JsonRpc2BatchProtocol.java:70-73 | with the 2.0 delegate, a batch is supported exactly when every element has one of the four 2.0 key sets |
| JsonRpc2BatchProtocol.ProcessCorrected | src/main/java/de/cosmocode/palava/ipc/json/rpc/JsonRpc2BatchProtocol.java:76-91 | with the 2.0 delegate, every slot is the element's standalone 2.0 reply or its 2.0 internal-error response (for commands whose outcome depends only on the method and the call) |
| JsonRpc2BatchProtocol.OnError | src/main/java/de/cosmocode/palava/ipc/json/rpc/JsonRpc2BatchProtocol.java:94-97 | a whole-batch failure is an internal error carrying the throwable, with a null id |
| SharedConnection.MarkersDoNotInterfere | src/main/java/de/cosmocode/palava/ipc/json/rpc/JsonRpc2Protocol.java:186-188 | each handler leaves the other's marker as it found it, and keeps "a marked connection has a session" |
| SharedConnection.TeardownOnlyForOwnVersion | src/main/java/de/cosmocode/palava/ipc/json/rpc/JsonRpcProtocol.java:197-204 | on a fresh connection used by one handler only, the other handler's teardown clears nothing |
| Scenarios.PositionalRoundTrip | src/main/java/de/cosmocode/palava/ipc/json/rpc/JsonRpcArguments.java:40-52 | [a, b, c] become {"0": a, "1": b, "2": c}, and key 1 and key "1" both find b |
| Scenarios.V1Echo | src/test/java/de/cosmocode/palava/ipc/json/rpc/Echo.java:37-41 | a 1.0 call to `Echo` answers its positional arguments as the result |
| Scenarios.V2EchoNotification | src/main/java/de/cosmocode/palava/ipc/json/rpc/JsonRpc2Protocol.java:199-203 | a 2.0 notification to `Echo` is supported and gets no response |
| Scenarios.V2WrongVersion | src/main/java/de/cosmocode/palava/ipc/json/rpc/JsonRpc2Protocol.java:149-153 | version "1.0" under the 2.0 handler is an invalid request echoing the id, and nothing is bound |
| Scenarios.V2BadIdFirst | src/main/java/de/cosmocode/palava/ipc/json/rpc/JsonRpc2Protocol.java:142-147 | a fractional id is refused before the version is looked at |
| Scenarios.BatchIsolatesFailure | src/main/java/de/cosmocode/palava/ipc/json/rpc/JsonRpc2BatchProtocol.java:82-88 | a bad middle element of a batch gets its own error slot, and its neighbours get their results |

## Left out

- Dependency injection, `initialize` and `dispose` (registry registration) are left out. They only wire the handlers.
- Logging is left out. It has no effect on the results.
- Listener failures are left out. The create and destroy listeners, the scope and the session provider are assumed not to throw. Only the command executor's failures are modelled.
- The connection marker key is a random `UUID` in the source. Each handler's key is modelled as its own constant (`Json1Identifier`, `Json2Identifier`), which is what the random keys guarantee in practice.
- The parsing of JSON text and the `MapProtocol`/`ListProtocol` adaptation are left out. Those classes are not part of this model. Requests arrive as `Json.Value`.
- JsonRpc2BatchProtocol.Process: requires every element to be an object. This is because the list adapter's handling of non-object elements is not visible here.
- Arguments.Put: the key is a non-null string. `put(null, v)` is not modelled.
- Calls.Context: the context is returned as a value together with the updated call. Java's object identity of the context map is not modelled.
- `connection.getSession()` during teardown is assumed to return the attached session. When no session is attached, the model emits nothing, whereas the source would fail.
- JsonRpcProtocol.WrapUnchecked: the wrapper's message is taken to be the cause's `toString()`. That constructor is not part of this model.
- JsonRpcProtocol.Process: `IpcCommandNotAvailableException` is taken to be a kind of `IpcCommandExecutionException`, so the 1.0 handler answers it like any execution failure. These exception classes are not part of this model.
- JsonRpc2BatchProtocol.SlotsIsolated: a command's outcome is modelled as a function of the method and the call only. It cannot see the session attached to the connection and has no effects of its own. In the source, every element of a batch runs on the same connection, so a command in a later element could read session state an earlier one wrote. Isolation is proved only for commands without such session state. The same limit applies to ProcessAsWritten, ProcessCorrected, V1ConnectionIndependent and V2ConnectionIndependent.
- Session contents are left out. A session is an opaque identifier, and clearing it is an event.

## Findings

| source | as written | input that shows it | evidently intended | confidence | as-written member | corrected member |
|---|---|---|---|---|---|---|
| src/main/java/de/cosmocode/palava/ipc/json/rpc/JsonRpc2BatchProtocol.java:48-73 | the JSON-RPC 2.0 batch handler delegates to the JSON-RPC 1.0 handler, so an element must have exactly the keys method, params and id | the batch `[{"jsonrpc": "2.0", "method": "Echo", "id": 1}]` is not supported | delegate to the JSON-RPC 2.0 handler, so a batch of 2.0 requests is supported and each element gets its 2.0 reply | high, not executed | JsonRpc2BatchProtocol.V2BatchRefusedAsWritten | JsonRpc2BatchProtocol.ProcessCorrected |
