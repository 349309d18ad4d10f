/** Worked requests against the `Echo` command, which copies every argument
    into its result. */
module Scenarios {
  import opened Wrappers
  import opened Json
  import opened ErrorCodes
  import opened Decimal
  import opened Arguments
  import opened Calls
  import opened Ipc
  import V1 = JsonRpcProtocol
  import V2 = JsonRpc2Protocol
  import Batch = JsonRpc2BatchProtocol

  /** `Echo.execute`: `result.putAll(call.getArguments())`; every session lookup gives session 0. */
  function EchoEnv(): Env
  {
    Env((connection: Option<ConnectionId>, key: Option<string>) => 0,
        (command: string, call: JsonRpcCall) => Completed(Entries(call.arguments)))
  }

  function Fresh(): World
  {
    World(Connection("conn-1", None, map[]), [])
  }

  lemma SmallIndexKeys()
    ensures NatToString(0) == "0" && NatToString(1) == "1" && NatToString(2) == "2"
  {
  }

  /** Positional [a, b, c] become {"0": a, "1": b, "2": c}; integer key 1 and
      string key "1" both find b. */
  lemma PositionalRoundTrip(a: Value, b: Value, c: Value)
    ensures FromParams([a, b, c]).entries == map["0" := a, "1" := b, "2" := c]
    ensures Lookup(FromParams([a, b, c]), IntKey(1)) == b
    ensures Lookup(FromParams([a, b, c]), StrKey("1")) == b
  {
    SmallIndexKeys();
    var args := FromParams([a, b, c]);
    assert args.entries.Keys == IndexKeys(3);
    assert IndexKeys(3) == {"0", "1", "2"} by {
      assert forall i :: 0 <= i < 3 ==> NatToString(i) in {"0", "1", "2"};
    }
    assert [a, b, c][1] == b;
    LookupIntKey([a, b, c], 1);
  }

  /** {"method": "Echo", "params": ["hi"], "id": 7} under 1.0 answers
      {"result": {"0": "hi"}, "error": null, "id": 7}. */
  lemma V1Echo()
    ensures var request := map["method" := Str("Echo"), "params" := Arr([Str("hi")]), "id" := Int32(7)];
            V1.Process(EchoEnv(), request, Fresh()).outcome
              == Returned(Response(Obj(map["result" := Obj(map["0" := Str("hi")]), "error" := Null, "id" := Int32(7)])))
  {
    SmallIndexKeys();
    var args := FromParams([Str("hi")]);
    assert args.entries.Keys == IndexKeys(1);
    assert IndexKeys(1) == {"0"} by {
      assert NatToString(0) in IndexKeys(1);
    }
    assert args.entries == map["0" := Str("hi")];
  }

  /** {"jsonrpc": "2.0", "method": "Echo", "params": {"msg": "hi"}} is a
      notification: no response. */
  lemma V2EchoNotification()
    ensures var request := map["jsonrpc" := Str("2.0"), "method" := Str("Echo"), "params" := Obj(map["msg" := Str("hi")])];
            V2.Supports(request) && V2.Process(EchoEnv(), request, Fresh()).outcome == Returned(NoResponse)
  {
  }

  /** {"jsonrpc": "1.0", "method": "Echo", "id": 1} is an invalid request that
      echoes id 1, and nothing is bound. */
  lemma V2WrongVersion()
    ensures var request := map["jsonrpc" := Str("1.0"), "method" := Str("Echo"), "id" := Int32(1)];
            var s := V2.Process(EchoEnv(), request, Fresh());
            && s.outcome.Returned? && s.outcome.reply.Response?
            && ReadError(s.outcome.reply.body) == Some(ErrorView(InvalidRequest, Str("jsonrpc must be 2.0"), None, Int32(1)))
            && s.world == Fresh()
  {
  }

  /** A fractional id is refused before the version is even looked at, and is echoed. */
  lemma V2BadIdFirst()
    ensures var request := map["jsonrpc" := Str("1.0"), "method" := Int32(3), "id" := OtherNum("1.5")];
            var s := V2.Process(EchoEnv(), request, Fresh());
            && s.outcome.Returned? && s.outcome.reply.Response?
            && ReadError(s.outcome.reply.body)
                 == Some(ErrorView(InvalidRequest, Str("id must be on of [string, number, boolean]"), None, OtherNum("1.5")))
  {
  }

  /** Three 1.0 calls whose second has params that are not a list: the second
      slot holds that element's error response, the other two their own results. */
  lemma BatchIsolatesFailure()
    ensures var good1 := Obj(map["method" := Str("Echo"), "params" := Arr([]), "id" := Int32(1)]);
            var bad := Obj(map["method" := Str("Echo"), "params" := Str("x"), "id" := Int32(2)]);
            var good3 := Obj(map["method" := Str("Echo"), "params" := Arr([]), "id" := Int32(3)]);
            var r := Batch.ProcessAsWritten(EchoEnv(), [good1, bad, good3], Fresh()).0;
            && |r| == 3
            && r[0] == Response(Obj(map["result" := Obj(map[]), "error" := Null, "id" := Int32(1)]))
            && r[1] == Response(Obj(map["result" := Null, "error" := Thrown(V1.ProtocolFailure("params must be an array")), "id" := Int32(2)]))
            && r[2] == Response(Obj(map["result" := Obj(map[]), "error" := Null, "id" := Int32(3)]))
  {
    var good1 := Obj(map["method" := Str("Echo"), "params" := Arr([]), "id" := Int32(1)]);
    var bad := Obj(map["method" := Str("Echo"), "params" := Str("x"), "id" := Int32(2)]);
    var good3 := Obj(map["method" := Str("Echo"), "params" := Arr([]), "id" := Int32(3)]);
    var request := [good1, bad, good3];
    assert request[0] == good1 && request[1] == bad && request[2] == good3;
    assert FromParams([]).entries == map[];
  }
}
