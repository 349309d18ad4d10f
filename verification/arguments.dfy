/** The argument adapter (`JsonRpcArguments`): positional params seen as named
    arguments keyed "0", "1", ..., with lookups that coerce the key to a string. */
module Arguments {
  import opened Wrappers
  import opened Json
  import opened Decimal

  /** A lookup key as the caller passes it: any object, of which the model
      keeps null, strings, boxed integers and booleans. */
  datatype Key = NullKey | StrKey(s: string) | IntKey(i: int) | BoolKey(b: bool)

  /** The backing map of a `JsonRpcArguments`. */
  datatype JsonRpcArguments = JsonRpcArguments(entries: map<string, Value>)

  /** The arguments a call carries: the adapter over positional params, or a
      `MapIpcArguments` over named params. */
  datatype IpcArguments = Positional(args: JsonRpcArguments) | Named(named: map<string, Value>)

  /** The argument map a command sees, whichever way it was built. */
  function Entries(a: IpcArguments): map<string, Value>
  {
    match a
    case Positional(p) => p.entries
    case Named(m) => m
  }

  /** The keys the constructor assigns to a list of n params. */
  function IndexKeys(n: nat): set<string>
  {
    set i | 0 <= i < n :: NatToString(i)
  }

  /** The constructor's loop: params[i] is put under `Integer.toString(i)`, in order. */
  function FromParams(params: seq<Value>): (a: JsonRpcArguments)
    ensures a.entries.Keys == IndexKeys(|params|)
    ensures forall i :: 0 <= i < |params| ==> a.entries[NatToString(i)] == params[i]
    decreases |params|
  {
    if |params| == 0 then JsonRpcArguments(map[])
    else
      var n := |params| - 1;
      var prefix := FromParams(params[..n]);
      AppendParam(params, prefix);
      JsonRpcArguments(prefix.entries[NatToString(n) := params[n]])
  }

  /** One step of the constructor's loop keeps the key/value correspondence. */
  lemma AppendParam(params: seq<Value>, prefix: JsonRpcArguments)
    requires |params| > 0
    requires prefix.entries.Keys == IndexKeys(|params| - 1)
    requires forall i :: 0 <= i < |params| - 1 ==> prefix.entries[NatToString(i)] == params[i]
    ensures var a := prefix.entries[NatToString(|params| - 1) := params[|params| - 1]];
            && a.Keys == IndexKeys(|params|)
            && forall i :: 0 <= i < |params| ==> a[NatToString(i)] == params[i]
  {
    var n := |params| - 1;
    var a := prefix.entries[NatToString(n) := params[n]];
    forall i | 0 <= i < |params|
      ensures a[NatToString(i)] == params[i]
    {
      if i < n {
        NatToStringInjective(i, n);
        assert NatToString(i) != NatToString(n);
        assert NatToString(i) in prefix.entries;
      }
    }
    assert a.Keys == prefix.entries.Keys + {NatToString(n)};
    IndexKeysStep(n);
  }

  lemma IndexKeysStep(n: nat)
    ensures IndexKeys(n + 1) == IndexKeys(n) + {NatToString(n)}
  {
    forall s | s in IndexKeys(n + 1)
      ensures s in IndexKeys(n) + {NatToString(n)}
    {
      var i :| 0 <= i < n + 1 && s == NatToString(i);
      if i < n {
        assert s in IndexKeys(n);
      }
    }
    forall s | s in IndexKeys(n) + {NatToString(n)}
      ensures s in IndexKeys(n + 1)
    {
      if s != NatToString(n) {
        var i :| 0 <= i < n && s == NatToString(i);
        assert s == NatToString(i) && 0 <= i < n + 1;
      }
    }
  }

  /** The constructor: a null params list fails the precondition check. */
  function New(params: Option<seq<Value>>): (r: Result<JsonRpcArguments, Throwable>)
    ensures r.Failure? <==> params.None?
    ensures r.Failure? ==> r.error == NullPointer("Params")
    ensures params == Some([]) ==> r == Success(JsonRpcArguments(map[]))
    ensures r.Success? ==> r.value.entries.Keys == IndexKeys(|params.value|)
    ensures r.Success? ==> forall i :: 0 <= i < |params.value| ==> r.value.entries[NatToString(i)] == params.value[i]
    ensures r.Success? ==> r.value == FromParams(params.value)
  {
    match params
    case None => Failure(NullPointer("Params"))
    case Some(ps) => Success(FromParams(ps))
  }

  /** `key == null ? null : key.toString()`. */
  function KeyString(k: Key): Option<string>
  {
    match k
    case NullKey => None
    case StrKey(s) => Some(s)
    case IntKey(i) => Some(IntToString(i))
    case BoolKey(b) => Some(if b then "true" else "false")
  }

  /** `get(key)`: the lookup of the key's string form; null when nothing is
      found, and a null key finds nothing since every stored key is a string. */
  function Lookup(a: JsonRpcArguments, k: Key): Value
  {
    match KeyString(k)
    case None => Null
    case Some(s) => Get(a.entries, s)
  }

  /** The stored keys are all canonical decimal indices. */
  lemma IndexKeyShape(n: nat, s: string)
    requires s in IndexKeys(n)
    ensures AllDigits(s) && ParseDigits(s) < n && s == NatToString(ParseDigits(s))
  {
    var i :| 0 <= i < n && s == NatToString(i);
    ParseNatToString(i);
  }

  /** An integer key finds the param at that index, and nothing outside 0..n-1. */
  lemma LookupIntKey(params: seq<Value>, i: int)
    ensures Lookup(FromParams(params), IntKey(i)) == (if 0 <= i < |params| then params[i] else Null)
  {
    var a := FromParams(params);
    if i < 0 {
      var s := IntToString(i);
      if s in a.entries {
        IndexKeyShape(|params|, s);
        assert false;
      }
    } else if i >= |params| {
      if NatToString(i) in a.entries {
        IndexKeyShape(|params|, NatToString(i));
        ParseNatToString(i);
      }
    }
  }

  /** A string key finds a param exactly when it is the canonical decimal form
      of an index; then it finds the param at that index. */
  lemma LookupStrKey(params: seq<Value>, s: string)
    ensures forall i :: 0 <= i < |params| && s == NatToString(i) ==>
              Lookup(FromParams(params), StrKey(s)) == params[i]
    ensures (forall i :: 0 <= i < |params| ==> s != NatToString(i)) ==>
              Lookup(FromParams(params), StrKey(s)) == Null
  {
  }

  /** An integer key and its decimal string find the same value. */
  lemma IntAndStringKeysAgree(a: JsonRpcArguments, i: int)
    ensures Lookup(a, IntKey(i)) == Lookup(a, StrKey(IntToString(i)))
  {
  }

  /** `put(key, value)`: binds key to value and returns the previous value
      (null when there was none). */
  function Put(a: JsonRpcArguments, key: string, value: Value): (r: (JsonRpcArguments, Value))
    ensures Lookup(r.0, StrKey(key)) == value
    ensures r.1 == Lookup(a, StrKey(key))
    ensures forall k :: k != key ==> Get(r.0.entries, k) == Get(a.entries, k)
    ensures r.0.entries.Keys == a.entries.Keys + {key}
  {
    (JsonRpcArguments(a.entries[key := value]), Get(a.entries, key))
  }

  /** `entrySet()`: a view of the current backing map. */
  function EntrySet(a: JsonRpcArguments): (r: set<(string, Value)>)
    ensures forall k, v :: (k, v) in r <==> k in a.entries && a.entries[k] == v
  {
    set k | k in a.entries :: (k, a.entries[k])
  }

  /** Entries added by `put` show in `entrySet()`, next to the untouched ones. */
  lemma EntrySetAfterPut(a: JsonRpcArguments, key: string, value: Value)
    ensures EntrySet(Put(a, key, value).0) == (set e | e in EntrySet(a) && e.0 != key) + {(key, value)}
  {
    var after := EntrySet(Put(a, key, value).0);
    var expected := (set e | e in EntrySet(a) && e.0 != key) + {(key, value)};
    forall e | e in after ensures e in expected { }
    forall e | e in expected ensures e in after { }
  }
}
