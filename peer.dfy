/** `RemotePeer` (ipclib/core.py): the proxy returned by `get_peer`, whose every
    attribute it does not have itself is a forwarder that calls a method of the
    target process by name. */
module Peer {
  import opened Values
  import opened Transport
  import opened Dispatch

  /** Where the forwarder sends a call: to `stream` or to `call`, with the target,
      the method name and the arguments it passes on. */
  datatype Invocation = Invocation(streaming: bool, target: string, methodName: string, args: seq<Value>, kwargs: map<string, Value>)

  /** The caller asks for a stream: `_stream` is given and truthy. */
  predicate Streams(kwargs: map<string, Value>)
  {
    "_stream" in kwargs && Truthy(kwargs["_stream"])
  }

  /** The forwarder's routing rule: pop `_stream` (default `False`) from the keyword
      arguments and forward to `stream` exactly when it was truthy. */
  function Route(target: string, name: string, args: seq<Value>, kwargs: map<string, Value>): (inv: Invocation)
    ensures inv.target == target && inv.methodName == name && inv.args == args
    ensures inv.kwargs == kwargs - {"_stream"}
    ensures inv.streaming <==> Streams(kwargs)
  {
    var (flag, rest) := Pop(kwargs, "_stream", VBool(false));
    Invocation(Truthy(flag), target, name, args, rest)
  }

  /** Why Python refuses `peer.name(*args, **kwargs)` before anything is sent. */
  datatype BindingError =
    | NotCallable(attribute: string)     // the attribute is one of the proxy's own fields
    | MultipleValues(argument: string)   // a keyword repeats a parameter bound by position

  /** The proxy's own fields: looking them up never reaches `__getattr__`, and
      neither the target name nor the `NeverLiieIPC` instance can be called. */
  const ProxyFields: set<string> := {"_ipc", "_target"}

  /** The parameters of `call` and `stream` that the forwarder fills by position
      ahead of `*args`, the instance included. */
  const BoundByPosition: set<string> := {"self", "target", "method"}

  /** Whether Python can bind the forwarded call, and if not, why. */
  function Binding(name: string, kwargs: map<string, Value>): (r: Option<BindingError>)
    ensures r.None? <==> name !in ProxyFields && (kwargs - {"_stream"}).Keys * BoundByPosition == {}
    ensures name in ProxyFields ==> r == Some(NotCallable(name))
    ensures r.Some? && r.value.MultipleValues? ==>
      r.value.argument in kwargs && r.value.argument in BoundByPosition
  {
    var repeated := (kwargs - {"_stream"}).Keys * BoundByPosition;
    if name in ProxyFields then Some(NotCallable(name))
    else if "self" in kwargs then assert "self" in repeated; Some(MultipleValues("self"))
    else if "target" in kwargs then assert "target" in repeated; Some(MultipleValues("target"))
    else if "method" in kwargs then assert "method" in repeated; Some(MultipleValues("method"))
    else None
  }

  /** What calling `peer.name(...)` gives back: the result of `call`, the value
      `stream` returns, or the `TypeError` raised before either runs. */
  datatype PeerOutcome = CallDone(r: CallResult) | StreamDone(out: SendOutcome) | Rejected(reason: BindingError)

  /** `peer.name(*args, **kwargs)`: route, then run `call` or `stream` on the target
      with `_stream` removed from the keyword arguments. A call Python cannot bind
      raises `TypeError` and has no effect. */
  method Invoke(env: Env, target: string, name: string, args: seq<Value>, kwargs: map<string, Value>)
    returns (outcome: PeerOutcome, effects: seq<Event>)
    // refused before anything happens
    ensures outcome.Rejected? <==> Binding(name, kwargs).Some?
    ensures outcome.Rejected? ==> outcome.reason == Binding(name, kwargs).value && effects == []
    // otherwise forwarded, to `stream` exactly when `_stream` is truthy, without `_stream`
    ensures outcome.StreamDone? <==> Binding(name, kwargs).None? && Streams(kwargs)
    ensures !outcome.Rejected? ==>
      && effects == SendTrace(env, target, name, args, kwargs - {"_stream"}, outcome.StreamDone?)
      && SendsRequest(effects, RequestRecord(name, args, kwargs - {"_stream"}))
    // forwarded to `call`
    ensures outcome.CallDone? && Acquired(env).None? ==> outcome.r == ConnectionError(target)
    ensures outcome.CallDone? && Acquired(env).Some? && env.poll == PollAnswers(false) ==>
      outcome.r == RemoteExecutionError(RemoteError(target, name, VStr("Request Timeout")))
    ensures outcome.CallDone? && Acquired(env).Some? && Drops(env.poll, env.recv) ==>
      outcome.r == RemoteExecutionError(RemoteError(target, name, VStr("Connection Dropped")))
    ensures outcome.CallDone? && Acquired(env).Some? && env.poll == PollAnswers(true) && env.recv.Receives? ==>
      outcome.r == Classify(target, name, env.recv.v)
    // forwarded to `stream`
    ensures outcome.StreamDone? && outcome.out.Returned? ==> outcome.out.v == EmptyList
    ensures outcome.StreamDone? ==> (outcome.out == Returned(EmptyList) <==> Acquired(env).None? || HeaderCloses(env.recv))
    ensures outcome.StreamDone? ==> (outcome.out.Streaming? <==> Acquired(env).Some? && HeaderStarts(env.recv))
    ensures outcome.StreamDone? && outcome.out.Streaming? ==>
      outcome.out.stream == IPCStream(target, env.recv.v.entries["task_id"], Acquired(env).value)
    ensures outcome.StreamDone? && Acquired(env).Some? && env.recv.RecvRaises? ==>
      outcome.out == Raised(TransportFault)
    ensures outcome.StreamDone? && Acquired(env).Some? && env.recv.Receives? && !env.recv.v.VDict? ==>
      outcome.out == Raised(AttributeError("get"))
    ensures outcome.StreamDone? && Acquired(env).Some? && env.recv.Receives? && StartsStream(env.recv.v) && "task_id" !in env.recv.v.entries ==>
      outcome.out == Raised(KeyError("task_id"))
  {
    var refusal := Binding(name, kwargs);
    if refusal.Some? {
      outcome := Rejected(refusal.value);
      effects := [];
      return;
    }
    var inv := Route(target, name, args, kwargs);
    if inv.streaming {
      var out;
      out, effects := Stream(env, inv.target, inv.methodName, inv.args, inv.kwargs);
      outcome := StreamDone(out);
    } else {
      var r;
      r, effects := Call(env, inv.target, inv.methodName, inv.args, inv.kwargs);
      outcome := CallDone(r);
    }
    SendOrder(env, target, name, args, kwargs - {"_stream"}, inv.streaming);
  }
}
