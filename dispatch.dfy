/** The outbound half of `NeverLiieIPC` (ipclib/core.py): reaching a target process,
    launching it when it is offline, sending one request record, and turning what
    comes back into a result (`call`) or a stream handle (`stream`). Every operation
    takes the script `env` of its collaborators' answers and returns, beside its
    result, the trace of its effects on them. */
module Dispatch {
  import opened Values
  import opened Transport

  /** Poll timeout, in seconds, when the caller gives no `_timeout`. */
  const DefaultTimeout: Value := VFloat(5.0)

  /** Seconds slept after a successful launch before connecting again. */
  const GracePeriod: real := 1.5

  /** `[]`, what a stream request yields when it cannot start a stream. */
  const EmptyList: Value := VList([])

  /** The record sent to the target: `{"method": ..., "args": ..., "kwargs": ...}`. */
  function RequestRecord(methodName: string, args: seq<Value>, kwargs: map<string, Value>): Value
  {
    VDict(map["method" := VStr(methodName), "args" := VList(args), "kwargs" := VDict(kwargs)])
  }

  /** A locally made error reply `{"status": "error", "msg": msg}`. */
  function ErrorRecord(msg: string): Value
  {
    VDict(map["status" := VStr("error"), "msg" := VStr(msg)])
  }

  const TimeoutReply: Value := ErrorRecord("Request Timeout")
  const DroppedReply: Value := ErrorRecord("Connection Dropped")

  /** `record.get("status")` for a dictionary; `None` stands in for anything else. */
  function Status(record: Value): Value
  {
    if record.VDict? then Get(record.entries, "status", VNone) else VNone
  }

  /** The header that opens a stream session. */
  predicate StartsStream(header: Value)
  {
    header.VDict? && Status(header) == VStr("stream_start")
  }

  /** The poll timeout of a unary call: the caller's `_timeout`, else the default. */
  function TimeoutOf(kwargs: map<string, Value>): Value
  {
    Get(kwargs, "_timeout", DefaultTimeout)
  }

  /** The poll timeout is the caller's `_timeout` when given, 5.0 otherwise; a
      `_timeout` the caller gives is also part of the request record's `kwargs`,
      since it is removed only after the record was sent. */
  lemma TimeoutTravels(methodName: string, args: seq<Value>, kwargs: map<string, Value>)
    ensures "_timeout" !in kwargs ==> TimeoutOf(kwargs) == VFloat(5.0)
    ensures "_timeout" in kwargs ==>
      && TimeoutOf(kwargs) == kwargs["_timeout"]
      && RequestRecord(methodName, args, kwargs).entries["kwargs"].entries["_timeout"] == kwargs["_timeout"]
  {
  }

  /** Constructor arguments of the `IPCStream` handed back for a live session. */
  datatype IPCStream = IPCStream(target: string, taskId: Value, chan: Chan)

  /** Exceptions that leave `_send` uncaught. */
  datatype Exception = TransportFault | AttributeError(name: string) | KeyError(key: string)

  /** What `_send` (and so `stream`) gives back: a plain Python value (a reply record,
      `None` or `[]`), a stream handle, or an exception. */
  datatype SendOutcome = Returned(v: Value) | Streaming(stream: IPCStream) | Raised(e: Exception)

  /** Why `call` raises `RemoteExecutionError`. */
  datatype RemoteFailure = RemoteError(target: string, methodName: string, msg: Value) | UnknownProtocolResponse(response: Value)

  /** What `call` gives back or raises. */
  datatype CallResult =
    | Success(data: Value)
    | ConnectionError(target: string)
    | RemoteExecutionError(failure: RemoteFailure)
    | CallRaised(e: Exception)

  /** The connection the connect-or-launch-and-retry sequence ends with: the first
      attempt's, else the retry's when the launch succeeded, else none. */
  function Acquired(env: Env): Option<Chan>
  {
    if env.first.Delivers() then Some(1)
    else if env.launchOk && env.second.Delivers() then Some(2)
    else None
  }

  /** The waiting phase of a unary call raises: the poll itself, or the receive
      after a poll that reported data. */
  predicate Drops(poll: PollOracle, recv: RecvOracle)
  {
    poll.PollRaises? || (poll == PollAnswers(true) && recv.RecvRaises?)
  }

  /** The stream header is an ordinary dictionary reply rather than a session start:
      the connection is closed and `[]` given back. */
  predicate HeaderCloses(recv: RecvOracle)
  {
    recv.Receives? && recv.v.VDict? && !StartsStream(recv.v)
  }

  /** The stream header starts a session and names its task. */
  predicate HeaderStarts(recv: RecvOracle)
  {
    recv.Receives? && StartsStream(recv.v) && "task_id" in recv.v.entries
  }

  /** The trace opens with a connect and holds no other. */
  predicate SingleConnect(t: seq<Event>)
  {
    && |t| >= 1 && t[0].Connect?
    && forall i :: 0 < i < |t| ==> !t[i].Connect?
  }

  /** Every record sent is `req`, and every connect that yields a connection is
      followed at once by sending `req` on it. */
  ghost predicate SendsRequest(t: seq<Event>, req: Value)
  {
    && (forall i :: 0 <= i < |t| && t[i].Transmit? ==> t[i].record == req)
    && (forall i :: 0 <= i < |t| && t[i].Connect? && t[i].got.Some? ==> i + 1 < |t|)
    && (forall i, j :: 0 <= i && j == i + 1 && j < |t| && t[i].Connect? && t[i].got.Some? ==>
          t[j] == Transmit(t[i].got.value, req))
  }

  /** Every connect but the first comes right after a successful launch of `target`
      followed by the grace period. */
  ghost predicate RetriesAfterGrace(t: seq<Event>, target: string)
  {
    && (forall j :: 0 < j < |t| && t[j].Connect? ==> 2 <= j)
    && (forall i, j :: 0 <= i && i + 2 == j && j < |t| && t[j].Connect? ==> t[i] == Launch(target, true))
    && (forall i, j :: 1 <= i && i + 1 == j && j < |t| && t[j].Connect? ==> t[i] == Sleep(GracePeriod))
  }

  // The effects each step of `_send` has, as a function of the collaborators' answers.

  /** One `_connect_to_target` attempt, numbered `n`. */
  function AttemptTrace(attempt: Attempt, n: Chan, target: string, req: Value): seq<Event>
  {
    if !attempt.connects then [Connect(target, None)]
    else if attempt.sendRaises then [Connect(target, Some(n))] + [Transmit(n, req)] + [Close(n)]
    else [Connect(target, Some(n))] + [Transmit(n, req)]
  }

  /** Connect, or launch and (after a successful launch) wait and connect again. */
  function AcquireTrace(env: Env, target: string, req: Value): seq<Event>
  {
    if env.first.Delivers() then AttemptTrace(env.first, 1, target, req)
    else if !env.launchOk then AttemptTrace(env.first, 1, target, req) + [Launch(target, false)]
    else
      AttemptTrace(env.first, 1, target, req) + [Launch(target, true)] + [Sleep(GracePeriod)]
      + AttemptTrace(env.second, 2, target, req)
  }

  /** Waiting for the reply of a unary call on connection `c`. */
  function ReplyTrace(c: Chan, timeout: Value, poll: PollOracle, recv: RecvOracle): seq<Event>
  {
    if poll.PollRaises? then [Poll(c, timeout)]
    else if !poll.dataReady then [Poll(c, timeout)] + [Close(c)]
    else if recv.RecvRaises? then [Poll(c, timeout)] + [Recv(c)]
    else [Poll(c, timeout)] + [Recv(c)] + [Close(c)]
  }

  /** Reading the header of a stream on connection `c`. */
  function HeaderTrace(c: Chan, recv: RecvOracle): seq<Event>
  {
    if HeaderCloses(recv) then [Recv(c)] + [Close(c)] else [Recv(c)]
  }

  /** The phase of `_send` that follows a successful connect-or-launch. */
  function ExchangeTrace(env: Env, kwargs: map<string, Value>, stream: bool, c: Chan): seq<Event>
  {
    if stream then HeaderTrace(c, env.recv) else ReplyTrace(c, TimeoutOf(kwargs), env.poll, env.recv)
  }

  /** The whole of `_send`. */
  function SendTrace(env: Env, target: string, methodName: string, args: seq<Value>, kwargs: map<string, Value>, stream: bool): seq<Event>
  {
    var acquire := AcquireTrace(env, target, RequestRecord(methodName, args, kwargs));
    if Acquired(env).None? then acquire else acquire + ExchangeTrace(env, kwargs, stream, Acquired(env).value)
  }

  // Rules the traces keep.

  lemma SendsRequestAppend(a: seq<Event>, b: seq<Event>, req: Value)
    requires SendsRequest(a, req) && SendsRequest(b, req)
    ensures SendsRequest(a + b, req)
  {
  }

  /** Appending an event that neither connects nor sends keeps `SendsRequest`. */
  lemma SendsRequestQuiet(t: seq<Event>, e: Event, req: Value)
    requires SendsRequest(t, req) && !e.Connect? && !e.Transmit?
    ensures SendsRequest(t + [e], req)
  {
  }

  /** Polls, receives and closes added after the connect phase keep both rules. */
  lemma ThenExchange(a: seq<Event>, b: seq<Event>, target: string, req: Value)
    requires RetriesAfterGrace(a, target) && SendsRequest(a, req) && ExchangeOnly(b)
    ensures RetriesAfterGrace(a + b, target) && SendsRequest(a + b, req)
  {
  }

  /** A first attempt, a successful launch, the grace period and a second attempt. */
  lemma RetryShape(a: seq<Event>, b: seq<Event>, target: string)
    requires SingleConnect(a) && SingleConnect(b)
    ensures RetriesAfterGrace(a + [Launch(target, true)] + [Sleep(GracePeriod)] + b, target)
  {
  }

  /** One attempt connects exactly once, and sends the request only when it
      connects. It opens attempt `n`'s connection exactly when it connects, and it
      closes that connection exactly when the send raises. */
  lemma AttemptTallies(attempt: Attempt, n: Chan, target: string, req: Value)
    ensures var t := AttemptTrace(attempt, n, target, req);
      && Count(t, KConnect) == 1 && Count(t, KTransmit) == (if attempt.connects then 1 else 0)
      && Count(t, KLaunch) == 0 && Count(t, KSleep) == 0 && Count(t, KPoll) == 0 && Count(t, KRecv) == 0
      && Opened(t) == (if attempt.connects then {n} else {})
      && Closed(t) == (if attempt.connects && attempt.sendRaises then {n} else {})
  {
    var c := Connect(target, if attempt.connects then Some(n) else None);
    Single(c);
    if attempt.connects {
      Extend([c], Transmit(n, req));
      if attempt.sendRaises {
        Extend([c] + [Transmit(n, req)], Close(n));
      }
    }
  }

  /** An attempt starts with its only connect, to `target`, and a connection it
      obtains carries `req` at once. */
  lemma AttemptOrder(attempt: Attempt, n: Chan, target: string, req: Value)
    ensures var t := AttemptTrace(attempt, n, target, req);
      SingleConnect(t) && t[0].target == target && SendsRequest(t, req)
  {
  }

  /** Connect-or-launch connects once, or twice exactly when the first attempt fails
      and the launch succeeds. It launches exactly when the first attempt fails, and
      it sleeps once before a second connect. */
  lemma AcquireTallies(env: Env, target: string, req: Value)
    ensures var t := AcquireTrace(env, target, req);
      && Count(t, KConnect) == (if !env.first.Delivers() && env.launchOk then 2 else 1)
      && Count(t, KTransmit) == (if env.first.connects then 1 else 0) + (if !env.first.Delivers() && env.launchOk && env.second.connects then 1 else 0)
      && Count(t, KLaunch) == (if env.first.Delivers() then 0 else 1)
      && Count(t, KSleep) + 1 == Count(t, KConnect)
      && Count(t, KPoll) == 0 && Count(t, KRecv) == 0
  {
    var first := AttemptTrace(env.first, 1, target, req);
    AttemptTallies(env.first, 1, target, req);
    if !env.first.Delivers() {
      Extend(first, Launch(target, env.launchOk));
      if env.launchOk {
        Extend(first + [Launch(target, true)], Sleep(GracePeriod));
        AttemptTallies(env.second, 2, target, req);
        Tallies(first + [Launch(target, true)] + [Sleep(GracePeriod)], AttemptTrace(env.second, 2, target, req));
      }
    }
  }

  /** The one connection connect-or-launch leaves open is the one it ends with. */
  lemma AcquireChannels(env: Env, target: string, req: Value)
    ensures var t := AcquireTrace(env, target, req);
      && LeftOpen(t) == (if Acquired(env).Some? then {Acquired(env).value} else {})
      && (Acquired(env).Some? ==> Acquired(env).value !in Closed(t))
  {
    var first := AttemptTrace(env.first, 1, target, req);
    AttemptTallies(env.first, 1, target, req);
    if !env.first.Delivers() {
      Extend(first, Launch(target, env.launchOk));
      if env.launchOk {
        Extend(first + [Launch(target, true)], Sleep(GracePeriod));
        AttemptTallies(env.second, 2, target, req);
        Tallies(first + [Launch(target, true)] + [Sleep(GracePeriod)], AttemptTrace(env.second, 2, target, req));
      }
    }
  }

  /** Connect-or-launch starts with a connect to `target`. It retries only after a
      successful launch and the grace period, and every connection it obtains carries
      `req`. */
  lemma AcquireOrder(env: Env, target: string, req: Value)
    ensures var t := AcquireTrace(env, target, req);
      && t[0].Connect? && t[0].target == target
      && RetriesAfterGrace(t, target) && SendsRequest(t, req)
  {
    var first := AttemptTrace(env.first, 1, target, req);
    AttemptOrder(env.first, 1, target, req);
    if !env.first.Delivers() {
      SendsRequestQuiet(first, Launch(target, env.launchOk), req);
      if env.launchOk {
        SendsRequestQuiet(first + [Launch(target, true)], Sleep(GracePeriod), req);
        AttemptOrder(env.second, 2, target, req);
        SendsRequestAppend(first + [Launch(target, true)] + [Sleep(GracePeriod)], AttemptTrace(env.second, 2, target, req), req);
        RetryShape(first, AttemptTrace(env.second, 2, target, req), target);
      } else {
        var t := first + [Launch(target, false)];
        assert forall j :: 0 < j < |t| ==> !t[j].Connect?;
      }
    }
  }

  /** Waiting for a unary reply polls once, with `timeout`, and receives only after
      the poll reports data. It closes the connection unless the poll or the
      receive raises. */
  lemma ReplyShape(c: Chan, timeout: Value, poll: PollOracle, recv: RecvOracle)
    ensures var t := ReplyTrace(c, timeout, poll, recv);
      && t[0] == Poll(c, timeout) && ExchangeOnly(t)
      && Count(t, KPoll) == 1 && Count(t, KRecv) == (if poll == PollAnswers(true) then 1 else 0)
      && Closed(t) == (if Drops(poll, recv) then {} else {c})
  {
    Single(Poll(c, timeout));
    if poll.PollAnswers? {
      if !poll.dataReady {
        Extend([Poll(c, timeout)], Close(c));
      } else {
        Extend([Poll(c, timeout)], Recv(c));
        if recv.Receives? {
          Extend([Poll(c, timeout)] + [Recv(c)], Close(c));
        }
      }
    }
  }

  /** Reading a stream header receives once and never polls. It closes the
      connection exactly when the header is an ordinary reply. */
  lemma HeaderShape(c: Chan, recv: RecvOracle)
    ensures var t := HeaderTrace(c, recv);
      && t[0] == Recv(c) && ExchangeOnly(t)
      && Count(t, KPoll) == 0 && Count(t, KRecv) == 1
      && Closed(t) == (if HeaderCloses(recv) then {c} else {})
  {
    Single(Recv(c));
    if HeaderCloses(recv) {
      Extend([Recv(c)], Close(c));
    }
  }

  /** `_send` connects at most twice and launches at most once. The second connect
      and its sleep happen exactly when the first attempt fails and the launch
      succeeds. A unary call polls once and receives only on data; a stream
      receives its header once and never polls. Without a connection, `_send`
      neither polls nor receives. */
  lemma SendTallies(env: Env, target: string, methodName: string, args: seq<Value>, kwargs: map<string, Value>, stream: bool)
    ensures var t := SendTrace(env, target, methodName, args, kwargs, stream);
      && Count(t, KConnect) == (if !env.first.Delivers() && env.launchOk then 2 else 1)
      && Count(t, KTransmit) == (if env.first.connects then 1 else 0) + (if !env.first.Delivers() && env.launchOk && env.second.connects then 1 else 0)
      && Count(t, KLaunch) == (if env.first.Delivers() then 0 else 1)
      && Count(t, KSleep) + 1 == Count(t, KConnect)
      && Count(t, KPoll) == (if Acquired(env).Some? && !stream then 1 else 0)
      && Count(t, KRecv) ==
           (if Acquired(env).None? then 0 else if stream || env.poll == PollAnswers(true) then 1 else 0)
  {
    var req := RequestRecord(methodName, args, kwargs);
    AcquireTallies(env, target, req);
    if Acquired(env).Some? {
      var c := Acquired(env).value;
      var x := ExchangeTrace(env, kwargs, stream, c);
      if stream {
        HeaderShape(c, env.recv);
      } else {
        ReplyShape(c, TimeoutOf(kwargs), env.poll, env.recv);
      }
      ExchangeTallies(x);
      Tallies(AcquireTrace(env, target, req), x);
    }
  }

  /** `_send` starts with a connect to `target`. It retries only after a successful
      launch and the grace period. Every connection it obtains carries the request
      record at once, and it sends no other record. It waits for the answer on the
      connection it ends with: by a poll with the caller's timeout (or 5.0) for a
      unary call, by a receive for a stream. */
  lemma SendOrder(env: Env, target: string, methodName: string, args: seq<Value>, kwargs: map<string, Value>, stream: bool)
    ensures var t := SendTrace(env, target, methodName, args, kwargs, stream);
      && t[0].Connect? && t[0].target == target
      && RetriesAfterGrace(t, target)
      && SendsRequest(t, RequestRecord(methodName, args, kwargs))
  {
    var req := RequestRecord(methodName, args, kwargs);
    var a := AcquireTrace(env, target, req);
    AcquireOrder(env, target, req);
    if Acquired(env).Some? {
      var c := Acquired(env).value;
      var x := ExchangeTrace(env, kwargs, stream, c);
      if stream {
        HeaderShape(c, env.recv);
      } else {
        ReplyShape(c, TimeoutOf(kwargs), env.poll, env.recv);
      }
      ThenExchange(a, x, target, req);
    }
  }

  /** Connect-or-launch, when it yields a connection, ends by sending it the request. */
  lemma AcquireEndsWithRequest(env: Env, target: string, req: Value)
    ensures var t := AcquireTrace(env, target, req);
      |t| >= 1 && (Acquired(env).Some? ==> t[|t| - 1] == Transmit(Acquired(env).value, req))
  {
  }

  /** `_send` waits for the answer right after sending the request, on the same
      connection: the event that follows the request's transmission is the poll with
      the caller's timeout (or 5.0) for a unary call, and the header receive for a
      stream. */
  lemma SendWaitsAfterRequest(env: Env, target: string, methodName: string, args: seq<Value>, kwargs: map<string, Value>, stream: bool)
    ensures var a := AcquireTrace(env, target, RequestRecord(methodName, args, kwargs));
      var t := SendTrace(env, target, methodName, args, kwargs, stream);
      Acquired(env).Some? ==>
        && 1 <= |a| < |t|
        && t[|a| - 1] == Transmit(Acquired(env).value, RequestRecord(methodName, args, kwargs))
        && t[|a|] == (if stream then Recv(Acquired(env).value) else Poll(Acquired(env).value, TimeoutOf(kwargs)))
  {
    var req := RequestRecord(methodName, args, kwargs);
    AcquireEndsWithRequest(env, target, req);
    if Acquired(env).Some? {
      var c := Acquired(env).value;
      if stream {
        HeaderShape(c, env.recv);
      } else {
        ReplyShape(c, TimeoutOf(kwargs), env.poll, env.recv);
      }
    }
  }

  /** `_send` leaves open at most the connection it ends with. That connection stays
      open exactly when a stream session starts, when reading the stream header
      raises, or when waiting for a unary reply raises. */
  lemma SendChannels(env: Env, target: string, methodName: string, args: seq<Value>, kwargs: map<string, Value>, stream: bool)
    ensures LeftOpen(SendTrace(env, target, methodName, args, kwargs, stream)) ==
      (if Acquired(env).Some? && (if stream then !HeaderCloses(env.recv) else Drops(env.poll, env.recv))
       then {Acquired(env).value} else {})
  {
    var req := RequestRecord(methodName, args, kwargs);
    AcquireChannels(env, target, req);
    if Acquired(env).Some? {
      var c := Acquired(env).value;
      var x := ExchangeTrace(env, kwargs, stream, c);
      if stream {
        HeaderShape(c, env.recv);
      } else {
        ReplyShape(c, TimeoutOf(kwargs), env.poll, env.recv);
      }
      ExchangeTallies(x);
      Tallies(AcquireTrace(env, target, req), x);
    }
  }

  // The operations.

  /** `_connect_to_target`: connect; on a connection, send the request record once;
      if the send raises, close that connection and report none. */
  method ConnectToTarget(attempt: Attempt, n: Chan, target: string, methodName: string, args: seq<Value>, kwargs: map<string, Value>)
    returns (conn: Option<Chan>, effects: seq<Event>)
    ensures conn == (if attempt.Delivers() then Some(n) else None)
    ensures effects == AttemptTrace(attempt, n, target, RequestRecord(methodName, args, kwargs))
  {
    effects := [Connect(target, if attempt.connects then Some(n) else None)];
    conn := None;
    if attempt.connects {
      effects := effects + [Transmit(n, RequestRecord(methodName, args, kwargs))];
      if attempt.sendRaises {
        effects := effects + [Close(n)];
      } else {
        conn := Some(n);
      }
    }
  }

  /** `_send`, steps 1 and 2: connect; when that gives no connection, ask the registry
      to launch the target and, only if the launch succeeds, sleep through the grace
      period and connect exactly once more. */
  method ConnectOrLaunch(env: Env, target: string, methodName: string, args: seq<Value>, kwargs: map<string, Value>)
    returns (conn: Option<Chan>, effects: seq<Event>)
    ensures conn == Acquired(env)
    ensures effects == AcquireTrace(env, target, RequestRecord(methodName, args, kwargs))
  {
    conn, effects := ConnectToTarget(env.first, 1, target, methodName, args, kwargs);
    if conn.None? {
      effects := effects + [Launch(target, env.launchOk)];
      if env.launchOk {
        effects := effects + [Sleep(GracePeriod)];
        var retry;
        conn, retry := ConnectToTarget(env.second, 2, target, methodName, args, kwargs);
        effects := effects + retry;
      }
    }
  }

  /** `_send`, unary branch, once a connection carries the request: pop the timeout,
      poll; on data, receive once and close; on no data, close and make up a
      timeout reply; any exception while waiting becomes a "Connection Dropped"
      reply and the connection is left as it is. */
  method AwaitReply(conn: Chan, kwargs: map<string, Value>, poll: PollOracle, recv: RecvOracle)
    returns (reply: Value, effects: seq<Event>)
    ensures effects == ReplyTrace(conn, TimeoutOf(kwargs), poll, recv)
    ensures poll == PollAnswers(true) && recv.Receives? ==> reply == recv.v
    ensures poll == PollAnswers(false) ==> reply == TimeoutReply
    ensures Drops(poll, recv) ==> reply == DroppedReply
  {
    var timeout := Pop(kwargs, "_timeout", DefaultTimeout).0;
    effects := [Poll(conn, timeout)];
    match poll
    case PollRaises =>
      reply := DroppedReply;
    case PollAnswers(ready) =>
      if ready {
        effects := effects + [Recv(conn)];
        match recv
        case RecvRaises =>
          reply := DroppedReply;
        case Receives(v) =>
          effects := effects + [Close(conn)];
          reply := v;
      } else {
        effects := effects + [Close(conn)];
        reply := TimeoutReply;
      }
  }

  /** `_send`, stream branch, once a connection carries the request: receive the
      header (no timeout); a `stream_start` header yields a stream handle on the
      still open connection; any other dictionary closes it and yields `[]`; a header
      that is not a dictionary, a `stream_start` header without `task_id`, or a
      failing receive raises. */
  method OpenStream(target: string, conn: Chan, recv: RecvOracle) returns (out: SendOutcome, effects: seq<Event>)
    ensures effects == HeaderTrace(conn, recv)
    ensures out.Streaming? <==> HeaderStarts(recv)
    ensures out.Streaming? ==> out.stream == IPCStream(target, recv.v.entries["task_id"], conn)
    ensures out.Returned? <==> HeaderCloses(recv)
    ensures out.Returned? ==> out.v == EmptyList
    ensures recv.RecvRaises? ==> out == Raised(TransportFault)
    ensures recv.Receives? && !recv.v.VDict? ==> out == Raised(AttributeError("get"))
    ensures recv.Receives? && StartsStream(recv.v) && "task_id" !in recv.v.entries ==> out == Raised(KeyError("task_id"))
  {
    effects := [Recv(conn)];
    match recv
    case RecvRaises =>
      out := Raised(TransportFault);
    case Receives(header) =>
      if !header.VDict? {
        out := Raised(AttributeError("get"));
      } else if StartsStream(header) {
        if "task_id" in header.entries {
          out := Streaming(IPCStream(target, header.entries["task_id"], conn));
        } else {
          out := Raised(KeyError("task_id"));
        }
      } else {
        effects := effects + [Close(conn)];
        out := Returned(EmptyList);
      }
  }

  /** `_send`: connect, or launch the target and connect once more; give up with
      `None` (unary) or `[]` (stream) when that yields no connection; otherwise wait
      for the reply or read the stream header. */
  method Send(env: Env, target: string, methodName: string, args: seq<Value>, kwargs: map<string, Value>, stream: bool)
    returns (out: SendOutcome, effects: seq<Event>)
    ensures effects == SendTrace(env, target, methodName, args, kwargs, stream)
    ensures Acquired(env).None? ==> out == Returned(if stream then EmptyList else VNone)
    ensures !stream ==> out.Returned?
    ensures !stream && Acquired(env).Some? && env.poll == PollAnswers(true) && env.recv.Receives? ==>
      out == Returned(env.recv.v)
    ensures !stream && Acquired(env).Some? && env.poll == PollAnswers(false) ==> out == Returned(TimeoutReply)
    ensures !stream && Acquired(env).Some? && Drops(env.poll, env.recv) ==> out == Returned(DroppedReply)
    ensures out.Streaming? <==> stream && Acquired(env).Some? && HeaderStarts(env.recv)
    ensures out.Streaming? ==> out.stream == IPCStream(target, env.recv.v.entries["task_id"], Acquired(env).value)
    ensures stream && Acquired(env).Some? ==> (out == Returned(EmptyList) <==> HeaderCloses(env.recv))
    ensures out.Raised? <==> stream && Acquired(env).Some? && !HeaderStarts(env.recv) && !HeaderCloses(env.recv)
    ensures stream && Acquired(env).Some? && env.recv.RecvRaises? ==> out == Raised(TransportFault)
    ensures stream && Acquired(env).Some? && env.recv.Receives? && !env.recv.v.VDict? ==>
      out == Raised(AttributeError("get"))
    ensures stream && Acquired(env).Some? && env.recv.Receives? && StartsStream(env.recv.v) && "task_id" !in env.recv.v.entries ==>
      out == Raised(KeyError("task_id"))
  {
    var conn;
    conn, effects := ConnectOrLaunch(env, target, methodName, args, kwargs);
    if conn.None? {
      out := Returned(if stream then EmptyList else VNone);
      return;
    }
    var answer;
    if stream {
      out, answer := OpenStream(target, conn.value, env.recv);
    } else {
      var reply;
      reply, answer := AwaitReply(conn.value, kwargs, env.poll, env.recv);
      out := Returned(reply);
    }
    effects := effects + answer;
  }

  /** What `call` makes of `_send`'s answer: `None` raises `ConnectionError`; a
      non-dictionary fails on `.get`; status "ok" gives `data`; status "error"
      raises `RemoteExecutionError` with the remote message; anything else raises
      `RemoteExecutionError` for an unknown response. */
  function Classify(target: string, methodName: string, response: Value): (r: CallResult)
    ensures r.ConnectionError? <==> response == VNone
    ensures r.ConnectionError? ==> r.target == target
    ensures r.CallRaised? <==> response != VNone && !response.VDict?
    ensures r.CallRaised? ==> r.e == AttributeError("get")
    ensures r.Success? <==> Status(response) == VStr("ok")
    ensures r.Success? ==> r.data == Get(response.entries, "data", VNone)
    ensures r.RemoteExecutionError? <==> response.VDict? && Status(response) != VStr("ok")
    ensures r.RemoteExecutionError? && Status(response) == VStr("error") ==>
      r.failure == RemoteError(target, methodName, Get(response.entries, "msg", VNone))
    ensures r.RemoteExecutionError? && Status(response) != VStr("error") ==>
      r.failure == UnknownProtocolResponse(response)
  {
    if response == VNone then ConnectionError(target)
    else if !response.VDict? then CallRaised(AttributeError("get"))
    else
      var status := Status(response);
      if status == VStr("ok") then Success(Get(response.entries, "data", VNone))
      else if status == VStr("error") then RemoteExecutionError(RemoteError(target, methodName, Get(response.entries, "msg", VNone)))
      else RemoteExecutionError(UnknownProtocolResponse(response))
  }

  /** The reply record a serving process sends for a successful call. */
  function OkReply(data: Value): Value
  {
    VDict(map["status" := VStr("ok"), "data" := data])
  }

  /** A success reply gives back exactly its data, and an error reply raises
      `RemoteExecutionError` with exactly its message. */
  lemma ClassifyReplies(target: string, methodName: string, data: Value, msg: string)
    ensures Classify(target, methodName, OkReply(data)) == Success(data)
    ensures Classify(target, methodName, ErrorRecord(msg)) == RemoteExecutionError(RemoteError(target, methodName, VStr(msg)))
  {
  }

  /** `call`: a unary `_send`, classified. A target that cannot be reached raises
      `ConnectionError`; a timeout and a dropped connection surface as
      `RemoteExecutionError`, as a remote error would; a received reply is
      classified. */
  method Call(env: Env, target: string, methodName: string, args: seq<Value>, kwargs: map<string, Value>)
    returns (r: CallResult, effects: seq<Event>)
    ensures effects == SendTrace(env, target, methodName, args, kwargs, false)
    ensures Acquired(env).None? ==> r == ConnectionError(target)
    ensures Acquired(env).Some? && env.poll == PollAnswers(false) ==>
      r == RemoteExecutionError(RemoteError(target, methodName, VStr("Request Timeout")))
    ensures Acquired(env).Some? && Drops(env.poll, env.recv) ==>
      r == RemoteExecutionError(RemoteError(target, methodName, VStr("Connection Dropped")))
    ensures Acquired(env).Some? && env.poll == PollAnswers(true) && env.recv.Receives? ==>
      r == Classify(target, methodName, env.recv.v)
  {
    var response;
    response, effects := Send(env, target, methodName, args, kwargs, false);
    r := Classify(target, methodName, response.v);
  }

  /** `stream`: a stream `_send`, handed back as is. It never raises for a target
      that cannot be reached, nor for a header that refuses the session: both give
      `[]`. It raises only while reading the header of a reached target. */
  method Stream(env: Env, target: string, methodName: string, args: seq<Value>, kwargs: map<string, Value>)
    returns (out: SendOutcome, effects: seq<Event>)
    ensures effects == SendTrace(env, target, methodName, args, kwargs, true)
    ensures out.Returned? ==> out.v == EmptyList
    ensures out.Returned? <==> Acquired(env).None? || HeaderCloses(env.recv)
    ensures out.Streaming? <==> Acquired(env).Some? && HeaderStarts(env.recv)
    ensures out.Streaming? ==> out.stream == IPCStream(target, env.recv.v.entries["task_id"], Acquired(env).value)
    ensures Acquired(env).Some? && env.recv.RecvRaises? ==> out == Raised(TransportFault)
    ensures Acquired(env).Some? && env.recv.Receives? && !env.recv.v.VDict? ==> out == Raised(AttributeError("get"))
    ensures Acquired(env).Some? && env.recv.Receives? && StartsStream(env.recv.v) && "task_id" !in env.recv.v.entries ==>
      out == Raised(KeyError("task_id"))
  {
    out, effects := Send(env, target, methodName, args, kwargs, true);
  }
}

