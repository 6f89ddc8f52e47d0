# NeverLiieIPC call dispatch, modelled in Dafny

NeverLiieIPC lets local processes call each other's functions by name over named
pipes. A process exposes functions in a table. Another process calls them with
`call`, which returns a result or raises. It can also call them with `stream`,
which gives back a stream handle. The `RemotePeer` proxy turns `peer.name(...)`
into one of those two calls.

This model covers the decision-making core of `ipclib/core.py`:

- the connect-or-launch-and-retry sequence of `_send` and `_connect_to_target`;
- waiting for a unary reply, and reading a stream header;
- the classification of a reply done by `call`;
- the `expose` table;
- the proxy's forwarding rule.

The pipe client, the connection objects and the process launcher are not modelled
as code. Each outbound call instead receives a script of their answers (`Env`):

- whether each of the two connect attempts connects;
- whether sending the request raises;
- whether the launch succeeds;
- what the poll answers;
- what the receive answers.

Each call gives back its result and the trace of its effects on those collaborators
(`Event`): connect, transmit, launch, sleep, poll, receive and close. A connection is
named by the attempt that opened it (1, or 2 for the retry after a launch).

Modules:

- `values.dfy` (`Values`): Python values and `dict.get` / `dict.pop` / truthiness.
- `transport.dfy` (`Transport`): the answer script and the effect trace, plus tallies
  over a trace. The tallies are the number of events of each kind, and the channels
  opened, closed and left open.
- `dispatch.dfy` (`Dispatch`): `_connect_to_target`, `_send`, `call` and `stream`.
  - Each method is specified by a trace function (`AttemptTrace`, `AcquireTrace`,
    `ReplyTrace`, `HeaderTrace`, `SendTrace`).
  - The rules the source promises are lemmas about those functions.
- `peer.dfy` (`Peer`): `RemotePeer.__getattr__`'s forwarder, and Python's binding of the call
  it forwards.
- `registry.dfy` (`Registry`): the `NeverLiieIPC` class with its `methods` table and
  `expose`.

`call`, `stream`, `_send` and `_connect_to_target` are methods of `NeverLiieIPC` in
the source. They read no field of the instance except the launcher, which is part of
the answer script here. So they are modelled as operations of module `Dispatch`
rather than as methods of the class, which holds only the table they never touch.

A consequence of the forwarder's binding is worth knowing. A remote function with a
keyword parameter named `target` or `method` cannot be called by keyword, neither
through the proxy nor through `call`: Python refuses such a call before anything is
sent (`Peer.Binding`).

## Model

| member | source | states |
|---|---|---|
| Dispatch.ConnectToTarget | ipclib/core.py:143-154 | Returns attempt `n`'s connection exactly when the connect succeeds and sending does not raise, and `None` otherwise. Its effects are: connect; on a connection, send `{"method", "args", "kwargs"}`; close that connection if the send raised. |
| Dispatch.AttemptTallies | ipclib/core.py:143-154 | One attempt connects exactly once, sends the request only when it connected, and neither launches, sleeps, polls nor receives. It opens a connection exactly when it connects and closes it exactly when the send raised. |
| Dispatch.AttemptOrder | ipclib/core.py:144-149 | An attempt starts with its only connect, to the target, and a connection it obtains carries the request record right away. |
| Dispatch.ConnectOrLaunch | ipclib/core.py:107-115 | Ends with the first attempt's connection if it has one. Otherwise, after a successful launch, it ends with the retry's connection; otherwise with none. Its effects are connect, then (on failure) launch, then (only on a successful launch) sleep 1.5 and connect once more. |
| Dispatch.AcquireTallies | ipclib/core.py:107-115 | Connects twice exactly when the first attempt fails and the launch succeeds, and once otherwise. Launches exactly when the first attempt fails. Sleeps exactly once per retry. Sends the request exactly once per connect that succeeds. Does not poll or receive. |
| Dispatch.AcquireChannels | ipclib/core.py:107-115 | The only connection left open is the one the sequence ends with, and that one has not been closed. |
| Dispatch.AcquireOrder | ipclib/core.py:107-115 | Starts with a connect to the target. A second connect comes right after a successful launch of the target and the 1.5 s sleep. Every connection obtained carries the request, and no other record is sent. |
| Dispatch.AwaitReply | ipclib/core.py:130-141 | Polls the connection with the caller's `_timeout` (5.0 by default). Data ready and received gives the received record. No data gives the "Request Timeout" record. A poll or receive that raises gives the "Connection Dropped" record. |
| Dispatch.ReplyShape | ipclib/core.py:130-141 | Exactly one poll, and one receive only after the poll reports data. The connection is closed in the data and timeout cases and is not closed when waiting raises. |
| Dispatch.TimeoutTravels | ipclib/core.py:132 | The poll timeout is `_timeout` if given, else 5.0. A given `_timeout` stays inside the `kwargs` of the record already sent. |
| Dispatch.OpenStream | ipclib/core.py:122-128 | A `stream_start` header with `task_id` gives an `IPCStream` on that task and on the same connection. Any other dictionary gives `[]`. A failing receive, a non-dictionary header (taken to have no `get`) or a missing `task_id` raise, each with its own exception. |
| Dispatch.HeaderShape | ipclib/core.py:122-128 | Reading the header receives exactly once, never polls, and closes the connection exactly when the header is an ordinary dictionary reply. |
| Dispatch.Send | ipclib/core.py:106-141 | With no connection: `None` for a unary call, `[]` for a stream. The unary path always returns a value: the reply, or the timeout or dropped record. The stream path gives a handle exactly when the header starts a session, `[]` exactly when it is another dictionary, and raises otherwise. It raises a transport fault when the receive fails, `AttributeError` for a non-dictionary header, and `KeyError` for a missing `task_id`. |
| Dispatch.SendTallies | ipclib/core.py:106-141 | At most two connects and at most one launch. Exactly one request record per successful connect. The retry and its sleep happen exactly when the first attempt fails and the launch succeeds. Unary: one poll, one receive only on data. Stream: one receive, no poll. No connection: no poll, no receive. |
| Dispatch.SendOrder | ipclib/core.py:106-141 | Starts with a connect to the target. Retries only after a successful launch and the grace sleep. Every connection carries the request record at once, and it is the only record sent. |
| Dispatch.AcquireEndsWithRequest | ipclib/core.py:107-115 | When connect-or-launch yields a connection, its last effect is sending the request on that connection. |
| Dispatch.SendWaitsAfterRequest | ipclib/core.py:118-133 | The event right after the request is transmitted on the final connection waits on that same connection. For a unary call it is the poll with the caller's timeout (or 5.0); for a stream it is the header receive. |
| Dispatch.SendChannels | ipclib/core.py:106-141 | At most the final connection is left open. It stays open exactly when a stream session starts, when reading the stream header raises, or when waiting for a unary reply raises. |
| Dispatch.Classify | ipclib/core.py:91-100 | `None` raises `ConnectionError`. A non-dictionary fails on `.get` (objects other than dictionaries are taken to have none). Status "ok" returns `data`. Status "error" raises `RemoteExecutionError` with target, method and `msg`. Any other response raises `RemoteExecutionError` for an unknown response. |
| Dispatch.ClassifyReplies | ipclib/core.py:94-98 | A `{"status": "ok", "data": d}` reply returns exactly `d`. An error reply raises `RemoteExecutionError` carrying exactly its message. |
| Dispatch.Call | ipclib/core.py:83-100 | An unreachable target raises `ConnectionError`. A timeout or a dropped connection raises `RemoteExecutionError` with "Request Timeout" or "Connection Dropped" (there is no separate timeout error). A received reply is classified. |
| Dispatch.Stream | ipclib/core.py:102-104 | Returns `[]`, never raising, both for an unreachable target and for a header that refuses the session. Returns a handle exactly when the target is reached and the header starts a session. Raises only while reading the header: a transport fault, `AttributeError` or `KeyError`, as in `_send`. |
| Peer.Route | ipclib/core.py:22-28 | Forwards to `stream` exactly when `_stream` is present and truthy. `_stream` is removed from the forwarded keyword arguments. Target, method name and positional arguments pass through unchanged. |
| Peer.Binding | ipclib/core.py:18-27 | Python cannot bind the forwarded call exactly when one of these holds, and it raises `TypeError` then. (a) The name is one of the proxy's own fields `_ipc` or `_target`, which are not callable and never reach `__getattr__`. (b) A keyword other than `_stream` repeats a parameter that `call` and `stream` bind by position (`self`, `target`, `method`). |
| Peer.Invoke | ipclib/core.py:22-28 | A call that cannot be bound raises `TypeError` and has no effect. Otherwise `peer.name(...)` performs `stream` exactly when `_stream` is truthy, else `call`, with `_stream` removed, and the request record sent carries exactly those arguments. Its result is `call`'s: `ConnectionError`, the timeout or dropped `RemoteExecutionError`, or the classified reply. Or it is `stream`'s: `[]` exactly when the target is unreachable or the header refuses, a handle on `task_id` and the connection exactly when the header starts a session, and otherwise the exception reading the header raised (transport fault, `AttributeError` or `KeyError`). |
| Registry.NeverLiieIPC.constructor | ipclib/core.py:31-33 | A new instance has the given application name and an empty method table. |
| Registry.NeverLiieIPC.Expose | ipclib/core.py:59-76 | A callable is registered under its own name, overwriting any previous entry of that name and leaving the others alone, and is returned unchanged. Any other argument leaves the table unchanged and returns the decorator. |
| Registry.NeverLiieIPC.Decorate | ipclib/core.py:67-71 | The decorator registers the function under the string it was given, or else under the function's own name. It overwrites that entry only, leaves every other entry as it was, and returns the function unchanged. |

## Left out

- The pipe client, the connections and the launcher (`IPCClient.connect`, `send`,
  `poll`, `recv`, `close`, `RegistryManager.launch_target`) are answers in a script,
  not code.
  - Every connection object is taken to be truthy.
  - `close` is taken never to raise.
  - The kind of exception a transport call raises is not distinguished (`TransportFault`).
- Each call gets its own script. Nothing is remembered across calls: the launcher's
  and the target's state are not modelled.
- `__init__`'s singleton check with `sys.exit`, `register_self` and the start of the
  server thread: process control, registry I/O and concurrency. The constructor
  models only the name and the empty table.
- `print` logging. `time.sleep(1.5)` is only a `Sleep` event, with no timing meaning.
- The timeout value is passed to `poll` as an opaque value. Floating-point timing is
  not modelled.
- `IPCStream`'s iteration: its source is not part of this model. Only the target,
  task id and connection it is built with are kept. The back reference to the
  `NeverLiieIPC` instance is not.
- Peer.Invoke: attributes that the proxy's class itself has (`__init__`,
  `__getattr__`, and those inherited from `object` such as `__repr__`) are found
  without `__getattr__`. The model forwards those names like any other.
- Peer.Binding: when several keywords repeat positional parameters, Python names the
  first in keyword order, which a map does not keep. The model promises only that
  the named one is among them.
- `get_peer`: it only builds the proxy. `Peer.Invoke` takes the proxy's target
  directly.
- Dispatch.Classify: an object other than a dictionary (`VObject`) is taken to have
  no `get` method, so a reply such as a `UserDict` raises `AttributeError` in the
  model. The same holds for a stream header in Dispatch.OpenStream.
- Peer.Route: an object other than the built-in values (`VObject`) is taken to be
  truthy, so a `_stream` object whose `__bool__` returns false is routed to `stream`
  in the model.
- Dispatch.Classify, Dispatch.Call: the error messages are not formatted text.
  `ConnectionError` carries the target. `RemoteExecutionError` carries the target,
  the method and the remote `msg`, or the unknown response.
- Registry.NeverLiieIPC.Expose: whether the argument is callable is decided by its
  variant (`Callable` or `Plain`). A callable without `__name__`, and the two-argument
  `expose(name, func)` call that Python itself refuses, are not modelled.
- `args` is a Python tuple and is modelled as a list.
