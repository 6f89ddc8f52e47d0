/** The collaborators the dispatch core talks to, seen only through their answers:
    the named-pipe client (`IPCClient.connect` and the connection's `send`, `poll`,
    `recv`, `close`) and the process launcher (`RegistryManager.launch_target`).
    One call is driven by a script of answers (`Env`) and leaves a trace of the
    effects it had on those collaborators (`Event`). */
module Transport {
  import opened Values

  /** A connection opened while serving one call, named by the connect attempt
      that opened it: 1 for the first attempt, 2 for the retry after a launch. */
  type Chan = nat

  /** What one `_connect_to_target` attempt meets: whether the client connects, and
      whether sending the request on the new connection raises. */
  datatype Attempt = Attempt(connects: bool, sendRaises: bool)
  {
    /** The attempt ends with a connection that carries the request. */
    predicate Delivers()
    {
      connects && !sendRaises
    }
  }

  /** Answer of `conn.poll(timeout)`: data ready or not, or an exception. */
  datatype PollOracle = PollAnswers(dataReady: bool) | PollRaises

  /** Answer of `conn.recv()`: the record received, or an exception. */
  datatype RecvOracle = Receives(v: Value) | RecvRaises

  /** The script of one outbound call: both connect attempts, the launcher's answer,
      and the answers of the one poll and the one receive that follow. */
  datatype Env = Env(first: Attempt, launchOk: bool, second: Attempt, poll: PollOracle, recv: RecvOracle)

  /** An effect on the transport or on the launcher, in the order it happens. */
  datatype Event =
    | Connect(target: string, got: Option<Chan>)
    | Transmit(chan: Chan, record: Value)
    | Launch(target: string, ok: bool)
    | Sleep(seconds: real)
    | Poll(chan: Chan, timeout: Value)
    | Recv(chan: Chan)
    | Close(chan: Chan)

  datatype Kind = KConnect | KTransmit | KLaunch | KSleep | KPoll | KRecv | KClose

  function KindOf(e: Event): Kind
  {
    match e
    case Connect(_, _) => KConnect
    case Transmit(_, _) => KTransmit
    case Launch(_, _) => KLaunch
    case Sleep(_) => KSleep
    case Poll(_, _) => KPoll
    case Recv(_) => KRecv
    case Close(_) => KClose
  }

  /** Number of events of kind `k` in trace `t`. */
  function Count(t: seq<Event>, k: Kind): nat
  {
    if t == [] then 0 else (if KindOf(t[0]) == k then 1 else 0) + Count(t[1..], k)
  }

  /** The channel a successful connect opens. */
  function OpensOf(e: Event): set<Chan>
  {
    if e.Connect? && e.got.Some? then {e.got.value} else {}
  }

  /** The channel a close closes. */
  function ClosesOf(e: Event): set<Chan>
  {
    if e.Close? then {e.chan} else {}
  }

  /** Channels that a connect in `t` opened. */
  function Opened(t: seq<Event>): set<Chan>
  {
    if t == [] then {} else OpensOf(t[0]) + Opened(t[1..])
  }

  /** Channels that `t` closes. */
  function Closed(t: seq<Event>): set<Chan>
  {
    if t == [] then {} else ClosesOf(t[0]) + Closed(t[1..])
  }

  /** Channels still open once the trace `t` is over. */
  function LeftOpen(t: seq<Event>): set<Chan>
  {
    Opened(t) - Closed(t)
  }

  lemma {:induction false} CountAppend(a: seq<Event>, b: seq<Event>, k: Kind)
    ensures Count(a + b, k) == Count(a, k) + Count(b, k)
  {
    if a == [] {
      assert a + b == b;
    } else {
      assert (a + b)[0] == a[0];
      assert (a + b)[1..] == a[1..] + b;
      CountAppend(a[1..], b, k);
    }
  }

  lemma {:induction false} OpenedAppend(a: seq<Event>, b: seq<Event>)
    ensures Opened(a + b) == Opened(a) + Opened(b)
  {
    if a == [] {
      assert a + b == b;
    } else {
      assert (a + b)[0] == a[0];
      assert (a + b)[1..] == a[1..] + b;
      OpenedAppend(a[1..], b);
    }
  }

  lemma {:induction false} ClosedAppend(a: seq<Event>, b: seq<Event>)
    ensures Closed(a + b) == Closed(a) + Closed(b)
  {
    if a == [] {
      assert a + b == b;
    } else {
      assert (a + b)[0] == a[0];
      assert (a + b)[1..] == a[1..] + b;
      ClosedAppend(a[1..], b);
    }
  }

  /** Every tally of a concatenation is the sum of the tallies of its parts. */
  lemma Tallies(a: seq<Event>, b: seq<Event>)
    ensures Count(a + b, KConnect) == Count(a, KConnect) + Count(b, KConnect)
    ensures Count(a + b, KTransmit) == Count(a, KTransmit) + Count(b, KTransmit)
    ensures Count(a + b, KLaunch) == Count(a, KLaunch) + Count(b, KLaunch)
    ensures Count(a + b, KSleep) == Count(a, KSleep) + Count(b, KSleep)
    ensures Count(a + b, KPoll) == Count(a, KPoll) + Count(b, KPoll)
    ensures Count(a + b, KRecv) == Count(a, KRecv) + Count(b, KRecv)
    ensures Opened(a + b) == Opened(a) + Opened(b)
    ensures Closed(a + b) == Closed(a) + Closed(b)
  {
    CountAppend(a, b, KConnect);
    CountAppend(a, b, KTransmit);
    CountAppend(a, b, KLaunch);
    CountAppend(a, b, KSleep);
    CountAppend(a, b, KPoll);
    CountAppend(a, b, KRecv);
    OpenedAppend(a, b);
    ClosedAppend(a, b);
  }

  /** The tallies of a single event. */
  lemma Single(e: Event)
    ensures Count([e], KConnect) == (if e.Connect? then 1 else 0)
    ensures Count([e], KTransmit) == (if e.Transmit? then 1 else 0)
    ensures Count([e], KLaunch) == (if e.Launch? then 1 else 0)
    ensures Count([e], KSleep) == (if e.Sleep? then 1 else 0)
    ensures Count([e], KPoll) == (if e.Poll? then 1 else 0)
    ensures Count([e], KRecv) == (if e.Recv? then 1 else 0)
    ensures Opened([e]) == OpensOf(e) && Closed([e]) == ClosesOf(e)
  {
  }

  /** The tallies of a trace extended by one event. */
  lemma Extend(t: seq<Event>, e: Event)
    ensures Count(t + [e], KConnect) == Count(t, KConnect) + (if e.Connect? then 1 else 0)
    ensures Count(t + [e], KTransmit) == Count(t, KTransmit) + (if e.Transmit? then 1 else 0)
    ensures Count(t + [e], KLaunch) == Count(t, KLaunch) + (if e.Launch? then 1 else 0)
    ensures Count(t + [e], KSleep) == Count(t, KSleep) + (if e.Sleep? then 1 else 0)
    ensures Count(t + [e], KPoll) == Count(t, KPoll) + (if e.Poll? then 1 else 0)
    ensures Count(t + [e], KRecv) == Count(t, KRecv) + (if e.Recv? then 1 else 0)
    ensures Opened(t + [e]) == Opened(t) + OpensOf(e)
    ensures Closed(t + [e]) == Closed(t) + ClosesOf(e)
  {
    Single(e);
    Tallies(t, [e]);
  }

  /** Only polls, receives and closes: no connect, send, launch or sleep. */
  predicate ExchangeOnly(t: seq<Event>)
  {
    forall i :: 0 <= i < |t| ==> t[i].Poll? || t[i].Recv? || t[i].Close?
  }

  /** A trace made only of polls, receives and closes opens nothing and does
      nothing on the connect side. */
  lemma {:induction false} ExchangeTallies(t: seq<Event>)
    requires ExchangeOnly(t)
    ensures Count(t, KConnect) == 0 && Count(t, KTransmit) == 0
    ensures Count(t, KLaunch) == 0 && Count(t, KSleep) == 0
    ensures Opened(t) == {}
  {
    if t != [] {
      assert forall i :: 0 <= i < |t[1..]| ==> t[1..][i] == t[i + 1];
      ExchangeTallies(t[1..]);
    }
  }
}
