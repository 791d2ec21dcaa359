/**
 * The per-route reconnecting connection of an observable query
 * (`ObservableQueryConnection`).
 *
 * The WebSocket transport and the timer runtime are outside the model: every
 * `new WebSocket(url)` is appended to `sockets`, every `setTimeout` to
 * `timers`, and every call of a `dataReceived` callback to `delivered`. What
 * they do back to the connection arrives as the events `OnOpen`, `OnClose`,
 * `OnError`, `OnMessage` and `TimerFires`.
 *
 * Each `connect` call creates a closure whose variables (`timeToWait`,
 * `currentAttempt`, `reconnectTimeout`, the url and the callback) are one
 * `ConnectEnv` in `envs`; a socket or a timer remembers which closure made it,
 * because its handlers belong to that closure.
 */
module QueryConnection {
  import opened Options
  import opened QueryResults

  /** The wait before the first reconnect, in milliseconds (`timeToWait`'s start value). */
  const InitialWait: nat := 500
  /** The step by which the wait grows per attempt (`timeExponent`). */
  const WaitStep: nat := 500
  /** The retry ceiling (`retries`). */
  const MaxRetries: nat := 100

  function Min(a: nat, b: nat): nat {
    if a <= b then a else b
  }

  // ---------------------------------------------------------------------------
  // The URL

  /** `needle` occurs in `s` starting at index `i`. */
  predicate OccursAt(s: string, needle: string, i: nat) {
    i + |needle| <= |s| && s[i..i + |needle|] == needle
  }

  /** JavaScript's `s.indexOf(needle, from)`: the first occurrence at or after `from`, or -1. */
  function IndexOfFrom(s: string, needle: string, from: nat): (r: int)
    requires from <= |s|
    decreases |s| - from
    ensures r == -1 || (from <= r && OccursAt(s, needle, r))
    ensures forall i: nat :: from <= i && (r == -1 || i < r) ==> !OccursAt(s, needle, i)
  {
    if from + |needle| > |s| then -1
    else if s[from..from + |needle|] == needle then from
    else IndexOfFrom(s, needle, from + 1)
  }

  function IndexOf(s: string, needle: string): int {
    IndexOfFrom(s, needle, 0)
  }

  /**
   * The page is served over TLS: `document.location.protocol.indexOf('https') === 0`,
   * which holds exactly when the protocol starts with `https`.
   */
  function IsSecure(protocol: string): (secure: bool)
    ensures secure <==> |protocol| >= 5 && protocol[..5] == "https"
  {
    assert OccursAt(protocol, "https", 0) <==> |protocol| >= 5 && protocol[..5] == "https";
    IndexOf(protocol, "https") == 0
  }

  /** The socket URL: `wss://` for a page whose protocol starts with `https`, `ws://` otherwise, then host and route. */
  function Url(protocol: string, host: string, route: string): (url: string)
    ensures |protocol| >= 5 && protocol[..5] == "https" ==> url == "wss://" + host + route
    ensures !(|protocol| >= 5 && protocol[..5] == "https") ==> url == "ws://" + host + route
  {
    (if IsSecure(protocol) then "wss" else "ws") + "://" + host + route
  }

  // ---------------------------------------------------------------------------
  // The reconnect policy

  /** The counters of one closure's reconnect loop: `timeToWait` and `currentAttempt`. */
  datatype Backoff = Backoff(timeToWait: nat, currentAttempt: nat)

  /** The counters as `connect` creates them and as a successful open resets them. */
  const Fresh: Backoff := Backoff(InitialWait, 0)

  /**
   * The wait before the k-th reconnect since the last successful open (k >= 1):
   * the first wait is the initial one, and each attempt adds the step times its number.
   */
  function Delay(k: nat): nat
    requires k >= 1
  {
    if k == 1 then InitialWait else Delay(k - 1) + WaitStep * (k - 1)
  }

  /** The k-th wait is 500 + 500 * (1 + ... + (k - 1)) milliseconds. */
  lemma {:induction false} DelayClosedForm(k: nat)
    requires k >= 1
    ensures Delay(k) == 500 + 250 * k * (k - 1)
  {
    if k > 1 {
      DelayClosedForm(k - 1);
      assert 250 * (k - 1) * (k - 2) + 500 * (k - 1) == 250 * k * (k - 1);
    }
  }

  /**
   * One call of `retry`: count the attempt; past the ceiling give up, otherwise
   * schedule a timer with the current wait (the second component) and then grow the wait.
   */
  function RetryStep(b: Backoff): (r: (Backoff, Option<nat>))
    ensures r.0.currentAttempt == b.currentAttempt + 1
    ensures r.1.Some? <==> b.currentAttempt < MaxRetries
    ensures r.1.Some? ==> r.1.value == b.timeToWait
  {
    var attempt := b.currentAttempt + 1;
    if attempt > MaxRetries then (Backoff(b.timeToWait, attempt), None)
    else (Backoff(b.timeToWait + WaitStep * attempt, attempt), Some(b.timeToWait))
  }

  /** `n` calls of `retry` with no successful open between them: the counters after, and the waits scheduled. */
  function RetryRun(b: Backoff, n: nat): (Backoff, seq<nat>)
    decreases n
  {
    if n == 0 then (b, [])
    else
      var (b1, scheduled) := RetryStep(b);
      var (b2, rest) := RetryRun(b1, n - 1);
      (b2, (if scheduled.Some? then [scheduled.value] else []) + rest)
  }

  /** The wait matches the attempts made so far (those past the ceiling do not grow it). */
  predicate OnSchedule(b: Backoff) {
    b.timeToWait == Delay(Min(b.currentAttempt, MaxRetries) + 1)
  }

  /** A retry keeps the counters on schedule, and the timer it schedules (if any) waits Delay(attempt). */
  lemma RetryStepOnSchedule(b: Backoff)
    requires OnSchedule(b)
    ensures OnSchedule(RetryStep(b).0)
    ensures RetryStep(b).1.Some? ==> RetryStep(b).1.value == Delay(b.currentAttempt + 1)
  {
  }

  /** The waits Delay(from + 1), ..., Delay(from + count). */
  function Waits(from: nat, count: nat): seq<nat>
    decreases count
  {
    if count == 0 then [] else [Delay(from + 1)] + Waits(from + 1, count - 1)
  }

  lemma {:induction false} WaitsAt(from: nat, count: nat, i: nat)
    requires i < count
    ensures |Waits(from, count)| == count && Waits(from, count)[i] == Delay(from + i + 1)
    decreases count
  {
    if i > 0 {
      WaitsAt(from + 1, count - 1, i - 1);
    } else {
      WaitsLength(from + 1, count - 1);
    }
  }

  lemma {:induction false} WaitsLength(from: nat, count: nat)
    ensures |Waits(from, count)| == count
    decreases count
  {
    if count > 0 {
      WaitsLength(from + 1, count - 1);
    }
  }

  /**
   * Between two successful opens, consecutive retries schedule the waits
   * Delay(a + 1), Delay(a + 2), ... where a counts the attempts already made,
   * and nothing once the ceiling is passed.
   */
  lemma {:induction false} RetryRunOnSchedule(b: Backoff, n: nat)
    requires OnSchedule(b)
    ensures OnSchedule(RetryRun(b, n).0)
    ensures RetryRun(b, n).0.currentAttempt == b.currentAttempt + n
    ensures RetryRun(b, n).1 ==
      Waits(Min(b.currentAttempt, MaxRetries), Min(b.currentAttempt + n, MaxRetries) - Min(b.currentAttempt, MaxRetries))
    decreases n
  {
    if n > 0 {
      var (b1, scheduled) := RetryStep(b);
      var a := b.currentAttempt;
      RetryStepOnSchedule(b);
      RetryRunOnSchedule(b1, n - 1);
      if a < MaxRetries {
        assert scheduled == Some(Delay(a + 1));
        assert Waits(a, Min(a + n, MaxRetries) - a)
            == [Delay(a + 1)] + Waits(a + 1, Min(a + n, MaxRetries) - (a + 1));
      } else {
        assert scheduled.None? && Min(a + n, MaxRetries) == Min(a, MaxRetries);
      }
    }
  }

  /**
   * From a fresh or just-opened connection, n failed attempts schedule
   * min(n, 100) timers, and the k-th of them waits 500 + 250 * k * (k - 1) ms.
   */
  lemma RetriesSinceOpen(n: nat)
    ensures |RetryRun(Fresh, n).1| == Min(n, MaxRetries)
    ensures forall k :: 1 <= k <= |RetryRun(Fresh, n).1| ==>
      RetryRun(Fresh, n).1[k - 1] == 500 + 250 * k * (k - 1)
  {
    RetryRunOnSchedule(Fresh, n);
    WaitsLength(0, Min(n, MaxRetries));
    forall k | 1 <= k <= |RetryRun(Fresh, n).1|
      ensures RetryRun(Fresh, n).1[k - 1] == 500 + 250 * k * (k - 1)
    {
      WaitsAt(0, Min(n, MaxRetries), k - 1);
      DelayClosedForm(k);
    }
  }

  /**
   * The closures and timers after closure `e` runs `retry`: RetryStep's new
   * counters, and the timer it schedules (if any) appended and remembered as
   * the closure's `reconnectTimeout`.
   */
  function AfterRetry(envs: seq<ConnectEnv>, timers: seq<Timer>, e: nat): (r: (seq<ConnectEnv>, seq<Timer>))
    requires e < |envs|
    ensures |r.0| == |envs| && forall i :: 0 <= i < |envs| && i != e ==> r.0[i] == envs[i]
    ensures r.0[e].url == envs[e].url && r.0[e].backoff == RetryStep(envs[e].backoff).0
    ensures |r.1| >= |timers| && r.1[..|timers|] == timers
    ensures envs[e].backoff.currentAttempt < MaxRetries ==>
      && r.1 == timers + [Timer(e, envs[e].backoff.timeToWait, envs[e].backoff.currentAttempt + 1, Pending)]
      && r.0[e].reconnectTimeout == Some(|timers|)
    ensures envs[e].backoff.currentAttempt >= MaxRetries ==>
      r.1 == timers && r.0[e].reconnectTimeout == envs[e].reconnectTimeout
  {
    var (b, scheduled) := RetryStep(envs[e].backoff);
    match scheduled
    case None => (envs[e := envs[e].(backoff := b)], timers)
    case Some(wait) =>
      (envs[e := ConnectEnv(envs[e].url, b, Some(|timers|))], timers + [Timer(e, wait, b.currentAttempt, Pending)])
  }

  // ---------------------------------------------------------------------------
  // The connection object

  datatype TimerState = Pending | Cancelled | Fired

  /** A `setTimeout(connectSocket, delay)` issued by closure `env` for reconnect attempt number `attempt`. */
  datatype Timer = Timer(env: nat, delay: nat, attempt: nat, state: TimerState)

  /** A `new WebSocket(url)` made by closure `env`; `closed` once `close()` was called on it. */
  datatype Socket = Socket(env: nat, url: string, closed: bool)

  /** The variables of one `connect` call's closure. */
  datatype ConnectEnv = ConnectEnv(url: string, backoff: Backoff, reconnectTimeout: Option<nat>)

  /** One call of closure `env`'s `dataReceived` callback, with the parsed frame. */
  datatype Delivery = Delivery(env: nat, result: QueryResult)

  /** The timers after `_cleanup()` of closure `e`: its latest timer, if still pending, is cleared. */
  function ClearLatest(timers: seq<Timer>, env: ConnectEnv): (r: seq<Timer>)
    requires env.reconnectTimeout.Some? ==> env.reconnectTimeout.value < |timers|
    ensures |r| == |timers|
    ensures forall t :: 0 <= t < |r| && Some(t) != env.reconnectTimeout ==> r[t] == timers[t]
    ensures forall t :: 0 <= t < |r| ==> r[t].state == Pending ==> timers[t].state == Pending
    ensures env.reconnectTimeout.Some? && timers[env.reconnectTimeout.value].state == Pending ==>
      r[env.reconnectTimeout.value] == timers[env.reconnectTimeout.value].(state := Cancelled)
    ensures env.reconnectTimeout.Some? && timers[env.reconnectTimeout.value].state != Pending ==>
      r[env.reconnectTimeout.value] == timers[env.reconnectTimeout.value]
  {
    match env.reconnectTimeout
    case None => timers
    case Some(t) =>
      if timers[t].state == Pending then timers[t := timers[t].(state := Cancelled)] else timers
  }

  class Connection {
    const route: string
    /** `_socket`: the latest socket, as an index into `sockets`. */
    var socket: Option<nat>
    /** `_disconnected` */
    var disconnected: bool
    /** `_cleanup`: present while it may clear the pending timer of that closure. */
    var cleanup: Option<nat>
    var envs: seq<ConnectEnv>
    var sockets: seq<Socket>
    var timers: seq<Timer>
    var delivered: seq<Delivery>

    ghost predicate Valid()
      reads this
    {
      && (socket.Some? ==> socket.value < |sockets|)
      && (cleanup.Some? ==> cleanup.value < |envs|)
      && (disconnected ==> socket.None?)
      && (forall e :: 0 <= e < |envs| ==> OnSchedule(envs[e].backoff))
      && (forall e :: 0 <= e < |envs| && envs[e].reconnectTimeout.Some? ==> envs[e].reconnectTimeout.value < |timers|)
      && (forall s :: 0 <= s < |sockets| ==> sockets[s].env < |envs|)
      && (forall t :: 0 <= t < |timers| ==>
            timers[t].env < |envs| && 1 <= timers[t].attempt <= MaxRetries && timers[t].delay == Delay(timers[t].attempt))
    }

    constructor (route: string)
      ensures Valid() && this.route == route
      ensures socket.None? && !disconnected && cleanup.None?
      ensures envs == [] && sockets == [] && timers == [] && delivered == []
    {
      this.route := route;
      socket, disconnected, cleanup := None, false, None;
      envs, sockets, timers, delivered := [], [], [], [];
    }

    /**
     * `connect`: a new closure with fresh counters and the url for this page,
     * whose cleanup replaces `_cleanup`, followed by a first `connectSocket`.
     */
    method Connect(protocol: string, host: string)
      requires Valid()
      modifies this
      ensures Valid()
      ensures envs == old(envs) + [ConnectEnv(Url(protocol, host, route), Fresh, None)]
      ensures cleanup == Some(|old(envs)|)
      ensures disconnected == old(disconnected) && timers == old(timers) && delivered == old(delivered)
      ensures old(disconnected) ==> sockets == old(sockets) && socket.None?
      ensures !old(disconnected) ==>
        && sockets == old(sockets) + [Socket(|old(envs)|, Url(protocol, host, route), false)]
        && socket == Some(|old(sockets)|)
    {
      var url := Url(protocol, host, route);
      envs := envs + [ConnectEnv(url, Fresh, None)];
      cleanup := Some(|envs| - 1);
      ConnectSocket(|envs| - 1);
    }

    /** `connectSocket` of closure `e`: a new socket, unless the connection was disconnected. */
    method ConnectSocket(e: nat)
      requires Valid() && e < |envs|
      modifies this
      ensures Valid()
      ensures envs == old(envs) && timers == old(timers) && delivered == old(delivered)
      ensures cleanup == old(cleanup) && disconnected == old(disconnected)
      ensures old(disconnected) ==> sockets == old(sockets) && socket == old(socket)
      ensures !old(disconnected) ==>
        sockets == old(sockets) + [Socket(e, envs[e].url, false)] && socket == Some(|old(sockets)|)
    {
      if !disconnected {
        sockets := sockets + [Socket(e, envs[e].url, false)];
        socket := Some(|sockets| - 1);
      }
    }

    /** `retry` of closure `e`, as RetryStep says; a scheduled timer becomes its `reconnectTimeout`. */
    method Retry(e: nat)
      requires Valid() && e < |envs|
      modifies this
      ensures Valid()
      ensures (envs, timers) == AfterRetry(old(envs), old(timers), e)
      ensures socket == old(socket) && sockets == old(sockets) && disconnected == old(disconnected)
      ensures cleanup == old(cleanup) && delivered == old(delivered)
    {
      var env := envs[e];
      assert OnSchedule(env.backoff);
      RetryStepOnSchedule(env.backoff);
      var timeToWait := env.backoff.timeToWait;
      var currentAttempt := env.backoff.currentAttempt + 1;
      if currentAttempt > MaxRetries {
        envs := envs[e := env.(backoff := Backoff(timeToWait, currentAttempt))];
        return;
      }
      timers := timers + [Timer(e, timeToWait, currentAttempt, Pending)];
      timeToWait := timeToWait + WaitStep * currentAttempt;
      envs := envs[e := ConnectEnv(env.url, Backoff(timeToWait, currentAttempt), Some(|timers| - 1))];
    }

    /** `onopen` of a socket: its closure's counters are reset. */
    method OnOpen(s: nat)
      requires Valid() && s < |sockets|
      modifies this
      ensures Valid()
      ensures socket == old(socket) && sockets == old(sockets) && disconnected == old(disconnected)
      ensures envs == old(envs)[sockets[s].env := old(envs[sockets[s].env]).(backoff := Fresh)]
      ensures cleanup == old(cleanup) && timers == old(timers) && delivered == old(delivered)
    {
      var e := sockets[s].env;
      envs := envs[e := envs[e].(backoff := Fresh)];
    }

    /** `onclose` of a socket: its closure retries, unless the connection was disconnected. */
    method OnClose(s: nat)
      requires Valid() && s < |sockets|
      modifies this
      ensures Valid()
      ensures socket == old(socket) && sockets == old(sockets) && disconnected == old(disconnected)
      ensures old(disconnected) ==> envs == old(envs) && timers == old(timers)
      ensures !old(disconnected) ==> (envs, timers) == AfterRetry(old(envs), old(timers), sockets[s].env)
      ensures cleanup == old(cleanup) && delivered == old(delivered)
    {
      if !disconnected {
        Retry(sockets[s].env);
      }
    }

    /** `onerror` of a socket: its closure retries, disconnected or not. */
    method OnError(s: nat)
      requires Valid() && s < |sockets|
      modifies this
      ensures Valid()
      ensures socket == old(socket) && sockets == old(sockets) && disconnected == old(disconnected)
      ensures (envs, timers) == AfterRetry(old(envs), old(timers), sockets[s].env)
      ensures cleanup == old(cleanup) && delivered == old(delivered)
    {
      Retry(sockets[s].env);
    }

    /** `onmessage` of a socket: the parsed frame goes to its closure's callback, at once and in order. */
    method OnMessage(s: nat, frame: QueryResult)
      requires Valid() && s < |sockets|
      modifies this
      ensures Valid()
      ensures socket == old(socket) && sockets == old(sockets) && disconnected == old(disconnected)
      ensures delivered == old(delivered) + [Delivery(sockets[s].env, frame)]
      ensures cleanup == old(cleanup) && envs == old(envs) && timers == old(timers)
    {
      delivered := delivered + [Delivery(sockets[s].env, frame)];
    }

    /**
     * The runtime runs timer `t`: a pending timer runs its closure's
     * `connectSocket`. The runtime never runs a cleared or already-run timer.
     */
    method TimerFires(t: nat)
      requires Valid() && t < |timers|
      modifies this
      ensures Valid()
      ensures old(timers[t].state) != Pending ==>
        timers == old(timers) && sockets == old(sockets) && socket == old(socket)
      ensures old(timers[t].state) == Pending ==> timers == old(timers)[t := old(timers[t]).(state := Fired)]
      ensures old(disconnected) ==> sockets == old(sockets) && socket == old(socket)
      ensures old(timers[t].state) == Pending && !old(disconnected) ==>
        && sockets == old(sockets) + [Socket(timers[t].env, envs[timers[t].env].url, false)]
        && socket == Some(|old(sockets)|)
      ensures envs == old(envs) && disconnected == old(disconnected)
      ensures cleanup == old(cleanup) && delivered == old(delivered)
    {
      if timers[t].state == Pending {
        timers := timers[t := timers[t].(state := Fired)];
        ConnectSocket(timers[t].env);
      }
    }

    /**
     * `disconnect`: acts only when a socket exists and the connection is not yet
     * disconnected; it then marks it disconnected, clears the latest closure's
     * latest timer, drops `_cleanup`, and closes and forgets the socket.
     * Afterwards there is never a current socket, so a second call does nothing.
     */
    method Disconnect()
      requires Valid()
      modifies this
      ensures Valid()
      ensures socket.None?
      ensures old(socket).None? || old(disconnected) ==>
        && disconnected == old(disconnected) && cleanup == old(cleanup)
        && sockets == old(sockets) && timers == old(timers)
      ensures old(socket).Some? && !old(disconnected) ==>
        && disconnected && cleanup.None?
        && sockets == old(sockets)[old(socket).value := old(sockets[socket.value]).(closed := true)]
        && timers == (if old(cleanup).Some? then ClearLatest(old(timers), old(envs[cleanup.value])) else old(timers))
      ensures envs == old(envs) && delivered == old(delivered)
    {
      if socket.Some? && !disconnected {
        disconnected := true;
        if cleanup.Some? {
          timers := ClearLatest(timers, envs[cleanup.value]);
          cleanup := None;
        }
        sockets := sockets[socket.value := sockets[socket.value].(closed := true)];
        socket := None;
      }
    }
  }

  const Wss := "wss://localhost/mock"

  /** A connection to `/mock` from an `https` page on `localhost`, with its first socket. */
  method Opened() returns (c: Connection)
    ensures fresh(c) && c.Valid()
    ensures c.socket == Some(0) && !c.disconnected && c.cleanup == Some(0)
    ensures c.envs == [ConnectEnv(Wss, Fresh, None)] && c.sockets == [Socket(0, Wss, false)] && c.timers == []
  {
    assert "https:"[..5] == "https";
    assert "wss://" + "localhost" + "/mock" == Wss;
    c := new Connection("/mock");
    c.Connect("https:", "localhost");
  }

  /** A connection over `https` whose first socket reported an error and then closed. */
  method ErrorThenClose() returns (c: Connection)
    ensures fresh(c) && c.Valid()
    ensures c.socket == Some(0) && !c.disconnected && c.cleanup == Some(0)
    ensures |c.envs| == 1 && c.envs[0].url == Wss && c.envs[0].reconnectTimeout == Some(1)
    ensures c.sockets == [Socket(0, Wss, false)]
    ensures c.timers == [Timer(0, 500, 1, Pending), Timer(0, 1000, 2, Pending)]
  {
    c := Opened();
    c.OnError(0);
    c.OnClose(0);
  }

  /**
   * An error followed by a close calls `retry` twice, and `disconnect` clears
   * only the second timer. The first still runs, and opens no socket.
   */
  method ErrorThenCloseThenDisconnect() returns (url: string, waits: seq<nat>, latestCancelled: bool,
                                                 strayPending: bool, socketCount: nat)
    ensures url == "wss://localhost/mock"
    ensures waits == [500, 1000]
    ensures latestCancelled && strayPending
    ensures socketCount == 1
  {
    var c := ErrorThenClose();
    url := c.sockets[0].url;
    waits := [c.timers[0].delay, c.timers[1].delay];
    c.Disconnect();
    latestCancelled := c.timers[1].state == Cancelled;
    strayPending := c.timers[0].state == Pending;
    c.TimerFires(0);
    socketCount := |c.sockets|;
  }

  /** `ErrorThenClose`, after which both timers fire: two more sockets, the second one current. */
  method BothRetriesFired() returns (c: Connection)
    ensures fresh(c) && c.Valid()
    ensures c.socket == Some(2) && !c.disconnected && c.cleanup == Some(0)
    ensures |c.envs| == 1 && c.envs[0].url == Wss && c.envs[0].reconnectTimeout == Some(1)
    ensures c.sockets == [Socket(0, Wss, false), Socket(0, Wss, false), Socket(0, Wss, false)]
    ensures c.timers == [Timer(0, 500, 1, Fired), Timer(0, 1000, 2, Fired)]
  {
    c := ErrorThenClose();
    c.TimerFires(0);
    c.TimerFires(1);
  }

  /**
   * Both timers of an error followed by a close fire before `disconnect`: each
   * opens a socket, and `_socket` keeps only the second. `disconnect` closes
   * that one, so the first stays open and still hands frames to `dataReceived`.
   */
  method ErrorThenCloseOrphansSocket(frame: QueryResult) returns (socketCount: nat, closedCount: nat,
                                                                  orphanOpen: bool, lastDelivery: Delivery)
    ensures socketCount == 3 && closedCount == 1
    ensures orphanOpen
    ensures lastDelivery == Delivery(0, frame)
  {
    var c := BothRetriesFired();
    c.Disconnect();
    assert c.sockets == [Socket(0, Wss, false), Socket(0, Wss, false), Socket(0, Wss, true)];
    c.OnOpen(1);
    c.OnMessage(1, frame);
    socketCount := |c.sockets|;
    closedCount := (if c.sockets[0].closed then 1 else 0) + (if c.sockets[1].closed then 1 else 0)
                   + (if c.sockets[2].closed then 1 else 0);
    orphanOpen := !c.sockets[1].closed;
    lastDelivery := c.delivered[|c.delivered| - 1];
  }

  /**
   * A second `connect` replaces `_socket` without closing the first socket;
   * `disconnect` then closes only the second.
   */
  method ConnectTwiceOrphansSocket() returns (socketCount: nat, firstOpen: bool, secondClosed: bool)
    ensures socketCount == 2 && firstOpen && secondClosed
  {
    var c := new Connection("/mock");
    c.Connect("http:", "localhost");
    c.Connect("http:", "localhost");
    c.Disconnect();
    socketCount := |c.sockets|;
    firstOpen := !c.sockets[0].closed;
    secondClosed := c.sockets[1].closed;
  }
}
