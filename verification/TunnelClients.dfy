/** The CLI's tunnel client: connecting, losing the connection and reconnecting. */
module TunnelClients {
  import opened Basics

  datatype ConnState = Disconnected | Connecting | Connected | Reconnecting | Failed

  /** `baseDelay` in milliseconds. */
  datatype Config = Config(maxAttempts: int, baseDelay: nat)

  /**
   * `socket` is the current control socket, `sockets` the number of sockets made so far. `timers` holds
   * the reconnect timers that have not fired or been cleared, with their delays; `timer` is the one the
   * client remembers. `delays` lists the delays scheduled since the last connected message.
   */
  datatype Client = Client(
    state: ConnState, socket: Option<nat>, attempts: int, shouldReconnect: bool, heartbeat: bool,
    timer: Option<nat>, timers: map<nat, int>, made: nat, sockets: nat, delays: seq<int>)

  const Idle := Client(Disconnected, None, 0, true, false, None, map[], 0, 0, [])

  datatype Event =
    | Connect | Disconnect
    | ConnectedMessage(s: nat) | ErrorMessage(s: nat, fatal: bool) | DisconnectMessage(s: nat)
    | SocketClosed(s: nat) | TimerFires(t: nat)

  function Pow2(n: nat): nat {
    if n == 0 then 1 else 2 * Pow2(n - 1)
  }

  // ---------------------------------------------------------------------------
  // What each callback does
  // ---------------------------------------------------------------------------

  /** A second connect while one is under way or up is rejected. */
  function StartConnect(c: Client): Client {
    if c.state == Connected || c.state == ConnState.Connecting then c
    else c.(state := ConnState.Connecting, shouldReconnect := true, socket := Some(c.sockets), sockets := c.sockets + 1)
  }

  function Disconnecting(c: Client): Client {
    c.(shouldReconnect := false, heartbeat := false, state := Disconnected, socket := None,
       timer := None, timers := if c.timer.Some? then c.timers - {c.timer.value} else c.timers)
  }

  function GotConnected(c: Client): Client {
    c.(state := Connected, attempts := 0, heartbeat := true, delays := [])
  }

  function LostSocket(cfg: Config, c: Client): Client {
    var n := c.(heartbeat := false, state := Disconnected, socket := None);
    if c.shouldReconnect && c.state == Connected then Reattempt(cfg, n) else n
  }

  function Reattempt(cfg: Config, c: Client): Client {
    if c.attempts >= cfg.maxAttempts then c.(state := Failed)
    else
      var attempts := c.attempts + 1;
      var delay := if attempts >= 1 then cfg.baseDelay * Pow2(attempts - 1) else 0;
      c.(attempts := attempts, state := Reconnecting, timer := Some(c.made), timers := c.timers[c.made := delay],
         made := c.made + 1, delays := c.delays + [delay])
  }

  function TimerFired(c: Client, t: nat): Client {
    var n := c.(timer := None, timers := c.timers - {t});
    if !c.shouldReconnect then n else StartConnect(n)
  }

  predicate CanHappen(c: Client, e: Event) {
    match e
    case TimerFires(t) => t in c.timers
    case ConnectedMessage(s) => s < c.sockets
    case ErrorMessage(s, _) => s < c.sockets
    case DisconnectMessage(s) => s < c.sockets
    case SocketClosed(s) => s < c.sockets
    case _ => true
  }

  function After(cfg: Config, c: Client, e: Event): Client {
    match e
    case Connect => StartConnect(c)
    case Disconnect => Disconnecting(c)
    case ConnectedMessage(_) => GotConnected(c)
    case ErrorMessage(_, fatal) => if fatal then c.(shouldReconnect := false) else c
    case DisconnectMessage(_) => c.(shouldReconnect := false)
    case SocketClosed(_) => LostSocket(cfg, c)
    case TimerFires(t) => TimerFired(c, t)
  }

  // ---------------------------------------------------------------------------
  // The client object
  // ---------------------------------------------------------------------------

  class TunnelClient {
    const config: Config
    var state: ConnState
    var socket: Option<nat>
    var reconnectAttempts: int
    var shouldReconnect: bool
    var heartbeatTimer: bool
    var reconnectTimer: Option<nat>

    // The outside: pending timers, sockets made, delays since the last connected message.
    var timers: map<nat, int>
    var made: nat
    var sockets: nat
    ghost var delays: seq<int>

    ghost function View(): Client
      reads this
    {
      Client(state, socket, reconnectAttempts, shouldReconnect, heartbeatTimer, reconnectTimer, timers, made,
             sockets, delays)
    }

    constructor (config: Config)
      ensures View() == Idle && this.config == config
    {
      this.config := config;
      state, socket, reconnectAttempts, shouldReconnect := Disconnected, None, 0, true;
      heartbeatTimer, reconnectTimer, timers, made, sockets, delays := false, None, map[], 0, 0, [];
    }

    method Connect() returns (rejected: bool)
      modifies this
      ensures View() == StartConnect(old(View()))
      ensures rejected <==> old(state) in {Connected, ConnState.Connecting}
    {
      if state == Connected || state == ConnState.Connecting {
        return true;
      }
      state := ConnState.Connecting;
      shouldReconnect := true;
      socket := Some(sockets);
      sockets := sockets + 1;
      rejected := false;
    }

    method Disconnect()
      modifies this
      ensures View() == Disconnecting(old(View()))
    {
      shouldReconnect := false;
      heartbeatTimer := false;
      StopReconnectTimer();
      state := Disconnected;
      socket := None;
    }

    method StopReconnectTimer()
      modifies `reconnectTimer, `timers
      ensures reconnectTimer == None
      ensures timers == if old(reconnectTimer).Some? then old(timers) - {old(reconnectTimer).value} else old(timers)
    {
      if reconnectTimer.Some? {
        timers := timers - {reconnectTimer.value};
        reconnectTimer := None;
      }
    }

    /** The listener does not ask which socket the message came from. */
    method HandleConnected()
      modifies this
      ensures View() == GotConnected(old(View()))
    {
      state := Connected;
      reconnectAttempts := 0;
      heartbeatTimer := true;
      delays := [];
    }

    method HandleError(fatal: bool)
      modifies `shouldReconnect
      ensures shouldReconnect == (old(shouldReconnect) && !fatal)
    {
      if fatal {
        shouldReconnect := false;
      }
    }

    method HandleClose()
      modifies this
      ensures View() == LostSocket(config, old(View()))
    {
      heartbeatTimer := false;
      var wasConnected := state == Connected;
      state := Disconnected;
      socket := None;
      if shouldReconnect && wasConnected {
        AttemptReconnect();
      }
    }

    method AttemptReconnect()
      modifies this
      ensures View() == Reattempt(config, old(View()))
    {
      if reconnectAttempts >= config.maxAttempts {
        state := Failed;
        return;
      }
      reconnectAttempts := reconnectAttempts + 1;
      state := Reconnecting;
      var delay := if reconnectAttempts >= 1 then config.baseDelay * Pow2(reconnectAttempts - 1) else 0;
      timers := timers[made := delay];
      reconnectTimer := Some(made);
      made := made + 1;
      delays := delays + [delay];
    }

    method OnReconnectTimer(t: nat)
      requires t in timers
      modifies this
      ensures View() == TimerFired(old(View()), t)
    {
      timers := timers - {t};
      reconnectTimer := None;
      if !shouldReconnect {
        return;
      }
      var rejected := Connect();
    }
  }

  // ---------------------------------------------------------------------------
  // Runs
  // ---------------------------------------------------------------------------

  ghost predicate Run(cfg: Config, c: Client, events: seq<Event>, last: Client)
    decreases |events|
  {
    if events == [] then c == last
    else CanHappen(c, events[0]) && Run(cfg, After(cfg, c, events[0]), events[1..], last)
  }

  function Backoff(cfg: Config, n: nat): seq<int> {
    if n == 0 then [] else Backoff(cfg, n - 1) + [cfg.baseDelay * Pow2(n - 1)]
  }

  /** The sum of the first terms and the next one, with the common factor taken out. */
  lemma Distribute(b: int, p: int)
    ensures b * (p - 1) + b * p == b * (2 * p - 1)
  {
    assert b * (2 * p - 1) == b * ((p - 1) + p);
  }

  lemma BackoffStep(cfg: Config, n: nat)
    requires n > 0
    ensures Sum(Backoff(cfg, n)) == Sum(Backoff(cfg, n - 1)) + cfg.baseDelay * Pow2(n - 1)
  {
    SumAppend(Backoff(cfg, n - 1), cfg.baseDelay * Pow2(n - 1));
  }

  lemma {:induction false} BackoffSum(cfg: Config, n: nat)
    ensures Sum(Backoff(cfg, n)) == cfg.baseDelay * (Pow2(n) - 1)
  {
    if n > 0 {
      BackoffSum(cfg, n - 1);
      BackoffStep(cfg, n);
      Distribute(cfg.baseDelay, Pow2(n - 1));
    }
  }

  lemma {:induction false} Pow2Grows(a: nat, b: nat)
    requires a <= b
    ensures 1 <= Pow2(a) <= Pow2(b)
  {
    if a < b { Pow2Grows(a, b - 1); } else if a > 0 { Pow2Grows(a - 1, a - 1); }
  }

  /** The delays since the last connected message are the doubling ones; a connected client has none. */
  ghost predicate Backing(cfg: Config, c: Client) {
    && 0 <= c.attempts && (c.attempts > 0 ==> c.attempts <= cfg.maxAttempts)
    && c.delays == Backoff(cfg, c.attempts)
    && (c.state == Connected ==> c.attempts == 0) && c.attempts <= 1
    && (forall t | t in c.timers :: c.timers[t] == cfg.baseDelay)
  }

  lemma AfterBacking(cfg: Config, c: Client, e: Event)
    requires Backing(cfg, c)
    ensures Backing(cfg, After(cfg, c, e))
  {
    assert Pow2(0) == 1;
    assert Backoff(cfg, 1) == Backoff(cfg, 0) + [cfg.baseDelay * Pow2(0)];
  }

  lemma {:induction false} RunBacking(cfg: Config, c: Client, events: seq<Event>, last: Client)
    requires Backing(cfg, c) && Run(cfg, c, events, last)
    ensures Backing(cfg, last)
    decreases |events|
  {
    if events != [] {
      AfterBacking(cfg, c, events[0]);
      RunBacking(cfg, After(cfg, c, events[0]), events[1..], last);
    }
  }

  /**
   * In every run the attempts stay within the maximum, the n-th delay since the last connected state is
   * base * 2^(n-1), and their sum is at most base * (2^max - 1).
   */
  lemma BackoffIsBounded(cfg: Config, events: seq<Event>, c: Client, n: nat)
    requires cfg.maxAttempts >= 0 && Run(cfg, Idle, events, c)
    ensures 0 <= c.attempts <= cfg.maxAttempts && |c.delays| == c.attempts
    ensures n < |c.delays| ==> c.delays[n] == cfg.baseDelay * Pow2(n)
    ensures Sum(c.delays) <= cfg.baseDelay * (Pow2(cfg.maxAttempts) - 1)
  {
    RunBacking(cfg, Idle, events, c);
    BackoffSum(cfg, c.attempts);
    Pow2Grows(c.attempts, cfg.maxAttempts);
    var b, p, q := cfg.baseDelay, Pow2(c.attempts) - 1, Pow2(cfg.maxAttempts) - 1;
    assert b * p <= b * q;
    assert Backoff(cfg, 1) == Backoff(cfg, 0) + [cfg.baseDelay * Pow2(0)] == [cfg.baseDelay];
  }

  /**
   * The backoff never gets further than its first step: the count is reset by every connected message
   * and only a connected client attempts to reconnect. So no delay ever doubles, and "failed" is reached
   * only with a maximum of zero.
   */
  lemma NeverASecondAttempt(cfg: Config, events: seq<Event>, c: Client, s: nat)
    requires Run(cfg, Idle, events, c)
    ensures c.attempts <= 1 && forall t | t in c.timers :: c.timers[t] == cfg.baseDelay
    ensures cfg.maxAttempts > 0 && c.state != Failed ==> After(cfg, c, SocketClosed(s)).state != Failed
  {
    RunBacking(cfg, Idle, events, c);
  }

  /** A connection that is lost before it was connected is not tried again. */
  lemma FailedReconnectIsFinal(cfg: Config, c: Client, s: nat)
    requires c.state != Connected
    ensures var n := After(cfg, c, SocketClosed(s));
            n.state == Disconnected && n.timers == c.timers && n.made == c.made
  {
  }

  /** No event but a new connect. */
  predicate NoConnect(events: seq<Event>) {
    forall i | 0 <= i < |events| :: !events[i].Connect?
  }

  /**
   * After disconnect(), a fatal error or the server's disconnect: until a new connect() no reconnect is
   * scheduled and no socket is opened, not even by timers the client has lost track of.
   */
  lemma {:induction false} NoReconnectAfterwards(cfg: Config, c: Client, events: seq<Event>, last: Client)
    requires !c.shouldReconnect && NoConnect(events) && Run(cfg, c, events, last)
    ensures !last.shouldReconnect && last.made == c.made && last.sockets == c.sockets
    ensures last.timers.Keys <= c.timers.Keys
    decreases |events|
  {
    if events != [] {
      var n := After(cfg, c, events[0]);
      assert !n.shouldReconnect && n.made == c.made && n.sockets == c.sockets && n.timers.Keys <= c.timers.Keys;
      assert NoConnect(events[1..]) by {
        assert forall i | 0 <= i < |events| - 1 :: events[1..][i] == events[i + 1];
      }
      NoReconnectAfterwards(cfg, n, events[1..], last);
    }
  }

  lemma StopsReconnecting(cfg: Config, c: Client, s: nat)
    ensures !After(cfg, c, Disconnect).shouldReconnect
    ensures !After(cfg, c, ErrorMessage(s, true)).shouldReconnect
    ensures !After(cfg, c, DisconnectMessage(s)).shouldReconnect
  {
  }

  /** What the last connected message, close event or disconnect() of the run leaves behind. */
  function EndsConnected(up: bool, events: seq<Event>): bool
    decreases |events|
  {
    if events == [] then up
    else
      var now := match events[0]
        case ConnectedMessage(_) => true
        case SocketClosed(_) => false
        case Disconnect => false
        case _ => up;
      EndsConnected(now, events[1..])
  }

  lemma {:induction false} WithoutConnect(cfg: Config, c: Client, events: seq<Event>, last: Client)
    requires !c.shouldReconnect && c.socket == None && NoConnect(events) && Run(cfg, c, events, last)
    ensures last.state == Connected <==> EndsConnected(c.state == Connected, events)
    ensures last.socket == None
    decreases |events|
  {
    if events != [] {
      assert NoConnect(events[1..]) by {
        assert forall i | 0 <= i < |events| - 1 :: events[1..][i] == events[i + 1];
      }
      WithoutConnect(cfg, After(cfg, c, events[0]), events[1..], last);
    }
  }

  /**
   * disconnect() closes an open socket only and leaves the listeners in place. Whatever happened before:
   * after disconnect(), and until a new connect(), the client counts as connected again if and only if an
   * old socket's connected message arrived and no close event or disconnect() after it. It has no current
   * socket then.
   */
  lemma ConnectedAfterDisconnectIff(cfg: Config, c: Client, events: seq<Event>, last: Client)
    requires NoConnect(events) && Run(cfg, After(cfg, c, Disconnect), events, last)
    ensures last.state == Connected <==> EndsConnected(false, events)
    ensures last.socket == None
  {
    WithoutConnect(cfg, After(cfg, c, Disconnect), events, last);
  }

  // ---------------------------------------------------------------------------
  // Which socket closed
  // ---------------------------------------------------------------------------

  /**
   * The close listener does not ask: every close event, whichever socket it comes from, drops the current
   * socket, whatever that is.
   */
  lemma EveryCloseDropsTheCurrent(cfg: Config, c: Client, s: nat)
    requires CanHappen(c, SocketClosed(s))
    ensures After(cfg, c, SocketClosed(s)).socket == None
    ensures After(cfg, c, SocketClosed(s)).socket == c.socket <==> c.socket.None?
    ensures c.state == Connected && c.shouldReconnect && c.attempts < cfg.maxAttempts ==>
              After(cfg, c, SocketClosed(s)).state == Reconnecting && After(cfg, c, SocketClosed(s)).made == c.made + 1
  {
  }

  /** `e` may end the connection over `s`: its close event, or the user's disconnect. */
  predicate Ends(e: Event, s: nat) {
    e == Disconnect || e == SocketClosed(s)
  }

  /** The current socket is lost only to its own end. */
  predicate OwnEnd(cfg: Config, c: Client, e: Event) {
    c.socket.Some? && After(cfg, c, e).socket != c.socket ==> Ends(e, c.socket.value)
  }

  /** A close event comes from the current socket, or there is none. */
  predicate NotStale(c: Client, e: Event) {
    e.SocketClosed? ==> c.socket == None || c.socket == Some(e.s)
  }

  ghost predicate OwnEnds(cfg: Config, c: Client, events: seq<Event>)
    decreases |events|
  {
    events == [] || (OwnEnd(cfg, c, events[0]) && OwnEnds(cfg, After(cfg, c, events[0]), events[1..]))
  }

  ghost predicate NoStaleClose(cfg: Config, c: Client, events: seq<Event>)
    decreases |events|
  {
    events == [] || (NotStale(c, events[0]) && NoStaleClose(cfg, After(cfg, c, events[0]), events[1..]))
  }

  /** A client with a current socket is connecting or connected, so no new socket replaces it. */
  predicate Attached(c: Client) {
    c.socket.Some? ==> c.state == Connected || c.state == ConnState.Connecting
  }

  lemma OwnEndIff(cfg: Config, c: Client, e: Event)
    requires Attached(c) && CanHappen(c, e)
    ensures Attached(After(cfg, c, e))
    ensures OwnEnd(cfg, c, e) <==> NotStale(c, e)
  {
  }

  lemma {:induction false} OwnEndsIff(cfg: Config, c: Client, events: seq<Event>, last: Client)
    requires Attached(c) && Run(cfg, c, events, last)
    ensures OwnEnds(cfg, c, events) <==> NoStaleClose(cfg, c, events)
    decreases |events|
  {
    if events != [] {
      OwnEndIff(cfg, c, events[0]);
      OwnEndsIff(cfg, After(cfg, c, events[0]), events[1..], last);
    }
  }

  /**
   * In every run: a current socket is lost only by its own close event or by disconnect() if and only if
   * no close event of another socket arrives while there is a current one.
   */
  lemma CurrentSocketEndsByItselfIff(cfg: Config, events: seq<Event>, c: Client)
    requires Run(cfg, Idle, events, c)
    ensures OwnEnds(cfg, Idle, events) <==> NoStaleClose(cfg, Idle, events)
  {
    OwnEndsIff(cfg, Idle, events, c);
  }

  /** The late close event of an older socket costs a connected client its current socket. */
  lemma StaleCloseDropsTheNewSocket()
    ensures var cfg, events := Config(5, 1000),
                [Connect, ConnectedMessage(0), Disconnect, Connect, ConnectedMessage(1), SocketClosed(0)];
            exists c :: Run(cfg, Idle, events, c) && c.sockets == 2 && c.socket == None && c.state == Reconnecting
  {
    var cfg := Config(5, 1000);
    var c1 := After(cfg, Idle, Connect);
    var c2 := After(cfg, c1, ConnectedMessage(0));
    var c3 := After(cfg, c2, Disconnect);
    var c4 := After(cfg, c3, Connect);
    var c5 := After(cfg, c4, ConnectedMessage(1));
    var c6 := After(cfg, c5, SocketClosed(0));
    assert Run(cfg, c5, [SocketClosed(0)], c6);
    var e4 := [ConnectedMessage(1), SocketClosed(0)];
    assert e4[1..] == [SocketClosed(0)] && Run(cfg, c4, e4, c6);
    var e3 := [Connect] + e4;
    assert e3[1..] == e4 && Run(cfg, c3, e3, c6);
    var e2 := [Disconnect] + e3;
    assert e2[1..] == e3 && Run(cfg, c2, e2, c6);
    var e1 := [ConnectedMessage(0)] + e2;
    assert e1[1..] == e2 && Run(cfg, c1, e1, c6);
    var e0 := [Connect] + e1;
    assert e0[1..] == e1 && Run(cfg, Idle, e0, c6);
    assert e0 == [Connect, ConnectedMessage(0), Disconnect, Connect, ConnectedMessage(1), SocketClosed(0)];
  }
}
