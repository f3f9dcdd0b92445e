/** The agent SDK's connect and disconnect: one promise per attempt, one current socket. */
module AgentSdk {
  import opened Basics

  datatype Settlement = Established | Rejected

  /** One call of connect: its promise's settlements, and whether its timeout is still set. */
  datatype Attempt = Attempt(settled: bool, log: seq<Settlement>, timeoutSet: bool)

  /** `attempts[s]` belongs to socket `s`; `current` is wsConnection. */
  datatype Agent = Agent(current: Option<nat>, attempts: seq<Attempt>)

  datatype Event =
    | Connect | Disconnect
    | TimedOut(s: nat) | ConnectedMessage(s: nat) | EmptyConnectedMessage(s: nat) | FatalMessage(s: nat)
    | SocketClosed(s: nat) | SocketError(s: nat)

  predicate CanHappen(a: Agent, e: Event) {
    match e
    case Connect => true
    case Disconnect => true
    case TimedOut(s) => s < |a.attempts| && a.attempts[s].timeoutSet
    case ConnectedMessage(s) => s < |a.attempts|
    case EmptyConnectedMessage(s) => s < |a.attempts|
    case FatalMessage(s) => s < |a.attempts|
    case SocketClosed(s) => s < |a.attempts|
    case SocketError(s) => s < |a.attempts|
  }

  function Settle(t: Attempt, o: Settlement): Attempt {
    if t.settled then t else Attempt(true, t.log + [o], false)
  }

  /** A connected message without a payload: the flag and the timeout are gone, then the handler throws. */
  function Swallow(t: Attempt): Attempt {
    if t.settled then t else t.(settled := true, timeoutSet := false)
  }

  function Release(current: Option<nat>, s: nat): Option<nat> {
    if current == Some(s) then None else current
  }

  function After(a: Agent, e: Event): Agent
    requires CanHappen(a, e)
  {
    match e
    case Connect => if a.current.Some? then a else Agent(Some(|a.attempts|), a.attempts + [Attempt(false, [], true)])
    case Disconnect => a.(current := None)
    case TimedOut(s) => a.(attempts := a.attempts[s := Settle(a.attempts[s], Rejected).(timeoutSet := false)])
    case ConnectedMessage(s) => a.(attempts := a.attempts[s := Settle(a.attempts[s], Established)])
    case EmptyConnectedMessage(s) => a.(attempts := a.attempts[s := Swallow(a.attempts[s])])
    case FatalMessage(s) => a.(attempts := a.attempts[s := Settle(a.attempts[s], Rejected)])
    case SocketClosed(s) =>
      Agent(Release(a.current, s), a.attempts[s := Settle(a.attempts[s], Rejected).(timeoutSet := false)])
    case SocketError(s) =>
      Agent(if a.attempts[s].settled then a.current else Release(a.current, s),
            a.attempts[s := Settle(a.attempts[s], Rejected).(timeoutSet := false)])
  }

  class LivePortAgent {
    var wsConnection: Option<nat>
    var attempts: seq<Attempt>   // the closures' `settled` flags and timeouts, one per connect call

    ghost function View(): Agent
      reads this
    {
      Agent(wsConnection, attempts)
    }

    constructor ()
      ensures View() == Agent(None, [])
    {
      wsConnection, attempts := None, [];
    }

    /** Throws while there is a current socket, whatever its state. */
    method Connect() returns (socket: Option<nat>)
      modifies this
      ensures View() == After(old(View()), Event.Connect)
      ensures socket.None? <==> old(wsConnection).Some?
    {
      if wsConnection.Some? {
        return None;
      }
      socket := Some(|attempts|);
      wsConnection := socket;
      attempts := attempts + [Attempt(false, [], true)];
    }

    method Disconnect()
      modifies this
      ensures View() == After(old(View()), Event.Disconnect)
    {
      if wsConnection.Some? {
        wsConnection := None;
      }
    }

    method OnTimeout(s: nat)
      requires CanHappen(View(), TimedOut(s))
      modifies `attempts
      ensures View() == After(old(View()), TimedOut(s))
    {
      var t := attempts[s].(timeoutSet := false);
      if !t.settled {
        t := Attempt(true, t.log + [Rejected], false);
      }
      attempts := attempts[s := t];
    }

    /** `payload` says whether the message has one; what the handler throws without it is swallowed. */
    method OnMessage(s: nat, connected: bool, payload: bool)
      requires s < |attempts| && (connected || payload)
      modifies `attempts
      ensures View() == After(old(View()), if !connected then FatalMessage(s)
                                           else if payload then ConnectedMessage(s) else EmptyConnectedMessage(s))
    {
      var t := attempts[s];
      if !t.settled {
        t := t.(timeoutSet := false, settled := true);
        if payload {
          t := t.(log := t.log + [if connected then Established else Rejected]);
        }
      }
      attempts := attempts[s := t];
    }

    method OnClose(s: nat)
      requires s < |attempts|
      modifies this
      ensures View() == After(old(View()), SocketClosed(s))
    {
      var t := attempts[s].(timeoutSet := false);
      if !t.settled {
        t := t.(settled := true, log := t.log + [Rejected]);
      }
      attempts := attempts[s := t];
      if wsConnection == Some(s) {
        wsConnection := None;
      }
    }

    method OnError(s: nat)
      requires s < |attempts|
      modifies this
      ensures View() == After(old(View()), SocketError(s))
    {
      var t := attempts[s].(timeoutSet := false);
      if !t.settled {
        t := t.(settled := true, log := t.log + [Rejected]);
        if wsConnection == Some(s) {
          wsConnection := None;
        }
      }
      attempts := attempts[s := t];
    }
  }

  ghost predicate Run(a: Agent, events: seq<Event>, last: Agent)
    decreases |events|
  {
    if events == [] then a == last
    else CanHappen(a, events[0]) && Run(After(a, events[0]), events[1..], last)
  }

  /** The promise has been settled at most once; an unsettled one still has its timeout, or hangs. */
  ghost predicate Sound(a: Agent) {
    && (a.current.Some? ==> a.current.value < |a.attempts|)
    && forall s | 0 <= s < |a.attempts| ::
         && |a.attempts[s].log| <= (if a.attempts[s].settled then 1 else 0)
         && (a.attempts[s].timeoutSet <==> !a.attempts[s].settled)
  }

  /** Neither settled nor ever going to be: the flag is set, the timeout is cleared, and nothing was called. */
  predicate Hangs(a: Agent, s: nat) {
    s < |a.attempts| && a.attempts[s].settled && a.attempts[s].log == []
  }

  /** A connected message without a payload arrives while the attempt is unsettled. */
  predicate Swallows(a: Agent, e: Event, s: nat) {
    e == EmptyConnectedMessage(s) && s < |a.attempts| && !a.attempts[s].settled
  }

  lemma AfterSound(a: Agent, e: Event, s: nat)
    requires Sound(a) && CanHappen(a, e)
    ensures Sound(After(a, e))
    ensures Hangs(After(a, e), s) <==> Hangs(a, s) || Swallows(a, e, s)
  {
  }

  ghost predicate EverSwallows(a: Agent, events: seq<Event>, s: nat)
    decreases |events|
  {
    events != [] && CanHappen(a, events[0])
    && (Swallows(a, events[0], s) || EverSwallows(After(a, events[0]), events[1..], s))
  }

  lemma {:induction false} RunSound(a: Agent, events: seq<Event>, last: Agent, s: nat)
    requires Sound(a) && Run(a, events, last)
    ensures Sound(last)
    ensures Hangs(last, s) <==> Hangs(a, s) || EverSwallows(a, events, s)
    decreases |events|
  {
    if events != [] {
      AfterSound(a, events[0], s);
      RunSound(After(a, events[0]), events[1..], last, s);
    }
  }

  /**
   * In every run each connect() settles at most once. It has settled exactly if its timeout is not set any
   * more, unless a connected message without a payload arrived while it was unsettled: then, and only then,
   * its timeout is cleared and it has not settled.
   */
  lemma ConnectSettlesOnce(events: seq<Event>, a: Agent, s: nat)
    requires Run(Agent(None, []), events, a) && s < |a.attempts|
    ensures |a.attempts[s].log| <= 1
    ensures (a.attempts[s].log == [] <==> a.attempts[s].timeoutSet) <==> !EverSwallows(Agent(None, []), events, s)
  {
    RunSound(Agent(None, []), events, a, s);
  }

  /** Such a promise never settles: in every continuation it hangs. */
  lemma HangsForGood(events: seq<Event>, a: Agent, later: seq<Event>, last: Agent, s: nat)
    requires Run(Agent(None, []), events, a) && EverSwallows(Agent(None, []), events, s) && Run(a, later, last)
    ensures Hangs(last, s)
  {
    RunSound(Agent(None, []), events, a, s);
    RunSound(a, later, last, s);
  }

  /** The events that end the connection over socket `s`. */
  predicate Ends(e: Event, s: nat) {
    e == Event.Disconnect || e == SocketClosed(s) || e == SocketError(s)
  }

  /** Events of other sockets, however late, leave a connection alone; only its own end it. */
  lemma {:induction false} OldSocketsDoNotInterfere(a: Agent, events: seq<Event>, last: Agent, s: nat)
    requires Run(a, events, last) && a.current == Some(s)
    requires forall i | 0 <= i < |events| :: !Ends(events[i], s)
    ensures last.current == Some(s)
    decreases |events|
  {
    if events != [] {
      assert !Ends(events[0], s);
      forall i | 0 <= i < |events| - 1 ensures !Ends(events[1..][i], s) {
        assert !Ends(events[i + 1], s);
      }
      OldSocketsDoNotInterfere(After(a, events[0]), events[1..], last, s);
    }
  }

  /** A socket that was let go never becomes the current one again: connections use new sockets. */
  lemma {:induction false} CurrentIsNew(a: Agent, events: seq<Event>, last: Agent, s: nat)
    requires Run(a, events, last) && s < |a.attempts| && a.current != Some(s)
    ensures last.current != Some(s) && |a.attempts| <= |last.attempts|
    decreases |events|
  {
    if events != [] {
      CurrentIsNew(After(a, events[0]), events[1..], last, s);
    }
  }
}
