/**
 * The MCP server's session state: active tunnels and connects in flight per port, changed by tool calls
 * whose awaits interleave. One step is the code between two awaits.
 */
module McpSession {
  import opened Basics

  /** An entry is created together with its agent, so the agent names it. */
  datatype Entry = Entry(agent: nat, tunnelId: string, expiresAt: int)

  /**
   * Code that will run once an agent's disconnect is done: it removes the entry it saw before, from the
   * active tunnels or from the connects in flight.
   */
  datatype Cleanup = ActiveCleanup(port: nat, agent: nat) | InFlightCleanup(port: nat, agent: nat)

  /**
   * DisconnectProbed is a disconnect by tunnel id that found its agent among the connects in flight and
   * waited for that connect: it has finished by then.
   *
   * `connecting` holds the port of every connect whose promise chain has not finished, `cleanups` the
   * continuations waiting for a disconnect, `disconnected` the agents told to disconnect.
   */
  datatype Session = Session(
    active: map<nat, Entry>, inFlight: map<nat, nat>, shutdown: bool,
    connecting: map<nat, nat>, cleanups: set<Cleanup>, disconnected: set<nat>, agents: nat)

  const Fresh := Session(map[], map[], false, map[], {}, {}, 0)

  datatype Step =
    | Prune(now: int)
    | StartConnect(port: nat)
    | ConnectResolves(agent: nat, tunnelId: string, expiresAt: int)
    | ConnectSettles(agent: nat)
    | DisconnectActive(port: nat)
    | DisconnectInFlight(port: nat)
    | DisconnectProbed(port: nat, agent: nat)
    | CleanupRuns(c: Cleanup)
    | Shutdown

  predicate CanStep(s: Session, step: Step) {
    match step
    case ConnectResolves(agent, _, _) => agent in s.connecting
    case ConnectSettles(agent) => agent in s.connecting
    case DisconnectActive(port) => port in s.active
    case DisconnectInFlight(port) => port in s.inFlight && port !in s.active
    case DisconnectProbed(_, agent) => agent < s.agents && agent !in s.connecting
    case CleanupRuns(c) => c in s.cleanups
    case _ => true
  }

  function Stale(active: map<nat, Entry>, now: int): set<nat> {
    set p | p in active && active[p].expiresAt <= now
  }

  function Next(s: Session, step: Step): Session
    requires CanStep(s, step)
  {
    match step
    case Prune(now) => Pruned(s, now)
    case StartConnect(port) =>
      s.(inFlight := s.inFlight[port := s.agents], connecting := s.connecting[s.agents := port], agents := s.agents + 1)
    case ConnectResolves(agent, tunnelId, expiresAt) => Resolved(s, agent, tunnelId, expiresAt)
    case ConnectSettles(agent) =>
      var port := s.connecting[agent];
      s.(inFlight := if port in s.inFlight && s.inFlight[port] == agent then s.inFlight - {port} else s.inFlight,
         connecting := s.connecting - {agent})
    case DisconnectActive(port) =>
      s.(cleanups := s.cleanups + {ActiveCleanup(port, s.active[port].agent)},
         disconnected := s.disconnected + {s.active[port].agent})
    case DisconnectInFlight(port) =>
      s.(cleanups := s.cleanups + {InFlightCleanup(port, s.inFlight[port])},
         disconnected := s.disconnected + {s.inFlight[port]})
    case DisconnectProbed(port, agent) =>
      s.(cleanups := s.cleanups + {InFlightCleanup(port, agent)}, disconnected := s.disconnected + {agent})
    case CleanupRuns(c) => Cleaned(s.(cleanups := s.cleanups - {c}), c)
    case Shutdown => ShutDown(s)
  }

  /** The stale entries are read and their agents told to disconnect, before the await. */
  function Pruned(s: Session, now: int): Session {
    s.(cleanups := s.cleanups + (set p | p in Stale(s.active, now) :: ActiveCleanup(p, s.active[p].agent)),
       disconnected := s.disconnected + (set p | p in Stale(s.active, now) :: s.active[p].agent))
  }

  /** The flag and the map are looked at without an await in between. */
  function Resolved(s: Session, agent: nat, tunnelId: string, expiresAt: int): Session
    requires agent in s.connecting
  {
    if s.shutdown then s.(disconnected := s.disconnected + {agent})
    else s.(active := s.active[s.connecting[agent] := Entry(agent, tunnelId, expiresAt)])
  }

  function Cleaned(s: Session, c: Cleanup): Session {
    match c
    case ActiveCleanup(port, agent) =>
      if port in s.active && s.active[port].agent == agent then s.(active := s.active - {port}) else s
    case InFlightCleanup(port, agent) =>
      if port in s.inFlight && s.inFlight[port] == agent then s.(inFlight := s.inFlight - {port}) else s
  }

  function ShutDown(s: Session): Session {
    if s.shutdown then s
    else s.(shutdown := true,
            disconnected := s.disconnected + s.inFlight.Values + (set p | p in s.active :: s.active[p].agent))
  }

  /** The module variables, and the code between the awaits. */
  class McpServer {
    var activeTunnels: map<nat, Entry>
    var inFlightConnects: map<nat, nat>
    var shutdownInProgress: bool

    // The promises under way.
    var connecting: map<nat, nat>
    var cleanups: set<Cleanup>
    var disconnected: set<nat>
    var agents: nat

    ghost function View(): Session
      reads this
    {
      Session(activeTunnels, inFlightConnects, shutdownInProgress, connecting, cleanups, disconnected, agents)
    }

    constructor ()
      ensures View() == Fresh
    {
      activeTunnels, inFlightConnects, shutdownInProgress := map[], map[], false;
      connecting, cleanups, disconnected, agents := map[], {}, {}, 0;
    }

    /** Collects the stale ports, then starts one disconnect per port. */
    method PruneExpiredTunnels(now: int)
      modifies `cleanups, `disconnected
      ensures View() == Next(old(View()), Prune(now))
    {
      var left := activeTunnels.Keys;
      ghost var done := {};
      while left != {}
        invariant left <= activeTunnels.Keys && done == activeTunnels.Keys - left
        invariant cleanups == old(cleanups)
                    + (set p | p in done && activeTunnels[p].expiresAt <= now ::
                         ActiveCleanup(p, activeTunnels[p].agent))
        invariant disconnected == old(disconnected)
                    + (set p | p in done && activeTunnels[p].expiresAt <= now :: activeTunnels[p].agent)
      {
        var port :| port in left;
        left := left - {port};
        if activeTunnels[port].expiresAt <= now {
          cleanups := cleanups + {ActiveCleanup(port, activeTunnels[port].agent)};
          disconnected := disconnected + {activeTunnels[port].agent};
        }
        done := done + {port};
      }
    }

    method StartConnect(port: nat)
      modifies this
      ensures View() == Next(old(View()), Step.StartConnect(port))
    {
      var agent := agents;
      agents := agents + 1;
      connecting := connecting[agent := port];
      inFlightConnects := inFlightConnects[port := agent];
    }

    method OnConnected(agent: nat, tunnelId: string, expiresAt: int)
      requires agent in connecting
      modifies this
      ensures View() == Next(old(View()), ConnectResolves(agent, tunnelId, expiresAt))
    {
      if shutdownInProgress {
        disconnected := disconnected + {agent};
        return;
      }
      activeTunnels := activeTunnels[connecting[agent] := Entry(agent, tunnelId, expiresAt)];
    }

    /** The finally handler of a connect. */
    method OnSettled(agent: nat)
      requires agent in connecting
      modifies this
      ensures View() == Next(old(View()), ConnectSettles(agent))
    {
      var port := connecting[agent];
      if port in inFlightConnects && inFlightConnects[port] == agent {
        inFlightConnects := inFlightConnects - {port};
      }
      connecting := connecting - {agent};
    }

    /** After `await entry.agent.disconnect()`. */
    method AfterDisconnect(c: Cleanup)
      requires c in cleanups
      modifies this
      ensures View() == Next(old(View()), CleanupRuns(c))
    {
      cleanups := cleanups - {c};
      match c
      case ActiveCleanup(port, agent) =>
        if port in activeTunnels && activeTunnels[port].agent == agent {
          activeTunnels := activeTunnels - {port};
        }
      case InFlightCleanup(port, agent) =>
        if port in inFlightConnects && inFlightConnects[port] == agent {
          inFlightConnects := inFlightConnects - {port};
        }
    }
  }

  // ---------------------------------------------------------------------------
  // Runs
  // ---------------------------------------------------------------------------

  ghost predicate Run(s: Session, steps: seq<Step>, last: Session)
    decreases |steps|
  {
    if steps == [] then s == last
    else CanStep(s, steps[0]) && Run(Next(s, steps[0]), steps[1..], last)
  }

  /** Steps that may take the entry of `agent` off `port`: its own cleanup, or a newer connect. */
  predicate Replaces(s: Session, step: Step, port: nat, agent: nat) {
    || step == CleanupRuns(ActiveCleanup(port, agent))
    || (step.ConnectResolves? && step.agent in s.connecting && s.connecting[step.agent] == port)
  }

  ghost predicate Undisturbed(s: Session, steps: seq<Step>, port: nat, agent: nat)
    decreases |steps|
  {
    steps == [] || (CanStep(s, steps[0]) && !Replaces(s, steps[0], port, agent)
                    && Undisturbed(Next(s, steps[0]), steps[1..], port, agent))
  }

  /** No cleanup of an older entry, and nothing else but those, removes an entry. */
  lemma {:induction false} EntryStays(s: Session, steps: seq<Step>, last: Session, port: nat)
    requires Run(s, steps, last) && port in s.active && Undisturbed(s, steps, port, s.active[port].agent)
    ensures port in last.active && last.active[port] == s.active[port]
    decreases |steps|
  {
    if steps != [] {
      EntryStays(Next(s, steps[0]), steps[1..], last, port);
    }
  }

  /** Once shutdown has begun the active tunnels gain no entry. */
  lemma {:induction false} NothingNewAfterShutdown(s: Session, steps: seq<Step>, last: Session, port: nat)
    requires s.shutdown && Run(s, steps, last) && port in last.active
    ensures last.shutdown && port in s.active && last.active[port] == s.active[port]
    decreases |steps|
  {
    if steps != [] {
      NothingNewAfterShutdown(Next(s, steps[0]), steps[1..], last, port);
    }
  }

  /**
   * A connect in flight is one whose promise chain has not finished, on its own port; a cleanup waits
   * only for an agent that was told to disconnect; and agents are never reused.
   */
  ghost predicate Sound(s: Session) {
    && (forall p | p in s.inFlight :: s.inFlight[p] in s.connecting && s.connecting[s.inFlight[p]] == p)
    && (forall c | c in s.cleanups :: c.agent in s.disconnected)
    && (forall a | a in s.connecting :: a < s.agents)
    && (forall p | p in s.active :: s.active[p].agent < s.agents)
    && (forall c | c in s.cleanups :: c.agent < s.agents)
    && (forall p, a | p in s.active && a in s.connecting && s.active[p].agent == a :: s.connecting[a] == p)
    && (forall p, q | p in s.active && q in s.active && s.active[p].agent == s.active[q].agent :: p == q)
  }

  lemma PrunedSound(s: Session, now: int)
    requires Sound(s)
    ensures Sound(Pruned(s, now))
  {
  }

  lemma ConnectStepSound(s: Session, step: Step)
    requires Sound(s) && CanStep(s, step) && (step.StartConnect? || step.ConnectResolves? || step.ConnectSettles?)
    ensures Sound(Next(s, step))
  {
  }

  lemma DisconnectStepSound(s: Session, step: Step)
    requires Sound(s) && CanStep(s, step)
              && (step.DisconnectActive? || step.DisconnectInFlight? || step.DisconnectProbed?)
    ensures Sound(Next(s, step))
  {
  }

  lemma CleanedSound(s: Session, c: Cleanup)
    requires Sound(s)
    ensures Sound(Cleaned(s, c))
  {
  }

  lemma CleanupRunsSound(s: Session, c: Cleanup)
    requires Sound(s) && c in s.cleanups
    ensures Sound(Next(s, CleanupRuns(c)))
  {
    CleanedSound(s.(cleanups := s.cleanups - {c}), c);
  }

  lemma ShutDownSound(s: Session)
    requires Sound(s)
    ensures Sound(ShutDown(s))
  {
  }

  lemma StepSound(s: Session, step: Step)
    requires Sound(s) && CanStep(s, step)
    ensures Sound(Next(s, step))
  {
    match step
    case Prune(now) => PrunedSound(s, now);
    case StartConnect(_) => ConnectStepSound(s, step);
    case ConnectResolves(_, _, _) => ConnectStepSound(s, step);
    case ConnectSettles(_) => ConnectStepSound(s, step);
    case CleanupRuns(c) => CleanupRunsSound(s, c);
    case Shutdown => ShutDownSound(s);
    case _ => DisconnectStepSound(s, step);
  }

  lemma {:induction false} RunSound(s: Session, steps: seq<Step>, last: Session)
    requires Sound(s) && Run(s, steps, last)
    ensures Sound(last)
    decreases |steps|
  {
    if steps != [] {
      StepSound(s, steps[0]);
      RunSound(Next(s, steps[0]), steps[1..], last);
    }
  }

  /** In every run the table of connects in flight holds only connects that are still under way. */
  lemma InFlightIsUnderWay(steps: seq<Step>, s: Session, port: nat)
    requires Run(Fresh, steps, s) && port in s.inFlight
    ensures s.inFlight[port] in s.connecting && s.connecting[s.inFlight[port]] == port
  {
    RunSound(Fresh, steps, s);
  }

  /** An entry that a cleanup deletes had its agent disconnected before. */
  lemma DeletedMeansDisconnected(steps: seq<Step>, s: Session, c: Cleanup, port: nat)
    requires Run(Fresh, steps, s) && c in s.cleanups && port in s.active && port !in Next(s, CleanupRuns(c)).active
    ensures s.active[port].agent in s.disconnected && c == ActiveCleanup(port, s.active[port].agent)
  {
    RunSound(Fresh, steps, s);
  }

  // ---------------------------------------------------------------------------
  // Active entries of disconnected agents
  // ---------------------------------------------------------------------------

  /** The agent at `port` was not told to disconnect, or its entry is about to be removed for that. */
  predicate Usable(s: Session, port: nat)
    requires port in s.active
  {
    s.active[port].agent in s.disconnected ==> ActiveCleanup(port, s.active[port].agent) in s.cleanups
  }

  /** Until shutdown no active entry is a dead one. */
  predicate NoDeadEntry(s: Session) {
    s.shutdown || forall p | p in s.active :: Usable(s, p)
  }

  /**
   * No connect resolves for an agent that was told to disconnect meanwhile, and no disconnect by tunnel id
   * hits an agent whose entry is active by then.
   */
  predicate InTime(s: Session, step: Step) {
    s.shutdown ||
    match step
    case ConnectResolves(agent, _, _) =>
      agent in s.connecting && agent in s.disconnected ==> ActiveCleanup(s.connecting[agent], agent) in s.cleanups
    case DisconnectProbed(_, agent) => NotActive(s, agent)
    case _ => true
  }

  predicate NotActive(s: Session, agent: nat) {
    forall p | p in s.active && s.active[p].agent == agent :: ActiveCleanup(p, agent) in s.cleanups
  }

  lemma ProbedInTimeIff(s: Session, port: nat, agent: nat)
    requires NoDeadEntry(s) && CanStep(s, DisconnectProbed(port, agent))
    ensures NoDeadEntry(Next(s, DisconnectProbed(port, agent))) <==> InTime(s, DisconnectProbed(port, agent))
  {
    var n := Next(s, DisconnectProbed(port, agent));
    if !s.shutdown && !NotActive(s, agent) {
      var p :| p in s.active && s.active[p].agent == agent && ActiveCleanup(p, agent) !in s.cleanups;
      assert p in n.active && !Usable(n, p);
    } else if !s.shutdown {
      forall p | p in n.active ensures Usable(n, p) {
        assert Usable(s, p);
      }
    }
  }

  lemma ResolvesInTimeIff(s: Session, agent: nat, tunnelId: string, expiresAt: int)
    requires NoDeadEntry(s) && agent in s.connecting
    ensures NoDeadEntry(Resolved(s, agent, tunnelId, expiresAt))
            <==> InTime(s, ConnectResolves(agent, tunnelId, expiresAt))
  {
    var n, port := Resolved(s, agent, tunnelId, expiresAt), s.connecting[agent];
    if !s.shutdown {
      assert forall p | p in n.active && p != port :: Usable(s, p);
      assert Usable(n, port) <==> (agent in s.disconnected ==> ActiveCleanup(port, agent) in s.cleanups);
    }
  }

  lemma PrunedLeavesNoDead(s: Session, now: int)
    requires Sound(s) && NoDeadEntry(s)
    ensures NoDeadEntry(Pruned(s, now))
  {
    var n := Pruned(s, now);
    if !s.shutdown {
      forall p | p in n.active ensures Usable(n, p) {
        assert Usable(s, p);
      }
    }
  }

  lemma CleanedLeavesNoDead(s: Session, c: Cleanup)
    requires NoDeadEntry(s) && c in s.cleanups
    ensures NoDeadEntry(Next(s, CleanupRuns(c)))
  {
    var n := Next(s, CleanupRuns(c));
    if !s.shutdown {
      forall p | p in n.active ensures Usable(n, p) {
        assert Usable(s, p);
      }
    }
  }

  lemma DisconnectsLeaveNoDead(s: Session, step: Step)
    requires Sound(s) && NoDeadEntry(s) && CanStep(s, step) && (step.DisconnectActive? || step.DisconnectInFlight?)
    ensures NoDeadEntry(Next(s, step))
  {
    var n := Next(s, step);
    if !s.shutdown {
      forall p | p in n.active ensures Usable(n, p) {
        assert Usable(s, p);
      }
    }
  }

  lemma ConnectsLeaveNoDead(s: Session, step: Step)
    requires NoDeadEntry(s) && CanStep(s, step) && (step.StartConnect? || step.ConnectSettles? || step.Shutdown?)
    ensures NoDeadEntry(Next(s, step))
  {
    var n := Next(s, step);
    if !n.shutdown {
      forall p | p in n.active ensures Usable(n, p) {
        assert Usable(s, p);
      }
    }
  }

  lemma StepInTimeIff(s: Session, step: Step)
    requires Sound(s) && NoDeadEntry(s) && CanStep(s, step)
    ensures NoDeadEntry(Next(s, step)) <==> InTime(s, step)
  {
    match step
    case ConnectResolves(agent, tunnelId, expiresAt) => ResolvesInTimeIff(s, agent, tunnelId, expiresAt);
    case DisconnectProbed(port, agent) => ProbedInTimeIff(s, port, agent);
    case Prune(now) => PrunedLeavesNoDead(s, now);
    case CleanupRuns(c) => CleanedLeavesNoDead(s, c);
    case DisconnectActive(_) => DisconnectsLeaveNoDead(s, step);
    case DisconnectInFlight(_) => DisconnectsLeaveNoDead(s, step);
    case _ => ConnectsLeaveNoDead(s, step);
  }

  ghost predicate NeverDead(s: Session, steps: seq<Step>)
    decreases |steps|
  {
    NoDeadEntry(s) && (steps == [] || (CanStep(s, steps[0]) && NeverDead(Next(s, steps[0]), steps[1..])))
  }

  ghost predicate AllInTime(s: Session, steps: seq<Step>)
    decreases |steps|
  {
    steps == [] || (CanStep(s, steps[0]) && InTime(s, steps[0]) && AllInTime(Next(s, steps[0]), steps[1..]))
  }

  lemma {:induction false} NeverDeadIff(s: Session, steps: seq<Step>, last: Session)
    requires Sound(s) && NoDeadEntry(s) && Run(s, steps, last)
    ensures NeverDead(s, steps) <==> AllInTime(s, steps)
    decreases |steps|
  {
    if steps != [] {
      StepInTimeIff(s, steps[0]);
      if InTime(s, steps[0]) {
        StepSound(s, steps[0]);
        NeverDeadIff(Next(s, steps[0]), steps[1..], last);
      }
    }
  }

  /**
   * In every run, until shutdown: at every moment each active entry has an agent that was not told to
   * disconnect, or is about to be removed, if and only if no connect resolves after its agent was told to
   * disconnect and no disconnect by tunnel id awaited a connect whose entry is active by then.
   */
  lemma NoDeadEntriesIff(steps: seq<Step>, s: Session)
    requires Run(Fresh, steps, s)
    ensures NeverDead(Fresh, steps) <==> AllInTime(Fresh, steps)
  {
    NeverDeadIff(Fresh, steps, s);
  }

  lemma Then(s: Session, step: Step, steps: seq<Step>, last: Session)
    requires CanStep(s, step) && Run(Next(s, step), steps, last)
    ensures Run(s, [step] + steps, last)
  {
    assert ([step] + steps)[1..] == steps;
  }

  /** A pending connect is told to disconnect, resolves all the same, and is listed as active from then on. */
  lemma DisconnectedButActive() returns (steps: seq<Step>, s: Session)
    ensures Run(Fresh, steps, s)
    ensures 80 in s.active && s.active[80].agent in s.disconnected && ActiveCleanup(80, 0) !in s.cleanups
  {
    var s1 := Next(Fresh, Step.StartConnect(80));
    var s2 := Next(s1, DisconnectInFlight(80));
    s := Next(s2, ConnectResolves(0, "t", 10));
    Then(s2, ConnectResolves(0, "t", 10), [], s);
    Then(s1, DisconnectInFlight(80), [ConnectResolves(0, "t", 10)] + [], s);
    steps := [Step.StartConnect(80)] + ([DisconnectInFlight(80)] + ([ConnectResolves(0, "t", 10)] + []));
    Then(Fresh, Step.StartConnect(80), steps[1..], s);
  }

  /** A disconnect by tunnel id waits for the pending connect, and so disconnects an agent that stays listed. */
  lemma ProbedStaysListed() returns (steps: seq<Step>, s: Session)
    ensures Run(Fresh, steps, s)
    ensures 80 in s.active && s.active[80].agent in s.disconnected && ActiveCleanup(80, 0) !in s.cleanups
  {
    var s1 := Next(Fresh, Step.StartConnect(80));
    var s2 := Next(s1, ConnectResolves(0, "t", 10));
    var s3 := Next(s2, ConnectSettles(0));
    s := Next(s3, DisconnectProbed(80, 0));
    var d := [DisconnectProbed(80, 0)] + [];
    Then(s3, DisconnectProbed(80, 0), [], s);
    Then(s2, ConnectSettles(0), d, s);
    Then(s1, ConnectResolves(0, "t", 10), [ConnectSettles(0)] + d, s);
    steps := [Step.StartConnect(80)] + ([ConnectResolves(0, "t", 10)] + ([ConnectSettles(0)] + d));
    Then(Fresh, Step.StartConnect(80), steps[1..], s);
  }
}
