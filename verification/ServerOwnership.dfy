/**
 * Three promises that an await can break, each with the exact step that breaks it: connected tunnels stay
 * registered, pending requests belong to registered tunnels, and counters equal what was carried.
 */
module ServerOwnership {
  import opened Basics
  import opened Subdomains
  import opened Registry
  import opened ServerRuns
  import opened ServerInvariants
  import opened ServerGuarantees

  // ---------------------------------------------------------------------------
  // Properties of all moments and guards of all steps of a run
  // ---------------------------------------------------------------------------

  ghost predicate Throughout(c: Config, st: Server, steps: seq<Step>, p: Server -> bool)
    decreases |steps|
  {
    p(st) && (steps == [] || (CanStep(c, st, steps[0]) && Throughout(c, Next(c, st, steps[0]), steps[1..], p)))
  }

  ghost predicate EveryStep(c: Config, st: Server, steps: seq<Step>, g: (Server, Step) -> bool)
    decreases |steps|
  {
    steps == [] || (CanStep(c, st, steps[0]) && g(st, steps[0]) && EveryStep(c, Next(c, st, steps[0]), steps[1..], g))
  }

  /** Ids of requests and sockets name the session's tunnel whose id they carry. */
  ghost predicate ViaNames(via: map<string, Carrier>, ss: map<nat, Session>) {
    forall id, x | id in via && x in ss && Accepted(ss[x].phase) && ss[x].tid == via[id].tid :: ss[x].sub == via[id].sub
  }

  ghost predicate Sane(c: Config, st: Server) {
    Base(c, st) && ViaNames(st.via, st.sessions)
  }

  /** `p` is kept by a step exactly if the step meets `g`; then that is so for whole runs. */
  lemma {:induction false} AlwaysIff(c: Config, st: Server, steps: seq<Step>, last: Server,
                                     p: Server -> bool, g: (Server, Step) -> bool)
    requires Sane(c, st) && p(st) && Reaches(c, st, steps, last)
    requires forall s, e | Sane(c, s) && p(s) && CanStep(c, s, e) :: p(Next(c, s, e)) <==> g(s, e)
    ensures Throughout(c, st, steps, p) <==> EveryStep(c, st, steps, g)
    ensures Throughout(c, st, steps, p) ==> p(last)
    decreases |steps|
  {
    if steps != [] && g(st, steps[0]) {
      StepSane(c, st, steps[0]);
      AlwaysIff(c, Next(c, st, steps[0]), steps[1..], last, p, g);
    }
  }

  lemma BootSane(c: Config)
    ensures Sane(c, Boot)
  {
    BootBase(c);
  }

  // ---------------------------------------------------------------------------
  // Names behind ids
  // ---------------------------------------------------------------------------

  lemma MovedNames(via: map<string, Carrier>, ss: map<nat, Session>, x: nat, s: Session)
    requires ViaNames(via, ss)
    requires Accepted(s.phase) ==> x in ss && Accepted(ss[x].phase) && s.tid == ss[x].tid && s.sub == ss[x].sub
    ensures ViaNames(via, ss[x := s])
  {
  }

  lemma AcceptedNames(via: map<string, Carrier>, ss: map<nat, Session>, ids: set<string>, x: nat, s: Session)
    requires ViaNames(via, ss) && ViaIds(via, ids) && s.tid !in ids
    ensures ViaNames(via, ss[x := s])
  {
  }

  /** A new id whose carrier is an accepted session's tunnel. */
  lemma SentNames(via: map<string, Carrier>, ss: map<nat, Session>, ids: set<string>, x: nat, id: string)
    requires ViaNames(via, ss) && TunnelIds(ss, ids) && x in ss && Accepted(ss[x].phase)
    ensures ViaNames(via[id := Carrier(ss[x].sub, ss[x].tid)], ss)
  {
  }

  lemma ClosingNames(via: map<string, Carrier>, ss: map<nat, Session>, x: nat)
    requires ViaNames(via, ss)
    ensures ViaNames(via, ClosingSock(ss, x))
  {
    if x in ss && ss[x].sock == Open {
      MovedNames(via, ss, x, ss[x].(sock := Closing));
    }
  }

  lemma RefusedNames(st: Server, x: nat, p: Phase)
    requires ViaNames(st.via, st.sessions) && x in st.sessions && !Accepted(p)
    ensures ViaNames(st.via, Refused(st, x, p).sessions)
  {
    MovedNames(st.via, st.sessions, x, st.sessions[x].(phase := p));
    ClosingNames(st.via, WithPhase(st.sessions, x, p), x);
  }

  lemma DecidedNames(c: Config, st: Server, x: nat, free: bool, tid: string, name: Option<string>, now: int,
                     expiresAt: int)
    requires ViaNames(st.via, st.sessions) && ViaIds(st.via, st.ids) && x in st.sessions && tid !in st.ids
    ensures ViaNames(st.via, Decided(c, st, x, free, tid, name, now, expiresAt).sessions)
  {
    RefusedNames(st, x, RefusedLate);
    if name.Some? {
      AcceptedNames(st.via, st.sessions, st.ids, x, st.sessions[x].(phase := Serving, sub := name.value, tid := tid));
    }
  }

  lemma AdmissionStepNames(c: Config, st: Server, step: Step)
    requires ViaNames(st.via, st.sessions) && ViaIds(st.via, st.ids) && CanStep(c, st, step) && OfAdmission(step)
    ensures ViaNames(st.via, Next(c, st, step).sessions)
  {
    match step
    case Arrive(x, key) => MovedNames(st.via, st.sessions, x, Session(key, Open, Arriving, "", ""));
    case Refuse(x) => RefusedNames(st, x, RefusedEarly);
    case Count(x) =>
      RefusedNames(st, x, RefusedEarly);
      MovedNames(st.via, st.sessions, x, st.sessions[x].(phase := Counted));
    case TierLookupFails(x) => RefusedNames(st, x, RefusedLate);
    case Decide(x, free, tid, name, now, expiresAt) => DecidedNames(c, st, x, free, tid, name, now, expiresAt);
  }

  lemma ServingStepNames(c: Config, st: Server, step: Step)
    requires ViaNames(st.via, st.sessions) && CanStep(c, st, step) && OfSession(step) && !OfAdmission(step)
    ensures ViaNames(st.via, Next(c, st, step).sessions)
  {
    match step
    case SockClosing(x) => ClosingNames(st.via, st.sessions, x);
    case SockClosed(x) => MovedNames(st.via, st.sessions, x, CloseEvent(st, x).sessions[x]);
    case FinalizeWrite(x, ok) => MovedNames(st.via, st.sessions, x, st.sessions[x].(phase := Resuming));
    case Resume(x) => MovedNames(st.via, st.sessions, x, st.sessions[x].(phase := Owing));
    case Decrement(x) => MovedNames(st.via, st.sessions, x, st.sessions[x].(phase := Done));
  }

  lemma AdmissionStepVia(c: Config, st: Server, step: Step)
    requires CanStep(c, st, step) && OfAdmission(step)
    ensures Next(c, st, step).via == st.via
  {
  }

  lemma ServingStepVia(c: Config, st: Server, step: Step)
    requires CanStep(c, st, step) && OfSession(step) && !OfAdmission(step)
    ensures Next(c, st, step).via == st.via
  {
  }

  lemma SessionStepVia(c: Config, st: Server, step: Step)
    requires CanStep(c, st, step) && OfSession(step)
    ensures Next(c, st, step).via == st.via
  {
    if OfAdmission(step) {
      AdmissionStepVia(c, st, step);
    } else {
      ServingStepVia(c, st, step);
    }
  }

  lemma SendNames(st: Server, id: string)
    requires ViaNames(st.via, st.sessions) && TunnelIds(st.sessions, st.ids) && ReadingThrough(st.reading, st.sessions)
    requires id in st.reading
    ensures ViaNames(Sent(st, id).via, Sent(st, id).sessions)
  {
    SentNames(st.via, st.sessions, st.ids, st.reading[id].session, id);
  }

  lemma AdmitNames(st: Server, id: string, sub: string)
    requires ViaNames(st.via, st.sessions) && TunnelIds(st.sessions, st.ids)
              && Registered(st.m.tunnels.bySub, st.sessions)
    ensures ViaNames(Admitted(st, id, sub).via, Admitted(st, id, sub).sessions)
    ensures ViaNames(Probed(st, id, sub).via, Probed(st, id, sub).sessions)
  {
    if sub in st.m.tunnels.bySub {
      SentNames(st.via, st.sessions, st.ids, st.m.tunnels.bySub[sub].socket, id);
    }
  }

  /** The steps that admit no id and decide no session leave both sides of the relation alone. */
  lemma QuietStepSame(c: Config, st: Server, step: Step)
    requires CanStep(c, st, step) && (OfForward(step) || OfSocket(step))
    requires !(step.ForwardSend? || step.Admit? || step.Probe?)
    ensures Next(c, st, step).via == st.via && Next(c, st, step).sessions == st.sessions
  {
  }

  lemma OtherStepNames(c: Config, st: Server, step: Step)
    requires ViaNames(st.via, st.sessions) && CanStep(c, st, step)
    requires !OfSession(step) && !OfForward(step) && !OfSocket(step)
    ensures ViaNames(Next(c, st, step).via, Next(c, st, step).sessions)
  {
    match step
    case ExpiryTick(sub, _) => ClosingNames(st.via, st.sessions, st.m.tunnels.bySub[sub].socket);
    case HeartbeatCheck(x, _) => ClosingNames(st.via, st.sessions, x);
    case _ =>
  }

  lemma StepNames(c: Config, st: Server, step: Step)
    requires Sane(c, st) && CanStep(c, st, step)
    ensures ViaNames(Next(c, st, step).via, Next(c, st, step).sessions)
  {
    if OfAdmission(step) {
      SessionStepVia(c, st, step);
      AdmissionStepNames(c, st, step);
    } else if OfSession(step) {
      SessionStepVia(c, st, step);
      ServingStepNames(c, st, step);
    } else if step.ForwardSend? {
      SendNames(st, step.id);
    } else if step.Admit? || step.Probe? {
      AdmitNames(st, step.id, step.sub);
    } else if OfForward(step) || OfSocket(step) {
      QuietStepSame(c, st, step);
    } else {
      OtherStepNames(c, st, step);
    }
  }

  lemma StepSane(c: Config, st: Server, step: Step)
    requires Sane(c, st) && CanStep(c, st, step)
    ensures Sane(c, Next(c, st, step))
  {
    StepKeeps(c, st, step);
    StepNames(c, st, step);
  }

  // ---------------------------------------------------------------------------
  // What steps do to the tunnel index
  // ---------------------------------------------------------------------------

  /** Records change, but not their bytes. */
  ghost predicate SameBytes(a: map<string, Tunnel>, b: map<string, Tunnel>) {
    SameTunnels(a, b) && forall s | s in a :: a[s].bytes == b[s].bytes
  }

  lemma PutSameBytes(bySub: map<string, Tunnel>, sub: string, t: Tunnel)
    requires sub in bySub && t.id == bySub[sub].id && t.keyId == bySub[sub].keyId
    requires t.socket == bySub[sub].socket && t.bytes == bySub[sub].bytes
    ensures SameBytes(bySub, bySub[sub := t])
  {
  }

  lemma NoBytesAdded(x: Index, sub: string, st: TunnelState, now: int, count: Option<int>)
    ensures SameBytes(x.bySub, SetState(x, sub, st).bySub)
    ensures SameBytes(x.bySub, Heartbeat(x, sub, now, count).bySub)
    ensures SameBytes(x.bySub, CountRequest(x, sub).bySub)
  {
    if sub in x.bySub {
      PutSameBytes(x.bySub, sub, SetState(x, sub, st).bySub[sub]);
      PutSameBytes(x.bySub, sub, Heartbeat(x, sub, now, count).bySub[sub]);
      PutSameBytes(x.bySub, sub, CountRequest(x, sub).bySub[sub]);
    }
  }

  lemma AddBytesSame(x: Index, sub: string, n: int)
    ensures SameTunnels(x.bySub, AddBytes(x, sub, n).bySub)
  {
  }

  /** The steps that count a request or bytes. */
  predicate Counts(step: Step) {
    step.ForwardSend? || step.Respond? || step.Frame?
  }

  lemma SentTunnels(st: Server, id: string)
    requires id in st.reading
    ensures SameTunnels(st.m.tunnels.bySub, Sent(st, id).m.tunnels.bySub)
  {
    NoBytesAdded(st.m.tunnels, st.reading[id].sub, Active, 0, None);
  }

  lemma RespondedTunnels(st: Server, id: string, bytes: int)
    ensures SameTunnels(st.m.tunnels.bySub, Responded(st, id, bytes).m.tunnels.bySub)
  {
    if id in st.via {
      AddBytesSame(st.m.tunnels, st.via[id].sub, bytes);
    }
  }

  lemma FrameTunnels(st: Server, id: string, bytes: int)
    ensures SameTunnels(st.m.tunnels.bySub, FrameRelayed(st, id, bytes).m.tunnels.bySub)
  {
    if id in st.m.sockets.open {
      AddBytesSame(st.m.tunnels, st.m.sockets.open[id].subdomain, bytes);
    }
  }

  lemma QuietForwardTunnels(c: Config, st: Server, step: Step)
    requires CanStep(c, st, step) && OfForward(step) && !Counts(step)
    ensures Next(c, st, step).m.tunnels == st.m.tunnels && Next(c, st, step).meters == st.meters
  {
  }

  lemma QuietSocketTunnels(c: Config, st: Server, step: Step)
    requires CanStep(c, st, step) && OfSocket(step) && !Counts(step)
    ensures Next(c, st, step).m.tunnels == st.m.tunnels && Next(c, st, step).meters == st.meters
  {
  }

  lemma QuietTrafficTunnels(c: Config, st: Server, step: Step)
    requires CanStep(c, st, step) && (OfForward(step) || OfSocket(step)) && !Counts(step)
    ensures Next(c, st, step).m.tunnels == st.m.tunnels
    ensures Next(c, st, step).meters.credits == st.meters.credits
  {
    if OfForward(step) {
      QuietForwardTunnels(c, st, step);
    } else {
      QuietSocketTunnels(c, st, step);
    }
  }

  lemma ForwardSessions(c: Config, st: Server, step: Step)
    requires CanStep(c, st, step) && OfForward(step)
    ensures Next(c, st, step).sessions == st.sessions
  {
  }

  lemma SocketSessions(c: Config, st: Server, step: Step)
    requires CanStep(c, st, step) && OfSocket(step)
    ensures Next(c, st, step).sessions == st.sessions
  {
  }

  lemma TrafficSessions(c: Config, st: Server, step: Step)
    requires CanStep(c, st, step) && (OfForward(step) || OfSocket(step))
    ensures Next(c, st, step).sessions == st.sessions
  {
    if OfForward(step) {
      ForwardSessions(c, st, step);
    } else {
      SocketSessions(c, st, step);
    }
  }

  /** Forwards and socket steps change counters only. */
  lemma TrafficTunnels(c: Config, st: Server, step: Step)
    requires CanStep(c, st, step) && (OfForward(step) || OfSocket(step))
    ensures Next(c, st, step).sessions == st.sessions
    ensures SameTunnels(st.m.tunnels.bySub, Next(c, st, step).m.tunnels.bySub)
  {
    TrafficSessions(c, st, step);
    if step.ForwardSend? {
      SentTunnels(st, step.id);
    } else if step.Respond? {
      RespondedTunnels(st, step.id, step.bytes);
    } else if step.Frame? {
      FrameTunnels(st, step.id, step.bytes);
    } else {
      QuietTrafficTunnels(c, st, step);
    }
  }

  /** A session step that neither registers nor unregisters leaves the manager alone. */
  lemma SessionStepManager(c: Config, st: Server, step: Step)
    requires CanStep(c, st, step) && OfSession(step) && !step.Decide? && !step.Resume?
    ensures Next(c, st, step).m == st.m
    ensures Next(c, st, step).meters.credits == st.meters.credits
  {
  }

  // ---------------------------------------------------------------------------
  // Connected tunnels stay registered
  // ---------------------------------------------------------------------------

  /** An accepted session whose control socket is not closed is registered under its name. */
  ghost predicate Live(bySub: map<string, Tunnel>, ss: map<nat, Session>) {
    forall x | x in ss && ss[x].phase == Serving && ss[x].sock != Closed ::
      ss[x].sub in bySub && bySub[ss[x].sub].socket == x
  }

  /**
   * What the close handler would have to check after its await: that its name is not in the hands of
   * another session whose client is still connected.
   */
  predicate NameStillMine(st: Server, x: nat)
    requires x in st.sessions
  {
    var sub := st.sessions[x].sub;
    sub in st.m.tunnels.bySub ==>
      var y := st.m.tunnels.bySub[sub].socket;
      y == x || y !in st.sessions || st.sessions[y].phase != Serving || st.sessions[y].sock == Closed
  }

  /** Resuming the close handler keeps every connected tunnel registered exactly under that condition. */
  lemma ResumeIsSafeIff(c: Config, st: Server, x: nat)
    requires Base(c, st) && Live(st.m.tunnels.bySub, st.sessions)
    requires x in st.sessions && st.sessions[x].phase == Resuming
    ensures Live(Resumed(st, x).m.tunnels.bySub, Resumed(st, x).sessions) <==> NameStillMine(st, x)
  {
    var sub := st.sessions[x].sub;
    UnregisterDrops(st.m, sub);
    if NameStillMine(st, x) {
      ResumeLive(st.m.tunnels.bySub, st.sessions, x, sub);
    } else {
      ResumeNotLive(st.m.tunnels.bySub, st.sessions, x, sub);
    }
  }

  lemma UnregisterDrops(m: Manager, sub: string)
    ensures Unregister(m, sub).tunnels.bySub == m.tunnels.bySub - {sub}
  {
  }

  lemma ResumeLive(bySub: map<string, Tunnel>, ss: map<nat, Session>, x: nat, sub: string)
    requires Live(bySub, ss) && Registered(bySub, ss) && x in ss && ss[x].sub == sub
    requires sub in bySub ==> var y := bySub[sub].socket; y == x || ss[y].phase != Serving || ss[y].sock == Closed
    ensures Live(bySub - {sub}, WithPhase(ss, x, Owing))
  {
  }

  lemma ResumeNotLive(bySub: map<string, Tunnel>, ss: map<nat, Session>, x: nat, sub: string)
    requires Registered(bySub, ss) && x in ss && sub in bySub
    requires var y := bySub[sub].socket; y != x && ss[y].phase == Serving && ss[y].sock != Closed
    ensures !Live(bySub - {sub}, WithPhase(ss, x, Owing))
  {
    var y := bySub[sub].socket;
    assert WithPhase(ss, x, Owing)[y] == ss[y];
  }

  /** A step that finds the name as the close event left it. */
  predicate NoReuse(st: Server, step: Step) {
    step.Resume? && step.x in st.sessions ==> NameStillMine(st, step.x)
  }

  ghost predicate LiveOf(st: Server) {
    Live(st.m.tunnels.bySub, st.sessions)
  }

  lemma MoveLive(bySub: map<string, Tunnel>, ss: map<nat, Session>, x: nat, s: Session)
    requires Live(bySub, ss)
    requires s.phase != Serving || s.sock == Closed
             || (x in ss && ss[x].phase == Serving && ss[x].sock != Closed && s.sub == ss[x].sub)
    ensures Live(bySub, ss[x := s])
  {
  }

  lemma AcceptLive(bySub: map<string, Tunnel>, ss: map<nat, Session>, x: nat, s: Session, t: Tunnel)
    requires Live(bySub, ss) && s.sub !in bySub && t.socket == x && x in ss && ss[x].phase == Counted
    ensures Live(bySub[s.sub := t], ss[x := s])
  {
  }

  lemma SameLive(a: map<string, Tunnel>, b: map<string, Tunnel>, ss: map<nat, Session>)
    requires Live(a, ss) && SameTunnels(a, b)
    ensures Live(b, ss)
  {
  }

  lemma ReapLive(bySub: map<string, Tunnel>, ss: map<nat, Session>, sub: string)
    requires Live(bySub, ss) && sub in bySub && bySub[sub].socket in ss && ss[bySub[sub].socket].sock == Closed
    ensures Live(bySub - {sub}, ss)
  {
  }

  lemma ClosingLive(bySub: map<string, Tunnel>, ss: map<nat, Session>, x: nat)
    requires Live(bySub, ss)
    ensures Live(bySub, ClosingSock(ss, x))
  {
    if x in ss && ss[x].sock == Open {
      MoveLive(bySub, ss, x, ss[x].(sock := Closing));
    }
  }

  lemma RefusedLive(bySub: map<string, Tunnel>, st: Server, x: nat, p: Phase)
    requires Live(bySub, st.sessions) && x in st.sessions && p != Serving
    ensures Live(bySub, Refused(st, x, p).sessions)
  {
    MoveLive(bySub, st.sessions, x, st.sessions[x].(phase := p));
    ClosingLive(bySub, WithPhase(st.sessions, x, p), x);
  }

  lemma DecidedLive(c: Config, st: Server, x: nat, free: bool, tid: string, name: Option<string>, now: int,
                    expiresAt: int)
    requires LiveOf(st) && x in st.sessions && st.sessions[x].phase == Counted
    requires name.Some? ==> name.value !in st.m.tunnels.bySub
    ensures LiveOf(Decided(c, st, x, free, tid, name, now, expiresAt))
  {
    RefusedLive(st.m.tunnels.bySub, st, x, RefusedLate);
    if name.Some? {
      AcceptLive(st.m.tunnels.bySub, st.sessions, x, st.sessions[x].(phase := Serving, sub := name.value, tid := tid),
                 Tunnel(tid, st.sessions[x].key, x, Active, now, 0, 0, Some(expiresAt)));
    }
  }

  lemma AdmissionStepLive(c: Config, st: Server, step: Step)
    requires LiveOf(st) && CanStep(c, st, step) && OfAdmission(step)
    ensures LiveOf(Next(c, st, step))
  {
    match step
    case Arrive(x, key) => MoveLive(st.m.tunnels.bySub, st.sessions, x, Session(key, Open, Arriving, "", ""));
    case Refuse(x) => RefusedLive(st.m.tunnels.bySub, st, x, RefusedEarly);
    case Count(x) =>
      RefusedLive(st.m.tunnels.bySub, st, x, RefusedEarly);
      MoveLive(st.m.tunnels.bySub, st.sessions, x, st.sessions[x].(phase := Counted));
    case TierLookupFails(x) => RefusedLive(st.m.tunnels.bySub, st, x, RefusedLate);
    case Decide(x, free, tid, name, now, expiresAt) => DecidedLive(c, st, x, free, tid, name, now, expiresAt);
  }

  lemma ServingStepLive(c: Config, st: Server, step: Step)
    requires LiveOf(st) && CanStep(c, st, step) && OfSession(step) && !OfAdmission(step) && !step.Resume?
    ensures LiveOf(Next(c, st, step))
  {
    SessionStepManager(c, st, step);
    match step
    case SockClosing(x) => ClosingLive(st.m.tunnels.bySub, st.sessions, x);
    case SockClosed(x) => MoveLive(st.m.tunnels.bySub, st.sessions, x, CloseEvent(st, x).sessions[x]);
    case FinalizeWrite(x, ok) => MoveLive(st.m.tunnels.bySub, st.sessions, x, st.sessions[x].(phase := Resuming));
    case Decrement(x) => MoveLive(st.m.tunnels.bySub, st.sessions, x, st.sessions[x].(phase := Done));
  }

  lemma ExpireLive(st: Server, sub: string)
    requires LiveOf(st) && sub in st.m.tunnels.bySub
    ensures LiveOf(Expire(st, sub))
  {
    var y := st.m.tunnels.bySub[sub].socket;
    ClosingLive(st.m.tunnels.bySub, st.sessions, y);
    if y in st.sessions && st.sessions[y].sock == Closed {
      UnregisterDrops(st.m, sub);
      ReapLive(st.m.tunnels.bySub, st.sessions, sub);
    }
  }

  lemma HeartbeatLive(c: Config, st: Server, x: nat, now: int, count: Option<int>)
    requires LiveOf(st) && x in st.sessions
    ensures LiveOf(CheckHeartbeat(c, st, x, now))
    ensures Live(Heartbeat(st.m.tunnels, st.sessions[x].sub, now, count).bySub, st.sessions)
  {
    var sub := st.sessions[x].sub;
    NoBytesAdded(st.m.tunnels, sub, HeartbeatLost, now, count);
    SameLive(st.m.tunnels.bySub, Heartbeat(st.m.tunnels, sub, now, count).bySub, st.sessions);
    SameLive(st.m.tunnels.bySub, SetState(st.m.tunnels, sub, HeartbeatLost).bySub, st.sessions);
    ClosingLive(SetState(st.m.tunnels, sub, HeartbeatLost).bySub, st.sessions, x);
  }

  /** A step keeps every connected tunnel registered exactly if it is no resumption on a reused name. */
  lemma StepLiveIff(c: Config, st: Server, step: Step)
    requires Base(c, st) && LiveOf(st) && CanStep(c, st, step)
    ensures LiveOf(Next(c, st, step)) <==> NoReuse(st, step)
  {
    if OfAdmission(step) {
      AdmissionStepLive(c, st, step);
    } else if step.Resume? {
      ResumeIsSafeIff(c, st, step.x);
    } else if OfSession(step) {
      ServingStepLive(c, st, step);
    } else if OfForward(step) || OfSocket(step) {
      TrafficTunnels(c, st, step);
      SameLive(st.m.tunnels.bySub, Next(c, st, step).m.tunnels.bySub, st.sessions);
    } else {
      match step
      case ExpiryTick(sub, _) => ExpireLive(st, sub);
      case HeartbeatCheck(x, now) => HeartbeatLive(c, st, x, now, None);
      case HeartbeatSeen(x, now, count) => HeartbeatLive(c, st, x, now, count);
      case SyncWrite(_, _) =>
    }
  }

  /**
   * In every run: each connected tunnel is registered under its name at every moment if and only if every
   * close handler that resumes finds its name still its own.
   */
  lemma ConnectedTunnelsStayRegisteredIff(c: Config, steps: seq<Step>, st: Server)
    requires Reaches(c, Boot, steps, st)
    ensures Throughout(c, Boot, steps, LiveOf) <==> EveryStep(c, Boot, steps, NoReuse)
    ensures EveryStep(c, Boot, steps, NoReuse) ==> LiveOf(st)
  {
    BootSane(c);
    forall s, e | Sane(c, s) && LiveOf(s) && CanStep(c, s, e) ensures LiveOf(Next(c, s, e)) <==> NoReuse(s, e) {
      StepLiveIff(c, s, e);
    }
    AlwaysIff(c, Boot, steps, st, LiveOf, NoReuse);
  }

  // ---------------------------------------------------------------------------
  // Pending requests belong to registered tunnels
  // ---------------------------------------------------------------------------

  ghost predicate OwnsRequests(st: Server) {
    Carried(st.m.requests.pending.Keys, st.via, st.m.tunnels.bySub)
  }

  /**
   * The guard of a forward after its body read, as it would have to be: a captured control socket that is
   * still open belongs to the tunnel that is registered under the captured name now.
   */
  predicate SendGuard(st: Server, step: Step) {
    step.ForwardSend? && step.id in st.reading ==>
      var f := st.reading[step.id];
      f.session in st.sessions && st.sessions[f.session].sock == Open ==>
        f.sub in st.m.tunnels.bySub && st.m.tunnels.bySub[f.sub].id == f.tid
  }

  lemma UnregisterOwns(m: Manager, sub: string, via: map<string, Carrier>)
    requires Carried(m.requests.pending.Keys, via, m.tunnels.bySub)
    ensures Carried(Unregister(m, sub).requests.pending.Keys, via, Unregister(m, sub).tunnels.bySub)
  {
    if sub in m.tunnels.bySub {
      RemovedCarries(m.tunnels.bySub, sub, m.requests.pending.Keys, Unregister(m, sub).requests.pending.Keys, via);
    }
  }

  lemma SentOwnsIff(bySub: map<string, Tunnel>, p: Promises, via: map<string, Carrier>, id: string, v: Carrier)
    requires Carried(p.pending.Keys, via, bySub) && id !in via && OwnedBy(id, v.sub)
    ensures Carried(Await(p, id).pending.Keys, via[id := v], bySub) <==> v.sub in bySub && bySub[v.sub].id == v.tid
  {
    ViaCarries(p.pending.Keys, via, id, v, bySub);
    if v.sub in bySub && bySub[v.sub].id == v.tid {
      AwaitCarries(p, id, via[id := v], bySub);
    } else {
      assert id in Await(p, id).pending.Keys;
    }
  }

  lemma SameTunnelsCarryIff(a: map<string, Tunnel>, b: map<string, Tunnel>, ids: set<string>, via: map<string, Carrier>)
    requires SameTunnels(a, b)
    ensures Carried(ids, via, a) <==> Carried(ids, via, b)
  {
  }

  lemma SendOwnsIff(st: Server, id: string)
    requires ReadingOk(st) && OwnsRequests(st) && id in st.reading
    ensures OwnsRequests(Sent(st, id)) <==> SendGuard(st, ForwardSend(id))
  {
    var f := st.reading[id];
    if f.session in st.sessions && st.sessions[f.session].sock == Open {
      SentOwnsIff(st.m.tunnels.bySub, st.m.requests, st.via, id, Carrier(f.sub, f.tid));
      NoBytesAdded(st.m.tunnels, f.sub, Active, 0, None);
      SameTunnelsCarryIff(st.m.tunnels.bySub, CountRequest(st.m.tunnels, f.sub).bySub,
                          Await(st.m.requests, id).pending.Keys, st.via[id := Carrier(f.sub, f.tid)]);
    }
  }

  lemma RespondOwns(st: Server, id: string, bytes: int)
    requires OwnsRequests(st)
    ensures OwnsRequests(Responded(st, id, bytes))
  {
    if id in st.m.requests.pending && id in st.via {
      AddBytesSame(st.m.tunnels, st.via[id].sub, bytes);
      SettleCarries(st.m.requests, {id}, Resolved, st.via, st.m.tunnels.bySub);
      SameTunnelsCarry(st.m.tunnels.bySub, AddBytes(st.m.tunnels, st.via[id].sub, bytes).bySub,
                       Resolve(st.m.requests, id).pending.Keys, st.via);
    }
  }

  lemma AdmitOwns(st: Server, id: string, sub: string)
    requires OwnsRequests(st) && id !in st.via
    ensures OwnsRequests(Admitted(st, id, sub)) && OwnsRequests(Probed(st, id, sub))
  {
    if sub in st.m.tunnels.bySub {
      ViaCarries(st.m.requests.pending.Keys, st.via, id, Carrier(sub, st.m.tunnels.bySub[sub].id), st.m.tunnels.bySub);
    }
  }

  lemma FrameOwns(st: Server, id: string, bytes: int)
    requires OwnsRequests(st)
    ensures OwnsRequests(FrameRelayed(st, id, bytes))
  {
    FrameTunnels(st, id, bytes);
    SameTunnelsCarry(st.m.tunnels.bySub, FrameRelayed(st, id, bytes).m.tunnels.bySub, st.m.requests.pending.Keys,
                     st.via);
  }

  lemma DecidedOwns(c: Config, st: Server, x: nat, free: bool, tid: string, name: Option<string>, now: int,
                    expiresAt: int)
    requires OwnsRequests(st) && x in st.sessions && (name.Some? ==> name.value !in st.m.tunnels.bySub)
    ensures OwnsRequests(Decided(c, st, x, free, tid, name, now, expiresAt))
  {
    if name.Some? {
      AddedCarries(st.m.tunnels.bySub, name.value,
                   Tunnel(tid, st.sessions[x].key, x, Active, now, 0, 0, Some(expiresAt)),
                   st.m.requests.pending.Keys, st.via);
    }
  }

  lemma SessionStepOwns(c: Config, st: Server, step: Step)
    requires OwnsRequests(st) && CanStep(c, st, step) && OfSession(step)
    ensures OwnsRequests(Next(c, st, step))
  {
    if step.Decide? {
      DecidedOwns(c, st, step.x, step.free, step.tid, step.name, step.now, step.expiresAt);
    } else if step.Resume? {
      UnregisterOwns(st.m, st.sessions[step.x].sub, st.via);
    } else {
      SessionStepManager(c, st, step);
      SessionStepVia(c, st, step);
    }
  }

  /** Steps of forwards and sockets that neither add nor settle a request, nor count. */
  lemma QuietStepOwns(c: Config, st: Server, step: Step)
    requires CanStep(c, st, step) && (OfForward(step) || OfSocket(step))
    requires !Counts(step) && !step.Admit? && !step.Probe? && !step.RequestTimeout?
    ensures Next(c, st, step).m.requests == st.m.requests
  {
  }

  lemma OtherStepOwns(c: Config, st: Server, step: Step)
    requires OwnsRequests(st) && CanStep(c, st, step) && !OfSession(step) && !OfForward(step) && !OfSocket(step)
    ensures OwnsRequests(Next(c, st, step))
  {
    match step
    case ExpiryTick(sub, _) => UnregisterOwns(st.m, sub, st.via);
    case HeartbeatCheck(x, now) =>
      NoBytesAdded(st.m.tunnels, st.sessions[x].sub, HeartbeatLost, now, None);
      SameTunnelsCarry(st.m.tunnels.bySub, SetState(st.m.tunnels, st.sessions[x].sub, HeartbeatLost).bySub,
                       st.m.requests.pending.Keys, st.via);
    case HeartbeatSeen(x, now, count) =>
      NoBytesAdded(st.m.tunnels, st.sessions[x].sub, Active, now, count);
      SameTunnelsCarry(st.m.tunnels.bySub, Heartbeat(st.m.tunnels, st.sessions[x].sub, now, count).bySub,
                       st.m.requests.pending.Keys, st.via);
    case SyncWrite(_, _) =>
  }

  /** A step keeps the ownership of all pending requests exactly if a forward it sends meets the guard. */
  lemma StepOwnsIff(c: Config, st: Server, step: Step)
    requires Base(c, st) && OwnsRequests(st) && CanStep(c, st, step)
    ensures OwnsRequests(Next(c, st, step)) <==> SendGuard(st, step)
  {
    if OfSession(step) {
      SessionStepOwns(c, st, step);
    } else if step.ForwardSend? {
      SendOwnsIff(st, step.id);
    } else if step.Respond? {
      RespondOwns(st, step.id, step.bytes);
    } else if step.RequestTimeout? {
      SettleCarries(st.m.requests, {step.id}, TimedOut, st.via, st.m.tunnels.bySub);
    } else if step.Admit? || step.Probe? {
      AdmitOwns(st, step.id, step.sub);
    } else if step.Frame? {
      FrameOwns(st, step.id, step.bytes);
    } else if OfForward(step) || OfSocket(step) {
      QuietStepOwns(c, st, step);
      QuietStepSame(c, st, step);
      QuietTrafficTunnels(c, st, step);
    } else {
      OtherStepOwns(c, st, step);
    }
  }

  /**
   * In every run: at every moment each pending request belongs to the registered tunnel it was sent through
   * if and only if every forward that is sent over a socket that is still open meets the guard.
   */
  lemma RequestsStayOwnedIff(c: Config, steps: seq<Step>, st: Server)
    requires Reaches(c, Boot, steps, st)
    ensures Throughout(c, Boot, steps, OwnsRequests) <==> EveryStep(c, Boot, steps, SendGuard)
    ensures EveryStep(c, Boot, steps, SendGuard) ==> OwnsRequests(st)
  {
    BootSane(c);
    forall s, e | Sane(c, s) && OwnsRequests(s) && CanStep(c, s, e)
      ensures OwnsRequests(Next(c, s, e)) <==> SendGuard(s, e)
    {
      StepOwnsIff(c, s, e);
    }
    AlwaysIff(c, Boot, steps, st, OwnsRequests, SendGuard);
  }

  /** Then each pending request belongs to that tunnel and to no other registered one. */
  lemma RequestsBelong(c: Config, steps: seq<Step>, st: Server, id: string)
    requires Reaches(c, Boot, steps, st) && EveryStep(c, Boot, steps, SendGuard) && id in st.m.requests.pending
    ensures id in st.via && st.via[id].sub in st.m.tunnels.bySub
    ensures st.m.tunnels.bySub[st.via[id].sub].id == st.via[id].tid
    ensures forall s | s in st.m.tunnels.bySub :: OwnedBy(id, s) <==> s == st.via[id].sub
  {
    RequestsStayOwnedIff(c, steps, st);
    RunBase(c, steps, st);
    OwnerIsUnique(st.m.tunnels, id, st.via[id].sub);
  }

  /** ... and unregistering a tunnel rejects exactly the requests that were sent through it. */
  lemma UnregisterRejectsItsOwn(c: Config, steps: seq<Step>, st: Server, sub: string, id: string)
    requires Reaches(c, Boot, steps, st) && EveryStep(c, Boot, steps, SendGuard)
    requires sub in st.m.tunnels.bySub && id in st.m.requests.pending
    ensures id in st.via && (id !in Unregister(st.m, sub).requests.pending <==> st.via[id].sub == sub)
    ensures id in st.m.requests.log
    ensures Unregister(st.m, sub).requests.log[id] == if st.via[id].sub == sub then [TunnelGone] else []
  {
    RequestsBelong(c, steps, st, id);
    RunBase(c, steps, st);
    RejectsByPrefix(st.m, sub, id);
  }

  lemma RejectsByPrefix(m: Manager, sub: string, id: string)
    requires PromisesAgree(m.requests) && sub in m.tunnels.bySub && id in m.requests.pending
    ensures id in m.requests.log && id in Unregister(m, sub).requests.log
    ensures id !in Unregister(m, sub).requests.pending <==> OwnedBy(id, sub)
    ensures Unregister(m, sub).requests.log[id] == if OwnedBy(id, sub) then [TunnelGone] else []
  {
  }

  /** The captured control socket is open, so its session is still the one registered under the name. */
  lemma OpenMeansRegistered(bySub: map<string, Tunnel>, ss: map<nat, Session>, f: Reading)
    requires Live(bySub, ss) && Registered(bySub, ss) && ClosedAfterServing(ss)
    requires f.session in ss && Accepted(ss[f.session].phase) && ss[f.session].sock == Open
    requires ss[f.session].sub == f.sub && ss[f.session].tid == f.tid
    ensures f.sub in bySub && bySub[f.sub].id == f.tid
  {
  }

  /** A run that resumes on no reused name meets the guard at every forward. */
  lemma {:induction false} NoReuseMeetsSendGuard(c: Config, st: Server, steps: seq<Step>, last: Server)
    requires Base(c, st) && LiveOf(st) && Reaches(c, st, steps, last) && EveryStep(c, st, steps, NoReuse)
    ensures EveryStep(c, st, steps, SendGuard)
    decreases |steps|
  {
    if steps != [] {
      LiveMeetsSendGuard(c, st, steps[0]);
      StepKeeps(c, st, steps[0]);
      StepLiveIff(c, st, steps[0]);
      NoReuseMeetsSendGuard(c, Next(c, st, steps[0]), steps[1..], last);
    }
  }

  lemma LiveMeetsSendGuard(c: Config, st: Server, step: Step)
    requires Base(c, st) && LiveOf(st) && CanStep(c, st, step)
    ensures SendGuard(st, step)
  {
    if step.ForwardSend? && st.sessions[st.reading[step.id].session].sock == Open {
      OpenMeansRegistered(st.m.tunnels.bySub, st.sessions, st.reading[step.id]);
    }
  }
}
