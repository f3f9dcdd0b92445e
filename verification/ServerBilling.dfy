/** Transferred bytes over whole runs: the counters of registered tunnels and the finalised rows. */
module ServerBilling {
  import opened Basics
  import opened Registry
  import opened ServerRuns
  import opened ServerInvariants
  import opened ServerGuarantees
  import opened ServerOwnership

  // ---------------------------------------------------------------------------
  // Counters equal what was carried
  // ---------------------------------------------------------------------------

  /** A tunnel's counter is the sum of the request bodies and frames it carried. */
  ghost predicate Balanced(bySub: map<string, Tunnel>, credits: seq<Credit>) {
    forall s | s in bySub :: bySub[s].bytes == Billed(credits, bySub[s].id)
  }

  ghost predicate Balances(st: Server) {
    Balanced(st.m.tunnels.bySub, st.meters.credits)
  }

  /**
   * What an answered forward would have to check before it adds bytes by name: that the name is free or
   * still that of the tunnel the request was sent through.
   */
  predicate BalanceGuard(st: Server, step: Step) {
    step.Respond? && step.id in st.m.requests.pending && step.id in st.via ==>
      var v := st.via[step.id];
      step.bytes == 0 || v.sub !in st.m.tunnels.bySub || st.m.tunnels.bySub[v.sub].id == v.tid
  }

  lemma BilledNone(credits: seq<Credit>, tid: string)
    requires forall i | 0 <= i < |credits| :: credits[i].tid != tid
    ensures Billed(credits, tid) == 0
  {
  }

  lemma BilledMore(credits: seq<Credit>, k: Credit, tid: string)
    ensures Billed(credits + [k], tid) == Billed(credits, tid) + if k.tid == tid then k.bytes else 0
  {
    assert (credits + [k])[..|credits|] == credits;
  }

  lemma AcceptBalanced(bySub: map<string, Tunnel>, credits: seq<Credit>, sub: string, t: Tunnel)
    requires Balanced(bySub, credits) && t.bytes == 0 && forall i | 0 <= i < |credits| :: credits[i].tid != t.id
    ensures Balanced(bySub[sub := t], credits)
  {
    BilledNone(credits, t.id);
  }

  /** Adding bytes to a tunnel and a credit under the same tunnel id. */
  lemma CreditBalanced(x: Index, credits: seq<Credit>, sub: string, id: string, n: int)
    requires IndexesAgree(x) && Balanced(x.bySub, credits) && sub in x.bySub
    ensures Balanced(AddBytes(x, sub, n).bySub, credits + [Credit(x.bySub[sub].id, id, n)])
  {
    var k := Credit(x.bySub[sub].id, id, n);
    forall s | s in x.bySub ensures Billed(credits + [k], x.bySub[s].id)
                                    == x.bySub[s].bytes + if s == sub then n else 0 {
      BilledMore(credits, k, x.bySub[s].id);
      if s != sub { assert x.byId[x.bySub[s].id] == s && x.byId[x.bySub[sub].id] == sub; }
    }
  }

  /** A credit for no registered tunnel, or of no bytes. */
  lemma CreditNoTunnel(bySub: map<string, Tunnel>, credits: seq<Credit>, k: Credit)
    requires Balanced(bySub, credits) && forall s | s in bySub :: bySub[s].id != k.tid || k.bytes == 0
    ensures Balanced(bySub, credits + [k])
  {
    forall s | s in bySub ensures bySub[s].bytes == Billed(credits + [k], bySub[s].id) {
      BilledMore(credits, k, bySub[s].id);
    }
  }

  /** Bytes for a tunnel that did not carry them. */
  lemma CreditElsewhere(x: Index, credits: seq<Credit>, sub: string, k: Credit)
    requires Balanced(x.bySub, credits) && sub in x.bySub && x.bySub[sub].id != k.tid && k.bytes != 0
    ensures !Balanced(AddBytes(x, sub, k.bytes).bySub, credits + [k])
  {
    BilledMore(credits, k, x.bySub[sub].id);
    assert sub in AddBytes(x, sub, k.bytes).bySub;
  }

  lemma SameBalanced(a: map<string, Tunnel>, b: map<string, Tunnel>, credits: seq<Credit>)
    requires Balanced(a, credits) && SameBytes(a, b)
    ensures Balanced(b, credits)
  {
  }

  lemma LessBalanced(bySub: map<string, Tunnel>, sub: string, credits: seq<Credit>)
    requires Balanced(bySub, credits)
    ensures Balanced(bySub - {sub}, credits)
  {
  }

  /** A registered tunnel with the id of a carrier stands under the carrier's name. */
  lemma CarrierStandsUnderItsName(bySub: map<string, Tunnel>, ss: map<nat, Session>, via: map<string, Carrier>,
                                  id: string)
    requires Registered(bySub, ss) && ViaNames(via, ss) && id in via
    ensures forall s | s in bySub && bySub[s].id == via[id].tid :: s == via[id].sub
  {
  }

  lemma RespondBalancesIff(c: Config, st: Server, id: string, bytes: nat)
    requires Sane(c, st) && Balances(st)
    ensures Balances(Responded(st, id, bytes)) <==> BalanceGuard(st, Respond(id, bytes))
  {
    if id in st.m.requests.pending && id in st.via {
      var x, v := st.m.tunnels, st.via[id];
      var k := Credit(v.tid, id, bytes);
      CarrierStandsUnderItsName(x.bySub, st.sessions, st.via, id);
      if v.sub in x.bySub && x.bySub[v.sub].id == v.tid {
        CreditBalanced(x, st.meters.credits, v.sub, id, bytes);
      } else if v.sub in x.bySub && bytes != 0 {
        CreditElsewhere(x, st.meters.credits, v.sub, k);
      } else {
        CreditNoTunnel(x.bySub, st.meters.credits, k);
        AddNothing(x, v.sub, bytes);
        SameBalanced(x.bySub, AddBytes(x, v.sub, bytes).bySub, st.meters.credits + [k]);
      }
    }
  }

  lemma AddNothing(x: Index, sub: string, n: int)
    requires sub !in x.bySub || n == 0
    ensures SameBytes(x.bySub, AddBytes(x, sub, n).bySub)
  {
  }

  lemma FrameBalances(c: Config, st: Server, id: string, bytes: nat)
    requires Base(c, st) && Balances(st)
    ensures Balances(FrameRelayed(st, id, bytes))
  {
    if id in st.m.sockets.open && id in st.via {
      CreditBalanced(st.m.tunnels, st.meters.credits, st.via[id].sub, id, bytes);
      FrameIs(st, id, bytes);
    }
  }

  lemma SendBalances(st: Server, id: string)
    requires Balances(st) && id in st.reading
    ensures Balances(Sent(st, id))
  {
    NoBytesAdded(st.m.tunnels, st.reading[id].sub, Active, 0, None);
    SameBalanced(st.m.tunnels.bySub, CountRequest(st.m.tunnels, st.reading[id].sub).bySub, st.meters.credits);
  }

  lemma DecidedBalances(c: Config, st: Server, x: nat, free: bool, tid: string, name: Option<string>, now: int,
                        expiresAt: int)
    requires Balances(st) && RowsKept(st.meters, st.sessions, st.ids) && x in st.sessions && tid !in st.ids
    ensures Balances(Decided(c, st, x, free, tid, name, now, expiresAt))
  {
    if name.Some? {
      AcceptBalanced(st.m.tunnels.bySub, st.meters.credits, name.value,
                     Tunnel(tid, st.sessions[x].key, x, Active, now, 0, 0, Some(expiresAt)));
    }
  }

  lemma SessionStepBalances(c: Config, st: Server, step: Step)
    requires Base(c, st) && Balances(st) && CanStep(c, st, step) && OfSession(step)
    ensures Balances(Next(c, st, step))
  {
    if step.Decide? {
      DecidedBalances(c, st, step.x, step.free, step.tid, step.name, step.now, step.expiresAt);
    } else if step.Resume? {
      UnregisterDrops(st.m, st.sessions[step.x].sub);
      LessBalanced(st.m.tunnels.bySub, st.sessions[step.x].sub, st.meters.credits);
    } else {
      SessionStepManager(c, st, step);
    }
  }

  lemma OtherStepBalances(c: Config, st: Server, step: Step)
    requires Balances(st) && CanStep(c, st, step) && !OfSession(step) && !OfForward(step) && !OfSocket(step)
    ensures Balances(Next(c, st, step))
  {
    var x := st.m.tunnels;
    match step
    case ExpiryTick(sub, _) =>
      UnregisterDrops(st.m, sub);
      LessBalanced(x.bySub, sub, st.meters.credits);
    case HeartbeatCheck(y, now) =>
      NoBytesAdded(x, st.sessions[y].sub, HeartbeatLost, now, None);
      SameBalanced(x.bySub, SetState(x, st.sessions[y].sub, HeartbeatLost).bySub, st.meters.credits);
    case HeartbeatSeen(y, now, count) =>
      NoBytesAdded(x, st.sessions[y].sub, Active, now, count);
      SameBalanced(x.bySub, Heartbeat(x, st.sessions[y].sub, now, count).bySub, st.meters.credits);
    case SyncWrite(_, _) =>
  }

  /** A step keeps all counters true exactly if an answer it counts meets the guard. */
  lemma StepBalancesIff(c: Config, st: Server, step: Step)
    requires Sane(c, st) && Balances(st) && CanStep(c, st, step)
    ensures Balances(Next(c, st, step)) <==> BalanceGuard(st, step)
  {
    if OfSession(step) {
      SessionStepBalances(c, st, step);
    } else if step.ForwardSend? {
      SendBalances(st, step.id);
    } else if step.Respond? {
      RespondBalancesIff(c, st, step.id, step.bytes);
    } else if step.Frame? {
      FrameBalances(c, st, step.id, step.bytes);
    } else if OfForward(step) || OfSocket(step) {
      QuietTrafficTunnels(c, st, step);
    } else {
      OtherStepBalances(c, st, step);
    }
  }

  /**
   * In every run: at every moment each registered tunnel's counter is the sum of what it carried if and only
   * if every answer with bytes finds its name free or still that of the tunnel that carried the request.
   */
  lemma BytesStayConservedIff(c: Config, steps: seq<Step>, st: Server)
    requires Reaches(c, Boot, steps, st)
    ensures Throughout(c, Boot, steps, Balances) <==> EveryStep(c, Boot, steps, BalanceGuard)
    ensures EveryStep(c, Boot, steps, BalanceGuard) ==> Balances(st)
  {
    BootSane(c);
    forall s, e | Sane(c, s) && Balances(s) && CanStep(c, s, e)
      ensures Balances(Next(c, s, e)) <==> BalanceGuard(s, e)
    {
      StepBalancesIff(c, s, e);
    }
    AlwaysIff(c, Boot, steps, st, Balances, BalanceGuard);
  }

  /** Where every forward that is sent meets its guard, every answer meets this one. */
  lemma {:induction false} SendGuardMeetsBalanceGuard(c: Config, st: Server, steps: seq<Step>, last: Server)
    requires Base(c, st) && OwnsRequests(st) && Reaches(c, st, steps, last) && EveryStep(c, st, steps, SendGuard)
    ensures EveryStep(c, st, steps, BalanceGuard)
    decreases |steps|
  {
    if steps != [] {
      StepKeeps(c, st, steps[0]);
      StepOwnsIff(c, st, steps[0]);
      SendGuardMeetsBalanceGuard(c, Next(c, st, steps[0]), steps[1..], last);
    }
  }

  /** A run that resumes on no reused name bills every byte to the tunnel that carried it. */
  lemma BytesAreConserved(c: Config, steps: seq<Step>, st: Server, sub: string)
    requires Reaches(c, Boot, steps, st) && EveryStep(c, Boot, steps, NoReuse) && sub in st.m.tunnels.bySub
    ensures st.m.tunnels.bySub[sub].bytes == Billed(st.meters.credits, st.m.tunnels.bySub[sub].id)
  {
    BootBase(c);
    NoReuseMeetsSendGuard(c, Boot, steps, st);
    SendGuardMeetsBalanceGuard(c, Boot, steps, st);
    BytesStayConservedIff(c, steps, st);
  }

  // ---------------------------------------------------------------------------
  // The finalised row
  // ---------------------------------------------------------------------------

  /** No step touches what a close event read for a tunnel id. */
  lemma ReadStays(c: Config, st: Server, step: Step, tid: string)
    requires RowsKept(st.meters, st.sessions, st.ids) && CanStep(c, st, step) && tid in st.meters.read
    ensures tid in Next(c, st, step).meters.read && Next(c, st, step).meters.read[tid] == st.meters.read[tid]
  {
    if step.SockClosed? {
      CloseReadsItsOwn(st, step.x, tid);
    } else {
      OthersDoNotRead(c, st, step);
    }
  }

  lemma AdmissionDoesNotRead(c: Config, st: Server, step: Step)
    requires CanStep(c, st, step) && OfAdmission(step)
    ensures Next(c, st, step).meters.read == st.meters.read
  {
  }

  lemma ForwardDoesNotRead(c: Config, st: Server, step: Step)
    requires CanStep(c, st, step) && OfForward(step)
    ensures Next(c, st, step).meters.read == st.meters.read
  {
  }

  lemma SocketDoesNotRead(c: Config, st: Server, step: Step)
    requires CanStep(c, st, step) && OfSocket(step)
    ensures Next(c, st, step).meters.read == st.meters.read
  {
  }

  lemma OthersDoNotRead(c: Config, st: Server, step: Step)
    requires CanStep(c, st, step) && !step.SockClosed?
    ensures Next(c, st, step).meters.read == st.meters.read
  {
    if OfAdmission(step) {
      AdmissionDoesNotRead(c, st, step);
    } else if OfForward(step) {
      ForwardDoesNotRead(c, st, step);
    } else if OfSocket(step) {
      SocketDoesNotRead(c, st, step);
    }
  }

  lemma CloseReadsItsOwn(st: Server, x: nat, tid: string)
    requires RowsKept(st.meters, st.sessions, st.ids) && x in st.sessions && tid in st.meters.read
    ensures tid in CloseEvent(st, x).meters.read && CloseEvent(st, x).meters.read[tid] == st.meters.read[tid]
  {
  }

  lemma {:induction false} ReadStaysForever(c: Config, st: Server, steps: seq<Step>, last: Server, tid: string)
    requires Base(c, st) && Reaches(c, st, steps, last) && tid in st.meters.read
    ensures tid in last.meters.read && last.meters.read[tid] == st.meters.read[tid]
    decreases |steps|
  {
    if steps != [] {
      StepKeeps(c, st, steps[0]);
      ReadStays(c, st, steps[0], tid);
      ReadStaysForever(c, Next(c, st, steps[0]), steps[1..], last, tid);
    }
  }

  predicate IsServing(st: Server, x: nat) {
    x in st.sessions && st.sessions[x].phase == Serving && st.sessions[x].sock != Closed
  }

  ghost predicate HasFinalRow(st: Server, tid: string) {
    tid in st.meters.rows && st.meters.rows[tid].disconnected
  }

  /**
   * A serving session closes while its name is registered. Whatever happens after that, periodic syncs and
   * late frames included: once its row says disconnected, it holds exactly the counters that stood under
   * the name at the close event.
   */
  lemma FinalRowIsTheReading(c: Config, steps: seq<Step>, st: Server, x: nat, later: seq<Step>, last: Server)
    requires Reaches(c, Boot, steps, st) && IsServing(st, x) && st.sessions[x].sub in st.m.tunnels.bySub
    requires Reaches(c, CloseEvent(st, x), later, last) && HasFinalRow(last, st.sessions[x].tid)
    ensures var t := st.m.tunnels.bySub[st.sessions[x].sub];
            last.meters.rows[st.sessions[x].tid].counters == Counters(t.requestCount, t.bytes)
  {
    RunBase(c, steps, st);
    CloseEventKeeps(c, st, x);
    ReadStaysForever(c, CloseEvent(st, x), later, last, st.sessions[x].tid);
    RunKeeps(c, CloseEvent(st, x), later, last);
  }

  /** Nobody has read the session's counters, and the session is past the moment to do so. */
  ghost predicate NeverRead(st: Server, x: nat, tid: string) {
    x in st.sessions && st.sessions[x].phase in {Owing, Done} && st.sessions[x].tid == tid && tid !in st.meters.read
  }

  lemma StaysUnread(c: Config, st: Server, step: Step, x: nat, tid: string)
    requires TunnelIds(st.sessions, st.ids) && NeverRead(st, x, tid) && CanStep(c, st, step)
    ensures tid !in Next(c, st, step).meters.read
  {
    if step.SockClosed? {
      CloseReadsOneId(st, step.x);
    } else {
      OthersDoNotRead(c, st, step);
    }
  }

  lemma CloseReadsOneId(st: Server, y: nat)
    requires y in st.sessions
    ensures CloseEvent(st, y).meters.read.Keys
            <= st.meters.read.Keys + if st.sessions[y].phase == Serving then {st.sessions[y].tid} else {}
  {
  }

  lemma AdmissionLeavesOver(c: Config, st: Server, step: Step, x: nat)
    requires CanStep(c, st, step) && OfAdmission(step) && x in st.sessions && st.sessions[x].phase in {Owing, Done}
    ensures x in Next(c, st, step).sessions && Next(c, st, step).sessions[x] == st.sessions[x]
  {
    assert step.x != x;
    match step
    case Arrive(y, key) => assert Arrived(st, y, key).sessions[x] == st.sessions[x];
    case Refuse(y) => RefusedOther(st, y, RefusedEarly, x);
    case Count(y) => RefusedOther(st, y, RefusedEarly, x);
    case TierLookupFails(y) => RefusedOther(st, y, RefusedLate, x);
    case Decide(y, _, _, _, _, _) => RefusedOther(st, y, RefusedLate, x);
  }

  lemma RefusedOther(st: Server, y: nat, p: Phase, x: nat)
    requires y in st.sessions && x in st.sessions && x != y
    ensures x in Refused(st, y, p).sessions && Refused(st, y, p).sessions[x] == st.sessions[x]
  {
  }

  lemma ServingLeavesOver(c: Config, st: Server, step: Step, x: nat)
    requires CanStep(c, st, step) && OfSession(step) && !OfAdmission(step)
    requires x in st.sessions && st.sessions[x].phase in {Owing, Done}
    ensures x in Next(c, st, step).sessions && Next(c, st, step).sessions[x].phase in {Owing, Done}
    ensures Next(c, st, step).sessions[x].tid == st.sessions[x].tid
  {
  }

  /** A session that is over keeps its phase up to the decrement, and its tunnel id. */
  lemma OverStaysOver(c: Config, st: Server, step: Step, x: nat)
    requires CanStep(c, st, step) && x in st.sessions && st.sessions[x].phase in {Owing, Done}
    ensures x in Next(c, st, step).sessions && Next(c, st, step).sessions[x].phase in {Owing, Done}
    ensures Next(c, st, step).sessions[x].tid == st.sessions[x].tid
  {
    if OfForward(step) || OfSocket(step) {
      TrafficSessions(c, st, step);
    } else if OfAdmission(step) {
      AdmissionLeavesOver(c, st, step, x);
    } else if OfSession(step) {
      ServingLeavesOver(c, st, step, x);
    }
  }

  lemma {:induction false} NeverReadForever(c: Config, st: Server, steps: seq<Step>, last: Server, x: nat, tid: string)
    requires Base(c, st) && NeverRead(st, x, tid) && Reaches(c, st, steps, last)
    ensures tid !in last.meters.read
    decreases |steps|
  {
    if steps != [] {
      StepKeeps(c, st, steps[0]);
      StaysUnread(c, st, steps[0], x, tid);
      OverStaysOver(c, st, steps[0], x);
      NeverReadForever(c, Next(c, st, steps[0]), steps[1..], last, x, tid);
    }
  }

  /** It closes while its name is not registered: then its row never says disconnected. */
  lemma NoFinalRow(c: Config, steps: seq<Step>, st: Server, x: nat, later: seq<Step>, last: Server)
    requires Reaches(c, Boot, steps, st) && IsServing(st, x) && st.sessions[x].sub !in st.m.tunnels.bySub
    requires Reaches(c, CloseEvent(st, x), later, last)
    ensures !HasFinalRow(last, st.sessions[x].tid)
  {
    RunBase(c, steps, st);
    CloseEventKeeps(c, st, x);
    NeverReadForever(c, CloseEvent(st, x), later, last, x, st.sessions[x].tid);
    RunKeeps(c, CloseEvent(st, x), later, last);
  }

  /**
   * Under the guard of every answer, the bytes of that row are what the tunnel that stood under the name had
   * carried until the close event; that tunnel is the session's own exactly if the session registered it.
   */
  lemma FinalRowIsABill(c: Config, steps: seq<Step>, st: Server, x: nat, later: seq<Step>, last: Server)
    requires Reaches(c, Boot, steps, st) && EveryStep(c, Boot, steps, BalanceGuard)
    requires IsServing(st, x) && st.sessions[x].sub in st.m.tunnels.bySub
    requires Reaches(c, CloseEvent(st, x), later, last) && HasFinalRow(last, st.sessions[x].tid)
    ensures var t := st.m.tunnels.bySub[st.sessions[x].sub];
            && last.meters.rows[st.sessions[x].tid].counters.bytes == Billed(st.meters.credits, t.id)
            && (t.id == st.sessions[x].tid <==> t.socket == x)
  {
    RunBase(c, steps, st);
    BytesStayConservedIff(c, steps, st);
    FinalRowIsTheReading(c, steps, st, x, later, last);
  }

  /** In a run that resumes on no reused name, a connected tunnel's final row is its own bill. */
  lemma FinalRowIsTheBill(c: Config, steps: seq<Step>, st: Server, x: nat, later: seq<Step>, last: Server)
    requires Reaches(c, Boot, steps, st) && EveryStep(c, Boot, steps, NoReuse) && IsServing(st, x)
    requires Reaches(c, CloseEvent(st, x), later, last)
    ensures var s := st.sessions[x];
            && s.sub in st.m.tunnels.bySub && st.m.tunnels.bySub[s.sub].id == s.tid
            && (HasFinalRow(last, s.tid) ==>
                  last.meters.rows[s.tid].counters
                  == Counters(st.m.tunnels.bySub[s.sub].requestCount, Billed(st.meters.credits, s.tid)))
  {
    RunBase(c, steps, st);
    ConnectedTunnelsStayRegisteredIff(c, steps, st);
    BytesAreConserved(c, steps, st, st.sessions[x].sub);
    if HasFinalRow(last, st.sessions[x].tid) {
      FinalRowIsTheReading(c, steps, st, x, later, last);
    }
  }
}
