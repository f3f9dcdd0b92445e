/** The server's promises over all runs: use counts and their leaks, limits, and the ownership of sockets. */
module ServerGuarantees {
  import opened Basics
  import opened Subdomains
  import opened Registry
  import opened ServerRuns
  import opened ServerInvariants

  lemma {:induction false} RunKeeps(c: Config, st: Server, steps: seq<Step>, last: Server)
    requires Base(c, st) && Reaches(c, st, steps, last)
    ensures Base(c, last)
    decreases |steps|
  {
    if steps != [] {
      StepKeeps(c, st, steps[0]);
      RunKeeps(c, Next(c, st, steps[0]), steps[1..], last);
    }
  }

  lemma RunBase(c: Config, steps: seq<Step>, st: Server)
    requires Reaches(c, Boot, steps, st)
    ensures Base(c, st)
  {
    BootBase(c);
    RunKeeps(c, Boot, steps, st);
  }

  // ---------------------------------------------------------------------------
  // Use counts and limits
  // ---------------------------------------------------------------------------

  /**
   * Accepted with a control socket that was closed already: its close event had no listener, so nothing
   * will ever end the attempt.
   */
  predicate Leaked(s: Session) {
    s.phase == Serving && s.sock == Closed
  }

  function LeakedOf(ss: map<nat, Session>, key: string): set<nat> {
    set x | x in ss && ss[x].key == key && Leaked(ss[x])
  }

  /** Serving, or closing down with the tunnel still to be unregistered. */
  function OpenOf(ss: map<nat, Session>, key: string): set<nat> {
    set x | x in ss && ss[x].key == key && HasTunnel(ss[x].phase) && !Leaked(ss[x])
  }

  /**
   * Whatever the interleaving: the stored count of a key is the number of its attempts that are open,
   * leaked, counted but undecided, refused after the increment, or about to be decremented; the registered
   * tunnels are among the open and the leaked ones; and the limit of the key is never exceeded.
   */
  lemma UseCountsHold(c: Config, steps: seq<Step>, st: Server, key: string)
    requires Reaches(c, Boot, steps, st)
    ensures UsesOf(st.uses, key) == |OpenOf(st.sessions, key)| + |LeakedOf(st.sessions, key)|
                                    + |InPhases(st.sessions, key, {Counted})|
                                    + |InPhases(st.sessions, key, {RefusedLate})|
                                    + |InPhases(st.sessions, key, {Owing})|
    ensures |TunnelsOfKey(st.m.tunnels, key)| <= |OpenOf(st.sessions, key)| + |LeakedOf(st.sessions, key)|
    ensures key in c.maxUses ==> UsesOf(st.uses, key) <= c.maxUses[key]
  {
    RunBase(c, steps, st);
    HoldersByPhase(st.sessions, key);
    TunnelsHold(st.m.tunnels, st.sessions, key);
  }

  lemma DisjointSum<T>(a: set<T>, b: set<T>)
    requires a !! b
    ensures |a + b| == |a| + |b|
  {
  }

  lemma HoldersByPhase(ss: map<nat, Session>, key: string)
    ensures |Holders(ss, key)| == |OpenOf(ss, key)| + |LeakedOf(ss, key)| + |InPhases(ss, key, {Counted})|
                                  + |InPhases(ss, key, {RefusedLate})| + |InPhases(ss, key, {Owing})|
  {
    var a, b, d := OpenOf(ss, key), LeakedOf(ss, key), InPhases(ss, key, {Counted});
    var e, f := InPhases(ss, key, {RefusedLate}), InPhases(ss, key, {Owing});
    HoldersSplit(ss, key);
    DisjointSum(a, b);
    DisjointSum(a + b, d);
    DisjointSum(a + b + d, e);
    DisjointSum(a + b + d + e, f);
  }

  lemma HoldersSplit(ss: map<nat, Session>, key: string)
    ensures var a, b, d := OpenOf(ss, key), LeakedOf(ss, key), InPhases(ss, key, {Counted});
            var e, f := InPhases(ss, key, {RefusedLate}), InPhases(ss, key, {Owing});
            && Holders(ss, key) == a + b + d + e + f
            && a !! b && (a + b) !! d && (a + b + d) !! e && (a + b + d + e) !! f
  {
  }

  lemma TunnelsHold(x: Index, ss: map<nat, Session>, key: string)
    requires Registered(x.bySub, ss)
    ensures |TunnelsOfKey(x, key)| <= |OpenOf(ss, key)| + |LeakedOf(ss, key)|
  {
    var socketOf := map s | s in x.bySub :: x.bySub[s].socket;
    InjectionSize(TunnelsOfKey(x, key), OpenOf(ss, key) + LeakedOf(ss, key), socketOf);
    DisjointSum(OpenOf(ss, key), LeakedOf(ss, key));
  }

  // ---------------------------------------------------------------------------
  // Leaked uses
  // ---------------------------------------------------------------------------

  predicate LeakedIn(st: Server, x: nat) {
    x in st.sessions && Leaked(st.sessions[x])
  }

  /** The step decides in favour of `x`, whose control socket is closed by then. */
  predicate AcceptsClosed(c: Config, st: Server, step: Step, x: nat)
    requires CanStep(c, st, step)
  {
    step.Decide? && step.x == x && st.sessions[x].sock == Closed && Next(c, st, step).sessions[x].phase == Serving
  }

  /** A leaked attempt does not move any more, and a new leak comes from exactly one kind of step. */
  lemma LeaksIff(c: Config, st: Server, step: Step, x: nat)
    requires CanStep(c, st, step)
    ensures LeakedIn(Next(c, st, step), x) <==> LeakedIn(st, x) || AcceptsClosed(c, st, step, x)
    ensures LeakedIn(st, x) ==> Next(c, st, step).sessions[x] == st.sessions[x]
  {
    if OfAdmission(step) {
      AdmissionLeaksIff(c, st, step, x);
    } else if OfSession(step) {
      ServingLeaksIff(c, st, step, x);
    } else {
      OthersDoNotLeak(c, st, step, x);
    }
  }

  lemma UndecidedDoNotLeak(c: Config, st: Server, step: Step, x: nat)
    requires CanStep(c, st, step) && OfAdmission(step) && !step.Decide?
    ensures LeakedIn(Next(c, st, step), x) <==> LeakedIn(st, x)
    ensures LeakedIn(st, x) ==> Next(c, st, step).sessions[x] == st.sessions[x]
  {
  }

  lemma AdmissionLeaksIff(c: Config, st: Server, step: Step, x: nat)
    requires CanStep(c, st, step) && OfAdmission(step)
    ensures LeakedIn(Next(c, st, step), x) <==> LeakedIn(st, x) || AcceptsClosed(c, st, step, x)
    ensures LeakedIn(st, x) ==> Next(c, st, step).sessions[x] == st.sessions[x]
  {
    if !step.Decide? {
      UndecidedDoNotLeak(c, st, step, x);
    }
  }

  lemma ServingLeaksIff(c: Config, st: Server, step: Step, x: nat)
    requires CanStep(c, st, step) && OfSession(step) && !OfAdmission(step)
    ensures LeakedIn(Next(c, st, step), x) <==> LeakedIn(st, x)
    ensures LeakedIn(st, x) ==> Next(c, st, step).sessions[x] == st.sessions[x]
  {
  }

  lemma OthersDoNotLeak(c: Config, st: Server, step: Step, x: nat)
    requires CanStep(c, st, step) && !OfSession(step)
    ensures LeakedIn(Next(c, st, step), x) <==> LeakedIn(st, x)
    ensures LeakedIn(st, x) ==> Next(c, st, step).sessions[x] == st.sessions[x]
  {
  }

  ghost predicate EverAcceptsClosed(c: Config, st: Server, steps: seq<Step>, x: nat)
    decreases |steps|
  {
    steps != [] && CanStep(c, st, steps[0])
    && (AcceptsClosed(c, st, steps[0], x) || EverAcceptsClosed(c, Next(c, st, steps[0]), steps[1..], x))
  }

  lemma {:induction false} LeakedIff(c: Config, st: Server, steps: seq<Step>, last: Server, x: nat)
    requires Reaches(c, st, steps, last)
    ensures LeakedIn(last, x) <==> LeakedIn(st, x) || EverAcceptsClosed(c, st, steps, x)
    ensures LeakedIn(st, x) ==> last.sessions[x] == st.sessions[x]
    decreases |steps|
  {
    if steps != [] {
      LeaksIff(c, st, steps[0], x);
      LeakedIff(c, Next(c, st, steps[0]), steps[1..], last, x);
    }
  }

  /**
   * In every run an attempt has leaked if and only if it was accepted after its control socket had closed.
   */
  lemma UseLeaksIff(c: Config, steps: seq<Step>, st: Server, x: nat)
    requires Reaches(c, Boot, steps, st)
    ensures LeakedIn(st, x) <==> EverAcceptsClosed(c, Boot, steps, x)
  {
    LeakedIff(c, Boot, steps, st, x);
  }

  /** A leaked use is never given back: in every continuation it still counts. */
  lemma LeakedUseStays(c: Config, steps: seq<Step>, st: Server, later: seq<Step>, last: Server, x: nat)
    requires Reaches(c, Boot, steps, st) && LeakedIn(st, x) && Reaches(c, st, later, last)
    ensures LeakedIn(last, x) && last.sessions[x] == st.sessions[x]
    ensures UsesOf(last.uses, st.sessions[x].key) >= |LeakedOf(last.sessions, st.sessions[x].key)| >= 1
  {
    RunBase(c, steps, st);
    RunKeeps(c, st, later, last);
    LeakedIff(c, st, later, last, x);
    var key := st.sessions[x].key;
    HoldersByPhase(last.sessions, key);
    assert x in LeakedOf(last.sessions, key);
  }

  lemma Then(c: Config, st: Server, step: Step, steps: seq<Step>, last: Server)
    requires CanStep(c, st, step) && Reaches(c, Next(c, st, step), steps, last)
    ensures Reaches(c, st, [step] + steps, last)
  {
    assert ([step] + steps)[1..] == steps;
  }

  /** The attempt is over and its use was given back; nothing else counts differently. */
  predicate GivesBack(st: Server, x: nat, last: Server)
    requires x in st.sessions
  {
    && x in last.sessions && last.sessions[x].phase == Done
    && last.uses == Decremented(st.uses, st.sessions[x].key)
  }

  lemma OwingGivesBack(c: Config, st: Server, x: nat) returns (later: seq<Step>, last: Server)
    requires x in st.sessions && st.sessions[x].phase == Owing
    ensures Reaches(c, st, later, last) && GivesBack(st, x, last)
  {
    later, last := [Decrement(x)] + [], GivenBack(st, x);
    Then(c, st, Decrement(x), [], last);
  }

  lemma ResumingGivesBack(c: Config, st: Server, x: nat) returns (later: seq<Step>, last: Server)
    requires x in st.sessions && st.sessions[x].phase == Resuming
    ensures Reaches(c, st, later, last) && GivesBack(st, x, last)
  {
    var n := Resumed(st, x);
    later, last := OwingGivesBack(c, n, x);
    Then(c, st, Resume(x), later, last);
    later := [Resume(x)] + later;
  }

  lemma FinalizingGivesBack(c: Config, st: Server, x: nat) returns (later: seq<Step>, last: Server)
    requires x in st.sessions && st.sessions[x].phase == Finalizing
    ensures Reaches(c, st, later, last) && GivesBack(st, x, last)
  {
    var n := Finalized(st, x, true);
    later, last := ResumingGivesBack(c, n, x);
    Then(c, st, FinalizeWrite(x, true), later, last);
    later := [FinalizeWrite(x, true)] + later;
  }

  lemma ServingGivesBack(c: Config, st: Server, x: nat) returns (later: seq<Step>, last: Server)
    requires x in st.sessions && st.sessions[x].phase == Serving && st.sessions[x].sock != Closed
    ensures Reaches(c, st, later, last) && GivesBack(st, x, last)
  {
    var n := CloseEvent(st, x);
    if n.sessions[x].phase == Finalizing {
      later, last := FinalizingGivesBack(c, n, x);
    } else {
      later, last := OwingGivesBack(c, n, x);
    }
    Then(c, st, SockClosed(x), later, last);
    later := [SockClosed(x)] + later;
  }

  /** An accepted attempt that has not leaked can still be ended, and then its use is back. */
  lemma UseCanReturn(c: Config, st: Server, x: nat) returns (later: seq<Step>, last: Server)
    requires x in st.sessions && Accepted(st.sessions[x].phase) && Holds(st.sessions[x].phase) && !LeakedIn(st, x)
    ensures Reaches(c, st, later, last) && GivesBack(st, x, last)
  {
    match st.sessions[x].phase
    case Serving => later, last := ServingGivesBack(c, st, x);
    case Finalizing => later, last := FinalizingGivesBack(c, st, x);
    case Resuming => later, last := ResumingGivesBack(c, st, x);
    case Owing => later, last := OwingGivesBack(c, st, x);
  }

  /** A continuation in which the attempt's decrement was written. */
  ghost predicate Returns(c: Config, st: Server, x: nat, later: seq<Step>, last: Server) {
    Reaches(c, st, later, last) && x in last.sessions && last.sessions[x].phase == Done
  }

  /**
   * So "leaked" is the right word: among the accepted attempts that hold a use, the leaked ones are exactly
   * those whose use no continuation gives back.
   */
  lemma LeakedIffNeverReturned(c: Config, steps: seq<Step>, st: Server, x: nat)
    requires Reaches(c, Boot, steps, st)
    requires x in st.sessions && Accepted(st.sessions[x].phase) && Holds(st.sessions[x].phase)
    ensures LeakedIn(st, x) <==> !exists later, last :: Returns(c, st, x, later, last)
  {
    if LeakedIn(st, x) {
      forall later, last | Reaches(c, st, later, last) ensures !Returns(c, st, x, later, last) {
        LeakedUseStays(c, steps, st, later, last, x);
      }
    } else {
      var later, last := UseCanReturn(c, st, x);
      assert Returns(c, st, x, later, last);
    }
  }

  /** At most 100 sockets per tunnel, 1000 pending upgrades, and the key's number of tunnels. */
  lemma LimitsHold(c: Config, steps: seq<Step>, st: Server, sub: string, key: string)
    requires Reaches(c, Boot, steps, st)
    ensures |SocketsOf(st.m.sockets, sub)| <= MAX_WEBSOCKETS_PER_TUNNEL
    ensures |st.m.upgrades.pending| <= MAX_PENDING_UPGRADES
    ensures key in c.alwaysFree ==> |TunnelsOfKey(st.m.tunnels, key)| <= 1
    ensures key in c.neverFree && key !in c.alwaysFree ==> |TunnelsOfKey(st.m.tunnels, key)| <= Max(0, c.perKey)
    ensures |TunnelsOfKey(st.m.tunnels, key)| <= Max(1, c.perKey)
  {
    RunBase(c, steps, st);
    CountIsSize(st.m.sockets, sub);
    KeySetIsTunnelsOfKey(st.m.tunnels, key);
  }

  // ---------------------------------------------------------------------------
  // Ownership
  // ---------------------------------------------------------------------------

  /** Every proxied socket and every pending upgrade belongs to a registered tunnel, and to one only. */
  lemma SocketsBelong(c: Config, steps: seq<Step>, st: Server, id: string)
    requires Reaches(c, Boot, steps, st)
    requires id in st.m.sockets.open || id in st.m.upgrades.pending
    ensures id in st.via && st.via[id].sub in st.m.tunnels.bySub
    ensures st.m.tunnels.bySub[st.via[id].sub].id == st.via[id].tid
    ensures forall s | s in st.m.tunnels.bySub :: OwnedBy(id, s) <==> s == st.via[id].sub
  {
    RunBase(c, steps, st);
    OwnerIsUnique(st.m.tunnels, id, st.via[id].sub);
  }

  lemma OwnerIsUnique(x: Index, id: string, sub: string)
    requires IndexesAgree(x) && sub in x.bySub && OwnedBy(id, sub)
    ensures forall s | s in x.bySub :: OwnedBy(id, s) <==> s == sub
  {
    forall s | s in x.bySub && OwnedBy(id, s) ensures s == sub {
      OneOwner(id, s, sub);
    }
  }
}
