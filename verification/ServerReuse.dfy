/**
 * Runs in which the server's promises fail: an attempt accepted over a closed socket, and a name that is
 * reused while the close handler awaits its row.
 */
module ServerReuse {
  import opened Basics
  import opened Subdomains
  import opened Registry
  import opened ServerRuns
  import opened ServerInvariants
  import opened ServerGuarantees
  import opened ServerOwnership
  import opened ServerBilling

  /** A forward over an open control socket is pending afterwards, and no name comes back. */
  lemma SentIsPending(st: Server, id: string)
    requires id in st.reading && st.reading[id].session in st.sessions
              && st.sessions[st.reading[id].session].sock == Open
    ensures var n := Sent(st, id);
            && id in n.m.requests.pending && id in n.via && n.via[id].sub == st.reading[id].sub
            && n.m.tunnels.bySub.Keys == st.m.tunnels.bySub.Keys
  {
  }

  /**
   * Whenever a close handler resumes on a reused name while a request is being read for the new tunnel,
   * that request is then sent and stays pending under a name nobody holds.
   */
  lemma ReuseOrphansRequests(c: Config, st: Server, x: nat, id: string)
    requires Base(c, st) && x in st.sessions && st.sessions[x].phase == Resuming && !NameStillMine(st, x)
    requires id in st.reading && st.reading[id].session == st.m.tunnels.bySub[st.sessions[x].sub].socket
    requires st.sessions[st.reading[id].session].sock == Open
    ensures var n := Sent(Resumed(st, x), id);
            && id in n.m.requests.pending && id in n.via
            && OwnedBy(id, n.via[id].sub) && n.via[id].sub !in n.m.tunnels.bySub
  {
    var r := Resumed(st, x);
    UnregisterDrops(st.m, st.sessions[x].sub);
    assert st.reading[id].sub == st.sessions[x].sub;
    SentIsPending(r, id);
  }

  // ---------------------------------------------------------------------------
  // Concrete runs
  // ---------------------------------------------------------------------------

  const LIMITS := Config(map[], 5, {}, {}, 30000)

  const FIRST := Tunnel("t0", "k", 0, Active, 0, 0, 0, Some(10))
  const SECOND := Tunnel("t1", "k", 1, Active, 20, 0, 0, Some(100))

  function Held(x: nat, p: Phase, sock: ReadyState): Session {
    Session("k", sock, p, "a", if x == 0 then "t0" else "t1")
  }

  function Registration(t: Tunnel): Index {
    Index(map["a" := t], map["k" := {"a"}], map[t.id := "a"])
  }

  const READ_FIRST := Meters([], map["t0" := Counters(0, 0)], map[])

  const MIDDLE := Server(EmptyManager, map["k" := 1], map[0 := Held(0, Finalizing, Closed)], map[], map[],
                         READ_FIRST, {"t0"})

  const REUSED := Server(
    EmptyManager.(tunnels := Registration(SECOND)), map["k" := 2],
    map[0 := Held(0, Finalizing, Closed), 1 := Held(1, Serving, Open)], map[], map[], READ_FIRST, {"t0", "t1"})

  lemma UnregisterTheOnly(t: Tunnel)
    requires t.keyId == "k"
    ensures Unregister(EmptyManager.(tunnels := Registration(t)), "a") == EmptyManager
  {
    var m := EmptyManager.(tunnels := Registration(t));
    assert Owned(m.requests, "a") == {} && Owned(m.upgrades, "a") == {} && SocketsOf(m.sockets, "a") == {};
    SettleNone(m.requests, TunnelGone);
    assert map["a" := t] - {"a"} == map[];
    assert map["k" := {"a"}] - {"k"} == map[];
    assert map[t.id := "a"] - {t.id} == map[];
  }

  lemma {:induction false} Append(c: Config, st: Server, a: seq<Step>, mid: Server, b: seq<Step>, last: Server)
    requires Reaches(c, st, a, mid) && Reaches(c, mid, b, last)
    ensures Reaches(c, st, a + b, last)
    decreases |a|
  {
    if a == [] {
      assert a + b == b;
    } else {
      Append(c, Next(c, st, a[0]), a[1..], mid, b, last);
      assert (a + b)[1..] == a[1..] + b;
    }
  }

  /** An attempt `x` of key "k" that is accepted under the name "a". */
  function Acceptance(x: nat, tid: string, now: int, expiresAt: int): seq<Step> {
    [Arrive(x, "k")] + ([Count(x)] + ([Decide(x, false, tid, Some("a"), now, expiresAt)] + []))
  }

  function Drawn(st: Server, x: nat, tid: string, now: int, expiresAt: int): Server {
    Decided(LIMITS, CountUse(LIMITS, Arrived(st, x, "k"), x), x, false, tid, Some("a"), now, expiresAt)
  }

  lemma Accepts(st: Server, x: nat, tid: string, now: int, expiresAt: int)
    requires x !in st.sessions && tid !in st.ids && "a" !in st.m.tunnels.bySub
    ensures Reaches(LIMITS, st, Acceptance(x, tid, now, expiresAt), Drawn(st, x, tid, now, expiresAt))
  {
    var n := Drawn(st, x, tid, now, expiresAt);
    var s, decide := Arrived(st, x, "k"), Decide(x, false, tid, Some("a"), now, expiresAt);
    Then(LIMITS, CountUse(LIMITS, s, x), decide, [], n);
    Then(LIMITS, s, Count(x), [decide] + [], n);
    Then(LIMITS, st, Arrive(x, "k"), [Count(x)] + ([decide] + []), n);
  }

  // ---------------------------------------------------------------------------
  // A leaked use
  // ---------------------------------------------------------------------------

  const COUNTED_CLOSED := Boot.(uses := map["k" := 1], sessions := map[0 := Session("k", Closed, Counted, "", "")])

  /** The client hangs up while its key is validated. */
  lemma HangsUp()
    ensures Reaches(LIMITS, Boot, [Arrive(0, "k")] + ([Count(0)] + ([SockClosed(0)] + [])), COUNTED_CLOSED)
  {
    var s1 := Arrived(Boot, 0, "k");
    var s2 := CountUse(LIMITS, s1, 0);
    assert CloseEvent(s2, 0) == COUNTED_CLOSED;
    Then(LIMITS, s2, SockClosed(0), [], COUNTED_CLOSED);
    Then(LIMITS, s1, Count(0), [SockClosed(0)] + [], COUNTED_CLOSED);
    Then(LIMITS, Boot, Arrive(0, "k"), [Count(0)] + ([SockClosed(0)] + []), COUNTED_CLOSED);
  }

  /** It is accepted all the same, and the expiry check takes its tunnel off. */
  lemma AcceptedAndExpired() returns (f: seq<Step>, st: Server)
    ensures Reaches(LIMITS, COUNTED_CLOSED, f, st)
    ensures st.m == EmptyManager && st.uses == map["k" := 1] && st.sessions == map[0 := Held(0, Serving, Closed)]
  {
    var decide := Decide(0, false, "t0", Some("a"), 0, 10);
    var s := Decided(LIMITS, COUNTED_CLOSED, 0, false, "t0", Some("a"), 0, 10);
    assert s.m == EmptyManager.(tunnels := Registration(FIRST)) && s.sessions == map[0 := Held(0, Serving, Closed)];
    UnregisterTheOnly(FIRST);
    st := Expire(s, "a");
    f := [decide] + ([ExpiryTick("a", 11)] + []);
    Then(LIMITS, s, ExpiryTick("a", 11), [], st);
    Then(LIMITS, COUNTED_CLOSED, decide, [ExpiryTick("a", 11)] + [], st);
  }

  /** So a use can leak: no tunnel is registered, and every continuation counts the use. */
  lemma UseCanLeak() returns (steps: seq<Step>, st: Server)
    ensures Reaches(LIMITS, Boot, steps, st)
    ensures st.m.tunnels.bySub == map[] && UsesOf(st.uses, "k") == 1
    ensures forall later, last | Reaches(LIMITS, st, later, last) :: UsesOf(last.uses, "k") >= 1
  {
    HangsUp();
    var a, b := [Arrive(0, "k")] + ([Count(0)] + ([SockClosed(0)] + [])), [];
    b, st := AcceptedAndExpired();
    Append(LIMITS, Boot, a, COUNTED_CLOSED, b, st);
    steps := a + b;
    forall later, last | Reaches(LIMITS, st, later, last) ensures UsesOf(last.uses, "k") >= 1 {
      LeakedUseStays(LIMITS, steps, st, later, last, 0);
    }
  }

  // ---------------------------------------------------------------------------
  // A reused name
  // ---------------------------------------------------------------------------

  lemma FirstAccepted() returns (st: Server)
    ensures Reaches(LIMITS, Boot, Acceptance(0, "t0", 0, 10), st)
    ensures st == Boot.(m := EmptyManager.(tunnels := Registration(FIRST)), uses := map["k" := 1],
                        sessions := map[0 := Held(0, Serving, Open)], ids := {"t0"})
  {
    st := Drawn(Boot, 0, "t0", 0, 10);
    Accepts(Boot, 0, "t0", 0, 10);
    assert st.sessions == map[0 := Held(0, Serving, Open)];
  }

  /** Session 0's socket closes; its key has expired; the tick takes the name off the closed socket. */
  lemma FirstExpired(st: Server) returns (n: Server)
    requires st == Boot.(m := EmptyManager.(tunnels := Registration(FIRST)), uses := map["k" := 1],
                         sessions := map[0 := Held(0, Serving, Open)], ids := {"t0"})
    ensures Reaches(LIMITS, st, [SockClosed(0)] + ([ExpiryTick("a", 11)] + []), n)
    ensures n == MIDDLE
  {
    var s := CloseEvent(st, 0);
    assert s == st.(sessions := map[0 := Held(0, Finalizing, Closed)], meters := READ_FIRST);
    UnregisterTheOnly(FIRST);
    n := Expire(s, "a");
    Then(LIMITS, s, ExpiryTick("a", 11), [], n);
    Then(LIMITS, st, SockClosed(0), [ExpiryTick("a", 11)] + [], n);
  }

  /** Session 1 draws the same name. */
  lemma SecondAccepted() returns (n: Server)
    ensures Reaches(LIMITS, MIDDLE, Acceptance(1, "t1", 20, 100), n)
    ensures n == REUSED
  {
    n := Drawn(MIDDLE, 1, "t1", 20, 100);
    Accepts(MIDDLE, 1, "t1", 20, 100);
    assert n.m.tunnels == Registration(SECOND);
    assert n.sessions == REUSED.sessions;
  }

  /** A request starts on the second tunnel while session 0's handler waits for its row. */
  lemma BeforeResume() returns (n: Server)
    ensures Reaches(LIMITS, REUSED, [ForwardStart("a:r", "a")] + ([FinalizeWrite(0, true)] + []), n)
    ensures AboutToResume(n)
  {
    assert OwnedBy("a:r", "a");
    var s := Started(REUSED, "a:r", "a");
    n := Finalized(s, 0, true);
    Then(LIMITS, s, FinalizeWrite(0, true), [], n);
    Then(LIMITS, REUSED, ForwardStart("a:r", "a"), [FinalizeWrite(0, true)] + [], n);
  }

  /** The name "a" is session 1's, one request is being read for it, and session 0 is about to unregister "a". */
  ghost predicate AboutToResume(st: Server) {
    && st.sessions == map[0 := Held(0, Resuming, Closed), 1 := Held(1, Serving, Open)]
    && st.m == REUSED.m && st.reading == map["a:r" := Reading(1, "a", "t1")] && st.via == map[]
    && st.meters.credits == [] && st.ids == {"t0", "t1"}
  }

  /** Session 1 is connected without a tunnel, and its request is pending under a name nobody holds. */
  ghost predicate Orphaned(st: Server) {
    && 1 in st.sessions && st.sessions[1].phase == Serving && st.sessions[1].sock == Open
    && "a:r" in st.m.requests.pending && st.via == map["a:r" := Carrier("a", "t1")]
    && st.m.tunnels == EmptyManager.tunnels
    && 2 !in st.sessions && st.meters.credits == [] && st.ids == {"t0", "t1"} && st.reading == map[]
    && st.sessions[1] == Held(1, Serving, Open)
    && st.m.upgrades == EmptyManager.upgrades && st.m.sockets == EmptyManager.sockets
  }

  /** Session 0 has unregistered the name. */
  ghost predicate NameLost(st: Server) {
    && st.sessions == map[0 := Held(0, Owing, Closed), 1 := Held(1, Serving, Open)]
    && st.m == EmptyManager && st.reading == map["a:r" := Reading(1, "a", "t1")] && st.via == map[]
    && st.meters.credits == [] && st.ids == {"t0", "t1"}
  }

  lemma NameIsLost(s: Server)
    requires AboutToResume(s)
    ensures Reaches(LIMITS, s, [Resume(0)] + [], Resumed(s, 0)) && NameLost(Resumed(s, 0))
  {
    UnregisterTheOnly(SECOND);
    Then(LIMITS, s, Resume(0), [], Resumed(s, 0));
  }

  lemma RequestIsOrphaned(s: Server)
    requires NameLost(s)
    ensures Reaches(LIMITS, s, [ForwardSend("a:r")] + [], Sent(s, "a:r")) && Orphaned(Sent(s, "a:r"))
  {
    Then(LIMITS, s, ForwardSend("a:r"), [], Sent(s, "a:r"));
  }

  lemma ReusingRun() returns (steps: seq<Step>)
    ensures Reaches(LIMITS, Boot, steps, REUSED)
  {
    var s := FirstAccepted();
    var n := FirstExpired(s);
    n := SecondAccepted();
    var a, b := Acceptance(0, "t0", 0, 10), [SockClosed(0)] + ([ExpiryTick("a", 11)] + []);
    Append(LIMITS, Boot, a, s, b, MIDDLE);
    Append(LIMITS, Boot, a + b, MIDDLE, Acceptance(1, "t1", 20, 100), REUSED);
    steps := a + b + Acceptance(1, "t1", 20, 100);
  }

  lemma OrphaningRun() returns (steps: seq<Step>, st: Server)
    ensures Reaches(LIMITS, Boot, steps, st) && Orphaned(st)
  {
    var a := ReusingRun();
    var s := BeforeResume();
    var b := [ForwardStart("a:r", "a")] + ([FinalizeWrite(0, true)] + []);
    NameIsLost(s);
    var n := Resumed(s, 0);
    RequestIsOrphaned(n);
    st := Sent(n, "a:r");
    Append(LIMITS, Boot, a, REUSED, b, s);
    Append(LIMITS, Boot, a + b, s, [Resume(0)] + [], n);
    Append(LIMITS, Boot, a + b + ([Resume(0)] + []), n, [ForwardSend("a:r")] + [], st);
    steps := a + b + ([Resume(0)] + []) + ([ForwardSend("a:r")] + []);
  }

  /**
   * So the ownership of pending requests is not kept by every run: here a request is pending that
   * belongs to no registered tunnel, although its own client is connected.
   */
  lemma OwnershipCanFail() returns (steps: seq<Step>, st: Server)
    ensures Reaches(LIMITS, Boot, steps, st) && Orphaned(st)
    ensures !EveryStep(LIMITS, Boot, steps, SendGuard) && !EveryStep(LIMITS, Boot, steps, NoReuse)
  {
    steps, st := OrphaningRun();
    RequestsStayOwnedIff(LIMITS, steps, st);
    ConnectedTunnelsStayRegisteredIff(LIMITS, steps, st);
    assert !OwnsRequests(st) && !LiveOf(st);
  }

  const THIRD := Tunnel("t2", "k", 2, Active, 30, 0, 0, Some(200))

  /** Session 2 takes the name. */
  lemma ThirdAccepted(st: Server) returns (n: Server)
    requires Orphaned(st)
    ensures Reaches(LIMITS, st, Acceptance(2, "t2", 30, 200), n)
    ensures n.m == st.m.(tunnels := Registration(THIRD)) && n.via == st.via && n.meters == st.meters
    ensures n.reading == map[] && 1 in n.sessions && n.sessions[1] == Held(1, Serving, Open)
  {
    n := Drawn(st, 2, "t2", 30, 200);
    Accepts(st, 2, "t2", 30, 200);
    assert n.m.tunnels == Registration(THIRD);
  }

  /** Session 1's client answers its request with five bytes. */
  lemma ThirdIsBilled(st: Server) returns (n: Server)
    requires st.m.tunnels == Registration(THIRD) && "a:r" in st.m.requests.pending
    requires st.via == map["a:r" := Carrier("a", "t1")] && st.meters.credits == []
    ensures Reaches(LIMITS, st, [Respond("a:r", 5)] + [], n)
    ensures n.m.tunnels.bySub == map["a" := THIRD.(bytes := 5)] && n.meters.credits == [Credit("t1", "a:r", 5)]
  {
    n := Responded(st, "a:r", 5);
    Then(LIMITS, st, Respond("a:r", 5), [], n);
  }

  lemma MisbillingRun() returns (steps: seq<Step>, st: Server)
    ensures Reaches(LIMITS, Boot, steps, st)
    ensures st.m.tunnels.bySub == map["a" := THIRD.(bytes := 5)] && st.meters.credits == [Credit("t1", "a:r", 5)]
  {
    var a, s := OrphaningRun();
    var n := ThirdAccepted(s);
    st := ThirdIsBilled(n);
    Append(LIMITS, Boot, a, s, Acceptance(2, "t2", 30, 200), n);
    steps := a + Acceptance(2, "t2", 30, 200) + ([Respond("a:r", 5)] + []);
    Append(LIMITS, Boot, a + Acceptance(2, "t2", 30, 200), n, [Respond("a:r", 5)] + [], st);
  }

  /** So bytes are not conserved by every run: a tunnel's counter shows five bytes that another one carried. */
  lemma BytesCanFail() returns (steps: seq<Step>, st: Server)
    ensures Reaches(LIMITS, Boot, steps, st)
    ensures "a" in st.m.tunnels.bySub && st.m.tunnels.bySub["a"].bytes == 5
    ensures Billed(st.meters.credits, st.m.tunnels.bySub["a"].id) == 0
    ensures !EveryStep(LIMITS, Boot, steps, BalanceGuard)
  {
    steps, st := MisbillingRun();
    BytesStayConservedIff(LIMITS, steps, st);
    assert st.m.tunnels.bySub["a"] == THIRD.(bytes := 5);
    assert Billed(st.meters.credits, "t2") == 0 by {
      BilledNone(st.meters.credits, "t2");
    }
  }

  /** A public socket opens on the third tunnel. */
  lemma ThirdAdmits(st: Server) returns (n: Server)
    requires st.m.tunnels == Registration(THIRD) && st.via == map["a:r" := Carrier("a", "t1")]
    requires st.m.upgrades == EmptyManager.upgrades && st.m.sockets == EmptyManager.sockets && st.reading == map[]
    ensures Reaches(LIMITS, st, [Admit("a:w", "a")] + [], n)
    ensures n.m.tunnels == st.m.tunnels && n.sessions == st.sessions && n.meters == st.meters
    ensures "a:w" in n.m.sockets.open && n.m.sockets.open["a:w"].subdomain == "a"
    ensures "a:w" in n.via && n.via["a:w"] == Carrier("a", "t2")
  {
    assert OwnedBy("a:w", "a");
    n := Admitted(st, "a:w", "a");
    Then(LIMITS, st, Admit("a:w", "a"), [], n);
  }

  /** It sends seven bytes. */
  lemma ThirdCarries(st: Server) returns (n: Server)
    requires st.m.tunnels == Registration(THIRD) && st.meters.credits == []
    requires "a:w" in st.m.sockets.open && st.m.sockets.open["a:w"].subdomain == "a"
    requires "a:w" in st.via && st.via["a:w"] == Carrier("a", "t2")
    ensures Reaches(LIMITS, st, [Frame("a:w", 7)] + [], n)
    ensures n.m.tunnels.bySub == map["a" := THIRD.(bytes := 7)] && n.meters.credits == [Credit("t2", "a:w", 7)]
    ensures n.sessions == st.sessions
  {
    n := FrameRelayed(st, "a:w", 7);
    FrameIs(st, "a:w", 7);
    Then(LIMITS, st, Frame("a:w", 7), [], n);
  }

  /** Session 1 closes: its close event reads the third tunnel's counters. */
  lemma OwnerCloses(st: Server) returns (n: Server)
    requires st.m.tunnels.bySub == map["a" := THIRD.(bytes := 7)] && 1 in st.sessions
              && st.sessions[1] == Held(1, Serving, Open)
    ensures Reaches(LIMITS, st, [SockClosed(1)] + ([FinalizeWrite(1, true)] + []), n)
    ensures "t1" in n.meters.rows && n.meters.rows["t1"] == Row(Counters(0, 7), true)
              && n.meters.credits == st.meters.credits
  {
    var s := CloseEvent(st, 1);
    assert s.meters.read["t1"] == Counters(0, 7) && s.sessions[1] == Held(1, Finalizing, Closed);
    n := Finalized(s, 1, true);
    Then(LIMITS, s, FinalizeWrite(1, true), [], n);
    Then(LIMITS, st, SockClosed(1), [FinalizeWrite(1, true)] + [], n);
  }

  lemma ThirdInUse() returns (steps: seq<Step>, st: Server)
    ensures Reaches(LIMITS, Boot, steps, st)
    ensures st.m.tunnels.bySub == map["a" := THIRD.(bytes := 7)] && st.meters.credits == [Credit("t2", "a:w", 7)]
    ensures 1 in st.sessions && st.sessions[1] == Held(1, Serving, Open)
  {
    var a, s := OrphaningRun();
    var s1 := ThirdAccepted(s);
    var s2 := ThirdAdmits(s1);
    st := ThirdCarries(s2);
    var b := Acceptance(2, "t2", 30, 200);
    Append(LIMITS, Boot, a, s, b, s1);
    Append(LIMITS, Boot, a + b, s1, [Admit("a:w", "a")] + [], s2);
    steps := a + b + ([Admit("a:w", "a")] + []) + ([Frame("a:w", 7)] + []);
    Append(LIMITS, Boot, a + b + ([Admit("a:w", "a")] + []), s2, [Frame("a:w", 7)] + [], st);
  }

  /** So a final row can be another tunnel's bill: "t1" carried nothing, and its row says seven bytes. */
  lemma FinalRowCanBeAnothers() returns (steps: seq<Step>, st: Server)
    ensures Reaches(LIMITS, Boot, steps, st)
    ensures "t1" in st.meters.rows && st.meters.rows["t1"] == Row(Counters(0, 7), true)
    ensures Billed(st.meters.credits, "t1") == 0
  {
    var a, s := ThirdInUse();
    st := OwnerCloses(s);
    steps := a + ([SockClosed(1)] + ([FinalizeWrite(1, true)] + []));
    Append(LIMITS, Boot, a, s, [SockClosed(1)] + ([FinalizeWrite(1, true)] + []), st);
    BilledNone(st.meters.credits, "t1");
  }
}
