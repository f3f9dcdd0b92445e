/** The invariant of the server, and that every step keeps it. */
module ServerInvariants {
  import opened Basics
  import opened Subdomains
  import opened Registry
  import opened ServerRuns

  // ---------------------------------------------------------------------------
  // The invariant of all runs, by component
  // ---------------------------------------------------------------------------

  /** Every registered tunnel belongs to the session that registered it and has not unregistered it. */
  ghost predicate Registered(bySub: map<string, Tunnel>, ss: map<nat, Session>) {
    forall s | s in bySub ::
      && bySub[s].socket in ss && HasTunnel(ss[bySub[s].socket].phase)
      && ss[bySub[s].socket].sub == s && ss[bySub[s].socket].tid == bySub[s].id
      && ss[bySub[s].socket].key == bySub[s].keyId
  }

  ghost predicate ClosedAfterServing(ss: map<nat, Session>) {
    forall x | x in ss && ss[x].phase in {Finalizing, Resuming, Owing, Done} :: ss[x].sock == Closed
  }

  ghost predicate TunnelIds(ss: map<nat, Session>, ids: set<string>) {
    && (forall x | x in ss && Accepted(ss[x].phase) :: ss[x].tid in ids)
    && (forall x, y | x in ss && y in ss && Accepted(ss[x].phase) && Accepted(ss[y].phase) && ss[x].tid == ss[y].tid ::
          x == y)
  }

  /** The stored use count is exactly the number of attempts that hold a use, and within the limit. */
  ghost predicate UsesTrue(c: Config, uses: map<string, int>, ss: map<nat, Session>) {
    && (forall k :: UsesOf(uses, k) == |Holders(ss, k)|)
    && (forall k | k in c.maxUses :: UsesOf(uses, k) <= c.maxUses[k])
  }

  function KeyLimit(c: Config, key: string): int {
    if key in c.alwaysFree then 1 else if key in c.neverFree then c.perKey else Max(1, c.perKey)
  }

  ghost predicate KeysLimited(c: Config, tunnels: Index) {
    forall k | k in tunnels.byKey :: |tunnels.byKey[k]| <= KeyLimit(c, k)
  }

  ghost predicate SocketsLimited(sockets: Sockets) {
    forall s | s in sockets.count :: sockets.count[s] <= MAX_WEBSOCKETS_PER_TUNNEL
  }

  /** Each of the ids belongs to a registered tunnel, namely the one it was admitted through. */
  ghost predicate Carried(ids: set<string>, via: map<string, Carrier>, bySub: map<string, Tunnel>) {
    forall id | id in ids ::
      id in via && OwnedBy(id, via[id].sub) && via[id].sub in bySub && bySub[via[id].sub].id == via[id].tid
  }

  ghost predicate NamesMatch(open: map<string, Proxied>, via: map<string, Carrier>) {
    forall id | id in open :: id in via && open[id].subdomain == via[id].sub
  }

  ghost predicate ReadingOk(st: Server) {
    && st.reading.Keys !! st.via.Keys && st.reading.Keys !! st.m.requests.log.Keys
    && ReadingThrough(st.reading, st.sessions)
  }

  ghost predicate ReadingThrough(reading: map<string, Reading>, ss: map<nat, Session>) {
    forall id | id in reading ::
      && reading[id].session in ss && Accepted(ss[reading[id].session].phase)
      && ss[reading[id].session].sub == reading[id].sub && ss[reading[id].session].tid == reading[id].tid
      && OwnedBy(id, reading[id].sub)
  }

  /** A finalised row holds the counters its close event read; a serving tunnel has not been read yet. */
  ghost predicate RowsKept(ms: Meters, ss: map<nat, Session>, ids: set<string>) {
    && ms.read.Keys <= ids
    && (forall t | t in ms.rows && ms.rows[t].disconnected :: t in ms.read && ms.rows[t].counters == ms.read[t])
    && (forall x | x in ss && ss[x].phase == Serving :: ss[x].tid !in ms.read)
    && (forall x | x in ss && ss[x].phase == Finalizing :: ss[x].tid in ms.read)
    && (forall i | 0 <= i < |ms.credits| :: ms.credits[i].tid in ids)
  }

  ghost predicate ViaIds(via: map<string, Carrier>, ids: set<string>) {
    forall id | id in via :: via[id].tid in ids
  }

  ghost predicate Sessions(c: Config, st: Server) {
    && Registered(st.m.tunnels.bySub, st.sessions) && ClosedAfterServing(st.sessions)
    && TunnelIds(st.sessions, st.ids) && UsesTrue(c, st.uses, st.sessions)
  }

  ghost predicate Limits(c: Config, st: Server) {
    KeysLimited(c, st.m.tunnels) && SocketsLimited(st.m.sockets)
  }

  ghost predicate SocketsOwned(st: Server) {
    && Carried(st.m.sockets.open.Keys, st.via, st.m.tunnels.bySub) && NamesMatch(st.m.sockets.open, st.via)
    && Carried(st.m.upgrades.pending.Keys, st.via, st.m.tunnels.bySub)
  }

  ghost predicate Base(c: Config, st: Server) {
    && Consistent(st.m) && Sessions(c, st) && Limits(c, st) && SocketsOwned(st)
    && ReadingOk(st) && RowsKept(st.meters, st.sessions, st.ids) && ViaIds(st.via, st.ids)
  }

  // ---------------------------------------------------------------------------
  // Moves of one session
  // ---------------------------------------------------------------------------

  lemma HoldersAfter(ss: map<nat, Session>, x: nat, s: Session, key: string)
    requires x in ss ==> ss[x].key == s.key
    ensures key != s.key ==> Holders(ss[x := s], key) == Holders(ss, key)
    ensures Holders(ss[x := s], s.key) == if Holds(s.phase) then Holders(ss, s.key) + {x} else Holders(ss, s.key) - {x}
  {
  }

  /** A move that neither takes nor gives back a use. */
  lemma UsesUnchanged(c: Config, uses: map<string, int>, ss: map<nat, Session>, x: nat, s: Session)
    requires UsesTrue(c, uses, ss)
    requires if x in ss then s.key == ss[x].key && Holds(s.phase) == Holds(ss[x].phase) else !Holds(s.phase)
    ensures UsesTrue(c, uses, ss[x := s])
  {
    forall k ensures Holders(ss[x := s], k) == Holders(ss, k) {
      HoldersAfter(ss, x, s, k);
    }
  }

  lemma UsesMore(c: Config, uses: map<string, int>, ss: map<nat, Session>, x: nat, s: Session)
    requires UsesTrue(c, uses, ss) && x in ss && s.key == ss[x].key
    requires !Holds(ss[x].phase) && Holds(s.phase) && MayCount(c, uses, s.key)
    ensures UsesTrue(c, uses[s.key := UsesOf(uses, s.key) + 1], ss[x := s])
  {
    var n := uses[s.key := UsesOf(uses, s.key) + 1];
    forall k ensures UsesOf(n, k) == |Holders(ss[x := s], k)| {
      HoldersAfter(ss, x, s, k);
    }
  }

  /** The floor at zero is never needed: the decremented count is that of the remaining holders. */
  lemma UsesLess(c: Config, uses: map<string, int>, ss: map<nat, Session>, x: nat, s: Session)
    requires UsesTrue(c, uses, ss) && x in ss && s.key == ss[x].key
    requires Holds(ss[x].phase) && !Holds(s.phase)
    ensures UsesTrue(c, Decremented(uses, s.key), ss[x := s])
    ensures UsesOf(Decremented(uses, s.key), s.key) == UsesOf(uses, s.key) - 1
  {
    var n := Decremented(uses, s.key);
    assert x in Holders(ss, s.key);
    forall k ensures UsesOf(n, k) == |Holders(ss[x := s], k)| {
      HoldersAfter(ss, x, s, k);
    }
    forall k | k in c.maxUses ensures UsesOf(n, k) <= c.maxUses[k] {
      assert UsesOf(uses, k) <= c.maxUses[k];
    }
  }

  /** A move of `x` that keeps its key, its tunnel and its registration. */
  predicate Moves(ss: map<nat, Session>, x: nat, s: Session) {
    && x in ss && s.key == ss[x].key && s.sub == ss[x].sub && s.tid == ss[x].tid
    && Accepted(s.phase) == Accepted(ss[x].phase)
    && (s.phase in {Finalizing, Resuming, Owing, Done} ==> s.sock == Closed)
  }

  lemma MoveKeeps(bySub: map<string, Tunnel>, ss: map<nat, Session>, ids: set<string>, x: nat, s: Session)
    requires Registered(bySub, ss) && ClosedAfterServing(ss) && TunnelIds(ss, ids) && Moves(ss, x, s)
    requires HasTunnel(s.phase) || forall n | n in bySub :: bySub[n].socket != x
    ensures Registered(bySub, ss[x := s]) && ClosedAfterServing(ss[x := s]) && TunnelIds(ss[x := s], ids)
  {
  }

  lemma MoveKeepsReading(reading: map<string, Reading>, ss: map<nat, Session>, x: nat, s: Session)
    requires ReadingThrough(reading, ss) && (x in ss ==> Moves(ss, x, s))
    ensures ReadingThrough(reading, ss[x := s])
  {
  }

  lemma MoveKeepsRows(ms: Meters, ss: map<nat, Session>, ids: set<string>, x: nat, s: Session)
    requires RowsKept(ms, ss, ids)
    requires s.phase == Serving ==> s.tid !in ms.read
    requires s.phase == Finalizing ==> s.tid in ms.read
    ensures RowsKept(ms, ss[x := s], ids)
  {
  }

  // ---------------------------------------------------------------------------
  // Moves of the tunnel index
  // ---------------------------------------------------------------------------

  /** Fields of a record other than its identity changed. */
  predicate SameTunnels(a: map<string, Tunnel>, b: map<string, Tunnel>) {
    && a.Keys == b.Keys
    && forall s | s in a :: a[s].id == b[s].id && a[s].keyId == b[s].keyId && a[s].socket == b[s].socket
  }

  ghost predicate SameRecords(a: Index, b: Index) {
    IndexesAgree(b) && a.byKey == b.byKey && SameTunnels(a.bySub, b.bySub)
  }

  lemma SetStateSame(x: Index, sub: string, st: TunnelState)
    requires IndexesAgree(x)
    ensures SameRecords(x, SetState(x, sub, st))
  {
    SetStateKeeps(x, sub, st);
  }

  lemma HeartbeatSame(x: Index, sub: string, now: int, count: Option<int>)
    requires IndexesAgree(x)
    ensures SameRecords(x, Heartbeat(x, sub, now, count))
  {
    HeartbeatKeeps(x, sub, now, count);
  }

  lemma CountersSame(x: Index, sub: string, n: int)
    requires IndexesAgree(x)
    ensures SameRecords(x, CountRequest(x, sub)) && SameRecords(x, AddBytes(x, sub, n))
  {
    CountersKeep(x, sub, n);
  }

  lemma SameTunnelsKeep(a: map<string, Tunnel>, b: map<string, Tunnel>, ss: map<nat, Session>)
    requires SameTunnels(a, b) && Registered(a, ss)
    ensures Registered(b, ss)
  {
  }

  lemma SameTunnelsCarry(a: map<string, Tunnel>, b: map<string, Tunnel>, ids: set<string>, via: map<string, Carrier>)
    requires SameTunnels(a, b) && Carried(ids, via, a)
    ensures Carried(ids, via, b)
  {
  }

  lemma AddedCarries(bySub: map<string, Tunnel>, sub: string, t: Tunnel, ids: set<string>, via: map<string, Carrier>)
    requires sub !in bySub && Carried(ids, via, bySub)
    ensures Carried(ids, via, bySub[sub := t])
  {
  }

  /** Removing a name together with the ids that carry its prefix. */
  lemma RemovedCarries(bySub: map<string, Tunnel>, sub: string, ids: set<string>, left: set<string>,
                       via: map<string, Carrier>)
    requires Carried(ids, via, bySub) && left <= ids && forall id | id in left :: !OwnedBy(id, sub)
    ensures Carried(left, via, bySub - {sub})
  {
  }

  lemma UnregisterCarries(m: Manager, sub: string, via: map<string, Carrier>)
    requires Carried(m.sockets.open.Keys, via, m.tunnels.bySub) && NamesMatch(m.sockets.open, via)
    requires Carried(m.upgrades.pending.Keys, via, m.tunnels.bySub)
    ensures var n := Unregister(m, sub);
            && Carried(n.sockets.open.Keys, via, n.tunnels.bySub) && NamesMatch(n.sockets.open, via)
            && Carried(n.upgrades.pending.Keys, via, n.tunnels.bySub)
  {
    if sub in m.tunnels.bySub {
      var n := Unregister(m, sub);
      RemovedCarries(m.tunnels.bySub, sub, m.upgrades.pending.Keys, n.upgrades.pending.Keys, via);
      forall id | id in n.sockets.open ensures id in m.sockets.open && via[id].sub != sub {
        assert id !in SocketsOf(m.sockets, sub);
      }
    }
  }

  lemma UnregisterRegistered(m: Manager, sub: string, ss: map<nat, Session>)
    requires Registered(m.tunnels.bySub, ss)
    ensures Registered(Unregister(m, sub).tunnels.bySub, ss)
    ensures forall x | x in ss && ss[x].sub == sub :: forall n | n in Unregister(m, sub).tunnels.bySub ::
              Unregister(m, sub).tunnels.bySub[n].socket != x
  {
  }

  lemma UnregisterLimits(c: Config, m: Manager, sub: string)
    requires IndexesAgree(m.tunnels) && KeysLimited(c, m.tunnels) && SocketsLimited(m.sockets)
    ensures KeysLimited(c, Unregister(m, sub).tunnels) && SocketsLimited(Unregister(m, sub).sockets)
  {
    if sub in m.tunnels.bySub {
      var k := m.tunnels.bySub[sub].keyId;
      SubsetSize(m.tunnels.byKey[k] - {sub}, m.tunnels.byKey[k]);
    }
  }

  // ---------------------------------------------------------------------------
  // Every step keeps the invariant
  // ---------------------------------------------------------------------------

  lemma BootBase(c: Config)
    ensures Base(c, Boot)
  {
    assert forall k :: Holders(Boot.sessions, k) == {};
  }

  /** A step that only moves one session. */
  lemma SessionMoveKeeps(c: Config, st: Server, x: nat, s: Session)
    requires Base(c, st) && Moves(st.sessions, x, s) && Holds(s.phase) == Holds(st.sessions[x].phase)
    requires HasTunnel(s.phase) == HasTunnel(st.sessions[x].phase)
    requires s.phase == Serving ==> st.sessions[x].phase == Serving
    requires s.phase == Finalizing ==> st.sessions[x].phase == Finalizing
    ensures Base(c, st.(sessions := st.sessions[x := s]))
  {
    UsesUnchanged(c, st.uses, st.sessions, x, s);
    MoveKeeps(st.m.tunnels.bySub, st.sessions, st.ids, x, s);
    MoveKeepsReading(st.reading, st.sessions, x, s);
    MoveKeepsRows(st.meters, st.sessions, st.ids, x, s);
  }

  lemma ClosingKeeps(c: Config, st: Server, x: nat)
    requires Base(c, st)
    ensures Base(c, st.(sessions := ClosingSock(st.sessions, x)))
  {
    if x in st.sessions && st.sessions[x].sock == Open {
      SessionMoveKeeps(c, st, x, st.sessions[x].(sock := Closing));
    }
  }

  lemma ArriveKeeps(c: Config, st: Server, x: nat, key: string)
    requires Base(c, st) && x !in st.sessions
    ensures Base(c, Arrived(st, x, key))
  {
    var s := Session(key, Open, Arriving, "", "");
    ArrivedSessions(st.m.tunnels.bySub, st.sessions, st.ids, x, s);
    UsesUnchanged(c, st.uses, st.sessions, x, s);
    MoveKeepsReading(st.reading, st.sessions, x, s);
    MoveKeepsRows(st.meters, st.sessions, st.ids, x, s);
  }

  lemma ArrivedSessions(bySub: map<string, Tunnel>, ss: map<nat, Session>, ids: set<string>, x: nat, s: Session)
    requires Registered(bySub, ss) && ClosedAfterServing(ss) && TunnelIds(ss, ids) && x !in ss && s.phase == Arriving
    ensures Registered(bySub, ss[x := s]) && ClosedAfterServing(ss[x := s]) && TunnelIds(ss[x := s], ids)
  {
  }

  lemma RefuseKeeps(c: Config, st: Server, x: nat, p: Phase)
    requires Base(c, st) && x in st.sessions
    requires (st.sessions[x].phase, p) in {(Arriving, RefusedEarly), (Counted, RefusedLate)}
    ensures Base(c, Refused(st, x, p))
  {
    var s := st.sessions[x].(phase := p);
    SessionMoveKeeps(c, st, x, s);
    ClosingKeeps(c, st.(sessions := st.sessions[x := s]), x);
  }

  lemma CountKeeps(c: Config, st: Server, x: nat)
    requires Base(c, st) && x in st.sessions && st.sessions[x].phase == Arriving
    ensures Base(c, CountUse(c, st, x))
  {
    var s := st.sessions[x].(phase := Counted);
    if MayCount(c, st.uses, s.key) {
      UsesMore(c, st.uses, st.sessions, x, s);
      MoveKeeps(st.m.tunnels.bySub, st.sessions, st.ids, x, s);
      MoveKeepsReading(st.reading, st.sessions, x, s);
      MoveKeepsRows(st.meters, st.sessions, st.ids, x, s);
    } else {
      RefuseKeeps(c, st, x, RefusedEarly);
    }
  }

  lemma DecrementKeeps(c: Config, st: Server, x: nat)
    requires Base(c, st) && x in st.sessions && st.sessions[x].phase == Owing
    ensures Base(c, GivenBack(st, x))
  {
    var s := st.sessions[x].(phase := Done);
    UsesLess(c, st.uses, st.sessions, x, s);
    MoveKeeps(st.m.tunnels.bySub, st.sessions, st.ids, x, s);
    MoveKeepsReading(st.reading, st.sessions, x, s);
    MoveKeepsRows(st.meters, st.sessions, st.ids, x, s);
  }

  lemma CloseEventKeeps(c: Config, st: Server, x: nat)
    requires Base(c, st) && x in st.sessions && st.sessions[x].sock != Closed
    ensures Base(c, CloseEvent(st, x))
  {
    var s := st.sessions[x].(sock := Closed);
    if s.phase != Serving {
      SessionMoveKeeps(c, st, x, s);
    } else if s.sub in st.m.tunnels.bySub {
      var f, n := s.(phase := Finalizing), CloseEvent(st, x);
      UsesUnchanged(c, st.uses, st.sessions, x, f);
      MoveKeeps(st.m.tunnels.bySub, st.sessions, st.ids, x, f);
      MoveKeepsReading(st.reading, st.sessions, x, f);
      ReadKeepsRows(st.meters, st.sessions, st.ids, x, n.meters.read[s.tid]);
    } else {
      var f := s.(phase := Owing);
      assert forall n | n in st.m.tunnels.bySub :: st.m.tunnels.bySub[n].socket != x;
      UsesUnchanged(c, st.uses, st.sessions, x, f);
      MoveKeeps(st.m.tunnels.bySub, st.sessions, st.ids, x, f);
      MoveKeepsReading(st.reading, st.sessions, x, f);
      MoveKeepsRows(st.meters, st.sessions, st.ids, x, f);
    }
  }

  /** The close event's reading: its tunnel id is new to `read`, so no finalised row is disturbed. */
  lemma ReadKeepsRows(ms: Meters, ss: map<nat, Session>, ids: set<string>, x: nat, now: Counters)
    requires RowsKept(ms, ss, ids) && TunnelIds(ss, ids) && x in ss && ss[x].phase == Serving
    ensures RowsKept(ms.(read := ms.read[ss[x].tid := now]), ss[x := ss[x].(sock := Closed, phase := Finalizing)], ids)
  {
  }

  lemma FinalizeKeeps(c: Config, st: Server, x: nat, ok: bool)
    requires Base(c, st) && x in st.sessions && st.sessions[x].phase == Finalizing
    ensures Base(c, Finalized(st, x, ok))
  {
    var s := st.sessions[x].(phase := Resuming);
    SessionMoveKeeps(c, st, x, s);
  }

  lemma UnregisterKeepsBase(c: Config, st: Server, sub: string)
    requires Base(c, st)
    ensures Base(c, st.(m := Unregister(st.m, sub)))
  {
    UnregisterKeeps(st.m, sub);
    UnregisterRegistered(st.m, sub, st.sessions);
    UnregisterLimits(c, st.m, sub);
    UnregisterCarries(st.m, sub, st.via);
  }

  lemma ResumeKeeps(c: Config, st: Server, x: nat)
    requires Base(c, st) && x in st.sessions && st.sessions[x].phase == Resuming
    ensures Base(c, Resumed(st, x))
  {
    var n, s := st.(m := Unregister(st.m, st.sessions[x].sub)), st.sessions[x].(phase := Owing);
    UnregisterKeepsBase(c, st, st.sessions[x].sub);
    UnregisterRegistered(st.m, st.sessions[x].sub, st.sessions);
    UsesUnchanged(c, n.uses, n.sessions, x, s);
    MoveKeeps(n.m.tunnels.bySub, n.sessions, n.ids, x, s);
    MoveKeepsReading(n.reading, n.sessions, x, s);
    MoveKeepsRows(n.meters, n.sessions, n.ids, x, s);
  }

  lemma DecideKeeps(c: Config, st: Server, x: nat, free: bool, tid: string, name: Option<string>, now: int,
                    expiresAt: int)
    requires Base(c, st) && CanStep(c, st, Decide(x, free, tid, name, now, expiresAt))
    ensures Base(c, Decided(c, st, x, free, tid, name, now, expiresAt))
  {
    var s := st.sessions[x];
    var max := if free then 1 else c.perKey;
    if |KeySet(st.m.tunnels, s.key)| >= max || name.None? {
      RefuseKeeps(c, st, x, RefusedLate);
    } else {
      var t := Tunnel(tid, s.key, x, Active, now, 0, 0, Some(expiresAt));
      AcceptKeeps(c, st, x, t, name.value);
    }
  }

  /** The state after the accepted case. */
  function WithTunnel(st: Server, x: nat, t: Tunnel, sub: string): Server
    requires x in st.sessions
  {
    st.(m := st.m.(tunnels := AddTunnel(st.m.tunnels, sub, t)),
        sessions := st.sessions[x := st.sessions[x].(phase := Serving, sub := sub, tid := t.id)],
        ids := st.ids + {t.id})
  }

  /** The accepted case: the tunnel id is new, the name is free, the key is below its limit. */
  lemma AcceptKeeps(c: Config, st: Server, x: nat, t: Tunnel, sub: string)
    requires Base(c, st) && x in st.sessions && st.sessions[x].phase == Counted && st.sessions[x].key == t.keyId
    requires t.socket == x && t.id !in st.ids && ':' !in sub && sub !in st.m.tunnels.bySub
    requires |KeySet(st.m.tunnels, t.keyId)| < KeyLimit(c, t.keyId)
    ensures Base(c, WithTunnel(st, x, t, sub))
  {
    var s := st.sessions[x].(phase := Serving, sub := sub, tid := t.id);
    AcceptedSessions(c, st.m.tunnels, st.uses, st.sessions, st.ids, x, s, sub, t);
    AcceptedLimits(c, st.m.tunnels, sub, t);
    AcceptKeepsOwned(st, x, t, sub);
  }

  lemma AcceptKeepsOwned(st: Server, x: nat, t: Tunnel, sub: string)
    requires SocketsOwned(st) && ReadingOk(st) && RowsKept(st.meters, st.sessions, st.ids)
    requires x in st.sessions && st.sessions[x].phase == Counted && t.id !in st.ids && sub !in st.m.tunnels.bySub
    ensures var n := WithTunnel(st, x, t, sub);
            SocketsOwned(n) && ReadingOk(n) && RowsKept(n.meters, n.sessions, n.ids)
  {
    var s := st.sessions[x].(phase := Serving, sub := sub, tid := t.id);
    AddedCarries(st.m.tunnels.bySub, sub, t, st.m.sockets.open.Keys, st.via);
    AddedCarries(st.m.tunnels.bySub, sub, t, st.m.upgrades.pending.Keys, st.via);
    AcceptedReading(st.reading, st.sessions, x, s);
    AcceptedRows(st.meters, st.sessions, st.ids, x, s);
  }

  lemma AcceptedSessions(c: Config, tunnels: Index, uses: map<string, int>, ss: map<nat, Session>, ids: set<string>,
                         x: nat, s: Session, sub: string, t: Tunnel)
    requires IndexesAgree(tunnels) && Registered(tunnels.bySub, ss) && ClosedAfterServing(ss)
    requires TunnelIds(ss, ids) && UsesTrue(c, uses, ss)
    requires x in ss && ss[x].phase == Counted && s == ss[x].(phase := Serving, sub := sub, tid := t.id)
    requires t.socket == x && t.keyId == s.key && t.id !in ids && ':' !in sub && sub !in tunnels.bySub
    ensures IndexesAgree(AddTunnel(tunnels, sub, t)) && Registered(AddTunnel(tunnels, sub, t).bySub, ss[x := s])
    ensures ClosedAfterServing(ss[x := s]) && TunnelIds(ss[x := s], ids + {t.id}) && UsesTrue(c, uses, ss[x := s])
  {
    NewIdIsUnused(tunnels, ss, ids, t.id);
    AddTunnelKeeps(tunnels, sub, t);
    AcceptedRegistered(tunnels.bySub, ss, x, s, sub, t);
    AcceptedIds(ss, ids, x, s);
    UsesUnchanged(c, uses, ss, x, s);
  }

  lemma NewIdIsUnused(tunnels: Index, ss: map<nat, Session>, ids: set<string>, tid: string)
    requires IndexesAgree(tunnels) && Registered(tunnels.bySub, ss) && TunnelIds(ss, ids) && tid !in ids
    ensures tid !in tunnels.byId
  {
  }

  lemma AcceptedRegistered(bySub: map<string, Tunnel>, ss: map<nat, Session>, x: nat, s: Session, sub: string,
                           t: Tunnel)
    requires Registered(bySub, ss) && ClosedAfterServing(ss) && x in ss && ss[x].phase == Counted
    requires s == ss[x].(phase := Serving, sub := sub, tid := t.id) && t.socket == x && t.keyId == s.key
    ensures Registered(bySub[sub := t], ss[x := s]) && ClosedAfterServing(ss[x := s])
  {
  }

  lemma AcceptedIds(ss: map<nat, Session>, ids: set<string>, x: nat, s: Session)
    requires TunnelIds(ss, ids) && x in ss && s.tid !in ids
    ensures TunnelIds(ss[x := s], ids + {s.tid})
  {
  }

  lemma AcceptedLimits(c: Config, tunnels: Index, sub: string, t: Tunnel)
    requires KeysLimited(c, tunnels) && |KeySet(tunnels, t.keyId)| < KeyLimit(c, t.keyId)
    ensures KeysLimited(c, AddTunnel(tunnels, sub, t))
  {
    var n := AddTunnel(tunnels, sub, t);
    assert |n.byKey[t.keyId]| <= |KeySet(tunnels, t.keyId)| + 1;
  }

  lemma AcceptedReading(reading: map<string, Reading>, ss: map<nat, Session>, x: nat, s: Session)
    requires ReadingThrough(reading, ss) && x in ss && !Accepted(ss[x].phase)
    ensures ReadingThrough(reading, ss[x := s])
  {
  }

  lemma AcceptedRows(ms: Meters, ss: map<nat, Session>, ids: set<string>, x: nat, s: Session)
    requires RowsKept(ms, ss, ids) && s.phase == Serving && s.tid !in ids
    ensures RowsKept(ms, ss[x := s], ids + {s.tid})
  {
  }

  lemma ExpireKeeps(c: Config, st: Server, sub: string)
    requires Base(c, st) && sub in st.m.tunnels.bySub
    ensures Base(c, Expire(st, sub))
  {
    ClosingKeeps(c, st, st.m.tunnels.bySub[sub].socket);
    UnregisterKeepsBase(c, st, sub);
  }

  // ---------------------------------------------------------------------------
  // Steps that change one component
  // ---------------------------------------------------------------------------

  /** Counters or states of tunnel records change. */
  lemma RecordsKeep(c: Config, st: Server, tunnels: Index)
    requires Base(c, st) && SameRecords(st.m.tunnels, tunnels)
    ensures Base(c, st.(m := st.m.(tunnels := tunnels)))
  {
    SameTunnelsKeep(st.m.tunnels.bySub, tunnels.bySub, st.sessions);
    SameTunnelsCarry(st.m.tunnels.bySub, tunnels.bySub, st.m.sockets.open.Keys, st.via);
    SameTunnelsCarry(st.m.tunnels.bySub, tunnels.bySub, st.m.upgrades.pending.Keys, st.via);
  }

  lemma RequestsKeep(c: Config, st: Server, p: Promises)
    requires Base(c, st) && PromisesAgree(p) && st.reading.Keys !! p.log.Keys
    ensures Base(c, st.(m := st.m.(requests := p)))
  {
  }

  lemma UpgradesKeep(c: Config, st: Server, p: Promises)
    requires Base(c, st) && UpgradesAgree(p) && Carried(p.pending.Keys, st.via, st.m.tunnels.bySub)
    ensures Base(c, st.(m := st.m.(upgrades := p)))
  {
  }

  ghost predicate SocketsOk(x: Sockets, via: map<string, Carrier>, bySub: map<string, Tunnel>) {
    CountsAgree(x) && SocketsLimited(x) && Carried(x.open.Keys, via, bySub) && NamesMatch(x.open, via)
  }

  lemma SocketsKeep(c: Config, st: Server, x: Sockets)
    requires Base(c, st) && SocketsOk(x, st.via, st.m.tunnels.bySub)
    ensures Base(c, st.(m := st.m.(sockets := x)))
  {
  }

  lemma MetersKeep(c: Config, st: Server, ms: Meters)
    requires Base(c, st) && RowsKept(ms, st.sessions, st.ids)
    ensures Base(c, st.(meters := ms))
  {
  }

  lemma ReadingKeeps(c: Config, st: Server, reading: map<string, Reading>)
    requires Base(c, st) && reading.Keys !! st.via.Keys && reading.Keys !! st.m.requests.log.Keys
    requires ReadingThrough(reading, st.sessions)
    ensures Base(c, st.(reading := reading))
  {
  }

  /** Recording the carrier of a new id. */
  lemma ViaKeeps(c: Config, st: Server, id: string, v: Carrier)
    requires Base(c, st) && id !in st.via && id !in st.reading && v.tid in st.ids
    ensures Base(c, st.(via := st.via[id := v]))
  {
    ViaCarries(st.m.sockets.open.Keys, st.via, id, v, st.m.tunnels.bySub);
    ViaCarries(st.m.upgrades.pending.Keys, st.via, id, v, st.m.tunnels.bySub);
    ViaMatches(st.m.sockets.open, st.via, st.ids, id, v);
  }

  lemma ViaCarries(ids: set<string>, via: map<string, Carrier>, id: string, v: Carrier, bySub: map<string, Tunnel>)
    requires Carried(ids, via, bySub) && id !in via
    ensures Carried(ids, via[id := v], bySub)
  {
  }

  lemma ViaMatches(open: map<string, Proxied>, via: map<string, Carrier>, ids: set<string>, id: string, v: Carrier)
    requires NamesMatch(open, via) && ViaIds(via, ids) && id !in via && v.tid in ids
    ensures NamesMatch(open, via[id := v]) && ViaIds(via[id := v], ids)
  {
  }

  lemma CreditKeeps(ms: Meters, ss: map<nat, Session>, ids: set<string>, tid: string, id: string, bytes: int)
    requires RowsKept(ms, ss, ids) && tid in ids
    ensures RowsKept(Credited(ms, tid, id, bytes), ss, ids)
  {
  }

  lemma DropSocketOk(x: Sockets, id: string, via: map<string, Carrier>, bySub: map<string, Tunnel>)
    requires SocketsOk(x, via, bySub)
    ensures SocketsOk(DropSocket(x, id), via, bySub)
  {
    DropSocketKeeps(x, id);
  }

  lemma AddSocketOk(x: Sockets, id: string, sub: string, via: map<string, Carrier>, bySub: map<string, Tunnel>)
    requires SocketsOk(x, via, bySub) && id !in x.open && CountOf(x, sub) < MAX_WEBSOCKETS_PER_TUNNEL
    requires Carried({id}, via, bySub) && via[id].sub == sub
    ensures SocketsOk(AddSocket(x, id, sub), via, bySub)
  {
    AddSocketKeeps(x, id, sub);
    assert id in {id};
  }

  lemma FrameOk(x: Sockets, id: string, n: int, via: map<string, Carrier>, bySub: map<string, Tunnel>)
    requires SocketsOk(x, via, bySub) && id in x.open
    ensures SocketsOk(FrameSeen(x, id, n), via, bySub)
  {
    FrameSeenKeeps(x, id, n);
  }

  // ---------------------------------------------------------------------------
  // Heartbeats, forwards and proxied sockets
  // ---------------------------------------------------------------------------

  lemma HeartbeatCheckKeeps(c: Config, st: Server, x: nat, now: int)
    requires Base(c, st) && x in st.sessions
    ensures Base(c, CheckHeartbeat(c, st, x, now))
  {
    var tunnels := SetState(st.m.tunnels, st.sessions[x].sub, HeartbeatLost);
    SetStateSame(st.m.tunnels, st.sessions[x].sub, HeartbeatLost);
    RecordsKeep(c, st, tunnels);
    ClosingKeeps(c, st.(m := st.m.(tunnels := tunnels)), x);
  }

  lemma HeartbeatSeenKeeps(c: Config, st: Server, sub: string, now: int, count: Option<int>)
    requires Base(c, st)
    ensures Base(c, st.(m := st.m.(tunnels := Heartbeat(st.m.tunnels, sub, now, count))))
  {
    HeartbeatSame(st.m.tunnels, sub, now, count);
    RecordsKeep(c, st, Heartbeat(st.m.tunnels, sub, now, count));
  }

  lemma StartKeeps(c: Config, st: Server, id: string, sub: string)
    requires Base(c, st) && id !in st.m.requests.log && id !in st.via && OwnedBy(id, sub)
    ensures Base(c, Started(st, id, sub))
  {
    if sub in st.m.tunnels.bySub && st.m.tunnels.bySub[sub].state == Active {
      StartedThrough(st.m.tunnels.bySub, st.sessions, st.reading, id, sub);
      ReadingKeeps(c, st, Started(st, id, sub).reading);
    }
  }

  lemma StartedThrough(bySub: map<string, Tunnel>, ss: map<nat, Session>, reading: map<string, Reading>, id: string,
                       sub: string)
    requires Registered(bySub, ss) && ReadingThrough(reading, ss) && sub in bySub && OwnedBy(id, sub)
    ensures ReadingThrough(reading[id := Reading(bySub[sub].socket, sub, bySub[sub].id)], ss)
  {
  }

  lemma SendKeeps(c: Config, st: Server, id: string)
    requires Base(c, st) && id in st.reading
    ensures Base(c, Sent(st, id))
  {
    var f, n := st.reading[id], st.(reading := st.reading - {id});
    ReadingKeeps(c, st, st.reading - {id});
    if f.session in st.sessions && st.sessions[f.session].sock == Open {
      CountersSame(n.m.tunnels, f.sub, 0);
      RecordsKeep(c, n, CountRequest(n.m.tunnels, f.sub));
      var n1 := n.(m := n.m.(tunnels := CountRequest(n.m.tunnels, f.sub)));
      AwaitKeeps(n1.m.requests, id);
      RequestsKeep(c, n1, Await(n1.m.requests, id));
      ViaKeeps(c, n1.(m := n1.m.(requests := Await(n1.m.requests, id))), id, Carrier(f.sub, f.tid));
    }
  }

  lemma RespondKeeps(c: Config, st: Server, id: string, bytes: int)
    requires Base(c, st)
    ensures Base(c, Responded(st, id, bytes))
  {
    if id in st.m.requests.pending && id in st.via {
      var tunnels := AddBytes(st.m.tunnels, st.via[id].sub, bytes);
      CountersSame(st.m.tunnels, st.via[id].sub, bytes);
      RecordsKeep(c, st, tunnels);
      var n := st.(m := st.m.(tunnels := tunnels));
      SettleKeeps(n.m.requests, {id}, Resolved);
      RequestsKeep(c, n, Resolve(n.m.requests, id));
      CreditKeeps(n.meters, n.sessions, n.ids, st.via[id].tid, id, bytes);
      MetersKeep(c, n.(m := n.m.(requests := Resolve(n.m.requests, id))),
                 Credited(st.meters, st.via[id].tid, id, bytes));
    }
  }

  lemma RequestTimeoutKeeps(c: Config, st: Server, id: string)
    requires Base(c, st) && id in st.m.requests.timers
    ensures Base(c, st.(m := st.m.(requests := Settle(st.m.requests, {id}, TimedOut))))
  {
    SettleKeeps(st.m.requests, {id}, TimedOut);
    RequestsKeep(c, st, Settle(st.m.requests, {id}, TimedOut));
  }

  lemma DropSocketKeepsBase(c: Config, st: Server, id: string)
    requires Base(c, st)
    ensures Base(c, st.(m := st.m.(sockets := DropSocket(st.m.sockets, id))))
  {
    DropSocketOk(st.m.sockets, id, st.via, st.m.tunnels.bySub);
    SocketsKeep(c, st, DropSocket(st.m.sockets, id));
  }

  lemma SettleCarries(p: Promises, ids: set<string>, o: Outcome, via: map<string, Carrier>, bySub: map<string, Tunnel>)
    requires Carried(p.pending.Keys, via, bySub)
    ensures Carried(Settle(p, ids, o).pending.Keys, via, bySub)
  {
  }

  lemma SettledAgree(p: Promises, id: string, o: Outcome)
    requires UpgradesAgree(p) && id in p.pending
    ensures UpgradesAgree(Settle(p, {id}, o))
  {
    SettleKeeps(p, {id}, o);
  }

  lemma SettleUpgradeKeeps(c: Config, st: Server, id: string, o: Outcome)
    requires Base(c, st) && id in st.m.upgrades.pending
    ensures Base(c, st.(m := st.m.(upgrades := Settle(st.m.upgrades, {id}, o))))
  {
    SettledAgree(st.m.upgrades, id, o);
    SettleCarries(st.m.upgrades, {id}, o, st.via, st.m.tunnels.bySub);
    UpgradesKeep(c, st, Settle(st.m.upgrades, {id}, o));
  }

  lemma AnswerKeeps(c: Config, st: Server, id: string, accepted: bool)
    requires Base(c, st)
    ensures Base(c, Answered(st, id, accepted))
  {
    if id in st.m.upgrades.pending {
      SettleUpgradeKeeps(c, st, id, Resolved);
      if !accepted {
        DropSocketKeepsBase(c, st.(m := st.m.(upgrades := Resolve(st.m.upgrades, id))), id);
      }
    }
  }

  lemma UpgradeTimeoutKeeps(c: Config, st: Server, id: string)
    requires Base(c, st) && id in st.m.upgrades.timers
    ensures Base(c, st.(m := UpgradeFailed(st.m, id)))
  {
    SettleUpgradeKeeps(c, st, id, TimedOut);
    DropSocketKeepsBase(c, st.(m := st.m.(upgrades := Settle(st.m.upgrades, {id}, TimedOut))), id);
  }

  lemma AdmitKeeps(c: Config, st: Server, id: string, sub: string)
    requires Base(c, st) && OwnedBy(id, sub)
    requires id !in st.m.upgrades.log && id !in st.m.sockets.open && id !in st.via && id !in st.reading
    ensures Base(c, Admitted(st, id, sub))
  {
    if sub in st.m.tunnels.bySub && st.m.tunnels.bySub[sub].state == Active
       && CountOf(st.m.sockets, sub) < MAX_WEBSOCKETS_PER_TUNNEL {
      var v := Carrier(sub, st.m.tunnels.bySub[sub].id);
      ViaKeeps(c, st, id, v);
      AddSocketKeepsBase(c, st.(via := st.via[id := v]), id, sub);
      AdmittedIs(st, id, sub);
    }
  }

  lemma ProbeKeeps(c: Config, st: Server, id: string, sub: string)
    requires Base(c, st) && OwnedBy(id, sub) && id !in st.m.upgrades.log && id !in st.via && id !in st.reading
    ensures Base(c, Probed(st, id, sub))
  {
    if sub in st.m.tunnels.bySub {
      var v := Carrier(sub, st.m.tunnels.bySub[sub].id);
      ViaKeeps(c, st, id, v);
      AwaitUpgradeKeepsBase(c, st.(via := st.via[id := v]), id);
    }
  }

  lemma AwaitUpgradeKeepsBase(c: Config, st: Server, id: string)
    requires Base(c, st) && id !in st.m.upgrades.log && Carried({id}, st.via, st.m.tunnels.bySub)
    ensures Base(c, st.(m := st.m.(upgrades := AwaitUpgrade(st.m.upgrades, id))))
  {
    AwaitKeeps(st.m.upgrades, id);
    AwaitCarries(st.m.upgrades, id, st.via, st.m.tunnels.bySub);
    UpgradesKeep(c, st, AwaitUpgrade(st.m.upgrades, id));
  }

  /** The state after an admission with room for one more socket. */
  function WithSocket(m: Manager, id: string, sub: string): Manager {
    m.(sockets := if |m.upgrades.pending| >= MAX_PENDING_UPGRADES
                  then DropSocket(AddSocket(m.sockets, id, sub), id) else AddSocket(m.sockets, id, sub),
       upgrades := AwaitUpgrade(m.upgrades, id))
  }

  lemma AdmittedIs(st: Server, id: string, sub: string)
    requires sub in st.m.tunnels.bySub && st.m.tunnels.bySub[sub].state == Active
    requires CountOf(st.m.sockets, sub) < MAX_WEBSOCKETS_PER_TUNNEL
    ensures Admitted(st, id, sub)
            == st.(m := WithSocket(st.m, id, sub), via := st.via[id := Carrier(sub, st.m.tunnels.bySub[sub].id)])
  {
  }

  /** The second half of an admission: the socket, then the pending upgrade. */
  lemma AddSocketKeepsBase(c: Config, st: Server, id: string, sub: string)
    requires Base(c, st) && id !in st.m.sockets.open && id !in st.m.upgrades.log
    requires Carried({id}, st.via, st.m.tunnels.bySub) && st.via[id].sub == sub
    requires CountOf(st.m.sockets, sub) < MAX_WEBSOCKETS_PER_TUNNEL
    ensures Base(c, st.(m := WithSocket(st.m, id, sub)))
  {
    var sockets := WithSocket(st.m, id, sub).sockets;
    AddSocketOk(st.m.sockets, id, sub, st.via, st.m.tunnels.bySub);
    DropSocketOk(AddSocket(st.m.sockets, id, sub), id, st.via, st.m.tunnels.bySub);
    SocketsKeep(c, st, sockets);
    AwaitKeeps(st.m.upgrades, id);
    AwaitCarries(st.m.upgrades, id, st.via, st.m.tunnels.bySub);
    UpgradesKeep(c, st.(m := st.m.(sockets := sockets)), AwaitUpgrade(st.m.upgrades, id));
  }

  lemma AwaitCarries(p: Promises, id: string, via: map<string, Carrier>, bySub: map<string, Tunnel>)
    requires Carried(p.pending.Keys, via, bySub) && Carried({id}, via, bySub)
    ensures Carried(Await(p, id).pending.Keys, via, bySub) && Carried(AwaitUpgrade(p, id).pending.Keys, via, bySub)
  {
    assert id in {id};
  }

  lemma FrameKeeps(c: Config, st: Server, id: string, bytes: nat)
    requires Base(c, st)
    ensures Base(c, FrameRelayed(st, id, bytes))
  {
    if id in st.m.sockets.open && id in st.via {
      var tunnels := AddBytes(st.m.tunnels, st.m.sockets.open[id].subdomain, bytes);
      CountersSame(st.m.tunnels, st.m.sockets.open[id].subdomain, bytes);
      RecordsKeep(c, st, tunnels);
      FrameKeepsRest(c, st.(m := st.m.(tunnels := tunnels)), id, bytes);
      FrameIs(st, id, bytes);
    }
  }

  lemma FrameKeepsRest(c: Config, st: Server, id: string, bytes: nat)
    requires Base(c, st) && id in st.m.sockets.open && id in st.via
    ensures Base(c, st.(m := st.m.(sockets := FrameSeen(st.m.sockets, id, bytes)),
                        meters := Credited(st.meters, st.via[id].tid, id, bytes)))
  {
    FrameOk(st.m.sockets, id, bytes, st.via, st.m.tunnels.bySub);
    SocketsKeep(c, st, FrameSeen(st.m.sockets, id, bytes));
    CreditKeeps(st.meters, st.sessions, st.ids, st.via[id].tid, id, bytes);
    MetersKeep(c, st.(m := st.m.(sockets := FrameSeen(st.m.sockets, id, bytes))),
               Credited(st.meters, st.via[id].tid, id, bytes));
  }

  lemma FrameIs(st: Server, id: string, bytes: nat)
    requires id in st.m.sockets.open && id in st.via
    ensures FrameRelayed(st, id, bytes)
            == st.(m := st.m.(tunnels := AddBytes(st.m.tunnels, st.m.sockets.open[id].subdomain, bytes),
                              sockets := FrameSeen(st.m.sockets, id, bytes)),
                   meters := Credited(st.meters, st.via[id].tid, id, bytes))
  {
  }

  predicate OfSession(step: Step) {
    step.Arrive? || step.Refuse? || step.Count? || step.TierLookupFails? || step.Decide? || step.SockClosing?
    || step.SockClosed? || step.FinalizeWrite? || step.Resume? || step.Decrement?
  }

  /** The session steps up to acceptance or refusal. */
  predicate OfAdmission(step: Step) {
    step.Arrive? || step.Refuse? || step.Count? || step.TierLookupFails? || step.Decide?
  }

  predicate OfForward(step: Step) {
    step.ForwardStart? || step.ForwardSend? || step.ForwardAbandon? || step.Respond? || step.RequestTimeout?
  }

  predicate OfSocket(step: Step) {
    step.Admit? || step.Probe? || step.UpgradeResponse? || step.UpgradeTimeout? || step.PublicGone? || step.Frame?
  }

  lemma AdmissionStepKeeps(c: Config, st: Server, step: Step)
    requires Base(c, st) && CanStep(c, st, step) && OfAdmission(step)
    ensures Base(c, Next(c, st, step))
  {
    match step
    case Arrive(x, key) => ArriveKeeps(c, st, x, key);
    case Refuse(x) => RefuseKeeps(c, st, x, RefusedEarly);
    case Count(x) => CountKeeps(c, st, x);
    case TierLookupFails(x) => RefuseKeeps(c, st, x, RefusedLate);
    case Decide(x, free, tid, name, now, expiresAt) => DecideKeeps(c, st, x, free, tid, name, now, expiresAt);
  }

  lemma ServingStepKeeps(c: Config, st: Server, step: Step)
    requires Base(c, st) && CanStep(c, st, step) && OfSession(step) && !OfAdmission(step)
    ensures Base(c, Next(c, st, step))
  {
    match step
    case SockClosing(x) => ClosingKeeps(c, st, x);
    case SockClosed(x) => CloseEventKeeps(c, st, x);
    case FinalizeWrite(x, ok) => FinalizeKeeps(c, st, x, ok);
    case Resume(x) => ResumeKeeps(c, st, x);
    case Decrement(x) => DecrementKeeps(c, st, x);
  }

  lemma ForwardStepKeeps(c: Config, st: Server, step: Step)
    requires Base(c, st) && CanStep(c, st, step) && OfForward(step)
    ensures Base(c, Next(c, st, step))
  {
    match step
    case ForwardStart(id, sub) => StartKeeps(c, st, id, sub);
    case ForwardSend(id) => SendKeeps(c, st, id);
    case ForwardAbandon(id) => ReadingKeeps(c, st, st.reading - {id});
    case Respond(id, bytes) => RespondKeeps(c, st, id, bytes);
    case RequestTimeout(id) => RequestTimeoutKeeps(c, st, id);
  }

  lemma UpgradeStepKeeps(c: Config, st: Server, step: Step)
    requires Base(c, st) && CanStep(c, st, step) && (step.Admit? || step.Probe? || step.UpgradeResponse?)
    ensures Base(c, Next(c, st, step))
  {
    match step
    case Admit(id, sub) => AdmitKeeps(c, st, id, sub);
    case Probe(id, sub) => ProbeKeeps(c, st, id, sub);
    case UpgradeResponse(id, accepted) => AnswerKeeps(c, st, id, accepted);
  }

  lemma SocketStepKeeps(c: Config, st: Server, step: Step)
    requires Base(c, st) && CanStep(c, st, step) && (step.UpgradeTimeout? || step.PublicGone? || step.Frame?)
    ensures Base(c, Next(c, st, step))
  {
    match step
    case UpgradeTimeout(id) => UpgradeTimeoutKeeps(c, st, id);
    case PublicGone(id) => DropSocketKeepsBase(c, st, id);
    case Frame(id, bytes) => FrameKeeps(c, st, id, bytes);
  }

  lemma StepKeeps(c: Config, st: Server, step: Step)
    requires Base(c, st) && CanStep(c, st, step)
    ensures Base(c, Next(c, st, step))
  {
    if OfAdmission(step) {
      AdmissionStepKeeps(c, st, step);
    } else if OfSession(step) {
      ServingStepKeeps(c, st, step);
    } else if OfForward(step) {
      ForwardStepKeeps(c, st, step);
    } else if step.Admit? || step.Probe? || step.UpgradeResponse? {
      UpgradeStepKeeps(c, st, step);
    } else if OfSocket(step) {
      SocketStepKeeps(c, st, step);
    } else {
      match step
      case ExpiryTick(sub, now) => ExpireKeeps(c, st, sub);
      case HeartbeatCheck(x, now) => HeartbeatCheckKeeps(c, st, x, now);
      case HeartbeatSeen(x, now, count) => HeartbeatSeenKeeps(c, st, st.sessions[x].sub, now, count);
      case SyncWrite(tid, counters) =>
        SyncKeeps(st.meters, st.sessions, st.ids, tid, counters);
        MetersKeep(c, st, st.meters.(rows := Synced(st.meters.rows, tid, counters)));
    }
  }

  lemma SyncKeeps(ms: Meters, ss: map<nat, Session>, ids: set<string>, tid: string, counters: Counters)
    requires RowsKept(ms, ss, ids)
    ensures RowsKept(ms.(rows := Synced(ms.rows, tid, counters)), ss, ids)
  {
  }
}
