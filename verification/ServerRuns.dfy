/**
 * The server as a step system: connection attempts validated against a key store, registered tunnels,
 * forwarded requests, proxied sockets and metering rows, interleaved at every await. One step is one
 * callback with the promise reactions it runs, or one database statement.
 */
module ServerRuns {
  import opened Basics
  import opened Subdomains
  import opened Registry

  const MAX_WEBSOCKETS_PER_TUNNEL := 100

  /**
   * `maxUses` holds the keys with a use limit. A key in `alwaysFree` (`neverFree`) has an owner whose
   * tier is (is not) "free" at every lookup.
   */
  datatype Config = Config(maxUses: map<string, nat>, perKey: nat, alwaysFree: set<string>, neverFree: set<string>,
                           heartbeatTimeout: int)

  // ---------------------------------------------------------------------------
  // Connection attempts
  // ---------------------------------------------------------------------------

  /**
   * Arriving: before the use count is written. Counted: written, tier lookup pending. Serving:
   * registered and listening. Finalizing: the close event read the counters and awaits the row.
   * Resuming: the row is done. Owing: unregistered, the decrement is on its way.
   */
  datatype Phase = Arriving | Counted | RefusedEarly | RefusedLate | Serving | Finalizing | Resuming | Owing | Done

  /** `sub` and `tid` have a meaning from Serving on. */
  datatype Session = Session(key: string, sock: ReadyState, phase: Phase, sub: string, tid: string)

  predicate Accepted(p: Phase) {
    p in {Serving, Finalizing, Resuming, Owing, Done}
  }

  predicate HasTunnel(p: Phase) {
    p in {Serving, Finalizing, Resuming}
  }

  /** The attempt's increment was written and its decrement was not. */
  predicate Holds(p: Phase) {
    p in {Counted, RefusedLate, Serving, Finalizing, Resuming, Owing}
  }

  function Holders(ss: map<nat, Session>, key: string): set<nat> {
    set x | x in ss && ss[x].key == key && Holds(ss[x].phase)
  }

  function InPhases(ss: map<nat, Session>, key: string, ps: set<Phase>): set<nat> {
    set x | x in ss && ss[x].key == key && ss[x].phase in ps
  }

  function UsesOf(uses: map<string, int>, key: string): int {
    if key in uses then uses[key] else 0
  }

  /** `current_uses = current_uses + 1 WHERE current_uses < max_uses`, one statement. */
  predicate MayCount(c: Config, uses: map<string, int>, key: string) {
    key in c.maxUses ==> UsesOf(uses, key) < c.maxUses[key]
  }

  /** `GREATEST(0, current_uses - 1)` */
  function Decremented(uses: map<string, int>, key: string): map<string, int> {
    uses[key := Max(0, UsesOf(uses, key) - 1)]
  }

  function WithPhase(ss: map<nat, Session>, x: nat, p: Phase): map<nat, Session>
    requires x in ss
  {
    ss[x := ss[x].(phase := p)]
  }

  /** `socket.close(...)`: the state goes to Closing, unless it is already past that. */
  function ClosingSock(ss: map<nat, Session>, x: nat): map<nat, Session> {
    if x in ss && ss[x].sock == Open then ss[x := ss[x].(sock := Closing)] else ss
  }

  // ---------------------------------------------------------------------------
  // Metering
  // ---------------------------------------------------------------------------

  datatype Counters = Counters(requests: int, bytes: int)

  /** A row of the tunnels table; `disconnected` says that disconnected_at is not null. */
  datatype Row = Row(counters: Counters, disconnected: bool)

  /** A completed request (both bodies) or one relayed frame that was carried by a tunnel. */
  datatype Credit = Credit(tid: string, id: string, bytes: int)

  /** `read` holds, per finalised tunnel, the counters its close event read. */
  datatype Meters = Meters(credits: seq<Credit>, read: map<string, Counters>, rows: map<string, Row>)

  function Billed(credits: seq<Credit>, tid: string): int {
    if credits == [] then 0
    else
      var last := credits[|credits| - 1];
      Billed(credits[..|credits| - 1], tid) + if last.tid == tid then last.bytes else 0
  }

  /** The upsert of the periodic sync: it leaves a disconnected row alone. */
  function Synced(rows: map<string, Row>, tid: string, now: Counters): map<string, Row> {
    if tid in rows && rows[tid].disconnected then rows else rows[tid := Row(now, false)]
  }

  // ---------------------------------------------------------------------------
  // States and steps
  // ---------------------------------------------------------------------------

  /** A forward between its tunnel lookup and the end of its body read. */
  datatype Reading = Reading(session: nat, sub: string, tid: string)

  /** The name and the id of the tunnel a request or a public socket was admitted through. */
  datatype Carrier = Carrier(sub: string, tid: string)

  /** `via` remembers the carrier of every id that was sent; `ids` the tunnel ids drawn so far. */
  datatype Server = Server(
    m: Manager, uses: map<string, int>, sessions: map<nat, Session>, reading: map<string, Reading>,
    via: map<string, Carrier>, meters: Meters, ids: set<string>)

  const Boot := Server(EmptyManager, map[], map[], map[], map[], Meters([], map[], map[]), {})

  datatype Step =
    | Arrive(x: nat, key: string)
    | Refuse(x: nat)
    | Count(x: nat)
    | TierLookupFails(x: nat)
    | Decide(x: nat, free: bool, tid: string, name: Option<string>, now: int, expiresAt: int)
    | SockClosing(x: nat)
    | SockClosed(x: nat)
    | FinalizeWrite(x: nat, ok: bool)
    | Resume(x: nat)
    | Decrement(x: nat)
    | ExpiryTick(sub: string, now: int)
    | HeartbeatCheck(x: nat, now: int)
    | HeartbeatSeen(x: nat, now: int, count: Option<int>)
    | ForwardStart(id: string, sub: string)
    | ForwardSend(id: string)
    | ForwardAbandon(id: string)
    | Respond(id: string, bytes: nat)
    | RequestTimeout(id: string)
    | Admit(id: string, sub: string)
    | Probe(id: string, sub: string)
    | UpgradeResponse(id: string, accepted: bool)
    | UpgradeTimeout(id: string)
    | PublicGone(id: string)
    | Frame(id: string, bytes: nat)
    | SyncWrite(tid: string, counters: Counters)

  predicate CanStep(c: Config, st: Server, step: Step) {
    match step
    case Arrive(x, _) => x !in st.sessions
    case Refuse(x) => x in st.sessions && st.sessions[x].phase == Arriving
    case Count(x) => x in st.sessions && st.sessions[x].phase == Arriving
    case TierLookupFails(x) => x in st.sessions && st.sessions[x].phase == Counted
    case Decide(x, free, tid, name, _, _) =>
      && x in st.sessions && st.sessions[x].phase == Counted
      && (st.sessions[x].key in c.alwaysFree ==> free) && (st.sessions[x].key in c.neverFree ==> !free)
      && tid !in st.ids
      && (name.Some? ==> ':' !in name.value && name.value !in st.m.tunnels.bySub)
    case SockClosing(x) => x in st.sessions
    case SockClosed(x) => x in st.sessions && st.sessions[x].sock != Closed
    case FinalizeWrite(x, _) => x in st.sessions && st.sessions[x].phase == Finalizing
    case Resume(x) => x in st.sessions && st.sessions[x].phase == Resuming
    case Decrement(x) => x in st.sessions && st.sessions[x].phase == Owing
    case ExpiryTick(sub, now) =>
      && sub in st.m.tunnels.bySub && st.m.tunnels.bySub[sub].expiresAt.Some?
      && st.m.tunnels.bySub[sub].expiresAt.value < now
    case HeartbeatCheck(x, _) => x in st.sessions && st.sessions[x].phase == Serving
    case HeartbeatSeen(x, _, _) => x in st.sessions && st.sessions[x].phase == Serving
    case ForwardStart(id, sub) =>
      id !in st.m.requests.log && id !in st.reading && id !in st.via && OwnedBy(id, sub)
    case ForwardSend(id) => id in st.reading
    case ForwardAbandon(id) => id in st.reading
    case RequestTimeout(id) => id in st.m.requests.timers
    case Admit(id, sub) =>
      id !in st.m.upgrades.log && id !in st.m.sockets.open && id !in st.via && id !in st.reading
      && OwnedBy(id, sub)
    case Probe(id, sub) =>
      id !in st.m.upgrades.log && id !in st.via && id !in st.reading && OwnedBy(id, sub)
    case UpgradeTimeout(id) => id in st.m.upgrades.timers
    case _ => true
  }

  function Next(c: Config, st: Server, step: Step): Server
    requires CanStep(c, st, step)
  {
    match step
    case Arrive(x, key) => Arrived(st, x, key)
    case Refuse(x) => Refused(st, x, RefusedEarly)
    case Count(x) => CountUse(c, st, x)
    case TierLookupFails(x) => Refused(st, x, RefusedLate)
    case Decide(x, free, tid, name, now, expiresAt) => Decided(c, st, x, free, tid, name, now, expiresAt)
    case SockClosing(x) => st.(sessions := ClosingSock(st.sessions, x))
    case SockClosed(x) => CloseEvent(st, x)
    case FinalizeWrite(x, ok) => Finalized(st, x, ok)
    case Resume(x) => Resumed(st, x)
    case Decrement(x) => GivenBack(st, x)
    case ExpiryTick(sub, _) => Expire(st, sub)
    case HeartbeatCheck(x, now) => CheckHeartbeat(c, st, x, now)
    case HeartbeatSeen(x, now, count) =>
      st.(m := st.m.(tunnels := Heartbeat(st.m.tunnels, st.sessions[x].sub, now, count)))
    case ForwardStart(id, sub) => Started(st, id, sub)
    case ForwardSend(id) => Sent(st, id)
    case ForwardAbandon(id) => st.(reading := st.reading - {id})
    case Respond(id, bytes) => Responded(st, id, bytes)
    case RequestTimeout(id) => st.(m := st.m.(requests := Settle(st.m.requests, {id}, TimedOut)))
    case Admit(id, sub) => Admitted(st, id, sub)
    case Probe(id, sub) => Probed(st, id, sub)
    case UpgradeResponse(id, accepted) => Answered(st, id, accepted)
    case UpgradeTimeout(id) => st.(m := UpgradeFailed(st.m, id))
    case PublicGone(id) => st.(m := st.m.(sockets := DropSocket(st.m.sockets, id)))
    case Frame(id, bytes) => FrameRelayed(st, id, bytes)
    case SyncWrite(tid, counters) => st.(meters := st.meters.(rows := Synced(st.meters.rows, tid, counters)))
  }

  function Arrived(st: Server, x: nat, key: string): Server {
    st.(sessions := st.sessions[x := Session(key, Open, Arriving, "", "")])
  }

  /** An error message followed by `socket.close`. */
  function Refused(st: Server, x: nat, p: Phase): Server
    requires x in st.sessions
  {
    st.(sessions := ClosingSock(WithPhase(st.sessions, x, p), x))
  }

  /** The conditional increment of a validated key. */
  function CountUse(c: Config, st: Server, x: nat): Server
    requires x in st.sessions
  {
    var key := st.sessions[x].key;
    if MayCount(c, st.uses, key)
    then st.(uses := st.uses[key := UsesOf(st.uses, key) + 1], sessions := WithPhase(st.sessions, x, Counted))
    else Refused(st, x, RefusedEarly)
  }

  /** From the limit check to the registered listeners: there is no await in between. */
  function Decided(c: Config, st: Server, x: nat, free: bool, tid: string, name: Option<string>, now: int,
                   expiresAt: int): Server
    requires x in st.sessions
  {
    var s := st.sessions[x];
    var max := if free then 1 else c.perKey;
    if |KeySet(st.m.tunnels, s.key)| >= max || name.None?
    then Refused(st, x, RefusedLate).(ids := st.ids + {tid})
    else st.(m := st.m.(tunnels := AddTunnel(st.m.tunnels, name.value,
                                             Tunnel(tid, s.key, x, Active, now, 0, 0, Some(expiresAt)))),
             sessions := st.sessions[x := s.(phase := Serving, sub := name.value, tid := tid)],
             ids := st.ids + {tid})
  }

  /** The socket is closed now; only a serving session has a listener for that. */
  function CloseEvent(st: Server, x: nat): Server
    requires x in st.sessions
  {
    var s := st.sessions[x].(sock := Closed);
    if s.phase != Serving then st.(sessions := st.sessions[x := s])
    else if s.sub in st.m.tunnels.bySub then
      var t := st.m.tunnels.bySub[s.sub];
      st.(sessions := st.sessions[x := s.(phase := Finalizing)],
          meters := st.meters.(read := st.meters.read[s.tid := Counters(t.requestCount, t.bytes)]))
    else st.(sessions := st.sessions[x := s.(phase := Owing)])
  }

  /** The final upsert, or its caught failure. */
  function Finalized(st: Server, x: nat, ok: bool): Server
    requires x in st.sessions
  {
    var tid, n := st.sessions[x].tid, st.(sessions := WithPhase(st.sessions, x, Resuming));
    if ok && tid in st.meters.read
    then n.(meters := st.meters.(rows := st.meters.rows[tid := Row(st.meters.read[tid], true)]))
    else n
  }

  /** The close handler after its await: unregister, by name. */
  function Resumed(st: Server, x: nat): Server
    requires x in st.sessions
  {
    st.(m := Unregister(st.m, st.sessions[x].sub), sessions := WithPhase(st.sessions, x, Owing))
  }

  function GivenBack(st: Server, x: nat): Server
    requires x in st.sessions
  {
    st.(uses := Decremented(st.uses, st.sessions[x].key), sessions := WithPhase(st.sessions, x, Done))
  }

  /** The expiry check on one expired tunnel. */
  function Expire(st: Server, sub: string): Server
    requires sub in st.m.tunnels.bySub
  {
    var sock := st.m.tunnels.bySub[sub].socket;
    if sock !in st.sessions then st
    else if st.sessions[sock].sock == Open then st.(sessions := ClosingSock(st.sessions, sock))
    else if st.sessions[sock].sock == Closed then st.(m := Unregister(st.m, sub))
    else st
  }

  function CheckHeartbeat(c: Config, st: Server, x: nat, now: int): Server
    requires x in st.sessions
  {
    var sub := st.sessions[x].sub;
    if sub in st.m.tunnels.bySub && now - st.m.tunnels.bySub[sub].lastHeartbeat > c.heartbeatTimeout
    then st.(m := st.m.(tunnels := SetState(st.m.tunnels, sub, HeartbeatLost)), sessions := ClosingSock(st.sessions, x))
    else st
  }

  /** The synchronous first half of a forward: it captures the tunnel record. */
  function Started(st: Server, id: string, sub: string): Server {
    if sub in st.m.tunnels.bySub && st.m.tunnels.bySub[sub].state == Active
    then st.(reading := st.reading[id := Reading(st.m.tunnels.bySub[sub].socket, sub, st.m.tunnels.bySub[sub].id)])
    else st
  }

  /** After the body was read: the captured control socket must still be open. */
  function Sent(st: Server, id: string): Server
    requires id in st.reading
  {
    var f := st.reading[id];
    var n := st.(reading := st.reading - {id});
    if f.session in st.sessions && st.sessions[f.session].sock == Open
    then n.(m := st.m.(tunnels := CountRequest(st.m.tunnels, f.sub), requests := Await(st.m.requests, id)),
            via := st.via[id := Carrier(f.sub, f.tid)])
    else n
  }

  function Credited(ms: Meters, tid: string, id: string, bytes: int): Meters {
    ms.(credits := ms.credits + [Credit(tid, id, bytes)])
  }

  /** An http_response: the resolver call and the waiting forward's continuation, which adds the bytes. */
  function Responded(st: Server, id: string, bytes: int): Server {
    if id !in st.m.requests.pending || id !in st.via then st
    else st.(m := st.m.(requests := Resolve(st.m.requests, id),
                        tunnels := AddBytes(st.m.tunnels, st.via[id].sub, bytes)),
             meters := Credited(st.meters, st.via[id].tid, id, bytes))
  }

  /** A public upgrade: checks, registration and the pending promise run without an await. */
  function Admitted(st: Server, id: string, sub: string): Server {
    var m := st.m;
    if sub !in m.tunnels.bySub || m.tunnels.bySub[sub].state != Active
       || CountOf(m.sockets, sub) >= MAX_WEBSOCKETS_PER_TUNNEL then st
    else
      var sockets := AddSocket(m.sockets, id, sub);
      var full := |m.upgrades.pending| >= MAX_PENDING_UPGRADES;
      st.(m := m.(sockets := if full then DropSocket(sockets, id) else sockets,
                  upgrades := AwaitUpgrade(m.upgrades, id)),
          via := st.via[id := Carrier(sub, m.tunnels.bySub[sub].id)])
  }

  /** An upgrade request that arrives as plain HTTP: it waits for the CLI's answer without a socket. */
  function Probed(st: Server, id: string, sub: string): Server {
    var m := st.m;
    if sub !in m.tunnels.bySub || m.tunnels.bySub[sub].state != Active
       || CountOf(m.sockets, sub) >= MAX_WEBSOCKETS_PER_TUNNEL
       || m.tunnels.bySub[sub].socket !in st.sessions || st.sessions[m.tunnels.bySub[sub].socket].sock != Open then st
    else st.(m := m.(upgrades := AwaitUpgrade(m.upgrades, id)),
             via := st.via[id := Carrier(sub, m.tunnels.bySub[sub].id)])
  }

  /** A rejected or accepted upgrade: the resolver call and its continuation. */
  function Answered(st: Server, id: string, accepted: bool): Server {
    if id !in st.m.upgrades.pending then st
    else st.(m := st.m.(upgrades := Resolve(st.m.upgrades, id),
                        sockets := if accepted then st.m.sockets else DropSocket(st.m.sockets, id)))
  }

  function UpgradeFailed(m: Manager, id: string): Manager {
    m.(upgrades := Settle(m.upgrades, {id}, TimedOut), sockets := DropSocket(m.sockets, id))
  }

  /** A public message after acceptance: sent to the tunnel and tracked. */
  function FrameRelayed(st: Server, id: string, bytes: int): Server {
    if id !in st.m.sockets.open || id !in st.via then st
    else st.(m := TrackFrame(st.m, id, bytes), meters := Credited(st.meters, st.via[id].tid, id, bytes))
  }

  ghost predicate Reaches(c: Config, st: Server, steps: seq<Step>, last: Server)
    decreases |steps|
  {
    if steps == [] then st == last
    else CanStep(c, st, steps[0]) && Reaches(c, Next(c, st, steps[0]), steps[1..], last)
  }
}
