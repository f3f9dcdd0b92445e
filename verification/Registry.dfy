/**
 * What the connection manager's seven maps mean: each operation as a function on a value, and the
 * facts that every sequence of operations keeps. The class in module ConnectionManagers is proved
 * to compute exactly these functions.
 */
module Registry {
  import opened Basics
  import opened Subdomains

  const MAX_PENDING_UPGRADES := 1000
  const TUNNEL_CLOSED := 1001

  // ---------------------------------------------------------------------------
  // Tunnels: the primary index and its two secondary indexes
  // ---------------------------------------------------------------------------

  datatype TunnelState = Active | HeartbeatLost

  /** A registered tunnel. `socket` identifies the control socket it was registered with. */
  datatype Tunnel = Tunnel(
    id: string, keyId: string, socket: nat, state: TunnelState, lastHeartbeat: int,
    requestCount: int, bytes: int, expiresAt: Option<int>)

  datatype Index = Index(bySub: map<string, Tunnel>, byKey: map<string, set<string>>, byId: map<string, string>)

  function TunnelsOfKey(x: Index, key: string): set<string> {
    set s | s in x.bySub && x.bySub[s].keyId == key
  }

  /** The tunnel-id and key indexes describe exactly the tunnels of the primary index. */
  ghost predicate IndexesAgree(x: Index) {
    && (forall s | s in x.bySub :: ':' !in s)
    && (forall s {:trigger x.bySub[s].id in x.byId} {:trigger x.byId[x.bySub[s].id]} | s in x.bySub ::
          x.bySub[s].id in x.byId && x.byId[x.bySub[s].id] == s)
    && (forall t | t in x.byId :: x.byId[t] in x.bySub && x.bySub[x.byId[t]].id == t)
    && (forall k | k in x.byKey :: x.byKey[k] != {})
    && (forall k, s | k in x.byKey && s in x.byKey[k] :: s in x.bySub && x.bySub[s].keyId == k)
    && (forall s | s in x.bySub :: x.bySub[s].keyId in x.byKey && s in x.byKey[x.bySub[s].keyId])
  }

  function KeySet(x: Index, key: string): set<string> {
    if key in x.byKey then x.byKey[key] else {}
  }

  function AddTunnel(x: Index, sub: string, t: Tunnel): Index {
    Index(x.bySub[sub := t], x.byKey[t.keyId := KeySet(x, t.keyId) + {sub}], x.byId[t.id := sub])
  }

  function DropTunnel(x: Index, sub: string): Index
    requires sub in x.bySub
  {
    var c := x.bySub[sub];
    var left := KeySet(x, c.keyId) - {sub};
    Index(x.bySub - {sub}, if left == {} then x.byKey - {c.keyId} else x.byKey[c.keyId := left], x.byId - {c.id})
  }

  /** The record of a registered tunnel after its mutable fields changed. */
  function PutTunnel(x: Index, sub: string, t: Tunnel): Index {
    x.(bySub := x.bySub[sub := t])
  }

  function SetState(x: Index, sub: string, st: TunnelState): Index {
    if sub !in x.bySub then x
    else PutTunnel(x, sub, x.bySub[sub].(state := st))
  }

  function Heartbeat(x: Index, sub: string, now: int, count: Option<int>): Index {
    if sub !in x.bySub then x
    else
      var t := x.bySub[sub];
      var requestCount := if count.Some? then count.value else t.requestCount;
      PutTunnel(x, sub, t.(lastHeartbeat := now, requestCount := requestCount))
  }

  function CountRequest(x: Index, sub: string): Index {
    if sub !in x.bySub then x
    else
      var t := x.bySub[sub];
      PutTunnel(x, sub, t.(requestCount := t.requestCount + 1))
  }

  function AddBytes(x: Index, sub: string, n: int): Index {
    if sub !in x.bySub then x
    else
      var t := x.bySub[sub];
      PutTunnel(x, sub, t.(bytes := t.bytes + n))
  }

  lemma KeySetIsTunnelsOfKey(x: Index, key: string)
    requires IndexesAgree(x)
    ensures KeySet(x, key) == TunnelsOfKey(x, key)
  {
  }

  lemma AddTunnelKeeps(x: Index, sub: string, t: Tunnel)
    requires IndexesAgree(x) && ':' !in sub && sub !in x.bySub && t.id !in x.byId
    ensures IndexesAgree(AddTunnel(x, sub, t))
  {
    var n := AddTunnel(x, sub, t);
    KeySetIsTunnelsOfKey(x, t.keyId);
    assert TunnelsOfKey(n, t.keyId) == TunnelsOfKey(x, t.keyId) + {sub};
    assert forall k | k != t.keyId :: TunnelsOfKey(n, k) == TunnelsOfKey(x, k);
  }

  lemma DropTunnelKeeps(x: Index, sub: string)
    requires IndexesAgree(x) && sub in x.bySub
    ensures IndexesAgree(DropTunnel(x, sub))
  {
    DropTunnelIds(x, sub);
    DropTunnelKeys(x, sub);
  }

  lemma DropTunnelIds(x: Index, sub: string)
    requires IndexesAgree(x) && sub in x.bySub
    ensures var n := DropTunnel(x, sub);
            && (forall s {:trigger n.bySub[s].id in n.byId} {:trigger n.byId[n.bySub[s].id]} | s in n.bySub ::
                  n.bySub[s].id in n.byId && n.byId[n.bySub[s].id] == s)
            && (forall t | t in n.byId :: n.byId[t] in n.bySub && n.bySub[n.byId[t]].id == t)
  {
    var n, c := DropTunnel(x, sub), x.bySub[sub];
    forall s | s in n.bySub ensures n.bySub[s].id in n.byId && n.byId[n.bySub[s].id] == s {
      assert x.byId[x.bySub[s].id] == s && x.byId[c.id] == sub;
    }
    forall t | t in n.byId ensures n.byId[t] in n.bySub && n.bySub[n.byId[t]].id == t {
      assert x.bySub[x.byId[t]].id == t && t != c.id;
    }
  }

  lemma DropTunnelKeys(x: Index, sub: string)
    requires IndexesAgree(x) && sub in x.bySub
    ensures var n := DropTunnel(x, sub);
            && (forall k | k in n.byKey :: n.byKey[k] != {})
            && (forall k, s | k in n.byKey && s in n.byKey[k] :: s in n.bySub && n.bySub[s].keyId == k)
            && (forall s | s in n.bySub :: n.bySub[s].keyId in n.byKey && s in n.byKey[n.bySub[s].keyId])
  {
    var n, c := DropTunnel(x, sub), x.bySub[sub];
    forall s | s in n.bySub ensures n.bySub[s].keyId in n.byKey && s in n.byKey[n.bySub[s].keyId] {
      assert s in x.byKey[x.bySub[s].keyId];
      if n.bySub[s].keyId == c.keyId { assert s in KeySet(x, c.keyId) - {sub}; }
    }
  }

  lemma PutTunnelKeeps(x: Index, sub: string, t: Tunnel)
    requires IndexesAgree(x) && sub in x.bySub && t.id == x.bySub[sub].id && t.keyId == x.bySub[sub].keyId
    ensures IndexesAgree(PutTunnel(x, sub, t))
  {
    assert forall k :: TunnelsOfKey(PutTunnel(x, sub, t), k) == TunnelsOfKey(x, k);
  }

  lemma SetStateKeeps(x: Index, sub: string, st: TunnelState)
    requires IndexesAgree(x)
    ensures IndexesAgree(SetState(x, sub, st))
  {
    if sub in x.bySub {
      PutTunnelKeeps(x, sub, SetState(x, sub, st).bySub[sub]);
    }
  }

  lemma HeartbeatKeeps(x: Index, sub: string, now: int, count: Option<int>)
    requires IndexesAgree(x)
    ensures IndexesAgree(Heartbeat(x, sub, now, count))
  {
    if sub in x.bySub {
      PutTunnelKeeps(x, sub, Heartbeat(x, sub, now, count).bySub[sub]);
    }
  }

  lemma CountersKeep(x: Index, sub: string, n: int)
    requires IndexesAgree(x)
    ensures IndexesAgree(CountRequest(x, sub)) && IndexesAgree(AddBytes(x, sub, n))
  {
    if sub in x.bySub {
      PutTunnelKeeps(x, sub, CountRequest(x, sub).bySub[sub]);
      PutTunnelKeeps(x, sub, AddBytes(x, sub, n).bySub[sub]);
    }
  }

  // ---------------------------------------------------------------------------
  // Proxied public sockets and their count per tunnel
  // ---------------------------------------------------------------------------

  datatype Proxied = Proxied(subdomain: string, frameCount: nat, bytes: int)

  /** `closed` records the code each public socket was closed with by the manager itself. */
  datatype Sockets = Sockets(open: map<string, Proxied>, count: map<string, nat>, closed: map<string, int>)

  function SocketsOf(x: Sockets, sub: string): set<string> {
    set id | id in x.open && x.open[id].subdomain == sub
  }

  /** The count index is the number of sockets per tunnel name, absent exactly when that is zero. */
  ghost predicate CountsAgree(x: Sockets) {
    && (forall s | s in x.count :: x.count[s] == |SocketsOf(x, s)| && SocketsOf(x, s) != {})
    && (forall id | id in x.open :: x.open[id].subdomain in x.count)
  }

  function CountOf(x: Sockets, sub: string): nat {
    if sub in x.count then x.count[sub] else 0
  }

  function AddSocket(x: Sockets, id: string, sub: string): Sockets {
    x.(open := x.open[id := Proxied(sub, 0, 0)], count := x.count[sub := CountOf(x, sub) + 1])
  }

  function DropSocket(x: Sockets, id: string): Sockets {
    if id !in x.open then x
    else
      var sub := x.open[id].subdomain;
      x.(open := x.open - {id},
         count := if CountOf(x, sub) <= 1 then x.count - {sub} else x.count[sub := CountOf(x, sub) - 1])
  }

  /** All sockets of `sub` closed with 1001 and forgotten, in one stroke. */
  function CloseSockets(x: Sockets, sub: string): Sockets {
    Sockets(x.open - SocketsOf(x, sub), x.count - {sub},
            x.closed + Closes(SocketsOf(x, sub)))
  }

  function Closes(ids: set<string>): map<string, int> {
    map id | id in ids :: TUNNEL_CLOSED
  }

  function FrameSeen(x: Sockets, id: string, n: int): Sockets
    requires id in x.open
  {
    x.(open := x.open[id := x.open[id].(frameCount := x.open[id].frameCount + 1, bytes := x.open[id].bytes + n)])
  }

  /** The O(1) count is the true number of sockets, also when that is zero. */
  lemma CountIsSize(x: Sockets, sub: string)
    requires CountsAgree(x)
    ensures CountOf(x, sub) == |SocketsOf(x, sub)|
  {
    if sub !in x.count {
      assert SocketsOf(x, sub) == {};
    }
  }

  lemma AddSocketKeeps(x: Sockets, id: string, sub: string)
    requires CountsAgree(x) && id !in x.open
    ensures CountsAgree(AddSocket(x, id, sub))
    ensures SocketsOf(AddSocket(x, id, sub), sub) == SocketsOf(x, sub) + {id}
  {
    var n := AddSocket(x, id, sub);
    CountIsSize(x, sub);
    assert SocketsOf(n, sub) == SocketsOf(x, sub) + {id};
    assert forall s | s != sub :: SocketsOf(n, s) == SocketsOf(x, s);
  }

  lemma DropSocketKeeps(x: Sockets, id: string)
    requires CountsAgree(x)
    ensures CountsAgree(DropSocket(x, id))
    ensures DropSocket(DropSocket(x, id), id) == DropSocket(x, id)
  {
    if id in x.open {
      var n, sub := DropSocket(x, id), x.open[id].subdomain;
      CountIsSize(x, sub);
      assert SocketsOf(n, sub) == SocketsOf(x, sub) - {id};
      assert forall s | s != sub :: SocketsOf(n, s) == SocketsOf(x, s);
      assert |SocketsOf(n, sub)| == |SocketsOf(x, sub)| - 1;
      forall other | other in n.open ensures n.open[other].subdomain in n.count {
        if n.open[other].subdomain == sub { assert other in SocketsOf(n, sub); }
      }
    }
  }

  lemma CloseSocketsKeeps(x: Sockets, sub: string)
    requires CountsAgree(x)
    ensures CountsAgree(CloseSockets(x, sub))
    ensures SocketsOf(CloseSockets(x, sub), sub) == {}
  {
    assert forall s | s != sub :: SocketsOf(CloseSockets(x, sub), s) == SocketsOf(x, s);
  }

  lemma FrameSeenKeeps(x: Sockets, id: string, n: int)
    requires CountsAgree(x) && id in x.open
    ensures CountsAgree(FrameSeen(x, id, n))
  {
    assert forall s :: SocketsOf(FrameSeen(x, id, n), s) == SocketsOf(x, s);
  }

  // ---------------------------------------------------------------------------
  // Pending promises
  // ---------------------------------------------------------------------------

  /** Every call made on a pending promise's resolver. */
  datatype Outcome = Resolved | TimedOut | TunnelGone | Overloaded

  /** The stored resolver pair of a pending promise; `timer` is the handle given to clearTimeout. */
  datatype Pending = Pending(timer: string)

  /** A pending table, the timers that are live for it, and the resolver calls made per id. */
  datatype Promises = Promises(pending: map<string, Pending>, timers: set<string>, log: map<string, seq<Outcome>>)

  /**
   * A promise is in the table exactly while no resolver call was made for it, and exactly while its
   * timer is live; one that left the table got exactly one call.
   */
  ghost predicate PromisesAgree(p: Promises) {
    && p.timers == p.pending.Keys
    && (forall id | id in p.pending :: p.pending[id].timer == id && id in p.log && p.log[id] == [])
    && (forall id | id in p.log && id !in p.pending :: |p.log[id]| == 1)
  }

  function Await(p: Promises, id: string): Promises {
    Promises(p.pending[id := Pending(id)], p.timers + {id}, p.log[id := []])
  }

  function Settle(p: Promises, ids: set<string>, o: Outcome): Promises {
    Promises(p.pending - ids, p.timers - ids,
             map id | id in p.log :: if id in ids then p.log[id] + [o] else p.log[id])
  }

  function Resolve(p: Promises, id: string): Promises {
    if id in p.pending then Settle(p, {id}, Resolved) else p
  }

  function Owned(p: Promises, sub: string): set<string> {
    set id | id in p.pending && OwnedBy(id, sub)
  }

  function RejectOwned(p: Promises, sub: string): Promises {
    Settle(p, Owned(p, sub), TunnelGone)
  }

  /** Admission of an upgrade: over the limit the promise is rejected at once and never stored. */
  function AwaitUpgrade(p: Promises, id: string): Promises {
    if |p.pending| >= MAX_PENDING_UPGRADES then p.(log := p.log[id := [Overloaded]]) else Await(p, id)
  }

  lemma AwaitKeeps(p: Promises, id: string)
    requires PromisesAgree(p) && id !in p.log
    ensures PromisesAgree(Await(p, id)) && PromisesAgree(AwaitUpgrade(p, id))
    ensures |p.pending| <= MAX_PENDING_UPGRADES ==> |AwaitUpgrade(p, id).pending| <= MAX_PENDING_UPGRADES
  {
  }

  lemma SettleNone(p: Promises, o: Outcome)
    ensures Settle(p, {}, o) == p
  {
  }

  /** Settling one after the other is settling together. */
  lemma SettleOneMore(p: Promises, ids: set<string>, id: string, o: Outcome)
    requires PromisesAgree(p) && id in p.pending && id !in ids
    ensures var q := Settle(p, ids, o);
            && id in q.pending && q.pending[id].timer == id && id in q.log
            && Settle(p, ids + {id}, o) == Promises(q.pending - {id}, q.timers - {id}, q.log[id := q.log[id] + [o]])
  {
  }

  lemma SettleKeeps(p: Promises, ids: set<string>, o: Outcome)
    requires PromisesAgree(p) && ids <= p.pending.Keys
    ensures PromisesAgree(Settle(p, ids, o))
    ensures |Settle(p, ids, o).pending| <= |p.pending|
  {
    SubsetSize((p.pending - ids).Keys, p.pending.Keys);
  }

  // ---------------------------------------------------------------------------
  // The manager
  // ---------------------------------------------------------------------------

  datatype Manager = Manager(tunnels: Index, requests: Promises, sockets: Sockets, upgrades: Promises)

  const EmptyManager := Manager(
    Index(map[], map[], map[]), Promises(map[], {}, map[]), Sockets(map[], map[], map[]), Promises(map[], {}, map[]))

  ghost predicate UpgradesAgree(p: Promises) {
    PromisesAgree(p) && |p.pending| <= MAX_PENDING_UPGRADES
  }

  ghost predicate Consistent(m: Manager) {
    IndexesAgree(m.tunnels) && PromisesAgree(m.requests) && CountsAgree(m.sockets) && UpgradesAgree(m.upgrades)
  }

  function Unregister(m: Manager, sub: string): Manager {
    if sub !in m.tunnels.bySub then m
    else Manager(DropTunnel(m.tunnels, sub), RejectOwned(m.requests, sub),
                 CloseSockets(m.sockets, sub), RejectOwned(m.upgrades, sub))
  }

  function TrackFrame(m: Manager, id: string, n: int): Manager {
    if n < 0 || id !in m.sockets.open then m
    else m.(sockets := FrameSeen(m.sockets, id, n), tunnels := AddBytes(m.tunnels, m.sockets.open[id].subdomain, n))
  }

  // ---------------------------------------------------------------------------
  // Runs
  // ---------------------------------------------------------------------------

  datatype Op =
    | OpRegister(sub: string, t: Tunnel)
    | OpUnregister(sub: string)
    | OpSetState(sub: string, st: TunnelState)
    | OpHeartbeat(sub: string, now: int, count: Option<int>)
    | OpCountRequest(sub: string)
    | OpAddBytes(sub: string, n: int)
    | OpAwaitRequest(id: string)
    | OpResolveRequest(id: string)
    | OpRequestTimeout(id: string)
    | OpAddSocket(id: string, sub: string)
    | OpDropSocket(id: string)
    | OpFrame(id: string, n: int)
    | OpCloseSockets(sub: string)
    | OpAwaitUpgrade(id: string)
    | OpResolveUpgrade(id: string)
    | OpUpgradeTimeout(id: string)

  /**
   * Subdomains come from the generator, so they are colon-free and not in use; tunnel ids, request
   * ids and socket ids are fresh; a timeout callback runs only while its timer is live.
   */
  predicate Enabled(m: Manager, op: Op) {
    match op
    case OpRegister(sub, t) => ':' !in sub && sub !in m.tunnels.bySub && t.id !in m.tunnels.byId
    case OpAwaitRequest(id) => id !in m.requests.log
    case OpRequestTimeout(id) => id in m.requests.timers
    case OpAddSocket(id, _) => id !in m.sockets.open
    case OpAwaitUpgrade(id) => id !in m.upgrades.log
    case OpUpgradeTimeout(id) => id in m.upgrades.timers
    case _ => true
  }

  function Apply(m: Manager, op: Op): Manager {
    match op
    case OpRegister(sub, t) => m.(tunnels := AddTunnel(m.tunnels, sub, t))
    case OpUnregister(sub) => Unregister(m, sub)
    case OpSetState(sub, st) => m.(tunnels := SetState(m.tunnels, sub, st))
    case OpHeartbeat(sub, now, count) => m.(tunnels := Heartbeat(m.tunnels, sub, now, count))
    case OpCountRequest(sub) => m.(tunnels := CountRequest(m.tunnels, sub))
    case OpAddBytes(sub, n) => m.(tunnels := AddBytes(m.tunnels, sub, n))
    case OpAwaitRequest(id) => m.(requests := Await(m.requests, id))
    case OpResolveRequest(id) => m.(requests := Resolve(m.requests, id))
    case OpRequestTimeout(id) => m.(requests := Settle(m.requests, {id}, TimedOut))
    case OpAddSocket(id, sub) => m.(sockets := AddSocket(m.sockets, id, sub))
    case OpDropSocket(id) => m.(sockets := DropSocket(m.sockets, id))
    case OpFrame(id, n) => TrackFrame(m, id, n)
    case OpCloseSockets(sub) => m.(sockets := CloseSockets(m.sockets, sub))
    case OpAwaitUpgrade(id) => m.(upgrades := AwaitUpgrade(m.upgrades, id))
    case OpResolveUpgrade(id) => m.(upgrades := Resolve(m.upgrades, id))
    case OpUpgradeTimeout(id) => m.(upgrades := Settle(m.upgrades, {id}, TimedOut))
  }

  lemma UnregisterKeeps(m: Manager, sub: string)
    requires Consistent(m)
    ensures Consistent(Unregister(m, sub))
  {
    if sub in m.tunnels.bySub {
      DropTunnelKeeps(m.tunnels, sub);
      SettleKeeps(m.requests, Owned(m.requests, sub), TunnelGone);
      CloseSocketsKeeps(m.sockets, sub);
      SettleKeeps(m.upgrades, Owned(m.upgrades, sub), TunnelGone);
    }
  }

  lemma ApplyKeeps(m: Manager, op: Op)
    requires Consistent(m) && Enabled(m, op)
    ensures Consistent(Apply(m, op))
  {
    match op
    case OpRegister(sub, t) => AddTunnelKeeps(m.tunnels, sub, t);
    case OpUnregister(sub) => UnregisterKeeps(m, sub);
    case OpSetState(sub, st) => SetStateKeeps(m.tunnels, sub, st);
    case OpHeartbeat(sub, now, count) => HeartbeatKeeps(m.tunnels, sub, now, count);
    case OpCountRequest(sub) => CountersKeep(m.tunnels, sub, 0);
    case OpAddBytes(sub, n) => CountersKeep(m.tunnels, sub, n);
    case OpAwaitRequest(id) => AwaitKeeps(m.requests, id);
    case OpResolveRequest(id) =>
      if id in m.requests.pending { SettleKeeps(m.requests, {id}, Resolved); }
    case OpRequestTimeout(id) => SettleKeeps(m.requests, {id}, TimedOut);
    case OpAddSocket(id, sub) => AddSocketKeeps(m.sockets, id, sub);
    case OpDropSocket(id) => DropSocketKeeps(m.sockets, id);
    case OpFrame(id, n) =>
      if n >= 0 && id in m.sockets.open {
        FrameSeenKeeps(m.sockets, id, n);
        CountersKeep(m.tunnels, m.sockets.open[id].subdomain, n);
      }
    case OpCloseSockets(sub) => CloseSocketsKeeps(m.sockets, sub);
    case OpAwaitUpgrade(id) => AwaitKeeps(m.upgrades, id);
    case OpResolveUpgrade(id) =>
      if id in m.upgrades.pending { SettleKeeps(m.upgrades, {id}, Resolved); }
    case OpUpgradeTimeout(id) => SettleKeeps(m.upgrades, {id}, TimedOut);
  }

  /** `ops` can be performed one after the other from `m`, ending in `last`. */
  ghost predicate Run(m: Manager, ops: seq<Op>, last: Manager)
    decreases |ops|
  {
    if ops == [] then m == last
    else Enabled(m, ops[0]) && Run(Apply(m, ops[0]), ops[1..], last)
  }

  lemma {:induction false} RunConsistent(m: Manager, ops: seq<Op>, last: Manager)
    requires Consistent(m) && Run(m, ops, last)
    ensures Consistent(last)
    decreases |ops|
  {
    if ops != [] {
      ApplyKeeps(m, ops[0]);
      RunConsistent(Apply(m, ops[0]), ops[1..], last);
    }
  }

  lemma EveryRunConsistent(ops: seq<Op>, m: Manager)
    requires Run(EmptyManager, ops, m)
    ensures Consistent(m)
  {
    RunConsistent(EmptyManager, ops, m);
  }

  /** After any sequence of operations on a fresh manager the id index is the inverse of the primary one. */
  lemma EveryRunIdIndex(ops: seq<Op>, m: Manager, sub: string, id: string)
    requires Run(EmptyManager, ops, m)
    ensures (sub in m.tunnels.bySub && m.tunnels.bySub[sub].id == id)
              <==> (id in m.tunnels.byId && m.tunnels.byId[id] == sub)
  {
    EveryRunConsistent(ops, m);
  }

  /** ... the key index holds for each key exactly its tunnels, and no entry for a key without tunnels. */
  lemma EveryRunKeyIndex(ops: seq<Op>, m: Manager, key: string)
    requires Run(EmptyManager, ops, m)
    ensures key in m.tunnels.byKey <==> TunnelsOfKey(m.tunnels, key) != {}
    ensures key in m.tunnels.byKey ==> m.tunnels.byKey[key] == TunnelsOfKey(m.tunnels, key)
  {
    EveryRunConsistent(ops, m);
    KeySetIsTunnelsOfKey(m.tunnels, key);
  }

  /** ... and a tunnel's socket count is the number of its sockets, absent exactly when that is zero. */
  lemma EveryRunCounts(ops: seq<Op>, m: Manager, sub: string)
    requires Run(EmptyManager, ops, m)
    ensures CountOf(m.sockets, sub) == |SocketsOf(m.sockets, sub)|
    ensures sub in m.sockets.count <==> SocketsOf(m.sockets, sub) != {}
  {
    EveryRunConsistent(ops, m);
    CountIsSize(m.sockets, sub);
  }

  /** Under every interleaving a promise is settled at most once, and pending exactly until then. */
  lemma EveryRunSettlesOnce(ops: seq<Op>, m: Manager, p: Promises, id: string)
    requires Run(EmptyManager, ops, m) && p in {m.requests, m.upgrades}
    ensures id in p.log ==> |p.log[id]| <= 1 && (id in p.pending <==> p.log[id] == [])
    ensures id in p.pending <==> id in p.timers
    ensures id in p.pending ==> id in p.log
    ensures |m.upgrades.pending| <= MAX_PENDING_UPGRADES
  {
    EveryRunConsistent(ops, m);
  }

  // ---------------------------------------------------------------------------
  // What unregister takes with it
  // ---------------------------------------------------------------------------

  /** Unregistering rejects exactly the promises that carry the tunnel's prefix and no others. */
  lemma RejectionIsExact(p: Promises, sub: string, other: string, rest: string)
    requires PromisesAgree(p) && ':' !in sub && ':' !in other
    requires other + ":" + rest in p.pending
    ensures var n, id := RejectOwned(p, sub), other + ":" + rest;
            && (id in n.pending <==> sub != other)
            && n.log[id] == (if sub == other then [TunnelGone] else [])
    ensures forall id | id in p.log && id !in p.pending :: RejectOwned(p, sub).log[id] == p.log[id]
    ensures RejectOwned(p, sub).pending.Keys <= p.pending.Keys && RejectOwned(p, sub).log.Keys == p.log.Keys
  {
    PrefixTest(other, sub, rest);
  }

  /** A tunnel name that is not registered any more owns nothing. */
  lemma UnregisterLeavesNothing(m: Manager, sub: string)
    requires Consistent(m) && sub in m.tunnels.bySub
    ensures var n := Unregister(m, sub);
            && sub !in n.tunnels.bySub && SocketsOf(n.sockets, sub) == {}
            && Owned(n.requests, sub) == {} && Owned(n.upgrades, sub) == {}
            && (forall s | s != sub :: SocketsOf(n.sockets, s) == SocketsOf(m.sockets, s))
            && (forall s | s != sub && s in m.tunnels.bySub ::
                  s in n.tunnels.bySub && n.tunnels.bySub[s] == m.tunnels.bySub[s])
            && (forall id | id in SocketsOf(m.sockets, sub) ::
                  id in n.sockets.closed && n.sockets.closed[id] == TUNNEL_CLOSED)
  {
  }
}
