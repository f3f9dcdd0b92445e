/**
 * The connection manager as the server keeps it: one object whose methods update its maps in
 * place. Each method is proved to compute the function of module Registry that bears its meaning.
 */
module ConnectionManagers {
  import opened Basics
  import opened Subdomains
  import opened Registry

  /**
   * The seven maps are kept in four groups, with what their methods do to the outside: live timers,
   * resolver calls and closed public sockets.
   */
  class ConnectionManager {
    var tunnels: Index       // tunnelsBySubdomain, tunnelsByKeyId, tunnelsById
    var requests: Promises   // pendingRequests
    var sockets: Sockets     // proxiedWebSockets, wsCountBySubdomain
    var upgrades: Promises   // wsUpgradePending

    ghost function View(): Manager
      reads this
    {
      Manager(tunnels, requests, sockets, upgrades)
    }

    /**
     * The object invariant: all seven maps agree. A method that works on some of the maps asks for
     * and keeps the part about those; its modifies clause leaves the others alone.
     */
    ghost predicate Valid()
      reads this
    {
      Consistent(View())
    }

    constructor ()
      ensures View() == EmptyManager
      ensures Valid()
    {
      tunnels := Index(map[], map[], map[]);
      requests, upgrades := Promises(map[], {}, map[]), Promises(map[], {}, map[]);
      sockets := Sockets(map[], map[], map[]);
    }

    /**
     * Registers under the first acceptable of the five names the generator may draw, or returns
     * nothing and changes nothing when all of them collide.
     */
    method Register(socket: nat, tunnelId: string, keyId: string, expiresAt: Option<int>, now: int,
                    generated: seq<string>)
      returns (r: Option<string>)
      requires IndexesAgree(tunnels) && tunnelId !in tunnels.byId
      requires |generated| == 5 && forall name | name in generated :: ':' !in name
      modifies `tunnels
      ensures r.None? ==> tunnels == old(tunnels)
      ensures r.None? <==> forall name | name in generated :: !Acceptable(name, old(tunnels).bySub.Keys)
      ensures r.Some? ==> r.value in generated && Acceptable(r.value, old(tunnels).bySub.Keys)
      ensures r.Some? ==> tunnels == AddTunnel(old(tunnels), r.value,
                                               Tunnel(tunnelId, keyId, socket, Active, now, 0, 0, expiresAt))
      ensures IndexesAgree(tunnels)
    {
      r := GenerateUniqueSubdomain(tunnels.bySub.Keys, generated);
      if r.Some? {
        AddToIndexes(r.value, Tunnel(tunnelId, keyId, socket, Active, now, 0, 0, expiresAt));
      }
    }

    /** The part of Register that stores the record in the indexes. */
    method AddToIndexes(subdomain: string, connection: Tunnel)
      requires IndexesAgree(tunnels) && ':' !in subdomain && subdomain !in tunnels.bySub
                && connection.id !in tunnels.byId
      modifies `tunnels
      ensures tunnels == AddTunnel(old(tunnels), subdomain, connection)
      ensures IndexesAgree(tunnels)
    {
      AddTunnelKeeps(tunnels, subdomain, connection);
      tunnels := tunnels.(bySub := tunnels.bySub[subdomain := connection]);
      tunnels := tunnels.(byId := tunnels.byId[connection.id := subdomain]);
      if connection.keyId !in tunnels.byKey {
        tunnels := tunnels.(byKey := tunnels.byKey[connection.keyId := {}]);
      }
      tunnels := tunnels.(byKey := tunnels.byKey[connection.keyId := tunnels.byKey[connection.keyId] + {subdomain}]);
    }

    method Unregister(subdomain: string)
      requires Valid()
      modifies this
      ensures View() == Registry.Unregister(old(View()), subdomain)
      ensures Valid()
    {
      UnregisterKeeps(View(), subdomain);
      if subdomain in tunnels.bySub {
        UnregisterFound(subdomain);
      }
    }

    /** The rest of Unregister, for a name that is registered. */
    method UnregisterFound(subdomain: string)
      requires IndexesAgree(tunnels) && subdomain in tunnels.bySub
      requires CountsAgree(sockets) && PromisesAgree(upgrades) && PromisesAgree(requests)
      modifies this
      ensures View() == Registry.Unregister(old(View()), subdomain)
    {
      ghost var was := View();
      var connection := tunnels.bySub[subdomain];
      CloseWebSocketsForTunnel(subdomain);
      RejectUpgradesOf(subdomain);
      RemoveFromIndexes(subdomain, connection);
      RejectRequestsOf(subdomain);
      UnregisteredIs(was, subdomain, View());
    }

    /** The part of Unregister between its two loops. */
    method RemoveFromIndexes(subdomain: string, connection: Tunnel)
      requires IndexesAgree(tunnels) && subdomain in tunnels.bySub && tunnels.bySub[subdomain] == connection
      modifies `tunnels
      ensures tunnels == DropTunnel(old(tunnels), subdomain)
    {
      tunnels := tunnels.(bySub := tunnels.bySub - {subdomain});
      tunnels := tunnels.(byId := tunnels.byId - {connection.id});
      if connection.keyId in tunnels.byKey {
        var keyTunnels := tunnels.byKey[connection.keyId] - {subdomain};
        tunnels := tunnels.(byKey := tunnels.byKey[connection.keyId := keyTunnels]);
        if keyTunnels == {} {
          tunnels := tunnels.(byKey := tunnels.byKey - {connection.keyId});
        }
      }
    }

    /** First loop of Unregister: scans the table while rejecting, clearing timers and deleting. */
    method RejectUpgradesOf(subdomain: string)
      requires PromisesAgree(upgrades)
      modifies `upgrades
      ensures upgrades == RejectOwned(old(upgrades), subdomain)
    {
      ghost var p, owned := upgrades, Owned(upgrades, subdomain);
      var ids := upgrades.pending.Keys;
      SettleNone(p, TunnelGone);
      assert owned - ids == {};
      while ids != {}
        invariant ids <= p.pending.Keys
        invariant upgrades == Settle(p, owned - ids, TunnelGone)
      {
        var id :| id in ids;
        OneFewer(owned, ids, id);
        if OwnedBy(id, subdomain) {
          SettleOneMore(p, owned - ids, id, TunnelGone);
          upgrades := upgrades.(log := upgrades.log[id := upgrades.log[id] + [TunnelGone]]);
          upgrades := upgrades.(timers := upgrades.timers - {upgrades.pending[id].timer});
          upgrades := upgrades.(pending := upgrades.pending - {id});
        }
        ids := ids - {id};
      }
    }

    /** Second loop of Unregister, over the pending HTTP requests. */
    method RejectRequestsOf(subdomain: string)
      requires PromisesAgree(requests)
      modifies `requests
      ensures requests == RejectOwned(old(requests), subdomain)
    {
      ghost var p, owned := requests, Owned(requests, subdomain);
      var ids := requests.pending.Keys;
      SettleNone(p, TunnelGone);
      assert owned - ids == {};
      while ids != {}
        invariant ids <= p.pending.Keys
        invariant requests == Settle(p, owned - ids, TunnelGone)
      {
        var id :| id in ids;
        OneFewer(owned, ids, id);
        if OwnedBy(id, subdomain) {
          SettleOneMore(p, owned - ids, id, TunnelGone);
          requests := requests.(log := requests.log[id := requests.log[id] + [TunnelGone]]);
          requests := requests.(timers := requests.timers - {requests.pending[id].timer});
          requests := requests.(pending := requests.pending - {id});
        }
        ids := ids - {id};
      }
    }

    /** Collect the sockets of the tunnel, then close and unregister them one by one. */
    method CloseWebSocketsForTunnel(subdomain: string)
      requires CountsAgree(sockets)
      modifies `sockets
      ensures sockets == CloseSockets(old(sockets), subdomain)
      ensures CountsAgree(sockets)
    {
      ghost var x, mine := sockets, SocketsOf(sockets, subdomain);
      var wsToClose, ids := {}, sockets.open.Keys;
      while ids != {}
        invariant ids <= sockets.open.Keys
        invariant sockets == x && wsToClose == mine - ids
      {
        var id :| id in ids;
        OneFewer(mine, ids, id);
        if sockets.open[id].subdomain == subdomain {
          wsToClose := wsToClose + {id};
        }
        ids := ids - {id};
      }
      assert wsToClose == mine;
      CloseEach(wsToClose);
      ClosedOffAll(x, subdomain, sockets);
    }

    /** The second loop of CloseWebSocketsForTunnel. */
    method CloseEach(wsToClose: set<string>)
      requires CountsAgree(sockets) && wsToClose <= sockets.open.Keys
      modifies `sockets
      ensures ClosedOff(old(sockets), wsToClose, sockets)
    {
      ghost var x := sockets;
      var left := wsToClose;
      assert ClosedOff(x, wsToClose - left, sockets);
      while left != {}
        invariant left <= wsToClose
        invariant ClosedOff(x, wsToClose - left, sockets)
      {
        var id :| id in left;
        OneFewer(wsToClose, left, id);
        if id in sockets.open {
          ClosedOffOneMore(x, wsToClose - left, sockets, id);
          sockets := sockets.(closed := sockets.closed[id := TUNNEL_CLOSED]);
          UnregisterProxiedWebSocket(id);
        }
        left := left - {id};
      }
      assert wsToClose - left == wsToClose;
    }

    method RegisterProxiedWebSocket(id: string, subdomain: string)
      requires CountsAgree(sockets) && id !in sockets.open
      modifies `sockets
      ensures sockets == AddSocket(old(sockets), id, subdomain)
      ensures CountsAgree(sockets)
    {
      AddSocketKeeps(sockets, id, subdomain);
      sockets := sockets.(open := sockets.open[id := Proxied(subdomain, 0, 0)]);
      var currentCount := GetWebSocketCount(subdomain);
      sockets := sockets.(count := sockets.count[subdomain := currentCount + 1]);
    }

    method UnregisterProxiedWebSocket(id: string)
      requires CountsAgree(sockets)
      modifies `sockets
      ensures sockets == DropSocket(old(sockets), id)
      ensures CountsAgree(sockets)
    {
      if id !in sockets.open {
        return;
      }
      DropSocketKeeps(sockets, id);
      var ws := sockets.open[id];
      sockets := sockets.(open := sockets.open - {id});
      var currentCount := GetWebSocketCount(ws.subdomain);
      if currentCount <= 1 {
        sockets := sockets.(count := sockets.count - {ws.subdomain});
      } else {
        sockets := sockets.(count := sockets.count[ws.subdomain := currentCount - 1]);
      }
    }

    function GetWebSocketCount(subdomain: string): nat
      reads `sockets
    {
      if subdomain in sockets.count then sockets.count[subdomain] else 0
    }

    /** The limit check in O(1) asks the question about the true set of sockets. */
    method IsWebSocketLimitExceeded(subdomain: string, limit: int) returns (r: bool)
      requires CountsAgree(sockets)
      ensures r <==> |SocketsOf(sockets, subdomain)| >= limit
    {
      CountIsSize(sockets, subdomain);
      r := GetWebSocketCount(subdomain) >= limit;
    }

    /** The size of the key's set is the number of registered tunnels with that key. */
    method GetCountByKeyId(keyId: string) returns (r: nat)
      requires IndexesAgree(tunnels)
      ensures r == |TunnelsOfKey(tunnels, keyId)|
    {
      KeySetIsTunnelsOfKey(tunnels, keyId);
      r := if keyId in tunnels.byKey then |tunnels.byKey[keyId]| else 0;
    }

    /** The two-step lookup finds the tunnel with that id exactly when there is one. */
    method FindById(tunnelId: string) returns (r: Option<Tunnel>)
      requires IndexesAgree(tunnels)
      ensures r.None? <==> forall s | s in tunnels.bySub :: tunnels.bySub[s].id != tunnelId
      ensures r.Some? ==> r.value.id == tunnelId && r.value in tunnels.bySub.Values
    {
      if tunnelId !in tunnels.byId {
        return None;
      }
      r := Some(tunnels.bySub[tunnels.byId[tunnelId]]);
    }

    /** The names of all tunnels of a key, each once, found through the key index. */
    method FindByKeyId(keyId: string) returns (r: seq<string>)
      requires IndexesAgree(tunnels)
      ensures forall s :: s in r <==> s in tunnels.bySub && tunnels.bySub[s].keyId == keyId
      ensures forall i, j | 0 <= i < j < |r| :: r[i] != r[j]
    {
      r := [];
      KeySetIsTunnelsOfKey(tunnels, keyId);
      ghost var all := TunnelsOfKey(tunnels, keyId);
      var left := if keyId in tunnels.byKey then tunnels.byKey[keyId] else {};
      while left != {}
        invariant left <= all
        invariant forall s :: s in r <==> s in all - left
        invariant forall i, j | 0 <= i < j < |r| :: r[i] != r[j]
      {
        var s :| s in left;
        left := left - {s};
        if s in tunnels.bySub {
          assert all - left == all - (left + {s}) + {s};
          r := r + [s];
        }
      }
    }

    method UpdateState(subdomain: string, state: TunnelState)
      requires IndexesAgree(tunnels)
      modifies `tunnels
      ensures tunnels == SetState(old(tunnels), subdomain, state)
      ensures IndexesAgree(tunnels)
    {
      if subdomain in tunnels.bySub {
        SetStateKeeps(tunnels, subdomain, state);
        var connection := tunnels.bySub[subdomain];
        tunnels := tunnels.(bySub := tunnels.bySub[subdomain := connection.(state := state)]);
      }
    }

    method UpdateHeartbeat(subdomain: string, now: int, requestCount: Option<int>)
      requires IndexesAgree(tunnels)
      modifies `tunnels
      ensures tunnels == Heartbeat(old(tunnels), subdomain, now, requestCount)
      ensures IndexesAgree(tunnels)
    {
      if subdomain in tunnels.bySub {
        HeartbeatKeeps(tunnels, subdomain, now, requestCount);
        var connection := tunnels.bySub[subdomain].(lastHeartbeat := now);
        if requestCount.Some? {
          connection := connection.(requestCount := requestCount.value);
        }
        tunnels := tunnels.(bySub := tunnels.bySub[subdomain := connection]);
      }
    }

    method IncrementRequestCount(subdomain: string)
      requires IndexesAgree(tunnels)
      modifies `tunnels
      ensures tunnels == CountRequest(old(tunnels), subdomain)
      ensures IndexesAgree(tunnels)
    {
      if subdomain in tunnels.bySub {
        CountersKeep(tunnels, subdomain, 0);
        var connection := tunnels.bySub[subdomain];
        tunnels := tunnels.(
          bySub := tunnels.bySub[subdomain := connection.(requestCount := connection.requestCount + 1)]);
      }
    }

    method AddBytesTransferred(subdomain: string, bytes: int)
      requires IndexesAgree(tunnels)
      modifies `tunnels
      ensures tunnels == AddBytes(old(tunnels), subdomain, bytes)
      ensures IndexesAgree(tunnels)
    {
      if subdomain in tunnels.bySub {
        CountersKeep(tunnels, subdomain, bytes);
        var connection := tunnels.bySub[subdomain];
        tunnels := tunnels.(bySub := tunnels.bySub[subdomain := connection.(bytes := connection.bytes + bytes)]);
      }
    }

    method TrackWebSocketFrame(id: string, bytes: int)
      requires IndexesAgree(tunnels) && CountsAgree(sockets)
      modifies `sockets, `tunnels
      ensures sockets == TrackFrame(old(View()), id, bytes).sockets
      ensures tunnels == TrackFrame(old(View()), id, bytes).tunnels
      ensures IndexesAgree(tunnels) && CountsAgree(sockets)
    {
      if bytes < 0 || id !in sockets.open {
        return;
      }
      FrameSeenKeeps(sockets, id, bytes);
      var ws := sockets.open[id];
      sockets := sockets.(open := sockets.open[id := ws.(frameCount := ws.frameCount + 1, bytes := ws.bytes + bytes)]);
      AddBytesTransferred(ws.subdomain, bytes);
    }

    method RegisterPendingRequest(requestId: string)
      requires PromisesAgree(requests) && requestId !in requests.log
      modifies `requests
      ensures requests == Await(old(requests), requestId)
      ensures PromisesAgree(requests)
    {
      AwaitKeeps(requests, requestId);
      requests := requests.(timers := requests.timers + {requestId});
      requests := requests.(log := requests.log[requestId := []]);
      requests := requests.(pending := requests.pending[requestId := Pending(requestId)]);
    }

    /** The callback of the request timer, which has just fired. */
    method RequestTimedOut(requestId: string)
      requires PromisesAgree(requests) && requestId in requests.timers
      modifies `requests
      ensures requests == Settle(old(requests), {requestId}, TimedOut)
      ensures PromisesAgree(requests)
    {
      SettleKeeps(requests, {requestId}, TimedOut);
      requests := requests.(timers := requests.timers - {requestId});
      requests := requests.(pending := requests.pending - {requestId});
      requests := requests.(log := requests.log[requestId := requests.log[requestId] + [TimedOut]]);
    }

    method ResolvePendingRequest(requestId: string) returns (r: bool)
      requires PromisesAgree(requests)
      modifies `requests
      ensures requests == Resolve(old(requests), requestId)
      ensures PromisesAgree(requests)
      ensures r <==> requestId in old(requests.pending)
    {
      if requestId !in requests.pending {
        return false;
      }
      SettleKeeps(requests, {requestId}, Resolved);
      requests := requests.(timers := requests.timers - {requests.pending[requestId].timer});
      requests := requests.(log := requests.log[requestId := requests.log[requestId] + [Resolved]]);
      requests := requests.(pending := requests.pending - {requestId});
      r := true;
    }

    method WaitForWebSocketUpgrade(id: string)
      requires UpgradesAgree(upgrades) && id !in upgrades.log
      modifies `upgrades
      ensures upgrades == AwaitUpgrade(old(upgrades), id)
      ensures UpgradesAgree(upgrades)
    {
      AwaitKeeps(upgrades, id);
      if |upgrades.pending| >= MAX_PENDING_UPGRADES {
        upgrades := upgrades.(log := upgrades.log[id := [Overloaded]]);
        return;
      }
      upgrades := upgrades.(timers := upgrades.timers + {id});
      upgrades := upgrades.(log := upgrades.log[id := []]);
      upgrades := upgrades.(pending := upgrades.pending[id := Pending(id)]);
    }

    /** The callback of the upgrade timer, which has just fired. */
    method UpgradeTimedOut(id: string)
      requires UpgradesAgree(upgrades) && id in upgrades.timers
      modifies `upgrades
      ensures upgrades == Settle(old(upgrades), {id}, TimedOut)
      ensures UpgradesAgree(upgrades)
    {
      SettleKeeps(upgrades, {id}, TimedOut);
      upgrades := upgrades.(timers := upgrades.timers - {id});
      upgrades := upgrades.(pending := upgrades.pending - {id});
      upgrades := upgrades.(log := upgrades.log[id := upgrades.log[id] + [TimedOut]]);
    }

    method ResolveWebSocketUpgrade(id: string)
      requires UpgradesAgree(upgrades)
      modifies `upgrades
      ensures upgrades == Resolve(old(upgrades), id)
      ensures UpgradesAgree(upgrades)
    {
      if id !in upgrades.pending {
        return;
      }
      SettleKeeps(upgrades, {id}, Resolved);
      upgrades := upgrades.(timers := upgrades.timers - {upgrades.pending[id].timer});
      upgrades := upgrades.(log := upgrades.log[id := upgrades.log[id] + [Resolved]]);
      upgrades := upgrades.(pending := upgrades.pending - {id});
    }

    /** Exactly the names of tunnels whose expiry lies strictly before `now`. */
    method FindExpiredConnections(now: int) returns (r: set<string>)
      ensures r == set s | s in tunnels.bySub && Expired(tunnels.bySub[s], now)
    {
      r := {};
      var left := tunnels.bySub.Keys;
      while left != {}
        invariant left <= tunnels.bySub.Keys
        invariant r == set s | s in tunnels.bySub && s !in left && Expired(tunnels.bySub[s], now)
      {
        var s :| s in left;
        left := left - {s};
        var connection := tunnels.bySub[s];
        if connection.expiresAt.Some? && connection.expiresAt.value < now {
          r := r + {s};
        }
      }
    }

    /**
     * One run of the periodic expiry check. `ready` gives the state of each control socket; an open
     * one is told and closed, so its own close event cleans up, a closed one is cleaned up here, and
     * a closing one is left to its close event.
     */
    method ExpiryTick(now: int, ready: map<nat, ReadyState>) returns (told: set<string>)
      requires Valid() && forall s | s in tunnels.bySub :: tunnels.bySub[s].socket in ready
      modifies this
      ensures Valid()
      ensures told == set s | s in old(tunnels).bySub && Expired(old(tunnels).bySub[s], now)
                              && ready[old(tunnels).bySub[s].socket] == Open
      ensures tunnels.bySub == map s | s in old(tunnels).bySub && !Reaped(old(tunnels).bySub[s], now, ready)
                                   :: old(tunnels).bySub[s]
    {
      ghost var was := tunnels.bySub;
      var left := FindExpiredConnections(now);
      ghost var due := left;
      told := {};
      while left != {}
        invariant Valid() && Ticked(was, due, left, ready, told, tunnels.bySub)
      {
        var s :| s in left;
        TickOne(was, due, left, ready, told, tunnels.bySub, s);
        left := left - {s};
        var isOpen := ExpireOne(s, ready);
        if isOpen {
          told := told + {s};
        }
      }
      TickedAll(was, due, ready, told, tunnels.bySub);
    }

    /** The loop body of ExpiryTick on one expired tunnel. */
    method ExpireOne(s: string, ready: map<nat, ReadyState>) returns (told: bool)
      requires Valid() && s in tunnels.bySub && tunnels.bySub[s].socket in ready
      modifies this
      ensures Valid()
      ensures told <==> ready[old(tunnels).bySub[s].socket] == Open
      ensures tunnels.bySub == if ready[old(tunnels).bySub[s].socket] == Closed then old(tunnels).bySub - {s}
                               else old(tunnels).bySub
    {
      var conn := tunnels.bySub[s];
      if ready[conn.socket] == Open {
        return true;
      }
      if ready[conn.socket] == Closed {
        UnregisterDropsName(View(), s);
        Unregister(s);
      }
      told := false;
    }
  }

  /** The names in `done` whose tunnel's socket is in this state. */
  function InState(was: map<string, Tunnel>, done: set<string>, ready: map<nat, ReadyState>,
                   state: ReadyState): set<string>
    requires done <= was.Keys && forall s | s in was :: was[s].socket in ready
  {
    set s | s in done && ready[was[s].socket] == state
  }

  lemma OneMoreInState(was: map<string, Tunnel>, done: set<string>, ready: map<nat, ReadyState>, s: string,
                       state: ReadyState)
    requires done <= was.Keys && s in was && forall s | s in was :: was[s].socket in ready
    ensures InState(was, done + {s}, ready, state)
            == InState(was, done, ready, state) + if ready[was[s].socket] == state then {s} else {}
  {
  }

  /** Of the tunnels that were due, those that are not `left` were dealt with. */
  ghost predicate Ticked(was: map<string, Tunnel>, due: set<string>, left: set<string>, ready: map<nat, ReadyState>,
                         told: set<string>, bySub: map<string, Tunnel>)
  {
    && left <= due <= was.Keys && (forall s | s in was :: was[s].socket in ready)
    && told == InState(was, due - left, ready, Open)
    && bySub == was - InState(was, due - left, ready, Closed)
  }

  lemma TickOne(was: map<string, Tunnel>, due: set<string>, left: set<string>, ready: map<nat, ReadyState>,
                told: set<string>, bySub: map<string, Tunnel>, s: string)
    requires Ticked(was, due, left, ready, told, bySub) && s in left
    ensures s in bySub && bySub[s] == was[s]
    ensures var state := ready[was[s].socket];
            Ticked(was, due, left - {s}, ready, if state == Open then told + {s} else told,
                   if state == Closed then bySub - {s} else bySub)
  {
    OneFewer(due, left, s);
    OneMoreInState(was, due - left, ready, s, Open);
    OneMoreInState(was, due - left, ready, s, Closed);
    MinusOneMore(was, InState(was, due - left, ready, Closed), s);
  }

  lemma TickedAll(was: map<string, Tunnel>, due: set<string>, ready: map<nat, ReadyState>, told: set<string>,
                  bySub: map<string, Tunnel>)
    requires Ticked(was, due, {}, ready, told, bySub)
    ensures told == set s | s in due && ready[was[s].socket] == Open
    ensures bySub == map s | s in was && !(s in due && ready[was[s].socket] == Closed) :: was[s]
  {
    assert due - {} == due;
  }

  predicate Expired(t: Tunnel, now: int) {
    t.expiresAt.Some? && t.expiresAt.value < now
  }

  predicate Reaped(t: Tunnel, now: int, ready: map<nat, ReadyState>)
    requires t.socket in ready
  {
    Expired(t, now) && ready[t.socket] == Closed
  }

  // ---------------------------------------------------------------------------
  // Steps of the loops
  // ---------------------------------------------------------------------------

  lemma MinusOneMore<K, V>(m: map<K, V>, done: set<K>, x: K)
    ensures m - (done + {x}) == (m - done) - {x}
  {
  }

  lemma UnregisteredIs(m: Manager, sub: string, n: Manager)
    requires sub in m.tunnels.bySub && n.tunnels == DropTunnel(m.tunnels, sub)
              && n.requests == RejectOwned(m.requests, sub)
    requires n.sockets == CloseSockets(m.sockets, sub) && n.upgrades == RejectOwned(m.upgrades, sub)
    ensures n == Registry.Unregister(m, sub)
  {
  }

  lemma UnregisterDropsName(m: Manager, sub: string)
    ensures Registry.Unregister(m, sub).tunnels.bySub == m.tunnels.bySub - {sub}
  {
  }

  lemma OneFewer<T>(all: set<T>, left: set<T>, x: T)
    requires x in left
    ensures all - (left - {x}) == if x in all then (all - left) + {x} else all - left
  {
  }

  /** `y` is `x` after the sockets `done` were closed and unregistered. */
  ghost predicate ClosedOff(x: Sockets, done: set<string>, y: Sockets) {
    && y.open == x.open - done
    && y.closed == x.closed + Closes(done)
    && CountsAgree(y)
  }

  lemma SameOpenKeeps(y: Sockets, z: Sockets)
    requires CountsAgree(y) && z.open == y.open && z.count == y.count
    ensures CountsAgree(z)
  {
    assert forall s :: SocketsOf(z, s) == SocketsOf(y, s);
  }

  lemma ClosedOffOneMore(x: Sockets, done: set<string>, y: Sockets, id: string)
    requires ClosedOff(x, done, y) && id in y.open
    ensures var z := y.(closed := y.closed[id := TUNNEL_CLOSED]);
            CountsAgree(z) && ClosedOff(x, done + {id}, DropSocket(z, id))
  {
    var z := y.(closed := y.closed[id := TUNNEL_CLOSED]);
    SameOpenKeeps(y, z);
    DropSocketKeeps(z, id);
    assert x.open - (done + {id}) == (x.open - done) - {id};
    ClosesOneMore(x.closed, done, id);
  }

  lemma ClosesOneMore(closed: map<string, int>, done: set<string>, id: string)
    ensures closed + Closes(done + {id}) == (closed + Closes(done))[id := TUNNEL_CLOSED]
  {
  }

  lemma ClosedOffAll(x: Sockets, sub: string, y: Sockets)
    requires CountsAgree(x) && ClosedOff(x, SocketsOf(x, sub), y)
    ensures y == CloseSockets(x, sub)
  {
    CloseSocketsKeeps(x, sub);
    CountIsDetermined(y, CloseSockets(x, sub));
  }

  /** Two socket tables with the same sockets and correct counts have the same counts. */
  lemma CountIsDetermined(a: Sockets, b: Sockets)
    requires CountsAgree(a) && CountsAgree(b) && a.open == b.open
    ensures a.count == b.count
  {
    forall s ensures SocketsOf(a, s) == SocketsOf(b, s) {}
    forall s | s in a.count ensures s in b.count {
      var id :| id in SocketsOf(a, s);
    }
    forall s | s in b.count ensures s in a.count {
      var id :| id in SocketsOf(b, s);
    }
  }
}
