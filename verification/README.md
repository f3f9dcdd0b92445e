# LivePort tunnel: a verified model

LivePort gives a local server a public URL. A tunnel server holds public HTTP requests and public
WebSockets; a command-line client holds the local ends; one ordered control channel joins the two. This
project models that protocol and the accounting around it in Dafny 4.11 and proves what the code promises
over all interleavings. `dafny verify dfyconfig.toml` checks everything.

## What is modelled

| module | what it is about |
|---|---|
| `Subdomains` | name generation, the prefix test that decides which tunnel owns an id, routing a Host header |
| `Registry`, `ConnectionManagers` | the connection manager: what its seven maps mean, as functions on values, and the object whose methods update them in place |
| `KeyStore` | the bridge-key table's statements, the validator's decision order, and any sequence of calls |
| `KeyUses` | the step system's use counts are those of the table |
| `ServerRuns`, `ServerInvariants` | the whole server as a step system (validation, limits, registration, close and expiry, HTTP forwards, WebSocket admission, metering) and what every step keeps |
| `ServerGuarantees`, `ServerOwnership`, `ServerBilling` | its promises over all runs: use counts, limits and sockets; registration and pending requests; bytes and final rows |
| `ServerReuse` | the runs in which a promise fails |
| `Metering` | the periodic sync and the final write of a tunnel's row |
| `CliRelay`, `RelayLink`, `Relay` | the relay of WebSockets through the control channel: the CLI's handler object, the machine of one socket, and a session of any number of sockets that share the channel |
| `Base64`, `ProxyTokens` | the codecs and the signed proxy tokens |
| `ConnectGateway` | the CONNECT tunnel of the proxy gateway |
| `TunnelClients`, `AgentSdk`, `McpSession` | the three client-side connection state machines |
| `RedisLimiter`, `MemoryLimiter`, `Migrations`, `CaseConversion` | rate limits, the migration runner, key conversion |

Two shapes recur. A component that changes state is a class; each of its methods is proved to compute a
function of its old state, and the lemmas about runs speak about that function. A concurrent system is a
step relation in which one step is one callback together with the promise reactions it runs, or one
database statement; a callback is split at every `await`, and only there.

Assumptions: identifiers from `nanoid` and `randomUUID` are fresh, while a subdomain may be drawn again after
it was unregistered; one SQL or Redis statement is atomic; `handleUpgrade` calls back synchronously; `send` on
an open socket appends to the channel; JSON text parses back to what was serialised. Clocks, random picks,
database outcomes and digests are parameters.

## Where the code does not give what one might expect

- Reused names. The control socket's close handler unregisters by name after it has awaited the metering
  row. If the expiry check removed the name meanwhile and a new tunnel drew it, the new tunnel is
  unregistered although its client is connected. What this breaks, and exactly when:
  - Connected tunnels stay registered if and only if every such handler finds its name not in the hands of another
    connected session (`ServerOwnership.ConnectedTunnelsStayRegisteredIff`).
  - Each pending request belongs to a registered tunnel if and only if every forward that is sent after its body
    was read still finds its tunnel under its name; the code asks for an open control socket only
    (`ServerOwnership.RequestsStayOwnedIff`; `ServerReuse.OwnershipCanFail` is a run without that).
  - Each tunnel's byte counter is what it carried if and only if every answer with bytes finds the name free or still
    with the tunnel that carried the request (`ServerBilling.BytesStayConservedIff`; `ServerReuse.BytesCanFail`).
  - The final row always holds the counters that stood under the name at the close event, which need not be the
    session's own (`ServerBilling.FinalRowIsTheReading`, `ServerBilling.FinalRowIsABill`; `ServerReuse.FinalRowCanBeAnothers`).
  The statements about sockets, upgrades, limits and use counts hold in all runs.
- Leaked uses. The close listener is attached when an attempt is accepted. An attempt whose control socket has
  closed by then is accepted all the same and no close event will come: its use is never given back, even after
  the expiry check has removed its tunnel (`ServerGuarantees.UseLeaksIff`, `ServerReuse.UseCanLeak`). Every other
  accepted attempt can still give its use back (`ServerGuarantees.LeakedIffNeverReturned`). A refusal after
  the increment keeps its use as well (`ServerGuarantees.UseCountsHold` counts both).
- Reconnecting. docs/CLI.md:68 promises up to five attempts with exponential backoff. The attempt counter is
  reset by every connected message and a reconnect is started only from the connected state, so there is at most
  one attempt, after the base delay (`TunnelClients.NeverASecondAttempt`).
- Old sockets of the CLI client. Its close listener does not ask which socket closed: every close event drops
  whatever socket is current (`TunnelClients.EveryCloseDropsTheCurrent`), so a socket ends by itself or by disconnect()
  only if and only if no close event of another one arrives meanwhile (`TunnelClients.CurrentSocketEndsByItselfIff`;
  `TunnelClients.StaleCloseDropsTheNewSocket` is a run). The SDK's listener does ask (`AgentSdk.OldSocketsDoNotInterfere`).
- Disconnecting before connected. The CLI client's disconnect() neither closes a socket that is still opening nor
  removes its listeners, so a late connected message makes the client count as connected without a socket
  (`TunnelClients.ConnectedAfterDisconnectIff`). In the MCP server a connect that resolves after its agent was told to
  disconnect is listed as active, and so is one that a disconnect by tunnel id waited for
  (`McpSession.NoDeadEntriesIff`, `McpSession.DisconnectedButActive`, `McpSession.ProbedStaysListed`).
- A connected message without a payload leaves the SDK's connect() pending for good, without its timeout
  (`AgentSdk.ConnectSettlesOnce`, `AgentSdk.HangsForGood`).
- Use limits. A stored `max_uses` of zero is read as no limit (`KeyStore.OverrunsIff`, `KeyStore.ZeroIsUnlimited`), so the
  keys with a limit in `ServerRuns.Config` are those whose stored limit is not zero (`KeyUses.Tracks`).
- The Redis limiter calls itself a sliding window; its windows are aligned, so an interval of a window's length
  can see twice the maximum. An aligned window keeps the maximum if and only if no more than that is asked of it or no
  transaction finds its counter expired (`RedisLimiter.AlignedWindowBoundIff`); transactions that run at most one second
  after their window's end never do, later ones can, and then even twice the maximum is exceeded in an interval
  (`RedisLimiter.LateRequestsBreakTheBound`, `RedisLimiter.LateRequestsBreakTheIntervalBound`).
- The in-memory limiter's cleanup reads its own, later clock and covers all keys. Cleanups change a verdict if and only
  if some check finds that its own entry, still valid by the check's clock, was removed, by its own cleanup or by an
  earlier one of any key (`MemoryLimiter.CleanupChangesNoVerdictIff`; `MemoryLimiter.LateSweepAdmits` and
  `MemoryLimiter.LateSweepForgetsOthers` are schedules of the two kinds).
- An upstream failure inside an established CONNECT tunnel writes a 502 reply into the tunnel's byte stream
  (`ConnectGateway.ClientGetsTheStream`).
- Frames that are counted while the close handler awaits its row are not in the final row: the row keeps the
  counters of the close event (`ServerBilling.FinalRowIsTheReading`).
- The public close and error listeners are attached when the CLI's acceptance has been processed. A public
  socket that closes earlier stays registered until the upgrade fails, the CLI sends a close or the tunnel goes
  (`Relay.UnnoticedIff`), and an upgrade that timed out is never closed on the CLI (`Relay.FailedUpgradeIsNeverClosed`).
- An oversize local message drops the CLI's entry without a close message, so the server keeps its side until
  the public client leaves (`Relay.OversizeIsNotAnnounced`, `Relay.LetGoForGood`).

## Model

| member | source | states |
|---|---|---|
| `Subdomains.GenerateSubdomain` | `apps/tunnel-server/src/subdomain.ts:101-120` | Every generated name, from any word pair and any random text, is made of lower-case letters, digits and hyphens, so it has no colon |
| `Subdomains.WordsAreLabels` | `apps/tunnel-server/src/subdomain.ts:10-57` | All 200 words of the two tables are labels |
| `Subdomains.GenerateUniqueSubdomain` | `apps/tunnel-server/src/subdomain.ts:158-171` | The bounded retry loop returns the first of the five names that is neither in use nor reserved, and nothing exactly when all five fail |
| `Subdomains.PrefixTestIsOwnership` | `apps/tunnel-server/src/connection-manager.ts:122-150` | For colon-free names `startsWith(name + ":")` holds of a request or socket id exactly for the name the id was made with |
| `Subdomains.OneOwner` | `apps/tunnel-server/src/connection-manager.ts:122-150` | Two registered names never own the same id, even if one is a prefix of the other |
| `Subdomains.RoutesBack` | `apps/tunnel-server/src/http-handler.ts:42-60` | The host name handed out for a tunnel, with or without a port, is extracted back to its subdomain |
| `Subdomains.ExtractedIsALabel` | `apps/tunnel-server/src/http-handler.ts:42-60` | An extracted name is non-empty, has no dot and no colon, and with the base domain is the start of the header |
| `Registry.AddTunnelKeeps` | `apps/tunnel-server/src/connection-manager.ts:92-100` | Registering under an unused name with a fresh id keeps the three indexes in agreement |
| `Registry.DropTunnelKeeps` | `apps/tunnel-server/src/connection-manager.ts:130-141` | Removing a tunnel keeps the three indexes in agreement and leaves no empty key set |
| `Registry.KeySetIsTunnelsOfKey` | `apps/tunnel-server/src/connection-manager.ts:209-211` | The key index, read with an absent entry as empty, is the set of registered tunnels with that key |
| `Registry.PutTunnelKeeps` | `apps/tunnel-server/src/connection-manager.ts:216-254` | Changing the mutable fields of a record keeps the indexes in agreement |
| `Registry.AddSocketKeeps` | `apps/tunnel-server/src/connection-manager.ts:423-446` | Registering a socket keeps every count equal to the number of sockets, and adds exactly that id |
| `Registry.DropSocketKeeps` | `apps/tunnel-server/src/connection-manager.ts:452-471` | Unregistering keeps every count true, drops a count at zero, and a second unregistration of the same socket changes nothing |
| `Registry.CloseSocketsKeeps` | `apps/tunnel-server/src/connection-manager.ts:571-593` | Closing a tunnel's sockets keeps the counts true and leaves none of that tunnel |
| `Registry.FrameSeenKeeps` | `apps/tunnel-server/src/connection-manager.ts:478-497` | Counting a frame leaves the socket table and the counts alone |
| `Registry.CountIsSize` | `apps/tunnel-server/src/connection-manager.ts:504-506` | The stored count, absent meaning zero, is the number of proxied sockets of that tunnel |
| `Registry.AwaitKeeps` | `apps/tunnel-server/src/connection-manager.ts:259-271` | A new promise is in its table with a live timer and no resolver call; over the limit of 1000 upgrades it is rejected at once and not stored |
| `Registry.SettleKeeps` | `apps/tunnel-server/src/connection-manager.ts:276-286` | Settling removes entry and timer and makes the first and only resolver call |
| `Registry.UnregisterKeeps` | `apps/tunnel-server/src/connection-manager.ts:112-153` | Unregistering keeps all seven maps consistent |
| `Registry.ApplyKeeps` | `apps/tunnel-server/src/connection-manager.ts:54-593` | Every single operation keeps all seven maps consistent |
| `Registry.EveryRunIdIndex` | `apps/tunnel-server/src/connection-manager.ts:54-153` | After any sequence of operations the id index is the inverse of the primary index |
| `Registry.EveryRunKeyIndex` | `apps/tunnel-server/src/connection-manager.ts:54-153` | After any sequence of operations the key index holds for each key exactly its tunnels, and no entry for a key without tunnels |
| `Registry.EveryRunCounts` | `apps/tunnel-server/src/connection-manager.ts:423-471` | After any sequence of operations the socket count of a name is the number of its sockets, absent exactly when that is zero |
| `Registry.EveryRunSettlesOnce` | `apps/tunnel-server/src/connection-manager.ts:259-286` | Under every interleaving of response, timeout and disconnect a pending request or upgrade is settled at most once, and is in its table exactly while unsettled with its timer live |
| `Registry.RejectionIsExact` | `apps/tunnel-server/src/connection-manager.ts:144-150` | Unregister rejects a pending id exactly if it was made with that name, and touches no other log entry |
| `Registry.UnregisterLeavesNothing` | `apps/tunnel-server/src/connection-manager.ts:112-153` | After unregister nothing of the name is left in any table, its sockets were closed with 1001, and other tunnels are untouched |
| `ConnectionManagers.ConnectionManager.Register` | `apps/tunnel-server/src/connection-manager.ts:54-107` | Registers under an acceptable name with zeroed counters, or returns nothing and changes nothing exactly when all generated names collide or are reserved |
| `ConnectionManagers.ConnectionManager.AddToIndexes` | `apps/tunnel-server/src/connection-manager.ts:92-100` | The record is stored in all three indexes |
| `ConnectionManagers.ConnectionManager.Unregister` | `apps/tunnel-server/src/connection-manager.ts:112-153` | Computes exactly the unregistration of the specification, loops that delete while scanning included, and keeps the object invariant |
| `ConnectionManagers.ConnectionManager.UnregisterFound` | `apps/tunnel-server/src/connection-manager.ts:112-153` | The part of unregister after the lookup, loops included |
| `ConnectionManagers.ConnectionManager.RemoveFromIndexes` | `apps/tunnel-server/src/connection-manager.ts:130-141` | The tunnel leaves all three indexes, its key set too if it becomes empty |
| `ConnectionManagers.ConnectionManager.RejectUpgradesOf` | `apps/tunnel-server/src/connection-manager.ts:122-128` | The scan-and-delete loop rejects exactly the pending upgrades with the tunnel's prefix, once each, and clears their timers |
| `ConnectionManagers.ConnectionManager.RejectRequestsOf` | `apps/tunnel-server/src/connection-manager.ts:144-150` | The same for pending HTTP requests |
| `ConnectionManagers.ConnectionManager.CloseWebSocketsForTunnel` | `apps/tunnel-server/src/connection-manager.ts:571-593` | The two loops close with 1001 and unregister exactly the tunnel's sockets; the counts stay true |
| `ConnectionManagers.ConnectionManager.CloseEach` | `apps/tunnel-server/src/connection-manager.ts:582-588` | The second loop, one socket at a time |
| `ConnectionManagers.ConnectionManager.RegisterProxiedWebSocket` | `apps/tunnel-server/src/connection-manager.ts:423-446` | Adds the socket and raises the count |
| `ConnectionManagers.ConnectionManager.UnregisterProxiedWebSocket` | `apps/tunnel-server/src/connection-manager.ts:452-471` | Removes the socket and lowers or deletes the count; nothing for an unknown id |
| `ConnectionManagers.ConnectionManager.IsWebSocketLimitExceeded` | `apps/tunnel-server/src/connection-manager.ts:563-565` | The constant-time check answers the question about the true number of sockets |
| `ConnectionManagers.ConnectionManager.GetCountByKeyId` | `apps/tunnel-server/src/connection-manager.ts:209-211` | The size of the key's set is the number of registered tunnels with that key |
| `ConnectionManagers.ConnectionManager.FindById` | `apps/tunnel-server/src/connection-manager.ts:165-171` | The two-step lookup finds a tunnel with that id exactly when one is registered |
| `ConnectionManagers.ConnectionManager.FindByKeyId` | `apps/tunnel-server/src/connection-manager.ts:176-190` | All tunnels of the key, each once |
| `ConnectionManagers.ConnectionManager.UpdateState` | `apps/tunnel-server/src/connection-manager.ts:216-221` | Sets the state of a registered tunnel and nothing else |
| `ConnectionManagers.ConnectionManager.UpdateHeartbeat` | `apps/tunnel-server/src/connection-manager.ts:226-234` | Sets the heartbeat time, and the request count to whatever the message says |
| `ConnectionManagers.ConnectionManager.IncrementRequestCount` | `apps/tunnel-server/src/connection-manager.ts:239-244` | One more request for a registered tunnel |
| `ConnectionManagers.ConnectionManager.AddBytesTransferred` | `apps/tunnel-server/src/connection-manager.ts:249-254` | More bytes for a registered tunnel, nothing for an unknown name |
| `ConnectionManagers.ConnectionManager.TrackWebSocketFrame` | `apps/tunnel-server/src/connection-manager.ts:478-497` | A valid frame of a known socket counts for the socket and for its tunnel; otherwise nothing changes |
| `ConnectionManagers.ConnectionManager.RegisterPendingRequest` | `apps/tunnel-server/src/connection-manager.ts:259-271` | The request is pending, unsettled, with a live timer |
| `ConnectionManagers.ConnectionManager.RequestTimedOut` | `apps/tunnel-server/src/connection-manager.ts:264-267` | The timer callback removes and rejects the request |
| `ConnectionManagers.ConnectionManager.ResolvePendingRequest` | `apps/tunnel-server/src/connection-manager.ts:276-286` | True exactly for a pending request, which is then resolved and removed with its timer |
| `ConnectionManagers.ConnectionManager.WaitForWebSocketUpgrade` | `apps/tunnel-server/src/connection-manager.ts:514-533` | Pending, or rejected at once when 1000 are pending already |
| `ConnectionManagers.ConnectionManager.UpgradeTimedOut` | `apps/tunnel-server/src/connection-manager.ts:526-529` | The timer callback removes and rejects the upgrade |
| `ConnectionManagers.ConnectionManager.ResolveWebSocketUpgrade` | `apps/tunnel-server/src/connection-manager.ts:540-555` | Resolves a pending upgrade; nothing for an unknown one |
| `ConnectionManagers.ConnectionManager.FindExpiredConnections` | `apps/tunnel-server/src/connection-manager.ts:307-316` | Exactly the tunnels whose expiry is set and lies before now |
| `ConnectionManagers.ConnectionManager.ExpiryTick` | `apps/tunnel-server/src/connection-manager.ts:322-353` | Tells exactly the expired tunnels whose socket is open, removes exactly those whose socket is closed, leaves closing ones |
| `ConnectionManagers.ConnectionManager.ExpireOne` | `apps/tunnel-server/src/connection-manager.ts:325-346` | The loop body on one expired tunnel: an open socket is told, a closed one's tunnel removed, a closing one left alone |
| `KeyStore.BridgeKeys.IncrementUseCount` | `packages/shared/src/db/repositories.ts:454-474` | Increments exactly if the row exists and is below the given limit |
| `KeyStore.BridgeKeys.DecrementUseCount` | `packages/shared/src/db/repositories.ts:479-490` | Decrements with a floor at zero, in that row only |
| `KeyStore.BridgeKeys.DecrementUsage` | `apps/tunnel-server/src/key-validator.ts:321-333` | The decrement on disconnect: nothing for the development key or without a database, and a failed statement is swallowed |
| `KeyStore.BridgeKeys.ExpireOldKeys` | `packages/shared/src/db/repositories.ts:514-530` | Marks exactly the active rows past their expiry and returns their number |
| `KeyStore.BridgeKeys.Validate` | `apps/tunnel-server/src/key-validator.ts:107-316` | For every combination of options and every outcome of the calls: the checks stop in the source's order, only the key's own row changes, and a success reports the key's data as they were read |
| `KeyStore.BridgeKeys.ValidateRow` | `apps/tunnel-server/src/key-validator.ts:171-304` | The part after the row was found |
| `KeyStore.OverrunsIff` | `apps/tunnel-server/src/key-validator.ts:247-275` | A validation pushes a count past its stored limit if and only if it counts at all, the count had reached the limit, and the limit is zero or its check is skipped |
| `KeyStore.LimitHolds` | `packages/shared/src/db/repositories.ts:454-490` | Over any sequence of validations that check the limit, decrements and sweeps, in any world, a count stays between zero and its positive limit |
| `KeyStore.ZeroIsUnlimited` | `packages/shared/src/db/repositories.ts:119-121` | A key with a stored limit of zero passes the default validation any number of times, and each is counted |
| `KeyUses.CountIsIncrement` | `packages/shared/src/db/repositories.ts:454-474` | The increment of the step system happens exactly when the statement updates the row, and both count the same |
| `KeyUses.DecrementIsRelease` | `packages/shared/src/db/repositories.ts:479-490` | The same for the decrement |
| `KeyUses.SweepKeepsCounts` | `packages/shared/src/db/repositories.ts:514-530` | Expiring old keys changes no count and no limit |
| `KeyUses.ValidationIsSimulated` | `apps/tunnel-server/src/key-validator.ts:107-316` | Every default validation of a stored key that is not interleaved and whose usage write does not throw is simulated by steps of the server that end in the phase of its outcome with the same counts |
| `ServerInvariants.UsesMore` | `apps/tunnel-server/src/key-validator.ts:247-264` | The conditional increment keeps the count equal to the number of holders and within the limit |
| `ServerInvariants.UsesLess` | `packages/shared/src/db/repositories.ts:479-490` | The decrement gives back exactly one use; its floor at zero is never reached |
| `ServerInvariants.DecideKeeps` | `apps/tunnel-server/src/websocket-handler.ts:188-249` | Limit check and registration without an await in between keep the limits, the indexes and the use counts |
| `ServerInvariants.CloseEventKeeps` | `apps/tunnel-server/src/websocket-handler.ts:298-312` | The close event up to its await keeps the invariant; only a serving session has a listener |
| `ServerInvariants.ReadKeepsRows` | `apps/tunnel-server/src/websocket-handler.ts:308-326` | Reading the counters disturbs no finalised row, because the tunnel id was not read before |
| `ServerInvariants.FinalizeKeeps` | `apps/tunnel-server/src/metering.ts:176-237` | The final upsert stores what the close event read |
| `ServerInvariants.ResumeKeeps` | `apps/tunnel-server/src/websocket-handler.ts:328-333` | Unregistering by name after the await keeps the invariant of all runs |
| `ServerInvariants.ExpireKeeps` | `apps/tunnel-server/src/connection-manager.ts:322-353` | The expiry check keeps the invariant |
| `ServerInvariants.SendKeeps` | `apps/tunnel-server/src/http-handler.ts:347-366` | Sending a forwarded request keeps the invariant |
| `ServerInvariants.RespondKeeps` | `apps/tunnel-server/src/http-handler.ts:388-398` | A response and the byte count that follows it keep the invariant |
| `ServerInvariants.AdmitKeeps` | `apps/tunnel-server/src/websocket-proxy.ts:77-136` | Check, registration and pending upgrade run without an await, so the limit of 100 sockets and the ownership hold |
| `ServerInvariants.ProbeKeeps` | `apps/tunnel-server/src/http-handler.ts:119-227` | An upgrade request that arrives as plain HTTP keeps the invariant |
| `ServerInvariants.FrameKeeps` | `apps/tunnel-server/src/websocket-proxy.ts:211-214` | A relayed frame keeps the invariant |
| `ServerInvariants.SyncKeeps` | `apps/tunnel-server/src/metering.ts:114-150` | A periodic sync with any values leaves disconnected rows alone |
| `ServerInvariants.UnregisterCarries` | `apps/tunnel-server/src/connection-manager.ts:112-153` | The sockets and upgrades that are left after an unregistration still belong to registered tunnels |
| `ServerInvariants.StepKeeps` | `apps/tunnel-server/src/websocket-handler.ts:124-340` | Every step of the server keeps the invariant |
| `ServerGuarantees.UseCountsHold` | `apps/tunnel-server/src/key-validator.ts:247-270` | In every run: stored uses = open + leaked + validating + refused after the increment + awaiting decrement; the key's registered tunnels are at most the open and the leaked ones; uses <= the limit |
| `ServerGuarantees.LeaksIff` | `apps/tunnel-server/src/websocket-handler.ts:188-298` | A step leaks a use if and only if it accepts an attempt whose control socket is closed, and a leaked attempt never changes again |
| `ServerGuarantees.UseLeaksIff` | `apps/tunnel-server/src/websocket-handler.ts:162-334` | In every run an attempt has leaked its use if and only if it was accepted after its control socket had closed |
| `ServerGuarantees.LeakedUseStays` | `apps/tunnel-server/src/websocket-handler.ts:298-334` | In every continuation a leaked use is still counted |
| `ServerGuarantees.UseCanReturn` | `apps/tunnel-server/src/websocket-handler.ts:298-334` | An accepted attempt that holds a use and has not leaked has a continuation after which exactly that use is back |
| `ServerGuarantees.LeakedIffNeverReturned` | `apps/tunnel-server/src/websocket-handler.ts:298-334` | Among the accepted attempts that hold a use in any run, the leaked ones are exactly those whose use no continuation gives back |
| `ServerGuarantees.LimitsHold` | `apps/tunnel-server/src/websocket-handler.ts:188-210` | In every run: at most 100 sockets per tunnel, 1000 pending upgrades, one tunnel per key while the tier stays free, maxConnectionsPerKey otherwise |
| `ServerGuarantees.SocketsBelong` | `apps/tunnel-server/src/websocket-proxy.ts:77-136` | In every run each proxied socket and pending upgrade belongs to exactly one registered tunnel, the one it was admitted through |
| `ServerOwnership.ResumeIsSafeIff` | `apps/tunnel-server/src/websocket-handler.ts:308-328` | The close handler's unregister keeps every connected tunnel registered if and only if its name was not taken meanwhile by another connected session |
| `ServerOwnership.StepLiveIff` | `apps/tunnel-server/src/websocket-handler.ts:124-340` | Every other step of the server keeps every connected tunnel registered |
| `ServerOwnership.ConnectedTunnelsStayRegisteredIff` | `apps/tunnel-server/src/websocket-handler.ts:298-334` | In every run each connected tunnel is registered under its name at every moment if and only if every resuming close handler finds its name still its own |
| `ServerOwnership.StepOwnsIff` | `apps/tunnel-server/src/http-handler.ts:347-366` | A step keeps the ownership of all pending requests if and only if a forward it sends finds the tunnel it captured still registered under the name; all other steps keep it |
| `ServerOwnership.RequestsStayOwnedIff` | `apps/tunnel-server/src/http-handler.ts:286-366` | In every run each pending request belongs at every moment to the registered tunnel it was sent through if and only if every forward over an open control socket meets that guard |
| `ServerOwnership.RequestsBelong` | `apps/tunnel-server/src/http-handler.ts:286-366` | In those runs each pending request belongs to exactly one registered tunnel |
| `ServerOwnership.NoReuseMeetsSendGuard` | `apps/tunnel-server/src/http-handler.ts:347-359` | A run in which every close handler finds its name still its own meets that guard at every forward |
| `ServerOwnership.UnregisterRejectsItsOwn` | `apps/tunnel-server/src/connection-manager.ts:144-150` | In the runs in which every forward meets the guard unregister rejects exactly the requests sent through that tunnel |
| `ServerBilling.StepBalancesIff` | `apps/tunnel-server/src/http-handler.ts:388-398` | A step keeps every counter equal to what its tunnel carried if and only if an answer with bytes finds the name free or still with the tunnel that carried the request |
| `ServerBilling.BytesStayConservedIff` | `apps/tunnel-server/src/http-handler.ts:388-398` | In every run each registered tunnel's counter is at every moment the sum of its completed requests' bodies and its tracked frames if and only if every such answer meets that guard |
| `ServerBilling.SendGuardMeetsBalanceGuard` | `apps/tunnel-server/src/http-handler.ts:347-398` | Where every forward meets its guard, every answer meets this one |
| `ServerBilling.BytesAreConserved` | `apps/tunnel-server/src/http-handler.ts:388-398` | So a run without a resumption on a reused name bills every byte to the tunnel that carried it |
| `ServerBilling.ReadStays` | `apps/tunnel-server/src/websocket-handler.ts:308-326` | No step changes what a close event read |
| `ServerBilling.FinalRowIsTheReading` | `apps/tunnel-server/src/metering.ts:192-217` | In every run a disconnected row holds exactly the counters that stood under the session's name at its close event, whatever syncs and frames come later |
| `ServerBilling.NoFinalRow` | `apps/tunnel-server/src/websocket-handler.ts:308-326` | A session that closes while its name is not registered never gets a disconnected row |
| `ServerBilling.FinalRowIsABill` | `apps/tunnel-server/src/metering.ts:192-217` | Under the guard of every answer that row is what the tunnel under the name had carried until then, and that tunnel is the session's own if and only if the session registered it |
| `ServerBilling.FinalRowIsTheBill` | `apps/tunnel-server/src/metering.ts:192-217` | In a run without a resumption on a reused name a connected tunnel's final row is its own bill |
| `ServerOwnership.OpenMeansRegistered` | `apps/tunnel-server/src/http-handler.ts:347-359` | While connected tunnels are registered, a captured control socket that is still open belongs to the tunnel registered under that name |
| `ServerReuse.ReuseOrphansRequests` | `apps/tunnel-server/src/websocket-handler.ts:308-328` | Whenever a close handler resumes on a reused name while a request is being read for the new tunnel, the request ends up pending under a name nobody holds |
| `ServerReuse.OwnershipCanFail` | `apps/tunnel-server/src/websocket-handler.ts:308-328` | A concrete run in which that happens although the new tunnel's client is connected |
| `ServerReuse.BytesCanFail` | `apps/tunnel-server/src/http-handler.ts:388-398` | Its continuation: a third tunnel takes the name and its counter shows five bytes that it did not carry |
| `ServerReuse.FinalRowCanBeAnothers` | `apps/tunnel-server/src/websocket-handler.ts:308-326` | Another continuation: the session whose tunnel was unregistered closes, and its final row shows seven bytes of the tunnel that took its name |
| `ServerReuse.UseCanLeak` | `apps/tunnel-server/src/websocket-handler.ts:188-334` | A concrete run after which no tunnel is registered and every continuation counts a use |
| `Metering.MeteringService.SyncMetrics` | `apps/tunnel-server/src/metering.ts:94-170` | The loop upserts every reading but the failing ones, a failure stops nothing, and the error count and the sync time follow |
| `Metering.MeteringService.FinalizeTunnelMetrics` | `apps/tunnel-server/src/metering.ts:176-237` | An upsert with the tunnel's data, an update of an existing row without, nothing when it fails |
| `Metering.SyncLeavesAlone` | `apps/tunnel-server/src/metering.ts:123-127` | No sync changes a disconnected row or a tunnel it did not read |
| `Metering.SyncStoresTheReading` | `apps/tunnel-server/src/metering.ts:114-142` | A live tunnel read once gets a live row with what was read |
| `Metering.FinalRowSurvives` | `apps/tunnel-server/src/metering.ts:192-217` | The final row is the same after any number of later syncs |
| `CliRelay.WebSocketHandler.FinishUpgrade` | `packages/cli/src/websocket-handler.ts:102-141` | Stores the entry and answers yes, or answers no |
| `CliRelay.WebSocketHandler.OnLocalMessage` | `packages/cli/src/websocket-handler.ts:151-197` | Sends the message on as base64, or drops an oversize one together with its entry and without a close message |
| `CliRelay.WebSocketHandler.HandleLocalClose` | `packages/cli/src/websocket-handler.ts:214-237` | One close message for a known id, whose entry goes; nothing for an unknown one |
| `CliRelay.WebSocketHandler.HandleData` | `packages/cli/src/websocket-handler.ts:245-277` | Delivers the decoded payload to an open local socket; nothing otherwise |
| `CliRelay.WebSocketHandler.HandleClose` | `packages/cli/src/websocket-handler.ts:331-350` | Closes the local socket and forgets the id; nothing for an unknown one |
| `CliRelay.WebSocketHandler.CloseAll` | `packages/cli/src/websocket-handler.ts:355-363` | Closes and forgets every entry while scanning the map |
| `CliRelay.PayloadSurvives` | `packages/cli/src/websocket-handler.ts:181-189` | Content and binary flag of a message are unchanged by the trip through base64 |
| `RelayLink.TakeOk` | `apps/tunnel-server/src/websocket-proxy.ts:132-285` | Every event of a link keeps: relayed = delivered + lost + under way + unsent in each direction, one opening, one close per direction |
| `RelayLink.ServerReceivesOk` | `apps/tunnel-server/src/websocket-handler.ts:402-520` | The server's handling of answers, data and closes keeps it |
| `RelayLink.ClientReceivesOk` | `packages/cli/src/websocket-handler.ts:245-350` | The CLI's handling of upgrades, data and closes keeps it |
| `RelayLink.SendDownOk` | `apps/tunnel-server/src/websocket-proxy.ts:182-220` | A public message through the captured control socket keeps it |
| `RelayLink.SendUpOk` | `packages/cli/src/websocket-handler.ts:151-197` | A local message keeps it |
| `RelayLink.PublicGoneOk` | `apps/tunnel-server/src/websocket-proxy.ts:222-278` | The public close and error handlers keep it |
| `RelayLink.LocalGoneOk` | `packages/cli/src/websocket-handler.ts:199-237` | The local close and error handlers keep it |
| `RelayLink.DeliveredInOrder` | `apps/tunnel-server/src/websocket-proxy.ts:182-220` | Delivered is a prefix of relayed, and nothing is missing but what is under way while both ends can take messages |
| `RelayLink.DrainedMeansNobody` | `apps/tunnel-server/src/websocket-proxy.ts:223-278` | Once a sent close has drained, neither table has the id |
| `RelayLink.NobodyForGood` | `packages/cli/src/websocket-handler.ts:245-350` | From then on every event for the id leaves both tables and both deliveries alone |
| `RelayLink.EarlyCloseIsNotNoticed` | `apps/tunnel-server/src/websocket-proxy.ts:167-223` | A public socket that closes before its upgrade is accepted sends nothing and stays registered |
| `RelayLink.UnnoticedStaysIff` | `apps/tunnel-server/src/websocket-proxy.ts:167-285` | It stays registered through exactly the events that do not fail the upgrade, bring a close of the CLI or unregister the tunnel |
| `Relay.StepFollows` | `apps/tunnel-server/src/websocket-handler.ts:345-525` | Every step of a session with any number of sockets is, for each socket, one event of its own link or none: sockets do not mix on the shared channel |
| `Relay.StepTidy` | `apps/tunnel-server/src/connection-manager.ts:423-471` | Every step leaves the tables with the tunnel's own ids only, and the books equal to what the local servers got |
| `Relay.StepGood` | `apps/tunnel-server/src/websocket-proxy.ts:132-285` | Every step keeps every link's invariant |
| `Relay.MessagesArriveInOrder` | `apps/tunnel-server/src/websocket-proxy.ts:182-220` | In every run, for every id and both directions: delivered is a prefix of relayed, payload and binary flag included, and on an open way relayed = delivered + under way |
| `Relay.ClosesAreSentOnce` | `apps/tunnel-server/src/websocket-proxy.ts:223-278` | In every run at most one close message per direction is sent for an id, and its sender no longer holds the id |
| `Relay.DrainedIsForgotten` | `packages/cli/src/websocket-handler.ts:214-237` | In every run a sent close whose channel has drained leaves the id on neither side |
| `Relay.ForgottenForGood` | `packages/cli/src/websocket-handler.ts:331-350` | In every continuation it stays forgotten and nothing more is delivered for it |
| `Relay.FailedUpgradeIsNeverClosed` | `apps/tunnel-server/src/websocket-proxy.ts:280-284` | After an upgrade that failed or timed out no close message is ever sent for the id, whatever the CLI holds |
| `Relay.EarlyCloseIsNotNoticed` | `apps/tunnel-server/src/websocket-proxy.ts:167-223` | In a session a public socket that closes before the CLI's answer changes no table and sends nothing |
| `Relay.UnnoticedIff` | `apps/tunnel-server/src/websocket-proxy.ts:167-285` | In every continuation the server still holds it if and only if its upgrade did not fail, the CLI sent no close for it and the tunnel did not go |
| `Relay.OversizeIsNotAnnounced` | `packages/cli/src/websocket-handler.ts:151-197` | In a session an oversize local message drops the CLI's entry, sends nothing and leaves the server's tables alone |
| `Relay.LetGoForGood` | `packages/cli/src/websocket-handler.ts:214-237` | In every continuation the entry does not come back and no close is sent for it |
| `Base64.BytesOfSextets` | `apps/tunnel-server/src/proxy-token.ts:14-27` | Grouping into sextets and back gives the same bytes, for every length |
| `Base64.Symbol` | `apps/tunnel-server/src/proxy-token.ts:14-20` | The symbol of a sextet has that value for the decoder |
| `Base64.DecodeEncode` | `packages/cli/src/websocket-handler.ts:186` | Decoding an encoded payload gives the payload |
| `Base64.UrlDecodeEncode` | `apps/tunnel-server/src/proxy-token.ts:14-27` | The URL-safe round trip, for every byte sequence |
| `Base64.UrlEncodeIsPlain` | `apps/tunnel-server/src/proxy-token.ts:14-20` | URL-safe text has no dot and no padding |
| `Base64.UrlEncodeText` | `apps/tunnel-server/src/proxy-token.ts:14-20` | URL-safe text is one safe symbol per sextet, with that sextet's value |
| `ProxyTokens.ConstantTimeEqual` | `apps/tunnel-server/src/proxy-token.ts:29-36` | The accumulating loop decides equality of two byte sequences |
| `ProxyTokens.VerifyProxyToken` | `apps/tunnel-server/src/proxy-token.ts:64-105` | The verification that compares digests with that loop computes the verdict the next two rows are about |
| `ProxyTokens.VerifySign` | `apps/tunnel-server/src/proxy-token.ts:55-104` | A signed claim set verifies to itself exactly while it is unexpired and names a key and a user |
| `ProxyTokens.AcceptedMeans` | `apps/tunnel-server/src/proxy-token.ts:64-104` | An accepted token is one payload, a dot and the payload's digest, and its claims are unexpired and complete |
| `ConnectGateway.FindIsFirst` | `apps/tunnel-server/src/proxy-gateway.ts:512` | The end of the header that is found is the first one |
| `ConnectGateway.ConnectTunnel.FinalizeUsage` | `apps/tunnel-server/src/proxy-gateway.ts:143-160` | Logs the counters the first time and never again |
| `ConnectGateway.ConnectTunnel.OnUpstreamData` | `apps/tunnel-server/src/proxy-gateway.ts:509-550` | Counts the chunk, then splits the reply off or pipes it |
| `ConnectGateway.ConnectTunnel.OnReplyData` | `apps/tunnel-server/src/proxy-gateway.ts:511-552` | Waits for the whole header, then refuses with what was read or establishes the tunnel |
| `ConnectGateway.ConnectTunnel.Refuse` | `apps/tunnel-server/src/proxy-gateway.ts:523-531` | Logs, passes header and rest on, closes both sides |
| `ConnectGateway.ConnectTunnel.Accept` | `apps/tunnel-server/src/proxy-gateway.ts:533-551` | Writes the gateway's own reply and the rest, sends the client's first bytes upstream |
| `ConnectGateway.ConnectTunnel.OnClientData` | `apps/tunnel-server/src/proxy-gateway.ts:542-550` | Counts and forwards client bytes |
| `ConnectGateway.ConnectTunnel.OnUpstreamError` | `apps/tunnel-server/src/proxy-gateway.ts:495-499` | Writes a 502 reply, also into an established tunnel |
| `ConnectGateway.ConnectTunnel.OnUpstreamClose` | `apps/tunnel-server/src/proxy-gateway.ts:569-571` | Logs the usage if that has not happened |
| `ConnectGateway.ConnectTunnel.OnClientEnd` | `apps/tunnel-server/src/proxy-gateway.ts:557-567` | Logs the usage if that has not happened and ends the upstream side |
| `ConnectGateway.ClientGetsTheStream` | `apps/tunnel-server/src/proxy-gateway.ts:507-552` | For every chunking a 200 reply gives the client the gateway's reply and every byte after the first empty line, once, in order; a 502 reply is appended if and only if the upstream socket fails |
| `ConnectGateway.ChunkingDoesNotMatter` | `apps/tunnel-server/src/proxy-gateway.ts:507-552` | Two runs over the same bytes give the client the same bytes and the same count |
| `ConnectGateway.UsageIsLoggedOnce` | `apps/tunnel-server/src/proxy-gateway.ts:132-161` | Usage is logged at most once, and bytesDown is the number of bytes received up to then |
| `ConnectGateway.RefusalPassesOnWhatWasRead` | `apps/tunnel-server/src/proxy-gateway.ts:523-531` | With another status the client gets exactly what had been read, and nothing more is taken |
| `CaseConversion.CamelRoundTrip` | `packages/shared/src/auth/mech-storage-adapter.ts:19-27` | A name survives snake_case and back if and only if no underscore stands before a lower-case letter |
| `CaseConversion.SnakeRoundTrip` | `packages/shared/src/auth/mech-storage-adapter.ts:19-27` | A name survives camelCase and back if and only if it has no capital |
| `CaseConversion.KeysToSnakeCase` | `packages/shared/src/auth/mech-storage-adapter.ts:30-38` | The loop renames entry by entry, a colliding key keeping its place |
| `CaseConversion.KeysToCamelCase` | `packages/shared/src/auth/mech-storage-adapter.ts:41-49` | The same in the other direction |
| `CaseConversion.RenamedInPlace` | `packages/shared/src/auth/mech-storage-adapter.ts:30-49` | With distinct new names every entry keeps its place and its value |
| `CaseConversion.ObjectsRoundTripFromCamel` | `packages/shared/src/auth/mech-storage-adapter.ts:30-49` | An object with such names is renamed without a collision and comes back unchanged |
| `CaseConversion.ObjectsRoundTripFromSnake` | `packages/shared/src/auth/mech-storage-adapter.ts:30-49` | The same for names without capitals |
| `Migrations.SortOrdered` | `packages/shared/src/db/migrations/index.ts:98-101` | Sorting gives the same migrations in ascending version order |
| `Migrations.RunMigrations` | `packages/shared/src/db/migrations/index.ts:90-134` | Calls up for the pending migrations in order until the first failure, records those that worked, reports each |
| `Migrations.CalledInOrder` | `packages/shared/src/db/migrations/index.ts:98-131` | The calls ascend by version and never concern a recorded version |
| `Migrations.TriedIs` | `packages/shared/src/db/migrations/index.ts:113-130` | The calls are the pending migrations before the first failure, and that failure |
| `Migrations.ReportsSay` | `packages/shared/src/db/migrations/index.ts:103-131` | Skipped for a recorded version, applied for one that worked, a failure only as the last report |
| `Migrations.RerunDoesNothing` | `packages/shared/src/db/migrations/index.ts:103-111` | A rerun after a clean run calls nothing, changes nothing and skips everything |
| `Migrations.RollbackMigration` | `packages/shared/src/db/migrations/index.ts:143-189` | Rolls back exactly the greatest applied version, if it has a down and that works |
| `Migrations.RollbackThenRun` | `packages/shared/src/db/migrations/index.ts:90-189` | Whatever is pending: after a recorded migration was rolled back a run tries the old pending ones with it in its place, calls it exactly if everything pending before it works, and records all if it is clean |
| `Migrations.RollbackOfCompleteRun` | `packages/shared/src/db/migrations/index.ts:143-189` | When all were applied, a rollback and a run call up for exactly that migration and restore the table |
| `RedisLimiter.RateLimiter.Increment` | `packages/shared/src/redis/rate-limiter.ts:103-134` | The new count, its verdict and the end of the window that contains the clock reading |
| `RedisLimiter.RateLimiter.Check` | `packages/shared/src/redis/rate-limiter.ts:86-101` | Foretells the verdict of an increment at the same moment, without counting |
| `RedisLimiter.RateLimiter.Reset` | `packages/shared/src/redis/rate-limiter.ts:136-140` | Removes the counter of the current window only |
| `RedisLimiter.RenewalOutlives` | `packages/shared/src/redis/rate-limiter.ts:61-62` | Each increment renews the time to live to at least one second past the end of its window |
| `RedisLimiter.TimelyNeverExpires` | `packages/shared/src/redis/rate-limiter.ts:61-62` | Transactions at most one second after their window never find its counter expired |
| `RedisLimiter.AlignedWindowBoundIff` | `packages/shared/src/redis/rate-limiter.ts:103-134` | For every schedule an aligned window allows at most the maximum if and only if no more is asked of it or no transaction finds its counter expired |
| `RedisLimiter.AlignedWindowBound` | `packages/shared/src/redis/rate-limiter.ts:103-134` | So it does for every schedule whose transactions run at most one second after their window |
| `RedisLimiter.AnyIntervalBound` | `packages/shared/src/redis/rate-limiter.ts:67-69` | Any interval of a window's length allows at most twice the maximum as soon as no transaction of the two windows it touches finds its counter expired; schedules as above are of that kind |
| `RedisLimiter.LateRequestsBreakTheBound` | `packages/shared/src/redis/rate-limiter.ts:103-134` | Later than that second the bound fails: two requests of one window are allowed where the maximum is one |
| `RedisLimiter.LateRequestsBreakTheIntervalBound` | `packages/shared/src/redis/rate-limiter.ts:103-134` | A schedule in which three requests within a window's length are allowed where the maximum is one |
| `MemoryLimiter.MemoryStore.CheckRateLimit` | `apps/dashboard/src/lib/rate-limit.ts:176-222` | The verdict and the new store, after the cleanup that the dice may ask for |
| `MemoryLimiter.MemoryStore.CleanupExpiredEntries` | `apps/dashboard/src/lib/rate-limit.ts:241-248` | Deletes exactly the expired entries while scanning the map |
| `MemoryLimiter.CleanupChangesNoVerdictIff` | `apps/dashboard/src/lib/rate-limit.ts:176-248` | For every sequence of checks with cleanups at any moments and any clocks, the verdicts are those without cleanups if and only if no check finds its own entry removed while it is still valid |
| `MemoryLimiter.CleanupChangesNoVerdict` | `apps/dashboard/src/lib/rate-limit.ts:176-248` | So it is for every non-decreasing clock when no cleanup's clock is ahead of its check's |
| `MemoryLimiter.CleanupShowsIff` | `apps/dashboard/src/lib/rate-limit.ts:183-190` | A single cleanup changes the answer of its own check exactly when the entry is still valid for the check and expired for the cleanup |
| `MemoryLimiter.LateSweepAdmits` | `apps/dashboard/src/lib/rate-limit.ts:241-248` | A schedule in which that lets a second request in where one is allowed |
| `MemoryLimiter.LateSweepForgetsOthers` | `apps/dashboard/src/lib/rate-limit.ts:241-248` | A schedule in which the cleanup of one key's check lets a later check of another key in |
| `MemoryLimiter.WindowBound` | `apps/dashboard/src/lib/rate-limit.ts:189-222` | From the check that opens a window to the next opening at most the maximum succeeds, one if the maximum is zero |
| `TunnelClients.TunnelClient.Connect` | `packages/cli/src/tunnel-client.ts:113-148` | A new socket, or a rejection exactly while connecting or connected |
| `TunnelClients.TunnelClient.Disconnect` | `packages/cli/src/tunnel-client.ts:192-214` | Stops reconnecting and clears the remembered timer |
| `TunnelClients.TunnelClient.StopReconnectTimer` | `packages/cli/src/tunnel-client.ts:369-374` | Clears the remembered timer |
| `TunnelClients.TunnelClient.HandleConnected` | `packages/cli/src/tunnel-client.ts:236-253` | Connected, with the attempts back at zero |
| `TunnelClients.TunnelClient.HandleError` | `packages/cli/src/tunnel-client.ts:255-271` | A fatal error stops reconnecting |
| `TunnelClients.TunnelClient.HandleClose` | `packages/cli/src/tunnel-client.ts:319-332` | Reconnects only from the connected state |
| `TunnelClients.TunnelClient.AttemptReconnect` | `packages/cli/src/tunnel-client.ts:337-364` | Fails at the maximum, otherwise schedules base * 2^(attempts - 1) |
| `TunnelClients.TunnelClient.OnReconnectTimer` | `packages/cli/src/tunnel-client.ts:352-363` | Connects, unless reconnecting was stopped during the delay |
| `TunnelClients.BackoffIsBounded` | `packages/cli/src/tunnel-client.ts:337-349` | In every run attempts <= max, the n-th delay since the last connected state is base * 2^(n-1), and the delays sum to at most base * (2^max - 1) |
| `TunnelClients.NeverASecondAttempt` | `packages/cli/src/tunnel-client.ts:319-364` | In every run there is at most one attempt between two connected states, every delay is the base delay, and failed needs a maximum of zero |
| `TunnelClients.NoReconnectAfterwards` | `packages/cli/src/tunnel-client.ts:352-357` | Until a new connect() no reconnect is scheduled and no socket is made, not even by a forgotten timer |
| `TunnelClients.ConnectedAfterDisconnectIff` | `packages/cli/src/tunnel-client.ts:192-253` | After disconnect() and until a new connect() the client counts as connected if and only if an old socket's connected message arrived last, and then it has no current socket |
| `TunnelClients.EveryCloseDropsTheCurrent` | `packages/cli/src/tunnel-client.ts:174-177` | Every close event of any socket drops whatever socket is current, and sends a connected client into a reconnect |
| `TunnelClients.CurrentSocketEndsByItselfIff` | `packages/cli/src/tunnel-client.ts:174-332` | In every run a current socket ends only by its own close or disconnect() if and only if no close event of another socket arrives while there is one |
| `TunnelClients.StaleCloseDropsTheNewSocket` | `packages/cli/src/tunnel-client.ts:174-177` | A run in which an old socket's close event costs a connected client its new socket |
| `AgentSdk.LivePortAgent.Connect` | `packages/agent-sdk/src/index.ts:164-196` | A new attempt, or a refusal exactly while there is a current socket |
| `AgentSdk.LivePortAgent.Disconnect` | `packages/agent-sdk/src/index.ts:375-391` | Lets the current socket go |
| `AgentSdk.LivePortAgent.OnTimeout` | `packages/agent-sdk/src/index.ts:190-196` | Rejects an unsettled attempt |
| `AgentSdk.LivePortAgent.OnMessage` | `packages/agent-sdk/src/index.ts:202-232` | Settles an unsettled attempt; a connected message without a payload clears its timeout and settles nothing |
| `AgentSdk.LivePortAgent.OnClose` | `packages/agent-sdk/src/index.ts:234-245` | Rejects an unsettled attempt and clears the current socket if it is this one |
| `AgentSdk.LivePortAgent.OnError` | `packages/agent-sdk/src/index.ts:247-257` | The same, the current socket only while unsettled |
| `AgentSdk.ConnectSettlesOnce` | `packages/agent-sdk/src/index.ts:188-258` | In every run each connect() settles at most once; it has settled exactly when its timeout is no longer set, if and only if no connected message without a payload reached it unsettled |
| `AgentSdk.HangsForGood` | `packages/agent-sdk/src/index.ts:205-232` | Otherwise it never settles in any continuation |
| `AgentSdk.OldSocketsDoNotInterfere` | `packages/agent-sdk/src/index.ts:234-257` | In every run events of other sockets leave the current connection alone; only its own close, its own error or disconnect() end it |
| `AgentSdk.CurrentIsNew` | `packages/agent-sdk/src/index.ts:164-186` | A socket that was let go never becomes current again |
| `McpSession.McpServer.PruneExpiredTunnels` | `packages/mcp/src/index.ts:32-50` | Starts the disconnect of exactly the stale entries |
| `McpSession.McpServer.StartConnect` | `packages/mcp/src/index.ts:133-154` | A fresh agent is in flight for the port |
| `McpSession.McpServer.OnConnected` | `packages/mcp/src/index.ts:136-143` | Adds the entry unless shutdown has begun, checked without an await in between |
| `McpSession.McpServer.OnSettled` | `packages/mcp/src/index.ts:148-153` | Removes the in-flight entry only if it is still this connect's |
| `McpSession.McpServer.AfterDisconnect` | `packages/mcp/src/index.ts:314-328` | After the await the entry is deleted only if it is still the same one |
| `McpSession.EntryStays` | `packages/mcp/src/index.ts:132-155` | In every run an active entry goes only by its own cleanup or a newer connect on its port, never by the cleanup of an older entry |
| `McpSession.NothingNewAfterShutdown` | `packages/mcp/src/index.ts:432-448` | Once shutdown has begun the active tunnels gain no entry |
| `McpSession.InFlightIsUnderWay` | `packages/mcp/src/index.ts:132-155` | In every run the in-flight table holds only connects still under way, on their own ports |
| `McpSession.DeletedMeansDisconnected` | `packages/mcp/src/index.ts:314-318` | An entry that a cleanup deletes had its agent disconnected before |
| `McpSession.NoDeadEntriesIff` | `packages/mcp/src/index.ts:133-154` | In every run, until shutdown, each active entry at every moment has an agent that was not told to disconnect, or is about to be removed, if and only if no connect resolves after its agent was told to disconnect and no disconnect by tunnel id hits an active agent |
| `McpSession.DisconnectedButActive` | `packages/mcp/src/index.ts:325-336` | A run in which a pending connect is disconnected, resolves all the same and is listed as active |
| `McpSession.ProbedStaysListed` | `packages/mcp/src/index.ts:360-368` | A run in which a disconnect by tunnel id leaves the entry of the agent it disconnected |

## Left out

- Aliasing of records: tunnels, sockets and pending entries are values in the manager's maps, so a callback that
  keeps a record it looked up is modelled by the parts it uses (control socket, name, tunnel id), not by a
  shared object. The seven maps are held in four record-valued fields of the class.
- ConnectionManagers.ConnectionManager.Register: user id, tunnel name, local port and access token of the record are left out, no
  property depends on them.
- Access tokens: the HMAC comparison of `validateAccessToken` and its callers' 401 replies.
- KeyStore.BridgeKeys.Validate: the awaits between reading the row, the status write and the increment; interleaved
  attempts are the subject of `ServerRuns`.
- KeyUses.ValidationIsSimulated: one validation at a time, as in `KeyStore`.
- The connection rate limit before validation is the subject of `RedisLimiter`, not a step of `ServerRuns`.
- Failed usage writes: `ServerRuns` has no step for them; `KeyStore` validates in both worlds.
- Relay.MessagesArriveInOrder: one tunnel session; the CLI keeps its entries over a reconnect, and messages of
  such an entry on a later session's channel are not modelled, nor is another tunnel that takes the session's name.
- Request and upgrade headers, paths, subprotocols, status texts, close reasons, and the deprecated
  `websocket_frame` messages.
- ConnectGateway.ConnectTunnel.OnReplyData: the status pattern is matched on characters with ASCII white space;
  decoding the header as UTF-8 first is not modelled.
- Plain HTTP proxying, target parsing and the allow lists of the proxy gateway; upstream providers and their credentials.
- ProxyTokens.VerifySign: the digest and the JSON text are parameters, with the JSON round trip as a hypothesis; the key
  cache is not modelled.
- CaseConversion.KeysToSnakeCase: property names that JavaScript treats specially (`__proto__`, integer-like names) are
  ordinary names here; the adapter's table operations and its where clauses are not modelled.
- The metering health report.
- Migrations.RunMigrations: what a migration does to other tables, and the status listing.
- The dashboard limiter's Redis script, rate-limit presets and response headers.
- The MCP tools' texts and status lookups; which connect the probe for a tunnel id finds is a parameter.
- Heartbeat latency, the thirty-second promptness of expiry and every other statement about real time: safety
  over steps only.
- Dashboard, billing, email, logging and configuration: no protocol or accounting law of their own.
