/**
 * The bridge-key table and the validator that reads and writes it: one method per SQL statement, and
 * validation as one attempt sees it.
 */
module KeyStore {
  import opened Basics

  datatype Status = Active | Expired | Revoked

  /** A row of the bridge-key table. */
  datatype Row = Row(
    userId: string, expiresAt: Option<int>, maxUses: Option<int>, currentUses: int, allowedPort: Option<int>,
    status: Status)

  /** `value || undefined`: zero counts as not set. */
  function Truthy(x: Option<int>): Option<int> {
    if x.Some? && x.value == 0 then None else x
  }

  predicate BelowLimit(r: Row, maxUses: Option<int>) {
    maxUses.Some? ==> r.currentUses < maxUses.value
  }

  predicate PastExpiry(r: Row, now: int) {
    r.expiresAt.Some? && r.expiresAt.value < now
  }

  datatype Code =
    | Ok | DevelopmentKey | ServiceUnavailable | InvalidKey | LookupFailed | KeyExpired | KeyRevoked
    | PortNotAllowed | RateLimited | TierFailed

  datatype Options = Options(skipPortCheck: bool, skipUsageUpdate: bool, skipMaxUsesCheck: bool)

  const DEFAULTS := Options(false, false, false)

  datatype Service = Ready | NotConfigured(devKeys: bool)

  /** What the calls around the table come back with; None, or a false write, where one throws. */
  datatype World = World(
    formatOk: bool, service: Service, lookup: Option<Option<string>>, hashMatches: Option<bool>, now: int, port: int,
    statusWrite: bool, useWrite: bool, tier: Option<string>)

  predicate CountsUse(o: Options, w: World) {
    !o.skipUsageUpdate && w.useWrite
  }

  /** The limit is looked at, either by the increment itself or by the read-only check. */
  predicate ChecksLimit(o: Options, w: World) {
    !o.skipMaxUsesCheck && (o.skipUsageUpdate || w.useWrite)
  }

  /** The stage at which validation of a row stops, in the order of the checks. */
  function Verdict(r: Row, o: Options, w: World): Code {
    if w.hashMatches.None? then LookupFailed
    else if !w.hashMatches.value then InvalidKey
    else if r.status == Revoked then KeyRevoked
    else if r.status == Expired || PastExpiry(r, w.now) then KeyExpired
    else if !o.skipPortCheck && Truthy(r.allowedPort) !in {None, Some(w.port)} then PortNotAllowed
    else if ChecksLimit(o, w) && !BelowLimit(r, Truthy(r.maxUses)) then RateLimited
    else if w.tier.None? then TierFailed
    else Ok
  }

  function CodeOf(rows: map<string, Row>, o: Options, w: World): Code {
    if !w.formatOk then InvalidKey
    else if w.service.NotConfigured? then if w.service.devKeys then DevelopmentKey else ServiceUnavailable
    else if w.lookup.None? then LookupFailed
    else if w.lookup.value.None? || w.lookup.value.value !in rows then InvalidKey
    else Verdict(rows[w.lookup.value.value], o, w)
  }

  /** The row after a validation: one more use if it got to the usage write, or marked as expired. */
  function RowAfter(r: Row, o: Options, w: World): Row {
    var code := Verdict(r, o, w);
    if code in {Ok, TierFailed} && CountsUse(o, w) then r.(currentUses := r.currentUses + 1)
    else if code == KeyExpired && r.status == Active && w.statusWrite then r.(status := Expired)
    else r
  }

  function TableAfter(rows: map<string, Row>, o: Options, w: World): map<string, Row> {
    if !w.formatOk || w.service.NotConfigured? || w.lookup.None? || w.lookup.value.None?
        || w.lookup.value.value !in rows
    then rows
    else rows[w.lookup.value.value := RowAfter(rows[w.lookup.value.value], o, w)]
  }

  /** What a successful validation reports about the key. */
  datatype KeyInfo = KeyInfo(
    keyId: string, userId: string, tier: string, expiresAt: Option<int>, maxUses: Option<int>, currentUses: int,
    allowedPort: Option<int>)

  const DAY_MS := 24 * 60 * 60 * 1000

  /** The reported count is the one that was read, plus one unless the usage update is skipped. */
  function InfoOf(rows: map<string, Row>, o: Options, w: World): Option<KeyInfo> {
    match CodeOf(rows, o, w)
    case DevelopmentKey => Some(KeyInfo("dev-key", "dev-user", "free", Some(w.now + DAY_MS), None, 0, None))
    case Ok =>
      var id := w.lookup.value.value;
      var r := rows[id];
      Some(KeyInfo(id, r.userId, w.tier.value, r.expiresAt, Truthy(r.maxUses),
                   if o.skipUsageUpdate then r.currentUses else r.currentUses + 1, Truthy(r.allowedPort)))
    case _ => None
  }

  predicate MayIncrement(rows: map<string, Row>, id: string, maxUses: Option<int>) {
    id in rows && BelowLimit(rows[id], maxUses)
  }

  function Incremented(rows: map<string, Row>, id: string): map<string, Row>
    requires id in rows
  {
    rows[id := rows[id].(currentUses := rows[id].currentUses + 1)]
  }

  /** `GREATEST(0, current_uses - 1)` in one row. */
  function Released(rows: map<string, Row>, id: string): map<string, Row> {
    if id in rows then rows[id := rows[id].(currentUses := Max(0, rows[id].currentUses - 1))] else rows
  }

  predicate Due(r: Row, now: int) {
    r.status == Active && PastExpiry(r, now)
  }

  function Swept(rows: map<string, Row>, now: int): map<string, Row> {
    map k | k in rows :: if Due(rows[k], now) then rows[k].(status := Expired) else rows[k]
  }

  class BridgeKeys {
    var rows: map<string, Row>

    constructor (rows: map<string, Row>)
      ensures this.rows == rows
    {
      this.rows := rows;
    }

    /** `... current_uses + 1 WHERE id = $1 AND current_uses < $3`; false when no row was updated. */
    method IncrementUseCount(id: string, maxUses: Option<int>) returns (updated: bool)
      modifies this
      ensures updated <==> MayIncrement(old(rows), id, maxUses)
      ensures rows == if updated then Incremented(old(rows), id) else old(rows)
    {
      if id !in rows || (maxUses.Some? && rows[id].currentUses >= maxUses.value) {
        return false;
      }
      rows := rows[id := rows[id].(currentUses := rows[id].currentUses + 1)];
      updated := true;
    }

    /** `GREATEST(0, current_uses - 1)` */
    method DecrementUseCount(id: string)
      modifies this
      ensures rows == Released(old(rows), id)
    {
      if id in rows {
        rows := rows[id := rows[id].(currentUses := Max(0, rows[id].currentUses - 1))];
      }
    }

    /** The validator's decrement: not for the development key, and a failed statement is swallowed. */
    method DecrementUsage(id: string, w: World)
      modifies this
      ensures rows == if w.service.Ready? && id != "dev-key" && w.useWrite then Released(old(rows), id) else old(rows)
    {
      if w.service.NotConfigured? || id == "dev-key" {
        return;
      }
      if w.useWrite {
        DecrementUseCount(id);
      }
    }

    /** Marks exactly the active keys that are past their expiry. */
    method ExpireOldKeys(now: int) returns (count: nat)
      modifies this
      ensures rows == Swept(old(rows), now)
      ensures count == |set k | k in old(rows) && Due(old(rows)[k], now)|
    {
      var due := set k | k in rows && rows[k].status == Active && PastExpiry(rows[k], now);
      assert due == set k | k in rows && Due(rows[k], now);
      count := |due|;
      rows := map k | k in rows :: if k in due then rows[k].(status := Expired) else rows[k];
      assert rows == Swept(old(rows), now);
    }

    /** The code tells which check stopped the key, and the table changes only in the key's own row. */
    method Validate(o: Options, w: World) returns (code: Code, info: Option<KeyInfo>)
      modifies this
      ensures code == CodeOf(old(rows), o, w) && info == InfoOf(old(rows), o, w)
      ensures rows == TableAfter(old(rows), o, w)
    {
      if !w.formatOk {
        return InvalidKey, None;
      }
      if w.service.NotConfigured? {
        if w.service.devKeys {
          return DevelopmentKey, Some(KeyInfo("dev-key", "dev-user", "free", Some(w.now + DAY_MS), None, 0, None));
        }
        return ServiceUnavailable, None;
      }
      if w.lookup.None? {
        return LookupFailed, None;
      }
      if w.lookup.value.None? || w.lookup.value.value !in rows {
        return InvalidKey, None;
      }
      var record := rows[w.lookup.value.value];
      code := ValidateRow(w.lookup.value.value, o, w);
      if code != Ok {
        return code, None;
      }
      info := Some(KeyInfo(w.lookup.value.value, record.userId, w.tier.value, record.expiresAt, Truthy(record.maxUses),
                           if o.skipUsageUpdate then record.currentUses else record.currentUses + 1,
                           Truthy(record.allowedPort)));
    }

    /** The part of Validate after the row was found. */
    method ValidateRow(id: string, o: Options, w: World) returns (code: Code)
      requires id in rows
      modifies this
      ensures code == Verdict(old(rows)[id], o, w)
      ensures rows == old(rows)[id := RowAfter(old(rows)[id], o, w)]
    {
      var record := rows[id];
      assert rows == rows[id := record];
      if w.hashMatches.None? {
        return LookupFailed;
      }
      if !w.hashMatches.value {
        return InvalidKey;
      }
      if record.status == Revoked {
        return KeyRevoked;
      }
      if record.status == Expired {
        return KeyExpired;
      }
      if PastExpiry(record, w.now) {
        if w.statusWrite {
          rows := rows[id := record.(status := Expired)];
        }
        return KeyExpired;
      }
      if !o.skipPortCheck {
        var allowedPort := Truthy(record.allowedPort);
        if allowedPort.Some? && allowedPort.value != w.port {
          return PortNotAllowed;
        }
      }
      var maxUses := Truthy(record.maxUses);
      if !o.skipUsageUpdate {
        if w.useWrite {
          if !o.skipMaxUsesCheck && maxUses.Some? {
            var updated := IncrementUseCount(id, maxUses);
            if !updated {
              return RateLimited;
            }
          } else {
            var _ := IncrementUseCount(id, None);
          }
        }
      } else if !o.skipMaxUsesCheck {
        if maxUses.Some? && record.currentUses >= maxUses.value {
          return RateLimited;
        }
      }
      code := if w.tier.None? then TierFailed else Ok;
    }
  }

  // ---------------------------------------------------------------------------
  // Any sequence of statements on the table
  // ---------------------------------------------------------------------------

  datatype Call = Validation(o: Options, w: World) | Release(id: string) | Sweep(now: int)

  function After(rows: map<string, Row>, call: Call): map<string, Row> {
    match call
    case Validation(o, w) => TableAfter(rows, o, w)
    case Release(id) => Released(rows, id)
    case Sweep(now) => Swept(rows, now)
  }

  function AfterAll(rows: map<string, Row>, calls: seq<Call>): map<string, Row> {
    if calls == [] then rows else AfterAll(After(rows, calls[0]), calls[1..])
  }

  /** The call counts a use of the key past the limit its row stores. */
  predicate Overruns(rows: map<string, Row>, id: string, call: Call) {
    id in rows && After(rows, call)[id].currentUses > rows[id].currentUses
    && !BelowLimit(rows[id], rows[id].maxUses)
  }

  lemma CallKeepsRow(rows: map<string, Row>, id: string, call: Call)
    requires id in rows
    ensures id in After(rows, call) && After(rows, call)[id].maxUses == rows[id].maxUses
    ensures After(rows, call)[id].currentUses
            in {rows[id].currentUses, rows[id].currentUses + 1, Max(0, rows[id].currentUses - 1)}
  {
  }

  /** A count is pushed past its stored limit only where the limit is zero or its check is skipped. */
  lemma OverrunsIff(rows: map<string, Row>, id: string, o: Options, w: World)
    requires id in rows && rows[id].maxUses.Some?
    ensures Overruns(rows, id, Validation(o, w)) <==>
              && CodeOf(rows, o, w) in {Ok, TierFailed} && w.lookup == Some(Some(id)) && CountsUse(o, w)
              && rows[id].currentUses >= rows[id].maxUses.value
              && (rows[id].maxUses.value == 0 || o.skipMaxUsesCheck)
  {
  }

  /** A limit a row stores is meant to hold: it does over any sequence of calls that check it, unless it is zero. */
  lemma {:induction false} LimitHolds(rows: map<string, Row>, id: string, calls: seq<Call>)
    requires id in rows && rows[id].maxUses.Some? && rows[id].maxUses.value > 0
    requires 0 <= rows[id].currentUses <= rows[id].maxUses.value
    requires forall i | 0 <= i < |calls| && calls[i].Validation? :: !calls[i].o.skipMaxUsesCheck
    ensures id in AfterAll(rows, calls) && AfterAll(rows, calls)[id].maxUses == rows[id].maxUses
    ensures 0 <= AfterAll(rows, calls)[id].currentUses <= rows[id].maxUses.value
  {
    if calls != [] {
      CallKeepsRow(rows, id, calls[0]);
      if calls[0].Validation? {
        OverrunsIff(rows, id, calls[0].o, calls[0].w);
      }
      LimitHolds(After(rows, calls[0]), id, calls[1..]);
    }
  }

  /** A limit of zero is read as no limit: such a key passes the default validation any number of times. */
  lemma {:induction false} ZeroIsUnlimited(rows: map<string, Row>, id: string, w: World, n: nat)
    requires id in rows && rows[id].maxUses == Some(0) && 0 <= rows[id].currentUses
    requires w.formatOk && w.service.Ready? && w.lookup == Some(Some(id)) && w.useWrite
    requires Verdict(rows[id], DEFAULTS, w) == Ok
    ensures var calls := seq(n, _ => Validation(DEFAULTS, w));
            id in AfterAll(rows, calls) && AfterAll(rows, calls)[id].currentUses == rows[id].currentUses + n
  {
    if n > 0 {
      var calls := seq(n, _ => Validation(DEFAULTS, w));
      assert calls[1..] == seq(n - 1, _ => Validation(DEFAULTS, w));
      ZeroIsUnlimited(After(rows, calls[0]), id, w, n - 1);
    }
  }

  /** A default validation that is refused costs a use exactly when it is the tier lookup that failed. */
  lemma RejectionCostsAUseIff(rows: map<string, Row>, id: string, w: World)
    requires id in rows && w.lookup == Some(Some(id)) && w.useWrite
              && CodeOf(rows, DEFAULTS, w) !in {Ok, DevelopmentKey}
    ensures TableAfter(rows, DEFAULTS, w)[id].currentUses == rows[id].currentUses + 1
            <==> CodeOf(rows, DEFAULTS, w) == TierFailed
    ensures CodeOf(rows, DEFAULTS, w) != TierFailed ==>
              TableAfter(rows, DEFAULTS, w)[id].currentUses == rows[id].currentUses
  {
  }

  /** The reported count is the stored one afterwards, unless the usage write threw. */
  lemma ReportedCountIff(rows: map<string, Row>, o: Options, w: World)
    requires CodeOf(rows, o, w) == Ok
    ensures var id := w.lookup.value.value;
            InfoOf(rows, o, w).value.currentUses == TableAfter(rows, o, w)[id].currentUses
            <==> o.skipUsageUpdate || w.useWrite
  {
  }

  /** An accepted key is stored, active, unexpired and allowed on the port, and took a use if the write works. */
  lemma AcceptedKeyIsGood(rows: map<string, Row>, w: World)
    requires CodeOf(rows, DEFAULTS, w) == Ok
    ensures w.lookup.Some? && w.lookup.value.Some? && w.lookup.value.value in rows
    ensures var id := w.lookup.value.value;
            var r := rows[id];
            && r.status == Active && !PastExpiry(r, w.now) && w.hashMatches == Some(true)
            && Truthy(r.allowedPort) in {None, Some(w.port)}
            && (w.useWrite ==>
                  BelowLimit(r, Truthy(r.maxUses)) && TableAfter(rows, DEFAULTS, w) == Incremented(rows, id))
  {
  }

  /**
   * A stored limit stops a default validation that passed every other check exactly if it is not zero and
   * has been reached.
   */
  lemma LimitStopsIff(r: Row, w: World)
    requires r.maxUses.Some? && w.useWrite && Verdict(r, DEFAULTS, w) in {Ok, TierFailed, RateLimited}
    ensures Verdict(r, DEFAULTS, w) == RateLimited <==> r.maxUses.value != 0 && r.currentUses >= r.maxUses.value
  {
  }
}
