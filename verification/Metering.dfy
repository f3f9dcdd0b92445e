/** The metering service: the periodic sync of all tunnels and the final write of one. */
module Metering {
  import opened Basics
  import opened ServerRuns

  /** What a sync reads of one connection when its turn comes; the counters move on meanwhile. */
  datatype Reading = Reading(tid: string, counters: Counters)

  /** The upserts of a sync, in order; those in `fails` throw and are skipped. */
  function SyncedAll(rows: map<string, Row>, rs: seq<Reading>, fails: set<string>): map<string, Row> {
    if rs == [] then rows
    else
      var last, before := rs[|rs| - 1], SyncedAll(rows, rs[..|rs| - 1], fails);
      if last.tid in fails then before else Synced(before, last.tid, last.counters)
  }

  class MeteringService {
    var rows: map<string, Row>
    var lastSyncTime: Option<int>
    var syncErrorCount: nat

    constructor ()
      ensures rows == map[] && lastSyncTime == None && syncErrorCount == 0
    {
      rows, lastSyncTime, syncErrorCount := map[], None, 0;
    }

    /**
     * A failed upsert does not stop the others; the error count goes up by one for a sync with any
     * failure and back to zero for one without.
     */
    method SyncMetrics(connections: seq<Reading>, fails: set<string>, database: bool, now: int) returns (thrown: bool)
      modifies this
      ensures connections == [] || !database ==> rows == old(rows) && lastSyncTime == old(lastSyncTime)
      ensures connections == [] ==> !thrown && syncErrorCount == old(syncErrorCount)
      ensures connections != [] ==> thrown == !database
      ensures connections != [] && database ==>
                rows == SyncedAll(old(rows), connections, fails) && lastSyncTime == Some(now)
      ensures connections != [] ==>
                syncErrorCount == if database && forall i | 0 <= i < |connections| :: connections[i].tid !in fails
                                  then 0 else old(syncErrorCount) + 1
    {
      if connections == [] {
        return false;
      }
      if !database {
        syncErrorCount := syncErrorCount + 1;
        return true;
      }
      var errorCount := 0;
      for i := 0 to |connections|
        invariant rows == SyncedAll(old(rows), connections[..i], fails)
        invariant errorCount == 0 <==> forall j | 0 <= j < i :: connections[j].tid !in fails
        invariant syncErrorCount == old(syncErrorCount)
      {
        assert connections[..i + 1][..i] == connections[..i];
        if connections[i].tid in fails {
          errorCount := errorCount + 1;
        } else if !(connections[i].tid in rows && rows[connections[i].tid].disconnected) {
          rows := rows[connections[i].tid := Row(connections[i].counters, false)];
        }
      }
      assert connections[..|connections|] == connections;
      lastSyncTime := Some(now);
      syncErrorCount := if errorCount == 0 then 0 else syncErrorCount + 1;
      thrown := false;
    }

    /**
     * The final write. With the tunnel's data it is an upsert; without, an update of a row that exists.
     * A failure is logged only.
     */
    method FinalizeTunnelMetrics(tid: string, counters: Counters, tunnelInfo: bool, writes: bool)
      modifies `rows
      ensures rows == if writes && (tunnelInfo || tid in old(rows)) then old(rows)[tid := Row(counters, true)]
                      else old(rows)
    {
      if !writes {
        return;
      }
      if tunnelInfo {
        rows := rows[tid := Row(counters, true)];
      } else if tid in rows {
        rows := rows[tid := rows[tid].(counters := counters, disconnected := true)];
      }
    }
  }

  /** No sync changes a disconnected row or touches a tunnel it did not read. */
  lemma {:induction false} SyncLeavesAlone(rows: map<string, Row>, rs: seq<Reading>, fails: set<string>, tid: string)
    requires tid in rows && (rows[tid].disconnected || forall i | 0 <= i < |rs| :: rs[i].tid != tid)
    ensures tid in SyncedAll(rows, rs, fails) && SyncedAll(rows, rs, fails)[tid] == rows[tid]
  {
    if rs != [] {
      SyncLeavesAlone(rows, rs[..|rs| - 1], fails, tid);
    }
  }

  /** A live tunnel that was read once, and whose upsert worked, has a live row with what was read. */
  lemma {:induction false} SyncStoresTheReading(rows: map<string, Row>, rs: seq<Reading>, fails: set<string>, k: nat)
    requires k < |rs| && rs[k].tid !in fails && forall i | 0 <= i < |rs| && i != k :: rs[i].tid != rs[k].tid
    requires rs[k].tid in rows ==> !rows[rs[k].tid].disconnected
    ensures rs[k].tid in SyncedAll(rows, rs, fails)
              && SyncedAll(rows, rs, fails)[rs[k].tid] == Row(rs[k].counters, false)
  {
    var before := rs[..|rs| - 1];
    if k < |rs| - 1 {
      SyncStoresTheReading(rows, before, fails, k);
    } else {
      NotRead(rows, before, fails, rs[k].tid);
    }
  }

  lemma {:induction false} NotRead(rows: map<string, Row>, rs: seq<Reading>, fails: set<string>, tid: string)
    requires forall i | 0 <= i < |rs| :: rs[i].tid != tid
    ensures tid in SyncedAll(rows, rs, fails) <==> tid in rows
    ensures tid in rows ==> SyncedAll(rows, rs, fails)[tid] == rows[tid]
  {
    if rs != [] {
      NotRead(rows, rs[..|rs| - 1], fails, tid);
    }
  }

  /** However many syncs run after the final write, the row keeps what was written. */
  lemma {:induction false} FinalRowSurvives(rows: map<string, Row>, tid: string, counters: Counters,
                                            syncs: seq<seq<Reading>>, fails: set<string>)
    ensures AfterSyncs(rows[tid := Row(counters, true)], syncs, fails)[tid] == Row(counters, true)
  {
    SurvivesFrom(rows[tid := Row(counters, true)], tid, syncs, fails);
  }

  function AfterSyncs(rows: map<string, Row>, syncs: seq<seq<Reading>>, fails: set<string>): (r: map<string, Row>)
    ensures rows.Keys <= r.Keys
    decreases |syncs|
  {
    if syncs == [] then rows
    else
      GrowsOnly(rows, syncs[0], fails);
      AfterSyncs(SyncedAll(rows, syncs[0], fails), syncs[1..], fails)
  }

  lemma {:induction false} GrowsOnly(rows: map<string, Row>, rs: seq<Reading>, fails: set<string>)
    ensures rows.Keys <= SyncedAll(rows, rs, fails).Keys
  {
    if rs != [] {
      GrowsOnly(rows, rs[..|rs| - 1], fails);
    }
  }

  lemma {:induction false} SurvivesFrom(rows: map<string, Row>, tid: string, syncs: seq<seq<Reading>>,
                                        fails: set<string>)
    requires tid in rows && rows[tid].disconnected
    ensures AfterSyncs(rows, syncs, fails)[tid] == rows[tid]
    decreases |syncs|
  {
    if syncs != [] {
      SyncLeavesAlone(rows, syncs[0], fails, tid);
      SurvivesFrom(SyncedAll(rows, syncs[0], fails), tid, syncs[1..], fails);
    }
  }
}
