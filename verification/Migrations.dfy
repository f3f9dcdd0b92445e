/** The migration runner over a table of applied versions. */
module Migrations {
  import opened Basics

  datatype Migration = Migration(version: string, description: string, hasDown: bool)

  /** What happens when a migration is applied: all well, `up` throws, or recording it throws. */
  datatype Outcome = Works | UpThrows | RecordThrows

  datatype Status = Applied | Skipped | Failed

  datatype Report = Report(version: string, description: string, status: Status)

  /** `localeCompare` on versions: a total order. */
  ghost predicate TotalOrder(leq: (string, string) -> bool) {
    && (forall a, b :: leq(a, b) || leq(b, a))
    && (forall a, b, c :: leq(a, b) && leq(b, c) ==> leq(a, c))
    && (forall a, b :: leq(a, b) && leq(b, a) ==> a == b)
  }

  /** The documented requirement that versions are unique. */
  predicate Distinct(ms: seq<Migration>) {
    forall i, j | 0 <= i < j < |ms| :: ms[i].version != ms[j].version
  }

  // ---------------------------------------------------------------------------
  // Sorting by version
  // ---------------------------------------------------------------------------

  function Insert(m: Migration, ms: seq<Migration>, leq: (string, string) -> bool): seq<Migration> {
    if ms == [] then [m]
    else if leq(m.version, ms[0].version) then [m] + ms
    else [ms[0]] + Insert(m, ms[1..], leq)
  }

  function Sort(ms: seq<Migration>, leq: (string, string) -> bool): seq<Migration> {
    if ms == [] then [] else Insert(ms[0], Sort(ms[1..], leq), leq)
  }

  ghost predicate Ordered(ms: seq<Migration>, leq: (string, string) -> bool) {
    forall i, j | 0 <= i < j < |ms| :: leq(ms[i].version, ms[j].version)
  }

  lemma {:induction false} InsertHolds(m: Migration, ms: seq<Migration>, leq: (string, string) -> bool)
    ensures multiset(Insert(m, ms, leq)) == multiset(ms) + multiset{m}
  {
    if ms != [] {
      assert ms == [ms[0]] + ms[1..];
      InsertHolds(m, ms[1..], leq);
    }
  }

  lemma {:induction false} InsertOrdered(m: Migration, ms: seq<Migration>, leq: (string, string) -> bool)
    requires TotalOrder(leq) && Ordered(ms, leq)
    ensures Ordered(Insert(m, ms, leq), leq)
  {
    if ms != [] && !leq(m.version, ms[0].version) {
      InsertOrdered(m, ms[1..], leq);
      InsertHolds(m, ms[1..], leq);
      var rest := Insert(m, ms[1..], leq);
      forall i | 0 <= i < |rest| ensures leq(ms[0].version, rest[i].version) {
        assert rest[i] in multiset(ms[1..]) + multiset{m};
        if rest[i] != m {
          assert rest[i] in ms[1..];
        }
      }
    } else if ms != [] {
      forall j | 0 <= j < |ms| ensures leq(m.version, ms[j].version) {
        assert j > 0 ==> leq(ms[0].version, ms[j].version);
      }
    }
  }

  lemma {:induction false} SortOrdered(ms: seq<Migration>, leq: (string, string) -> bool)
    requires TotalOrder(leq)
    ensures Ordered(Sort(ms, leq), leq) && multiset(Sort(ms, leq)) == multiset(ms)
  {
    if ms != [] {
      SortOrdered(ms[1..], leq);
      InsertOrdered(ms[0], Sort(ms[1..], leq), leq);
      InsertHolds(ms[0], Sort(ms[1..], leq), leq);
      assert ms == [ms[0]] + ms[1..];
    }
  }

  // ---------------------------------------------------------------------------
  // Running what is pending
  // ---------------------------------------------------------------------------

  function Versions(ms: seq<Migration>): set<string> {
    set m | m in ms :: m.version
  }

  function Pending(ms: seq<Migration>, applied: set<string>): seq<Migration> {
    if ms == [] then []
    else if ms[0].version in applied then Pending(ms[1..], applied)
    else [ms[0]] + Pending(ms[1..], applied)
  }

  /** The longest front part of which everything works. */
  function Working(ms: seq<Migration>, outcome: Migration -> Outcome): seq<Migration> {
    if ms == [] || outcome(ms[0]) != Works then [] else [ms[0]] + Working(ms[1..], outcome)
  }

  /** The migrations whose `up` is called: those that work, and the first that does not. */
  function Tried(ms: seq<Migration>, outcome: Migration -> Outcome): seq<Migration> {
    if ms == [] then []
    else if outcome(ms[0]) != Works then [ms[0]]
    else [ms[0]] + Tried(ms[1..], outcome)
  }

  function Reports(ms: seq<Migration>, applied: set<string>, outcome: Migration -> Outcome): seq<Report> {
    if ms == [] then []
    else
      var m := ms[0];
      if m.version in applied then [Report(m.version, m.description, Skipped)] + Reports(ms[1..], applied, outcome)
      else if outcome(m) == Works then [Report(m.version, m.description, Applied)] + Reports(ms[1..], applied, outcome)
      else [Report(m.version, m.description, Failed)]
  }

  lemma VersionsMore(ms: seq<Migration>, m: Migration)
    ensures Versions(ms + [m]) == Versions(ms) + {m.version}
  {
  }

  lemma Push<T>(a: seq<T>, x: T, b: seq<T>)
    ensures a + ([x] + b) == (a + [x]) + b
  {
  }

  /** What the first of the remaining migrations adds to the calls and the reports. */
  lemma FirstOf(m: Migration, rest: seq<Migration>, applied: set<string>, outcome: Migration -> Outcome)
    ensures m.version in applied ==>
              && Pending([m] + rest, applied) == Pending(rest, applied)
              && Reports([m] + rest, applied, outcome)
                 == [Report(m.version, m.description, Skipped)] + Reports(rest, applied, outcome)
    ensures m.version !in applied && outcome(m) == Works ==>
              && Tried(Pending([m] + rest, applied), outcome) == [m] + Tried(Pending(rest, applied), outcome)
              && Working(Pending([m] + rest, applied), outcome) == [m] + Working(Pending(rest, applied), outcome)
              && Reports([m] + rest, applied, outcome)
                 == [Report(m.version, m.description, Applied)] + Reports(rest, applied, outcome)
    ensures m.version !in applied && outcome(m) != Works ==>
              && Tried(Pending([m] + rest, applied), outcome) == [m]
              && Working(Pending([m] + rest, applied), outcome) == []
              && Reports([m] + rest, applied, outcome) == [Report(m.version, m.description, Failed)]
  {
    assert ([m] + rest)[1..] == rest;
    assert ([m] + Pending(rest, applied))[1..] == Pending(rest, applied);
  }

  lemma Skips(m: Migration, rest: seq<Migration>, applied: set<string>, outcome: Migration -> Outcome,
              results: seq<Report>)
    requires m.version in applied
    ensures Pending([m] + rest, applied) == Pending(rest, applied)
    ensures results + [Report(m.version, m.description, Skipped)] + Reports(rest, applied, outcome)
            == results + Reports([m] + rest, applied, outcome)
  {
    FirstOf(m, rest, applied, outcome);
    Push(results, Report(m.version, m.description, Skipped), Reports(rest, applied, outcome));
  }

  /** A migration that works moves from what remains to what was done. */
  lemma Applies(m: Migration, rest: seq<Migration>, applied: set<string>, outcome: Migration -> Outcome,
                called: seq<Migration>, results: seq<Report>)
    requires m.version !in applied && outcome(m) == Works
    ensures called + [m] + Tried(Pending(rest, applied), outcome)
              == called + Tried(Pending([m] + rest, applied), outcome)
    ensures called + [m] + Working(Pending(rest, applied), outcome)
              == called + Working(Pending([m] + rest, applied), outcome)
    ensures results + [Report(m.version, m.description, Applied)] + Reports(rest, applied, outcome)
            == results + Reports([m] + rest, applied, outcome)
  {
    FirstOf(m, rest, applied, outcome);
    Push(called, m, Tried(Pending(rest, applied), outcome));
    Push(called, m, Working(Pending(rest, applied), outcome));
    Push(results, Report(m.version, m.description, Applied), Reports(rest, applied, outcome));
  }

  /**
   * Applies in version order exactly the pending migrations before the first failure. `called` lists
   * the calls of `up`; the set of applied versions is read once, before the loop.
   */
  method RunMigrations(table: set<string>, migrations: seq<Migration>, leq: (string, string) -> bool,
                       outcome: Migration -> Outcome)
    returns (results: seq<Report>, newTable: set<string>, called: seq<Migration>)
    ensures called == Tried(Pending(Sort(migrations, leq), table), outcome)
    ensures newTable == table + Versions(Working(Pending(Sort(migrations, leq), table), outcome))
    ensures results == Reports(Sort(migrations, leq), table, outcome)
  {
    var applied := table;
    newTable, results, called := table, [], [];
    var sorted := Sort(migrations, leq);
    for i := 0 to |sorted|
      invariant results + Reports(sorted[i..], applied, outcome) == Reports(sorted, applied, outcome)
      invariant called + Tried(Pending(sorted[i..], applied), outcome) == Tried(Pending(sorted, applied), outcome)
      invariant called + Working(Pending(sorted[i..], applied), outcome) == Working(Pending(sorted, applied), outcome)
      invariant newTable == table + Versions(called)
    {
      var migration := sorted[i];
      ghost var rest := sorted[i + 1..];
      assert sorted[i..] == [migration] + rest;
      if migration.version in applied {
        Skips(migration, rest, applied, outcome, results);
        results := results + [Report(migration.version, migration.description, Skipped)];
        continue;
      }
      if outcome(migration) == Works {
        Applies(migration, rest, applied, outcome, called, results);
        VersionsMore(called, migration);
        newTable := newTable + {migration.version};
        called := called + [migration];
        results := results + [Report(migration.version, migration.description, Applied)];
      } else {
        FirstOf(migration, rest, applied, outcome);
        called := called + [migration];
        results := results + [Report(migration.version, migration.description, Failed)];
        return;
      }
    }
    assert sorted[|sorted|..] == [];
  }

  /**
   * The reports follow the versions in order: skipped for a recorded version, applied for a pending one
   * that worked, and only the last one can be a failure, which is also the only way to stop early.
   */
  lemma {:induction false} ReportsSay(ms: seq<Migration>, applied: set<string>, outcome: Migration -> Outcome)
    ensures var rs := Reports(ms, applied, outcome);
            && |rs| <= |ms| && (|rs| < |ms| ==> rs != [] && rs[|rs| - 1].status == Failed)
            && forall i | 0 <= i < |rs| ::
                 && rs[i].version == ms[i].version
                 && (rs[i].status == Skipped <==> ms[i].version in applied)
                 && (rs[i].status == Applied <==> ms[i].version !in applied && outcome(ms[i]) == Works)
                 && (rs[i].status == Failed ==> i == |rs| - 1)
  {
    if ms != [] {
      ReportsSay(ms[1..], applied, outcome);
    }
  }

  /** The calls of `up` happen in ascending version order and never for a recorded version. */
  lemma CalledInOrder(table: set<string>, ms: seq<Migration>, leq: (string, string) -> bool,
                      outcome: Migration -> Outcome)
    requires TotalOrder(leq)
    ensures Ordered(Tried(Pending(Sort(ms, leq), table), outcome), leq)
    ensures forall m | m in Tried(Pending(Sort(ms, leq), table), outcome) :: m in ms && m.version !in table
  {
    SortOrdered(ms, leq);
    PendingIs(Sort(ms, leq), table, leq);
    TriedIs(Pending(Sort(ms, leq), table), outcome);
    forall m | m in Tried(Pending(Sort(ms, leq), table), outcome) ensures m in ms {
      assert m in multiset(Sort(ms, leq));
    }
  }

  lemma {:induction false} PendingIs(ms: seq<Migration>, table: set<string>, leq: (string, string) -> bool)
    requires Ordered(ms, leq)
    ensures forall m :: m in Pending(ms, table) <==> m in ms && m.version !in table
    ensures Ordered(Pending(ms, table), leq)
  {
    if ms != [] {
      PendingIs(ms[1..], table, leq);
      assert ms == [ms[0]] + ms[1..];
      forall m | m in ms[1..] ensures leq(ms[0].version, m.version) {
        var i :| 0 <= i < |ms| - 1 && ms[1..][i] == m;
        assert ms[i + 1] == m;
      }
    }
  }

  /** The calls are the front part that works and the first migration that does not, if there is one. */
  lemma {:induction false} TriedIs(ms: seq<Migration>, outcome: Migration -> Outcome)
    ensures Working(ms, outcome) <= Tried(ms, outcome) <= ms
    ensures forall m | m in Working(ms, outcome) :: outcome(m) == Works
    ensures Tried(ms, outcome) != Working(ms, outcome) ==>
              && |Tried(ms, outcome)| == |Working(ms, outcome)| + 1 && outcome(ms[|Working(ms, outcome)|]) != Works
    ensures Tried(ms, outcome) == Working(ms, outcome) ==> Working(ms, outcome) == ms
  {
    if ms != [] {
      TriedIs(ms[1..], outcome);
      assert ms == [ms[0]] + ms[1..];
    }
  }

  // ---------------------------------------------------------------------------
  // Running again, rolling back
  // ---------------------------------------------------------------------------

  /** The table after a run. */
  function TableAfter(table: set<string>, ms: seq<Migration>, leq: (string, string) -> bool,
                      outcome: Migration -> Outcome): set<string>
  {
    table + Versions(Working(Pending(Sort(ms, leq), table), outcome))
  }

  function CallsOf(table: set<string>, ms: seq<Migration>, leq: (string, string) -> bool,
                   outcome: Migration -> Outcome): seq<Migration>
  {
    Tried(Pending(Sort(ms, leq), table), outcome)
  }

  /** A run reports a failure unless every pending migration worked. */
  predicate CleanRun(table: set<string>, ms: seq<Migration>, leq: (string, string) -> bool,
                     outcome: Migration -> Outcome)
  {
    forall r | r in Reports(Sort(ms, leq), table, outcome) :: r.status != Failed
  }

  lemma {:induction false} CleanMeansAllWorked(ms: seq<Migration>, table: set<string>, outcome: Migration -> Outcome)
    requires forall r | r in Reports(ms, table, outcome) :: r.status != Failed
    ensures Working(Pending(ms, table), outcome) == Pending(ms, table)
  {
    if ms != [] {
      var m := ms[0];
      assert Reports(ms, table, outcome)[0] in Reports(ms, table, outcome);
      forall r | r in Reports(ms[1..], table, outcome) ensures r.status != Failed {
        assert r in Reports(ms, table, outcome);
      }
      CleanMeansAllWorked(ms[1..], table, outcome);
    }
  }

  /** After a clean run every version is recorded. */
  lemma CleanRunRecordsAll(table: set<string>, ms: seq<Migration>, leq: (string, string) -> bool,
                           outcome: Migration -> Outcome)
    requires TotalOrder(leq) && CleanRun(table, ms, leq, outcome)
    ensures TableAfter(table, ms, leq, outcome) == table + Versions(ms)
  {
    SortOrdered(ms, leq);
    PendingIs(Sort(ms, leq), table, leq);
    CleanMeansAllWorked(Sort(ms, leq), table, outcome);
    var p := Pending(Sort(ms, leq), table);
    forall m | m in ms ensures m.version in table + Versions(p) {
      assert m in multiset(Sort(ms, leq));
      if m.version !in table { assert m in p; }
    }
    forall v | v in Versions(p) ensures v in Versions(ms) {
      var m :| m in p && m.version == v;
      assert m in multiset(Sort(ms, leq));
    }
  }

  lemma {:induction false} AllRecorded(ms: seq<Migration>, table: set<string>, outcome: Migration -> Outcome)
    requires Versions(ms) <= table
    ensures Pending(ms, table) == []
    ensures |Reports(ms, table, outcome)| == |ms|
    ensures forall i | 0 <= i < |ms| ::
              Reports(ms, table, outcome)[i] == Report(ms[i].version, ms[i].description, Skipped)
  {
    if ms != [] {
      assert ms[0].version in Versions(ms);
      assert Versions(ms[1..]) <= Versions(ms);
      AllRecorded(ms[1..], table, outcome);
    }
  }

  /** A rerun after a clean run calls nothing, changes nothing and skips everything. */
  lemma RerunDoesNothing(table: set<string>, ms: seq<Migration>, leq: (string, string) -> bool,
                         outcome: Migration -> Outcome, later: Migration -> Outcome)
    requires TotalOrder(leq) && CleanRun(table, ms, leq, outcome)
    ensures var n := TableAfter(table, ms, leq, outcome);
            && CallsOf(n, ms, leq, later) == [] && TableAfter(n, ms, leq, later) == n
            && forall r | r in Reports(Sort(ms, leq), n, later) :: r.status == Skipped
  {
    CleanRunRecordsAll(table, ms, leq, outcome);
    SortedVersions(ms, leq);
    AllRecorded(Sort(ms, leq), TableAfter(table, ms, leq, outcome), later);
  }

  lemma SortedVersions(ms: seq<Migration>, leq: (string, string) -> bool)
    requires TotalOrder(leq)
    ensures Versions(Sort(ms, leq)) == Versions(ms)
  {
    SortOrdered(ms, leq);
    forall m ensures m in Sort(ms, leq) <==> m in ms {
      assert m in multiset(Sort(ms, leq)) <==> m in multiset(ms);
    }
  }

  function AppliedOnly(ms: seq<Migration>, table: set<string>): seq<Migration> {
    if ms == [] then []
    else if ms[0].version in table then [ms[0]] + AppliedOnly(ms[1..], table)
    else AppliedOnly(ms[1..], table)
  }

  lemma {:induction false} AppliedOnlyIs(ms: seq<Migration>, table: set<string>)
    ensures forall m :: m in AppliedOnly(ms, table) <==> m in ms && m.version in table
  {
    if ms != [] {
      AppliedOnlyIs(ms[1..], table);
      assert ms == [ms[0]] + ms[1..];
    }
  }

  /** The applied migration with the greatest version. */
  ghost predicate IsLast(ms: seq<Migration>, table: set<string>, leq: (string, string) -> bool, m: Migration) {
    && m in ms && m.version in table
    && forall o | o in ms && o.version in table :: leq(o.version, m.version)
  }

  /**
   * Rolls back the greatest applied version: nothing without one, a failure without a `down`, and
   * otherwise exactly its record goes if `down` and the deletion work.
   */
  method RollbackMigration(table: set<string>, migrations: seq<Migration>, leq: (string, string) -> bool,
                           downWorks: Migration -> bool)
    returns (result: Option<Report>, newTable: set<string>)
    requires TotalOrder(leq)
    ensures result.None? <==> forall m | m in migrations :: m.version !in table
    ensures result.Some? ==> exists m :: IsLast(migrations, table, leq, m) && result.value.version == m.version
                                         && (result.value.status == Applied <==> m.hasDown && downWorks(m))
    ensures newTable == if result.Some? && result.value.status == Applied then table - {result.value.version} else table
  {
    newTable := table;
    AppliedOnlyIs(migrations, table);
    if table == {} {
      return None, newTable;
    }
    var descending := (a, b) => leq(b, a);
    var sorted := Sort(AppliedOnly(migrations, table), descending);
    SortOrdered(AppliedOnly(migrations, table), descending);
    forall m ensures m in sorted <==> m in AppliedOnly(migrations, table) {
      assert m in multiset(sorted) <==> m in multiset(AppliedOnly(migrations, table));
    }
    if sorted == [] {
      assert forall m | m in migrations && m.version in table :: m in sorted;
      return None, newTable;
    }
    var last := sorted[0];
    FirstIsLast(migrations, table, leq, sorted);
    if !last.hasDown {
      return Some(Report(last.version, last.description, Failed)), newTable;
    }
    if downWorks(last) {
      newTable := table - {last.version};
      return Some(Report(last.version, last.description, Applied)), newTable;
    }
    result := Some(Report(last.version, last.description, Failed));
  }

  lemma FirstIsLast(ms: seq<Migration>, table: set<string>, leq: (string, string) -> bool, sorted: seq<Migration>)
    requires TotalOrder(leq) && sorted != [] && Ordered(sorted, (a, b) => leq(b, a))
    requires forall m :: m in sorted <==> m in ms && m.version in table
    ensures IsLast(ms, table, leq, sorted[0])
  {
    forall o | o in ms && o.version in table ensures leq(o.version, sorted[0].version) {
      var i :| 0 <= i < |sorted| && sorted[i] == o;
      assert leq(sorted[0].version, sorted[0].version);
    }
  }

  lemma {:induction false} InsertDistinct(m: Migration, ms: seq<Migration>, leq: (string, string) -> bool)
    requires Distinct(ms) && m.version !in Versions(ms)
    ensures Distinct(Insert(m, ms, leq))
  {
    if ms != [] && !leq(m.version, ms[0].version) {
      assert Versions(ms[1..]) <= Versions(ms);
      InsertDistinct(m, ms[1..], leq);
      InsertHolds(m, ms[1..], leq);
      var rest := Insert(m, ms[1..], leq);
      forall i | 0 <= i < |rest| ensures rest[i].version != ms[0].version {
        assert rest[i] in multiset(ms[1..]) + multiset{m};
        assert ms[0].version in Versions(ms);
      }
    } else {
      forall j | 0 <= j < |ms| ensures ms[j].version != m.version {
        assert ms[j].version in Versions(ms);
      }
    }
  }

  lemma {:induction false} SortDistinct(ms: seq<Migration>, leq: (string, string) -> bool)
    requires TotalOrder(leq) && Distinct(ms)
    ensures Distinct(Sort(ms, leq))
  {
    if ms != [] {
      SortDistinct(ms[1..], leq);
      SortedVersions(ms[1..], leq);
      forall o | o in ms[1..] ensures o.version != ms[0].version {
        var i :| 0 <= i < |ms| - 1 && ms[1..][i] == o;
        assert ms[i + 1] == o;
      }
      InsertDistinct(ms[0], Sort(ms[1..], leq), leq);
    }
  }

  lemma {:induction false} PendingOfOthers(ms: seq<Migration>, table: set<string>, version: string)
    requires version !in Versions(ms)
    ensures Pending(ms, table - {version}) == Pending(ms, table)
  {
    if ms != [] {
      assert ms[0].version in Versions(ms) && Versions(ms[1..]) <= Versions(ms);
      PendingOfOthers(ms[1..], table, version);
    }
  }

  lemma {:induction false} PendingDistinct(ms: seq<Migration>, table: set<string>, leq: (string, string) -> bool)
    requires Ordered(ms, leq) && Distinct(ms)
    ensures Distinct(Pending(ms, table))
  {
    if ms != [] {
      var rest := ms[1..];
      PendingDistinct(rest, table, leq);
      PendingIs(rest, table, leq);
      forall i | 0 <= i < |Pending(rest, table)| ensures Pending(rest, table)[i].version != ms[0].version {
        assert Pending(rest, table)[i] in rest;
      }
    }
  }

  /** Taking a record out of the table puts its migration in its place among the pending ones. */
  lemma {:induction false} PendingAgain(ms: seq<Migration>, table: set<string>, leq: (string, string) -> bool,
                                        m: Migration)
    requires TotalOrder(leq) && Ordered(ms, leq) && Distinct(ms) && m in ms && m.version in table
    ensures Pending(ms, table - {m.version}) == Insert(m, Pending(ms, table), leq)
  {
    var rest := ms[1..];
    PendingIs(rest, table, leq);
    if ms[0] == m {
      forall o | o in rest ensures o.version != m.version && leq(m.version, o.version) {
        var i :| 0 <= i < |rest| && rest[i] == o;
        assert ms[i + 1] == o;
      }
      PendingOfOthers(rest, table, m.version);
      assert Pending(ms, table) == Pending(rest, table);
      if Pending(rest, table) != [] {
        assert Pending(rest, table)[0] in Pending(rest, table);
      }
    } else {
      var i :| 0 <= i < |ms| && ms[i] == m;
      assert rest[i - 1] == m && ms[0].version != m.version && leq(ms[0].version, m.version);
      PendingAgain(rest, table, leq, m);
    }
  }

  /** Every other migration of `ms` up to the version of `m` works. */
  ghost predicate WorksUpTo(ms: seq<Migration>, leq: (string, string) -> bool, outcome: Migration -> Outcome,
                            m: Migration)
  {
    forall o | o in ms && o != m && leq(o.version, m.version) :: outcome(o) == Works
  }

  lemma NothingBeforeHead(ms: seq<Migration>, leq: (string, string) -> bool, outcome: Migration -> Outcome)
    requires TotalOrder(leq) && Ordered(ms, leq) && Distinct(ms) && ms != []
    ensures WorksUpTo(ms, leq, outcome, ms[0])
  {
    forall o | o in ms && o != ms[0] ensures !leq(o.version, ms[0].version) {
      var i :| 0 <= i < |ms| && ms[i] == o;
      assert ms[0].version != ms[i].version && leq(ms[0].version, ms[i].version);
    }
  }

  lemma WorksUpToRest(x: Migration, rest: seq<Migration>, leq: (string, string) -> bool,
                      outcome: Migration -> Outcome, m: Migration)
    requires x != m && leq(x.version, m.version)
    ensures WorksUpTo([x] + rest, leq, outcome, m) <==> outcome(x) == Works && WorksUpTo(rest, leq, outcome, m)
  {
    assert forall o :: o in [x] + rest <==> o == x || o in rest;
  }

  lemma TriedRest(x: Migration, rest: seq<Migration>, outcome: Migration -> Outcome, m: Migration)
    requires x != m
    ensures m in Tried([x] + rest, outcome) <==> outcome(x) == Works && m in Tried(rest, outcome)
  {
    assert ([x] + rest)[1..] == rest;
  }

  /** `up` of a migration is called exactly if everything before it works. */
  lemma {:induction false} TriedIff(ms: seq<Migration>, leq: (string, string) -> bool, outcome: Migration -> Outcome,
                                    m: Migration)
    requires TotalOrder(leq) && Ordered(ms, leq) && Distinct(ms) && m in ms
    ensures m in Tried(ms, outcome) <==> WorksUpTo(ms, leq, outcome, m)
  {
    var x, rest := ms[0], ms[1..];
    assert ms == [x] + rest;
    if x == m {
      NothingBeforeHead(ms, leq, outcome);
    } else {
      var i :| 0 <= i < |ms| && ms[i] == m;
      assert rest[i - 1] == m && leq(ms[0].version, ms[i].version);
      TriedIff(rest, leq, outcome, m);
      WorksUpToRest(x, rest, leq, outcome, m);
      TriedRest(x, rest, outcome, m);
    }
  }

  lemma PendingCalled(pending: seq<Migration>, leq: (string, string) -> bool, outcome: Migration -> Outcome,
                      m: Migration)
    requires TotalOrder(leq) && Ordered(pending, leq) && Distinct(pending) && m.version !in Versions(pending)
    ensures m in Tried(Insert(m, pending, leq), outcome)
            <==> forall o | o in pending && leq(o.version, m.version) :: outcome(o) == Works
  {
    var all := Insert(m, pending, leq);
    InsertOrdered(m, pending, leq);
    InsertDistinct(m, pending, leq);
    InsertHolds(m, pending, leq);
    forall o ensures o in all <==> o == m || o in pending {
      assert o in multiset(all) <==> o in multiset(pending) + multiset{m};
    }
    TriedIff(all, leq, outcome, m);
    forall o | o in pending ensures o != m {
      assert o.version in Versions(pending);
    }
  }

  /**
   * After a recorded migration was rolled back, a run tries what was pending with that migration in its
   * place. It is called again exactly if everything pending before it works, and a clean run records all.
   */
  lemma RollbackThenRun(table: set<string>, ms: seq<Migration>, leq: (string, string) -> bool, m: Migration,
                        outcome: Migration -> Outcome)
    requires TotalOrder(leq) && Distinct(ms) && m in ms && m.version in table
    ensures CallsOf(table - {m.version}, ms, leq, outcome)
              == Tried(Insert(m, Pending(Sort(ms, leq), table), leq), outcome)
    ensures m in CallsOf(table - {m.version}, ms, leq, outcome)
            <==> forall o | o in ms && o.version !in table && leq(o.version, m.version) :: outcome(o) == Works
    ensures CleanRun(table - {m.version}, ms, leq, outcome) ==>
              TableAfter(table - {m.version}, ms, leq, outcome) == table + Versions(ms)
  {
    var sorted, pending := Sort(ms, leq), Pending(Sort(ms, leq), table);
    SortOrdered(ms, leq);
    SortDistinct(ms, leq);
    forall o ensures o in sorted <==> o in ms {
      assert o in multiset(sorted) <==> o in multiset(ms);
    }
    PendingAgain(sorted, table, leq, m);
    PendingIs(sorted, table, leq);
    PendingDistinct(sorted, table, leq);
    PendingCalled(pending, leq, outcome, m);
    if CleanRun(table - {m.version}, ms, leq, outcome) {
      CleanRunRecordsAll(table - {m.version}, ms, leq, outcome);
    }
  }

  /** When everything was recorded, exactly the migration that was rolled back is called. */
  lemma RollbackOfCompleteRun(table: set<string>, ms: seq<Migration>, leq: (string, string) -> bool, m: Migration,
                              outcome: Migration -> Outcome)
    requires TotalOrder(leq) && Distinct(ms) && Versions(ms) <= table && m in ms
    ensures CallsOf(table - {m.version}, ms, leq, outcome) == [m]
    ensures TableAfter(table - {m.version}, ms, leq, outcome) == if outcome(m) == Works then table
              else table - {m.version}
  {
    PendingOfComplete(table, ms, leq, m, outcome);
    OneTried(m, outcome);
    assert m.version in Versions(ms);
    assert Versions([m]) == {m.version} && Versions([]) == {};
  }

  lemma PendingOfComplete(table: set<string>, ms: seq<Migration>, leq: (string, string) -> bool, m: Migration,
                          outcome: Migration -> Outcome)
    requires TotalOrder(leq) && Distinct(ms) && Versions(ms) <= table && m in ms
    ensures Pending(Sort(ms, leq), table - {m.version}) == [m]
  {
    assert m.version in Versions(ms);
    SortedVersions(ms, leq);
    SortOrdered(ms, leq);
    SortDistinct(ms, leq);
    AllRecorded(Sort(ms, leq), table, outcome);
    assert m in multiset(ms);
    PendingAgain(Sort(ms, leq), table, leq, m);
  }

  lemma OneTried(m: Migration, outcome: Migration -> Outcome)
    ensures Tried([m], outcome) == [m] && Working([m], outcome) == if outcome(m) == Works then [m] else []
  {
    assert [m][1..] == [];
  }
}
