/** Migration converges: however often it is cut off, one complete run leaves what a single
    uninterrupted run leaves. */
module MigrationTheorems {
  import opened Basics
  import opened Migrations

  // ------------------------------------------------------------------ statements repeat safely

  /** The statement's effect is there already. */
  predicate Has(db: Db, s: Stmt) {
    match s
    case CreateTable(t) => t in db.tables
    case CreateIndex(t, n) => (t, n) in db.indexes
    case Seed(rows) => CustomPolicies in db.tables && forall i :: 0 <= i < |rows| ==> rows[i].0 in db.policies
  }

  lemma {:induction false} IgnoreAll(policies: map<string, Policy>, rows: seq<(string, Policy)>)
    requires forall i :: 0 <= i < |rows| ==> rows[i].0 in policies
    ensures InsertOrIgnore(policies, rows) == policies
  {
    if rows != [] {
      IgnoreAll(policies, rows[..|rows| - 1]);
    }
  }

  lemma {:induction false} InsertKeeps(policies: map<string, Policy>, rows: seq<(string, Policy)>)
    ensures var p := InsertOrIgnore(policies, rows);
      && (forall name :: name in policies ==> name in p && p[name] == policies[name])
      && (forall i :: 0 <= i < |rows| ==> rows[i].0 in p)
  {
    if rows != [] {
      var front := rows[..|rows| - 1];
      InsertKeeps(policies, front);
      assert forall i :: 0 <= i < |front| ==> rows[i] == front[i];
    }
  }

  lemma RepeatChangesNothing(db: Db, s: Stmt)
    requires Has(db, s)
    ensures Exec(db, s) == Some(db)
  {
    match s
    case CreateTable(t) => assert db.tables + {t} == db.tables;
    case CreateIndex(t, n) =>
    case Seed(rows) => IgnoreAll(db.policies, rows);
  }

  lemma ExecutedHas(db: Db, s: Stmt, other: Stmt)
    requires Exec(db, s).Some?
    ensures Has(Exec(db, s).value, s)
    ensures Has(db, other) ==> Has(Exec(db, s).value, other)
    ensures Exec(db, s).value.versions == db.versions && db.tables <= Exec(db, s).value.tables
  {
    if s.Seed? {
      InsertKeeps(db.policies, s.rows);
    }
  }

  // ------------------------------------------------------------------ statements never fail

  /** Whatever a statement needs is created before it. */
  ghost predicate Prepared(stmts: seq<Stmt>) {
    forall i :: 0 <= i < |stmts| ==>
      && (stmts[i].CreateIndex? ==> exists h :: 0 <= h < i && stmts[h] == CreateTable(stmts[i].table))
      && (stmts[i].Seed? ==> exists h :: 0 <= h < i && stmts[h] == CreateTable(CustomPolicies))
  }

  lemma PreparedConcat(a: seq<Stmt>, b: seq<Stmt>)
    requires Prepared(a)
    requires forall i :: 0 <= i < |b| ==>
      && (b[i].CreateIndex? ==>
            CreateTable(b[i].table) in a || exists h :: 0 <= h < i && b[h] == CreateTable(b[i].table))
      && (b[i].Seed? ==> CreateTable(CustomPolicies) in a)
    ensures Prepared(a + b)
  {
    var s := a + b;
    forall i | 0 <= i < |s|
      ensures s[i].CreateIndex? ==> exists h :: 0 <= h < i && s[h] == CreateTable(s[i].table)
      ensures s[i].Seed? ==> exists h :: 0 <= h < i && s[h] == CreateTable(CustomPolicies)
    {
      if i < |a| {
        assert s[i] == a[i];
        if a[i].CreateIndex? {
          var h :| 0 <= h < i && a[h] == CreateTable(a[i].table);
          assert s[h] == a[h];
        }
        if a[i].Seed? {
          var h :| 0 <= h < i && a[h] == CreateTable(CustomPolicies);
          assert s[h] == a[h];
        }
      } else {
        var j := i - |a|;
        assert s[i] == b[j];
        if b[j].CreateIndex? {
          if CreateTable(b[j].table) in a {
            var h :| 0 <= h < |a| && a[h] == CreateTable(b[j].table);
            assert s[h] == a[h];
          } else {
            var h :| 0 <= h < j && b[h] == CreateTable(b[j].table);
            assert s[|a| + h] == b[h];
          }
        }
        if b[j].Seed? {
          var h :| 0 <= h < |a| && a[h] == CreateTable(CustomPolicies);
          assert s[h] == a[h];
        }
      }
    }
  }

  lemma {:induction false} IndexesOf(t: Table, n: nat)
    ensures forall i :: 0 <= i < |IndexStmts(t, n)| ==>
              IndexStmts(t, n)[i].CreateIndex? && IndexStmts(t, n)[i].table == t
  {
    if n > 0 {
      IndexesOf(t, n - 1);
    }
  }

  lemma {:induction false} DefsPrepared(defs: seq<TableDef>)
    ensures Prepared(DefStmts(defs))
    ensures forall d :: d in defs ==> CreateTable(d.table) in DefStmts(defs)
  {
    if defs != [] {
      var front, d := defs[..|defs| - 1], defs[|defs| - 1];
      DefsPrepared(front);
      IndexesOf(d.table, d.indexes);
      var a := DefStmts(front) + [CreateTable(d.table)];
      PreparedConcat(DefStmts(front), [CreateTable(d.table)]);
      assert a[|a| - 1] == CreateTable(d.table);
      PreparedConcat(a, IndexStmts(d.table, d.indexes));
      assert defs == front + [d];
    }
  }

  /** A migration that seeds policies creates their table. */
  ghost predicate SeedsItsTable(m: Migration) {
    m.seeds != [] ==> exists d :: d in m.defs && d.table == CustomPolicies
  }

  lemma MigrationPrepared(m: Migration)
    requires SeedsItsTable(m)
    ensures Prepared(Stmts(m))
  {
    DefsPrepared(m.defs);
    PreparedConcat(DefStmts(m.defs), if m.seeds == [] then [] else [Seed(m.seeds)]);
  }

  // ------------------------------------------------------------------ points of a run

  /** The database after the first k statements. */
  function Applied(db: Db, stmts: seq<Stmt>, k: nat): Db
    requires k <= |stmts|
  {
    if k == 0 then db
    else
      var d := Applied(db, stmts, k - 1);
      match Exec(d, stmts[k - 1])
      case Some(e) => e
      case None => d
  }

  /** After k prepared statements: none failed, and each has left its effect. */
  lemma {:induction false} AppliedHas(db: Db, stmts: seq<Stmt>, k: nat)
    requires Prepared(stmts) && k <= |stmts|
    ensures forall i :: 0 <= i < k ==> Has(Applied(db, stmts, k), stmts[i])
    ensures k < |stmts| ==> Exec(Applied(db, stmts, k), stmts[k]).Some?
    ensures Applied(db, stmts, k).versions == db.versions && db.tables <= Applied(db, stmts, k).tables
  {
    if k > 0 {
      AppliedHas(db, stmts, k - 1);
      var d := Applied(db, stmts, k - 1);
      forall i | 0 <= i < k ensures Has(Applied(db, stmts, k), stmts[i]) {
        ExecutedHas(d, stmts[k - 1], stmts[i]);
      }
      ExecutedHas(d, stmts[k - 1], stmts[k - 1]);
    }
    if k < |stmts| && stmts[k].CreateIndex? {
      var h :| 0 <= h < k && stmts[h] == CreateTable(stmts[k].table);
      assert Has(Applied(db, stmts, k), stmts[h]);
    }
    if k < |stmts| && stmts[k].Seed? {
      var h :| 0 <= h < k && stmts[h] == CreateTable(CustomPolicies);
      assert Has(Applied(db, stmts, k), stmts[h]);
    }
  }

  /** Running a migration's statements again from any point of it: the ones done before change
      nothing, and the run gets as far as its fuel. */
  lemma {:induction false} Rerun(db: Db, stmts: seq<Stmt>, j: nat, fuel: nat, k: nat)
    requires Prepared(stmts) && j <= |stmts| && k <= |stmts|
    ensures RunStmts(Run(Applied(db, stmts, j), fuel, Finished), stmts, k) ==
            if k <= fuel then Run(Applied(db, stmts, Max(j, k)), fuel - k, Finished)
            else Run(Applied(db, stmts, Max(j, fuel)), 0, CutOff)
  {
    if k > 0 {
      Rerun(db, stmts, j, fuel, k - 1);
      if k <= fuel {
        var at := Max(j, k - 1);
        AppliedHas(db, stmts, at);
        if k - 1 < j {
          RepeatChangesNothing(Applied(db, stmts, at), stmts[k - 1]);
        }
      }
    }
  }

  const STARTED := EMPTY.(tables := {SchemaVersions})

  /** The database after the first n migrations of an uninterrupted run. */
  function Completed(list: seq<Migration>, n: nat): Db
    requires n <= |list|
  {
    if n == 0 then STARTED
    else
      var d := Applied(Completed(list, n - 1), Stmts(list[n - 1]), |Stmts(list[n - 1])|);
      d.(versions := d.versions + {list[n - 1].version})
  }

  /** The database in the middle of migration n. */
  function Point(list: seq<Migration>, n: nat, k: nat): Db
    requires n < |list| && k <= |Stmts(list[n])|
  {
    Applied(Completed(list, n), Stmts(list[n]), k)
  }

  /** The list can be applied at all: versions differ, and seeds have their table.  The order
      of the versions does not matter. */
  ghost predicate Sound(list: seq<Migration>) {
    && (forall i, j :: 0 <= i < j < |list| ==> list[i].version != list[j].version)
    && (forall i :: 0 <= i < |list| ==> SeedsItsTable(list[i]))
  }

  lemma {:induction false} CompletedVersions(list: seq<Migration>, n: nat)
    requires Sound(list) && n <= |list|
    ensures Completed(list, n).versions == set i | 0 <= i < n :: list[i].version
    ensures SchemaVersions in Completed(list, n).tables
    ensures n < |list| ==> list[n].version !in Completed(list, n).versions
  {
    if n > 0 {
      CompletedVersions(list, n - 1);
      MigrationPrepared(list[n - 1]);
      AppliedHas(Completed(list, n - 1), Stmts(list[n - 1]), |Stmts(list[n - 1])|);
    }
  }

  lemma PointVersions(list: seq<Migration>, n: nat, k: nat)
    requires Sound(list) && n < |list| && k <= |Stmts(list[n])|
    ensures Point(list, n, k).versions == Completed(list, n).versions && SchemaVersions in Point(list, n, k).tables
  {
    MigrationPrepared(list[n]);
    AppliedHas(Completed(list, n), Stmts(list[n]), k);
    CompletedVersions(list, n);
  }

  /** The database is one an interrupted run can leave. */
  ghost predicate AtPoint(list: seq<Migration>, db: Db) {
    || db == EMPTY
    || db == Completed(list, |list|)
    || exists n: nat, k: nat :: IsPoint(list, n, k, db)
  }

  ghost predicate IsPoint(list: seq<Migration>, n: nat, k: nat, db: Db) {
    n < |list| && k <= |Stmts(list[n])| && db == Point(list, n, k)
  }

  /** The run has completed the first n migrations, or was cut off at a point. */
  ghost predicate OnTrack(list: seq<Migration>, r: Run, n: nat)
    requires n <= |list|
  {
    || (r.outcome == Finished && r.db == Completed(list, n))
    || (r.outcome == CutOff && exists m: nat, k: nat :: IsPoint(list, m, k, r.db))
  }

  /** Resuming migration n from its statement j. */
  lemma {:induction false} ResumeMigration(list: seq<Migration>, n: nat, j: nat, fuel: nat)
    requires Sound(list) && n < |list| && j <= |Stmts(list[n])|
    ensures var r := RunMigration(Run(Point(list, n, j), fuel, Finished), list[n]);
      if |Stmts(list[n])| < fuel then r == Run(Completed(list, n + 1), fuel - |Stmts(list[n])| - 1, Finished)
      else r.outcome == CutOff && exists k: nat :: IsPoint(list, n, k, r.db)
  {
    var stmts := Stmts(list[n]);
    MigrationPrepared(list[n]);
    PointVersions(list, n, j);
    CompletedVersions(list, n);
    Rerun(Completed(list, n), stmts, j, fuel, |stmts|);
    PointVersions(list, n, |stmts|);
    assert fuel <= |stmts| ==> IsPoint(list, n, Max(j, fuel), Point(list, n, Max(j, fuel)));
    assert IsPoint(list, n, |stmts|, Point(list, n, |stmts|));
  }

  /** Migrations recorded before are skipped. */
  lemma {:induction false} SkipRecorded(list: seq<Migration>, r: Run, n: nat)
    requires n <= |list| && forall i :: 0 <= i < n ==> list[i].version in r.db.versions
    ensures RunList(r, list, n) == r
  {
    if n > 0 {
      SkipRecorded(list, r, n - 1);
    }
  }

  /** From point (n, j) on, the run completes migration after migration or is cut off at a point. */
  lemma {:induction false} RunFromPoint(list: seq<Migration>, n: nat, j: nat, fuel: nat, i: nat)
    requires Sound(list) && n < |list| && j <= |Stmts(list[n])| && n < i <= |list|
    ensures OnTrack(list, RunList(Run(Point(list, n, j), fuel, Finished), list, i), i)
  {
    var start := Run(Point(list, n, j), fuel, Finished);
    if i == n + 1 {
      PointVersions(list, n, j);
      CompletedVersions(list, n);
      SkipRecorded(list, start, n);
      ResumeMigration(list, n, j, fuel);
    } else {
      RunFromPoint(list, n, j, fuel, i - 1);
      ContinueList(list, RunList(start, list, i - 1), i - 1);
    }
  }

  /** One more migration of a run that is at a boundary or was cut off. */
  lemma {:induction false} ContinueList(list: seq<Migration>, r: Run, n: nat)
    requires Sound(list) && n < |list|
    requires OnTrack(list, r, n)
    ensures OnTrack(list, RunMigration(r, list[n]), n + 1)
  {
    if r.outcome == Finished {
      assert r == Run(Point(list, n, 0), r.fuel, Finished);
      ResumeMigration(list, n, 0, r.fuel);
    }
  }

  /** The first statement of a run. */
  lemma FirstStep(list: seq<Migration>, db: Db, fuel: nat)
    requires SchemaVersions in db.tables
    ensures Migrate(db, list, fuel) ==
            if fuel == 0 then Run(db, 0, CutOff) else RunList(Run(db, fuel - 1, Finished), list, |list|)
  {
    assert db.tables + {SchemaVersions} == db.tables;
    if fuel == 0 {
      StoppedRunsNothing(list, Run(db, 0, CutOff), |list|);
    }
  }

  lemma FirstStepOfAll(list: seq<Migration>, fuel: nat)
    ensures Migrate(EMPTY, list, fuel) ==
            if fuel == 0 then Run(EMPTY, 0, CutOff) else RunList(Run(STARTED, fuel - 1, Finished), list, |list|)
  {
    assert EMPTY.(tables := {} + {SchemaVersions}) == STARTED;
    if fuel == 0 {
      StoppedRunsNothing(list, Run(EMPTY, 0, CutOff), |list|);
    }
  }

  /** One run, wherever it starts and however far it gets: no statement fails, it stops at a
      point, and if it finishes the schema is complete. */
  lemma {:induction false} OneRun(list: seq<Migration>, db: Db, fuel: nat)
    requires Sound(list) && list != [] && AtPoint(list, db)
    ensures AtPoint(list, Migrate(db, list, fuel).db)
    ensures OnTrack(list, Migrate(db, list, fuel), |list|) || (fuel == 0 && Migrate(db, list, fuel).outcome == CutOff)
  {
    if db == EMPTY {
      FirstStepOfAll(list, fuel);
      if fuel > 0 {
        assert STARTED == Point(list, 0, 0);
        RunFromPoint(list, 0, 0, fuel - 1, |list|);
      }
    } else if db == Completed(list, |list|) {
      RunOfCompleted(list, db, fuel);
    } else {
      var n: nat, k: nat :| IsPoint(list, n, k, db);
      PointVersions(list, n, k);
      FirstStep(list, db, fuel);
      if fuel > 0 {
        RunFromPoint(list, n, k, fuel - 1, |list|);
      }
    }
  }

  lemma {:induction false} RunOfCompleted(list: seq<Migration>, db: Db, fuel: nat)
    requires Sound(list) && db == Completed(list, |list|)
    ensures Migrate(db, list, fuel).db == db
    ensures Migrate(db, list, fuel).outcome == if fuel == 0 then CutOff else Finished
  {
    CompletedVersions(list, |list|);
    forall i | 0 <= i < |list| ensures list[i].version in db.versions {
    }
    CompleteIsFinal(list, db, fuel);
  }

  lemma {:induction false} StoppedRunsNothing(list: seq<Migration>, r: Run, n: nat)
    requires n <= |list| && r.outcome == CutOff
    ensures RunList(r, list, n) == r
  {
    if n > 0 {
      StoppedRunsNothing(list, r, n - 1);
    }
  }

  // ------------------------------------------------------------------ any number of runs

  /** The database after runs with these many statements each. */
  function AfterRuns(list: seq<Migration>, fuels: seq<nat>): Db {
    if fuels == [] then EMPTY else Migrate(AfterRuns(list, fuels[..|fuels| - 1]), list, fuels[|fuels| - 1]).db
  }

  lemma {:induction false} RunsStayAtPoints(list: seq<Migration>, fuels: seq<nat>)
    requires Sound(list) && list != []
    ensures AtPoint(list, AfterRuns(list, fuels))
  {
    if fuels != [] {
      RunsStayAtPoints(list, fuels[..|fuels| - 1]);
      OneRun(list, AfterRuns(list, fuels[..|fuels| - 1]), fuels[|fuels| - 1]);
    }
  }

  /** After any number of interrupted runs, a run that finishes leaves exactly the database a
      single uninterrupted run leaves, and a further one changes nothing.  It finishes if it
      may execute as many statements as the whole list has. */
  lemma {:induction false} Convergence(list: seq<Migration>, fuels: seq<nat>, fuel: nat, again: nat)
    requires Sound(list) && list != []
    ensures var r, whole := Migrate(AfterRuns(list, fuels), list, fuel), Needed(list, |list|);
      && r.outcome != Failed && (whole <= fuel ==> r.outcome == Finished)
      && (r.outcome == Finished ==>
            && r.db == Migrate(EMPTY, list, whole).db && Migrate(r.db, list, again).db == r.db
            && r.db.versions == set i | 0 <= i < |list| :: list[i].version)
  {
    RunsStayAtPoints(list, fuels);
    OneRun(list, AfterRuns(list, fuels), fuel);
    OneRun(list, EMPTY, Needed(list, |list|));
    UninterruptedFinishes(list, Needed(list, |list|));
    if Needed(list, |list|) <= fuel {
      ResumedFinishes(list, AfterRuns(list, fuels), fuel);
    }
    RunOfCompleted(list, Completed(list, |list|), again);
    CompletedVersions(list, |list|);
  }

  /** Once every version is recorded, migration touches nothing, whatever has become of the
      data: seed policies that were edited or deleted stay that way. */
  lemma {:induction false} CompleteIsFinal(list: seq<Migration>, db: Db, fuel: nat)
    requires SchemaVersions in db.tables && forall i :: 0 <= i < |list| ==> list[i].version in db.versions
    ensures Migrate(db, list, fuel).db == db
    ensures Migrate(db, list, fuel).outcome == if fuel == 0 then CutOff else Finished
  {
    FirstStep(list, db, fuel);
    if fuel > 0 {
      SkipRecorded(list, Run(db, fuel - 1, Finished), |list|);
    }
  }

  /** The number of statements an uninterrupted run needs. */
  function Needed(list: seq<Migration>, n: nat): nat
    requires n <= |list|
  {
    if n == 0 then 1 else Needed(list, n - 1) + |Stmts(list[n - 1])| + 1
  }

  /** The run has completed n migrations and used up what they need. */
  ghost predicate OnSchedule(list: seq<Migration>, r: Run, n: nat, fuel: nat)
    requires n <= |list|
  {
    r.outcome == Finished && r.db == Completed(list, n) && r.fuel + Needed(list, n) == fuel
  }

  lemma FullMigration(list: seq<Migration>, r: Run, n: nat, fuel: nat)
    requires Sound(list) && n < |list| && OnSchedule(list, r, n, fuel) && Needed(list, n + 1) <= fuel
    ensures OnSchedule(list, RunMigration(r, list[n]), n + 1, fuel)
  {
    assert r == Run(Point(list, n, 0), r.fuel, Finished);
    ResumeMigration(list, n, 0, r.fuel);
  }

  /** A run that resumes in the middle of migration n with f statements left. */
  lemma {:induction false} EnoughFromPoint(list: seq<Migration>, n: nat, j: nat, f: nat, i: nat)
    requires Sound(list) && n < i <= |list| && j <= |Stmts(list[n])| && Needed(list, i) <= f + Needed(list, n)
    ensures OnSchedule(list, RunList(Run(Point(list, n, j), f, Finished), list, i), i, f + Needed(list, n))
  {
    if i == n + 1 {
      ResumeOnSchedule(list, n, j, f);
    } else {
      EnoughFromPoint(list, n, j, f, i - 1);
      FullMigration(list, RunList(Run(Point(list, n, j), f, Finished), list, i - 1), i - 1, f + Needed(list, n));
    }
  }

  lemma ResumeOnSchedule(list: seq<Migration>, n: nat, j: nat, f: nat)
    requires Sound(list) && n < |list| && j <= |Stmts(list[n])| < f
    ensures OnSchedule(list, RunList(Run(Point(list, n, j), f, Finished), list, n + 1), n + 1, f + Needed(list, n))
  {
    PointVersions(list, n, j);
    CompletedVersions(list, n);
    SkipRecorded(list, Run(Point(list, n, j), f, Finished), n);
    ResumeMigration(list, n, j, f);
  }

  /** Wherever earlier runs were cut off, a run with the statements of a whole one finishes. */
  lemma {:induction false} ResumedFinishes(list: seq<Migration>, db: Db, fuel: nat)
    requires Sound(list) && list != [] && AtPoint(list, db) && Needed(list, |list|) <= fuel
    ensures Migrate(db, list, fuel).outcome == Finished
  {
    NeededSome(list, |list|);
    if db == EMPTY {
      UninterruptedFinishes(list, fuel);
    } else if db == Completed(list, |list|) {
      RunOfCompleted(list, db, fuel);
    } else {
      var n: nat, k: nat :| IsPoint(list, n, k, db);
      PointFinishes(list, n, k, fuel);
    }
  }

  lemma PointFinishes(list: seq<Migration>, n: nat, k: nat, fuel: nat)
    requires Sound(list) && n < |list| && k <= |Stmts(list[n])| && 0 < fuel && Needed(list, |list|) <= fuel
    ensures Migrate(Point(list, n, k), list, fuel).outcome == Finished
  {
    PointVersions(list, n, k);
    FirstStep(list, Point(list, n, k), fuel);
    NeededSome(list, n);
    EnoughFromPoint(list, n, k, fuel - 1, |list|);
  }

  /** An uninterrupted run finishes. */
  lemma {:induction false} UninterruptedFinishes(list: seq<Migration>, fuel: nat)
    requires Sound(list) && Needed(list, |list|) <= fuel
    ensures Migrate(EMPTY, list, fuel).outcome == Finished
  {
    NeededSome(list, |list|);
    FirstStepOfAll(list, fuel);
    if list != [] {
      assert STARTED == Point(list, 0, 0);
      EnoughFromPoint(list, 0, 0, fuel - 1, |list|);
    }
  }

  lemma {:induction false} NeededSome(list: seq<Migration>, n: nat)
    requires n <= |list|
    ensures Needed(list, n) >= 1
  {
    if n > 0 {
      NeededSome(list, n - 1);
    }
  }

  // ------------------------------------------------------------------ the service's own list

  const M1 := Migration(1, [TableDef(SchemaVersions, 0), TableDef(Investigations, 2), TableDef(AuditEvents, 3),
                            TableDef(Conversations, 1), TableDef(Messages, 1)], [])
  const M2 := Migration(2, [TableDef(AnomalyEvents, 4), TableDef(CostSnapshots, 2)], [])
  const M3 := Migration(3, [TableDef(Findings, 1), TableDef(ToolCalls, 1), TableDef(Steps, 1)], [])
  const M4 := Migration(4, [TableDef(BudgetLimits, 0), TableDef(TokenUsage, 2)], [])
  const M5 := Migration(5, [TableDef(SafetyPolicies, 0)], [])
  const M6 := Migration(6, [TableDef(CustomPolicies, 2), TableDef(PolicyEvaluations, 3)], SEEDS)
  const M7 := Migration(7, [TableDef(LlmConfig, 0)], [])

  const SEEDS := [("block-production-deletion", Policy("DENY", 1000)),
                  ("require-approval-scaling", Policy("REQUEST_APPROVAL", 500))]

  /** Seven before six. */
  const MIGRATIONS := [M1, M2, M3, M4, M5, M7, M6]

  lemma ServiceVersions()
    ensures forall i :: 0 <= i < |MIGRATIONS| ==> MIGRATIONS[i].version == [1, 2, 3, 4, 5, 7, 6][i]
  {
  }

  lemma ServiceSeeds(i: nat)
    requires i < |MIGRATIONS|
    ensures SeedsItsTable(MIGRATIONS[i])
  {
    if i == 6 {
      assert MIGRATIONS[6] == M6 && M6.defs[0].table == CustomPolicies && M6.defs[0] in M6.defs;
    }
  }

  /** The order of the versions is no obstacle. */
  lemma ServiceListIsSound()
    ensures Sound(MIGRATIONS)
  {
    ServiceVersions();
    forall i | 0 <= i < |MIGRATIONS| ensures SeedsItsTable(MIGRATIONS[i]) {
      ServiceSeeds(i);
    }
  }

  /** However the service was interrupted while migrating, a migration that finishes leaves
      the schema of a single run, with all seven versions recorded. */
  lemma {:induction false} ServiceConverges(fuels: seq<nat>, fuel: nat)
    ensures var r := Migrate(AfterRuns(MIGRATIONS, fuels), MIGRATIONS, fuel);
      && r.outcome != Failed
      && (r.outcome == Finished ==> r.db == Migrate(EMPTY, MIGRATIONS, Needed(MIGRATIONS, |MIGRATIONS|)).db
                                    && r.db.versions == {1, 2, 3, 4, 5, 6, 7})
      && (Needed(MIGRATIONS, |MIGRATIONS|) <= fuel ==> r.outcome == Finished)
  {
    ServiceListIsSound();
    VersionSet();
    Convergence(MIGRATIONS, fuels, fuel, 0);
  }

  lemma VersionSet()
    ensures (set i | 0 <= i < |MIGRATIONS| :: MIGRATIONS[i].version) == {1, 2, 3, 4, 5, 6, 7}
  {
    ServiceVersions();
    var s := set i | 0 <= i < |MIGRATIONS| :: MIGRATIONS[i].version;
    assert MIGRATIONS[0].version in s && MIGRATIONS[1].version in s && MIGRATIONS[2].version in s;
    assert MIGRATIONS[3].version in s && MIGRATIONS[4].version in s && MIGRATIONS[5].version in s;
    assert MIGRATIONS[6].version in s;
  }

  // ------------------------------------------------------------------ what a complete schema is

  ghost predicate AsksTable(m: Migration, t: Table) {
    exists d :: d in m.defs && d.table == t
  }

  ghost predicate AsksIndex(m: Migration, t: Table, o: nat) {
    exists d :: d in m.defs && d.table == t && o < d.indexes
  }

  ghost predicate AsksSeed(m: Migration, name: string) {
    exists j :: 0 <= j < |m.seeds| && m.seeds[j].0 == name
  }

  lemma {:induction false} IndexStmtsMean(t: Table, n: nat, s: Stmt)
    ensures s in IndexStmts(t, n) <==> s.CreateIndex? && s.table == t && s.ordinal < n
  {
    if n > 0 {
      IndexStmtsMean(t, n - 1, s);
    }
  }

  /** The statements of a migration are those its tables and indexes ask for, and its seeds. */
  lemma {:induction false} DefStmtsMean(defs: seq<TableDef>, s: Stmt)
    ensures s in DefStmts(defs) <==>
      || (s.CreateTable? && exists d :: d in defs && d.table == s.table)
      || (s.CreateIndex? && exists d :: d in defs && d.table == s.table && s.ordinal < d.indexes)
  {
    if defs != [] {
      var front, d := defs[..|defs| - 1], defs[|defs| - 1];
      DefStmtsMean(front, s);
      IndexStmtsMean(d.table, d.indexes, s);
      assert defs == front + [d];
    }
  }

  lemma {:induction false} InsertedNames(policies: map<string, Policy>, rows: seq<(string, Policy)>, name: string)
    ensures name in InsertOrIgnore(policies, rows) <==>
              name in policies || exists j :: 0 <= j < |rows| && rows[j].0 == name
  {
    if rows != [] {
      var front := rows[..|rows| - 1];
      InsertedNames(policies, front, name);
      assert forall j :: 0 <= j < |front| ==> front[j] == rows[j];
    }
  }

  /** Prepared statements add what they ask for and nothing else. */
  lemma {:induction false} AppliedTable(db: Db, stmts: seq<Stmt>, k: nat, t: Table)
    requires Prepared(stmts) && k <= |stmts|
    ensures t in Applied(db, stmts, k).tables <==> t in db.tables || CreateTable(t) in stmts[..k]
  {
    if k > 0 {
      AppliedTable(db, stmts, k - 1, t);
      AppliedHas(db, stmts, k - 1);
      assert stmts[..k] == stmts[..k - 1] + [stmts[k - 1]];
    }
  }

  lemma {:induction false} AppliedIndex(db: Db, stmts: seq<Stmt>, k: nat, t: Table, o: nat)
    requires Prepared(stmts) && k <= |stmts|
    ensures (t, o) in Applied(db, stmts, k).indexes <==> (t, o) in db.indexes || CreateIndex(t, o) in stmts[..k]
  {
    if k > 0 {
      AppliedIndex(db, stmts, k - 1, t, o);
      AppliedHas(db, stmts, k - 1);
      assert stmts[..k] == stmts[..k - 1] + [stmts[k - 1]];
    }
  }

  lemma {:induction false} AppliedSeed(db: Db, stmts: seq<Stmt>, k: nat, name: string)
    requires Prepared(stmts) && k <= |stmts|
    ensures name in Applied(db, stmts, k).policies <==> name in db.policies || SeedsName(stmts, k, name)
  {
    if k > 0 {
      var s := stmts[k - 1];
      AppliedSeed(db, stmts, k - 1, name);
      AppliedHas(db, stmts, k - 1);
      if s.Seed? {
        InsertedNames(Applied(db, stmts, k - 1).policies, s.rows, name);
      }
    }
  }

  ghost predicate SeedsName(stmts: seq<Stmt>, k: nat, name: string)
    requires k <= |stmts|
  {
    exists i, j :: 0 <= i < k && stmts[i].Seed? && 0 <= j < |stmts[i].rows| && stmts[i].rows[j].0 == name
  }

  lemma StmtsMean(m: Migration, s: Stmt)
    ensures s in Stmts(m) <==>
      || (s.CreateTable? && AsksTable(m, s.table))
      || (s.CreateIndex? && AsksIndex(m, s.table, s.ordinal))
      || (m.seeds != [] && s == Seed(m.seeds))
  {
    DefStmtsMean(m.defs, s);
  }

  lemma SeedStmts(m: Migration, name: string)
    ensures SeedsName(Stmts(m), |Stmts(m)|, name) <==> AsksSeed(m, name)
  {
    var stmts := Stmts(m);
    if i, j :| 0 <= i < |stmts| && stmts[i].Seed? && 0 <= j < |stmts[i].rows| && stmts[i].rows[j].0 == name {
      StmtsMean(m, stmts[i]);
    }
    if j :| 0 <= j < |m.seeds| && m.seeds[j].0 == name {
      assert stmts[|stmts| - 1] == Seed(m.seeds);
    }
  }

  /** One complete migration adds its own tables, indexes and seeds. */
  lemma MigrationAdds(db: Db, m: Migration, t: Table, o: nat, name: string)
    requires SeedsItsTable(m)
    ensures var done := Applied(db, Stmts(m), |Stmts(m)|);
      && (t in done.tables <==> t in db.tables || AsksTable(m, t))
      && ((t, o) in done.indexes <==> (t, o) in db.indexes || AsksIndex(m, t, o))
      && (name in done.policies <==> name in db.policies || AsksSeed(m, name))
  {
    var stmts := Stmts(m);
    MigrationPrepared(m);
    assert stmts[..|stmts|] == stmts;
    AppliedTable(db, stmts, |stmts|, t);
    AppliedIndex(db, stmts, |stmts|, t, o);
    AppliedSeed(db, stmts, |stmts|, name);
    StmtsMean(m, CreateTable(t));
    StmtsMean(m, CreateIndex(t, o));
    SeedStmts(m, name);
  }

  lemma {:induction false} CompleteTables(list: seq<Migration>, n: nat, t: Table)
    requires Sound(list) && n <= |list|
    ensures t in Completed(list, n).tables <==> t == SchemaVersions || exists i :: 0 <= i < n && AsksTable(list[i], t)
  {
    if n > 0 {
      CompleteTables(list, n - 1, t);
      MigrationAdds(Completed(list, n - 1), list[n - 1], t, 0, "");
    }
  }

  lemma {:induction false} CompleteIndexes(list: seq<Migration>, n: nat, t: Table, o: nat)
    requires Sound(list) && n <= |list|
    ensures (t, o) in Completed(list, n).indexes <==> exists i :: 0 <= i < n && AsksIndex(list[i], t, o)
  {
    if n > 0 {
      CompleteIndexes(list, n - 1, t, o);
      MigrationAdds(Completed(list, n - 1), list[n - 1], t, o, "");
    }
  }

  lemma {:induction false} CompleteSeeds(list: seq<Migration>, n: nat, name: string)
    requires Sound(list) && n <= |list|
    ensures name in Completed(list, n).policies <==> exists i :: 0 <= i < n && AsksSeed(list[i], name)
  {
    if n > 0 {
      CompleteSeeds(list, n - 1, name);
      MigrationAdds(Completed(list, n - 1), list[n - 1], SchemaVersions, 0, name);
    }
  }

  /** A complete schema has exactly the tables and indexes the migrations ask for, the table of
      versions, and a policy for each seed. */
  lemma CompleteSchemaMeans(list: seq<Migration>, n: nat, t: Table, o: nat, name: string)
    requires Sound(list) && n <= |list|
    ensures var db := Completed(list, n);
      && (t in db.tables <==> t == SchemaVersions || exists i :: 0 <= i < n && AsksTable(list[i], t))
      && ((t, o) in db.indexes <==> exists i :: 0 <= i < n && AsksIndex(list[i], t, o))
      && (name in db.policies <==> exists i :: 0 <= i < n && AsksSeed(list[i], name))
  {
    CompleteTables(list, n, t);
    CompleteIndexes(list, n, t, o);
    CompleteSeeds(list, n, name);
  }

  lemma {:induction false} InsertedRow(policies: map<string, Policy>, rows: seq<(string, Policy)>, name: string)
    requires name in InsertOrIgnore(policies, rows)
    ensures var row := InsertOrIgnore(policies, rows)[name];
      (name in policies && policies[name] == row) || (name, row) in rows
  {
    if rows != [] {
      var front, last := rows[..|rows| - 1], rows[|rows| - 1];
      if name in InsertOrIgnore(policies, front) {
        InsertedRow(policies, front, name);
        assert rows == front + [last];
      } else {
        assert last == (name, InsertOrIgnore(policies, rows)[name]) && last in rows;
      }
    }
  }

  lemma {:induction false} AppliedRow(db: Db, stmts: seq<Stmt>, k: nat, name: string)
    requires Prepared(stmts) && k <= |stmts| && name in Applied(db, stmts, k).policies
    ensures var row := Applied(db, stmts, k).policies[name];
      (name in db.policies && db.policies[name] == row)
      || exists i :: 0 <= i < k && stmts[i].Seed? && (name, row) in stmts[i].rows
  {
    if k > 0 {
      var s, before := stmts[k - 1], Applied(db, stmts, k - 1);
      AppliedHas(db, stmts, k - 1);
      if s.Seed? {
        InsertedRow(before.policies, s.rows, name);
      }
      if name in before.policies {
        AppliedRow(db, stmts, k - 1, name);
      }
    }
  }

  /** Every stored policy is a seed, just as the list has it. */
  lemma {:induction false} StoredSeeds(list: seq<Migration>, n: nat, name: string)
    requires Sound(list) && n <= |list| && name in Completed(list, n).policies
    ensures exists i :: 0 <= i < n && (name, Completed(list, n).policies[name]) in list[i].seeds
  {
    if n > 0 {
      var m, before := list[n - 1], Completed(list, n - 1);
      MigrationPrepared(m);
      AppliedRow(before, Stmts(m), |Stmts(m)|, name);
      var row := Completed(list, n).policies[name];
      if name in before.policies && before.policies[name] == row {
        StoredSeeds(list, n - 1, name);
      } else {
        var i :| 0 <= i < |Stmts(m)| && Stmts(m)[i].Seed? && (name, row) in Stmts(m)[i].rows;
        StmtsMean(m, Stmts(m)[i]);
      }
    }
  }

  /** The service's own seeds, as they are stored by a migration that finishes. */
  lemma {:induction false} ServiceSeedsStored(fuels: seq<nat>, fuel: nat)
    requires Migrate(AfterRuns(MIGRATIONS, fuels), MIGRATIONS, fuel).outcome == Finished
    ensures Migrate(AfterRuns(MIGRATIONS, fuels), MIGRATIONS, fuel).db == Completed(MIGRATIONS, |MIGRATIONS|)
    ensures forall name :: name in Completed(MIGRATIONS, |MIGRATIONS|).policies <==>
              name in {"block-production-deletion", "require-approval-scaling"}
    ensures forall name :: name in Completed(MIGRATIONS, |MIGRATIONS|).policies ==>
              (name, Completed(MIGRATIONS, |MIGRATIONS|).policies[name]) in SEEDS
  {
    ServiceListIsSound();
    forall name | name in Completed(MIGRATIONS, |MIGRATIONS|).policies
      ensures (name, Completed(MIGRATIONS, |MIGRATIONS|).policies[name]) in SEEDS
    {
      StoredSeeds(MIGRATIONS, |MIGRATIONS|, name);
      OnlySeeds(name, Completed(MIGRATIONS, |MIGRATIONS|).policies[name]);
    }
    RunsStayAtPoints(MIGRATIONS, fuels);
    OneRun(MIGRATIONS, AfterRuns(MIGRATIONS, fuels), fuel);
    forall name
      ensures name in Completed(MIGRATIONS, |MIGRATIONS|).policies <==>
              name in {"block-production-deletion", "require-approval-scaling"}
    {
      CompleteSchemaMeans(MIGRATIONS, |MIGRATIONS|, SchemaVersions, 0, name);
      ServiceSeedNames(name);
    }
  }

  lemma OnlySeeds(name: string, row: Policy)
    requires exists i :: 0 <= i < |MIGRATIONS| && (name, row) in MIGRATIONS[i].seeds
    ensures (name, row) in SEEDS
  {
    assert forall i :: 0 <= i < 6 ==> MIGRATIONS[i].seeds == [];
  }

  lemma ServiceSeedNames(name: string)
    ensures (exists i :: 0 <= i < |MIGRATIONS| && AsksSeed(MIGRATIONS[i], name)) <==>
            name in {"block-production-deletion", "require-approval-scaling"}
  {
    assert MIGRATIONS[6] == M6 && SEEDS[0].0 == "block-production-deletion" && SEEDS[1].0 == "require-approval-scaling";
    assert AsksSeed(M6, name) <==> name == SEEDS[0].0 || name == SEEDS[1].0;
    forall i | 0 <= i < 6 ensures !AsksSeed(MIGRATIONS[i], name) {
    }
  }
}
