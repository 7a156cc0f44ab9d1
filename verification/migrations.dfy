/** Schema migration of the SQLite store, statement by statement, with runs that may be cut
    off after any statement.  Every statement commits by itself. */
module Migrations {
  import opened Basics

  datatype Table =
    | SchemaVersions | Investigations | AuditEvents | Conversations | Messages
    | AnomalyEvents | CostSnapshots
    | Findings | ToolCalls | Steps
    | BudgetLimits | TokenUsage | SafetyPolicies | LlmConfig
    | CustomPolicies | PolicyEvaluations

  datatype Policy = Policy(effect: string, priority: int)

  /** A table with a number of indexes. */
  datatype TableDef = TableDef(table: Table, indexes: nat)

  /** The SQL of a migration: its tables with their indexes, then one insert of seed policies. */
  datatype Migration = Migration(version: int, defs: seq<TableDef>, seeds: seq<(string, Policy)>)

  datatype Stmt =
    | CreateTable(table: Table)                 // IF NOT EXISTS
    | CreateIndex(table: Table, ordinal: nat)   // IF NOT EXISTS
    | Seed(rows: seq<(string, Policy)>)         // INSERT OR IGNORE, by name

  datatype Db = Db(tables: set<Table>, indexes: set<(Table, nat)>, policies: map<string, Policy>, versions: set<int>)

  const EMPTY := Db({}, {}, map[], {})

  // ------------------------------------------------------------------ statements

  function InsertOrIgnore(policies: map<string, Policy>, rows: seq<(string, Policy)>): map<string, Policy> {
    if rows == [] then policies
    else
      var p := InsertOrIgnore(policies, rows[..|rows| - 1]);
      var (name, row) := rows[|rows| - 1];
      if name in p then p else p[name := row]
  }

  /** None when the statement fails: its table does not exist. */
  function Exec(db: Db, s: Stmt): Option<Db> {
    match s
    case CreateTable(t) => Some(db.(tables := db.tables + {t}))
    case CreateIndex(t, n) =>
      if (t, n) in db.indexes then Some(db)
      else if t in db.tables then Some(db.(indexes := db.indexes + {(t, n)}))
      else None
    case Seed(rows) =>
      if CustomPolicies in db.tables then Some(db.(policies := InsertOrIgnore(db.policies, rows))) else None
  }

  /** None when the version is recorded already. */
  function Record(db: Db, version: int): Option<Db> {
    if SchemaVersions in db.tables && version !in db.versions then Some(db.(versions := db.versions + {version}))
    else None
  }

  function IndexStmts(t: Table, n: nat): seq<Stmt> {
    if n == 0 then [] else IndexStmts(t, n - 1) + [CreateIndex(t, n - 1)]
  }

  function DefStmts(defs: seq<TableDef>): seq<Stmt> {
    if defs == [] then []
    else
      var d := defs[|defs| - 1];
      DefStmts(defs[..|defs| - 1]) + [CreateTable(d.table)] + IndexStmts(d.table, d.indexes)
  }

  function Stmts(m: Migration): seq<Stmt> {
    DefStmts(m.defs) + (if m.seeds == [] then [] else [Seed(m.seeds)])
  }

  // ------------------------------------------------------------------ a run

  datatype Outcome = Finished | CutOff | Failed

  /** A database, how many more statements the run may execute, and how it ended so far. */
  datatype Run = Run(db: Db, fuel: nat, outcome: Outcome)

  function RunOne(r: Run, result: Option<Db>): Run {
    if r.outcome != Finished then r
    else if r.fuel == 0 then r.(outcome := CutOff)
    else if result.None? then r.(outcome := Failed)
    else Run(result.value, r.fuel - 1, Finished)
  }

  /** The first k statements of a migration. */
  function RunStmts(r: Run, stmts: seq<Stmt>, k: nat): Run
    requires k <= |stmts|
  {
    if k == 0 then r
    else
      var q := RunStmts(r, stmts, k - 1);
      RunOne(q, Exec(q.db, stmts[k - 1]))
  }

  function RunMigration(r: Run, m: Migration): Run {
    if r.outcome != Finished || m.version in r.db.versions then r
    else
      var q := RunStmts(r, Stmts(m), |Stmts(m)|);
      RunOne(q, Record(q.db, m.version))
  }

  /** The first n migrations of the list. */
  function RunList(r: Run, list: seq<Migration>, n: nat): Run
    requires n <= |list|
  {
    if n == 0 then r else RunMigration(RunList(r, list, n - 1), list[n - 1])
  }

  /** One call of migrate that may execute some number of statements. */
  function Migrate(db: Db, list: seq<Migration>, fuel: nat): Run {
    var r := Run(db, fuel, Finished);
    RunList(RunOne(r, Exec(db, CreateTable(SchemaVersions))), list, |list|)
  }

  class SqliteStore {
    var db: Db
    var fuel: nat   // statements left before the process dies

    constructor (db: Db, fuel: nat)
      ensures this.db == db && this.fuel == fuel
    {
      this.db, this.fuel := db, fuel;
    }

    /** Executes one statement, unless the process dies first. */
    method Execute(result: Option<Db>) returns (outcome: Outcome)
      modifies this
      ensures Run(db, fuel, outcome) == RunOne(Run(old(db), old(fuel), Finished), result)
    {
      if fuel == 0 {
        return CutOff;
      }
      if result.None? {
        return Failed;
      }
      db, fuel := result.value, fuel - 1;
      outcome := Finished;
    }

    method ExecuteAll(stmts: seq<Stmt>) returns (outcome: Outcome)
      modifies this
      ensures Run(db, fuel, outcome) == RunStmts(Run(old(db), old(fuel), Finished), stmts, |stmts|)
    {
      outcome := Finished;
      var k := 0;
      while k < |stmts|
        invariant k <= |stmts|
        invariant Run(db, fuel, outcome) == RunStmts(Run(old(db), old(fuel), Finished), stmts, k)
      {
        if outcome == Finished {
          outcome := Execute(Exec(db, stmts[k]));
        }
        k := k + 1;
      }
    }

    method Apply(m: Migration) returns (outcome: Outcome)
      modifies this
      ensures Run(db, fuel, outcome) == RunMigration(Run(old(db), old(fuel), Finished), m)
    {
      if m.version in db.versions {
        return Finished;
      }
      outcome := ExecuteAll(Stmts(m));
      if outcome == Finished {
        outcome := Execute(Record(db, m.version));
      }
    }

    method MigrateStore(list: seq<Migration>) returns (outcome: Outcome)
      modifies this
      ensures Run(db, fuel, outcome) == Migrate(old(db), list, old(fuel))
    {
      outcome := Execute(Exec(db, CreateTable(SchemaVersions)));
      ghost var start := Run(db, fuel, outcome);
      var n := 0;
      while n < |list|
        invariant n <= |list|
        invariant Run(db, fuel, outcome) == RunList(start, list, n)
      {
        if outcome == Finished {
          outcome := Apply(list[n]);
        }
        n := n + 1;
      }
    }
  }
}
