/** The `workflows` table row and the two tables that hang off it
    (models/workflow.py). A database is three tables keyed by primary key;
    the `rules` and `errors` rows carry the foreign key of their workflow. */
module Workflows {
  import opened Wrappers

  /** A UUID is a 128-bit number. */
  newtype Uuid = x: int | 0 <= x < 0x1_0000_0000_0000_0000_0000_0000_0000_0000

  /** A naive UTC `datetime`, as a count of microseconds. */
  type Timestamp = int

  /** The name of a `Status` member other than the three spelled out below. */
  type OtherStatusName = s: string | s != "UNKNOWN" && s != "SUCCESS" && s != "ERROR" witness "RUNNING"

  /** The `Status` enum. Only the members the dispatcher names are spelled
      out; every other member (RUNNING, ...) is an `OtherStatus`, which can
      never stand for one of those three. */
  datatype Status = Unknown | Success | Error | OtherStatus(name: OtherStatusName)

  /** A JSON document, the value type of a JSON column. */
  datatype Json =
    | JNull
    | JBool(b: bool)
    | JNumber(n: int)
    | JString(s: string)
    | JArray(items: seq<Json>)
    | JObject(fields: map<string, Json>)

  /** One row of `workflows`. Optional columns are `Option`s; `dryrun` is not. */
  datatype Workflow = Workflow(
    id: Uuid,
    snakefile: Option<string>,
    startedAt: Timestamp,
    endTime: Option<Timestamp>,
    status: Status,
    commandLine: Option<string>,
    dryrun: bool,
    rulegraphData: Option<map<string, Json>>)

  /** A `rules` row: only its owning workflow and its name matter here. */
  datatype RuleRow = RuleRow(workflowId: Uuid, name: string)

  /** An `errors` row: only its owning workflow and its message matter here. */
  datatype ErrorRow = ErrorRow(workflowId: Uuid, message: string)

  /** The database: each table maps a primary key to its row. */
  datatype Db = Db(
    workflows: map<Uuid, Workflow>,
    rules: map<nat, RuleRow>,
    errors: map<nat, ErrorRow>)

  /** The empty database, as `create_all` leaves a new file. */
  const EmptyDb := Db(map[], map[], map[])

  /** Every workflow row is stored under its own primary key. */
  predicate KeyedById(db: Db) {
    forall id :: id in db.workflows ==> db.workflows[id].id == id
  }

  /** Every rule and error row references an existing workflow. */
  predicate ReferencesValid(db: Db) {
    && (forall k :: k in db.rules ==> db.rules[k].workflowId in db.workflows)
    && (forall k :: k in db.errors ==> db.errors[k].workflowId in db.workflows)
  }

  /** The columns an INSERT may supply; `None` means "not supplied". */
  datatype WorkflowArgs = WorkflowArgs(
    id: Option<Uuid>,
    snakefile: Option<string>,
    startedAt: Option<Timestamp>,
    endTime: Option<Timestamp>,
    status: Option<Status>,
    commandLine: Option<string>,
    dryrun: Option<bool>,
    rulegraphData: Option<map<string, Json>>)

  /** Why an INSERT into `workflows` is refused. */
  datatype InsertError = MissingPrimaryKey | MissingDryrun | DuplicateKey

  datatype InsertResult = Inserted(db: Db) | Refused(reason: InsertError)

  /** The row the column defaults build from `args`, given the value that
      fills an unsupplied `started_at`. */
  function RowWithStart(args: WorkflowArgs, id: Uuid, dryrun: bool, start: Timestamp): Workflow
  {
    Workflow(
      id,
      args.snakefile,
      match args.startedAt case Some(t) => t case None => start,
      args.endTime,
      match args.status case Some(s) => s case None => Unknown,
      args.commandLine,
      dryrun,
      args.rulegraphData)
  }

  /** The INSERT statement itself, given the value that fills an unsupplied
      `started_at`: NOT NULL and primary-key checks, then the defaults. */
  function InsertRow(db: Db, args: WorkflowArgs, start: Timestamp): InsertResult
  {
    if args.id.None? then Refused(MissingPrimaryKey)
    else if args.dryrun.None? then Refused(MissingDryrun)
    else if args.id.value in db.workflows then Refused(DuplicateKey)
    else
      var row := RowWithStart(args, args.id.value, args.dryrun.value, start);
      Inserted(db.(workflows := db.workflows[args.id.value := row]))
  }

  /** INSERT at the moment `now`, with the start default as written:
      `datetime.utcnow()` was called once, when the class body ran
      (`definedAt`), so every row that does not supply `started_at` receives
      that one instant whatever `now` is. The primary key and `dryrun` are
      NOT NULL; a second row with the same key is refused. */
  function Insert(db: Db, args: WorkflowArgs, definedAt: Timestamp, now: Timestamp): (r: InsertResult)
    ensures args.id.None? ==> r == Refused(MissingPrimaryKey)
    ensures args.id.Some? && args.dryrun.None? ==> r == Refused(MissingDryrun)
    ensures args.id.Some? && args.dryrun.Some? && args.id.value in db.workflows ==> r == Refused(DuplicateKey)
    ensures r.Inserted? <==> args.id.Some? && args.dryrun.Some? && args.id.value !in db.workflows
    ensures r.Inserted? ==>
      && r.db.workflows.Keys == db.workflows.Keys + {args.id.value}
      && r.db.rules == db.rules && r.db.errors == db.errors
      && (forall other :: other in db.workflows ==> r.db.workflows[other] == db.workflows[other])
    ensures r.Inserted? ==>
      var w := r.db.workflows[args.id.value];
      && w.id == args.id.value && w.dryrun == args.dryrun.value
      && w.status == (if args.status.Some? then args.status.value else Unknown)
      && w.startedAt == (if args.startedAt.Some? then args.startedAt.value else definedAt)
      && w.snakefile == args.snakefile && w.endTime == args.endTime
      && w.commandLine == args.commandLine && w.rulegraphData == args.rulegraphData
  {
    InsertRow(db, args, definedAt)
  }

  /** As written, the moment of the insert has no influence on the row. */
  lemma InsertIgnoresClock(db: Db, args: WorkflowArgs, definedAt: Timestamp, now1: Timestamp, now2: Timestamp)
    ensures Insert(db, args, definedAt, now1) == Insert(db, args, definedAt, now2)
  {
  }

  /** INSERT with the evidently intended per-row default: `started_at` is the
      clock reading `now` at the moment of the insert. */
  function InsertAt(db: Db, args: WorkflowArgs, now: Timestamp): (r: InsertResult)
    ensures r.Inserted? <==> args.id.Some? && args.dryrun.Some? && args.id.value !in db.workflows
    ensures r.Inserted? ==>
      && r.db.workflows.Keys == db.workflows.Keys + {args.id.value}
      && r.db.rules == db.rules && r.db.errors == db.errors
      && (forall other :: other in db.workflows ==> r.db.workflows[other] == db.workflows[other])
      && r.db.workflows[args.id.value].startedAt == (if args.startedAt.Some? then args.startedAt.value else now)
  {
    InsertRow(db, args, now)
  }

  /** An INSERT keeps the primary-key and foreign-key invariants. */
  lemma InsertKeepsInvariants(db: Db, args: WorkflowArgs, definedAt: Timestamp, now: Timestamp)
    requires KeyedById(db) && ReferencesValid(db)
    ensures Insert(db, args, definedAt, now).Inserted? ==>
      KeyedById(Insert(db, args, definedAt, now).db) && ReferencesValid(Insert(db, args, definedAt, now).db)
  {
  }

  /** As written, two rows inserted at moments `t1 < t2` (both after the class
      was defined) without a start time share the same `started_at`, which is
      neither moment, and differs from what the per-row default records. */
  lemma SharedStartDefault(db: Db, a1: WorkflowArgs, a2: WorkflowArgs, definedAt: Timestamp, t1: Timestamp, t2: Timestamp)
    requires a1.startedAt.None? && a2.startedAt.None? && definedAt < t1 < t2
    requires Insert(db, a1, definedAt, t1).Inserted?
    requires Insert(Insert(db, a1, definedAt, t1).db, a2, definedAt, t2).Inserted?
    ensures
      var d := Insert(Insert(db, a1, definedAt, t1).db, a2, definedAt, t2).db;
      && d.workflows[a1.id.value].startedAt == d.workflows[a2.id.value].startedAt == definedAt
      && d.workflows[a1.id.value].startedAt != t1
      && d.workflows[a2.id.value].startedAt != t2
      && InsertAt(db, a1, t1).Inserted?
      && InsertAt(db, a1, t1).db.workflows[a1.id.value].startedAt != Insert(db, a1, definedAt, t1).db.workflows[a1.id.value].startedAt
  {
    var d1 := Insert(db, a1, definedAt, t1).db;
    assert a1.id.value in d1.workflows;
    assert a1.id.value != a2.id.value;
  }

  /** With the per-row default, rows inserted at different moments without a
      start time record those moments, so the later row starts later. */
  lemma PerRowStartDefault(db: Db, a1: WorkflowArgs, a2: WorkflowArgs, t1: Timestamp, t2: Timestamp)
    requires a1.startedAt.None? && a2.startedAt.None? && t1 < t2
    requires InsertAt(db, a1, t1).Inserted?
    requires InsertAt(InsertAt(db, a1, t1).db, a2, t2).Inserted?
    ensures
      var d := InsertAt(InsertAt(db, a1, t1).db, a2, t2).db;
      && d.workflows[a1.id.value].startedAt == t1
      && d.workflows[a2.id.value].startedAt == t2
      && d.workflows[a1.id.value].startedAt < d.workflows[a2.id.value].startedAt
  {
    var d1 := InsertAt(db, a1, t1).db;
    assert a1.id.value in d1.workflows;
    assert a1.id.value != a2.id.value;
  }

  /** The keys of the rules owned by workflow `id` (the `rules` relationship). */
  function RulesOf(db: Db, id: Uuid): set<nat> {
    set k | k in db.rules && db.rules[k].workflowId == id
  }

  /** The keys of the errors owned by workflow `id` (the `errors` relationship). */
  function ErrorsOf(db: Db, id: Uuid): set<nat> {
    set k | k in db.errors && db.errors[k].workflowId == id
  }

  /** DELETE of a workflow; `cascade="all"` deletes its rules and errors too. */
  function DeleteWorkflow(db: Db, id: Uuid): (r: Db)
    ensures r.workflows.Keys == db.workflows.Keys - {id}
    ensures forall w :: w in r.workflows ==> r.workflows[w] == db.workflows[w]
    ensures r.rules.Keys == db.rules.Keys - RulesOf(db, id)
    ensures r.errors.Keys == db.errors.Keys - ErrorsOf(db, id)
    ensures forall k :: k in r.rules ==> r.rules[k] == db.rules[k]
    ensures forall k :: k in r.errors ==> r.errors[k] == db.errors[k]
    ensures RulesOf(r, id) == {} && ErrorsOf(r, id) == {}
  {
    Db(
      map w | w in db.workflows && w != id :: db.workflows[w],
      map k | k in db.rules && db.rules[k].workflowId != id :: db.rules[k],
      map k | k in db.errors && db.errors[k].workflowId != id :: db.errors[k])
  }

  /** Cascade delete leaves no orphan behind, and the other workflows keep
      exactly the children they had. */
  lemma DeleteKeepsInvariants(db: Db, id: Uuid)
    requires KeyedById(db) && ReferencesValid(db)
    ensures KeyedById(DeleteWorkflow(db, id)) && ReferencesValid(DeleteWorkflow(db, id))
    ensures forall w :: w != id ==> RulesOf(DeleteWorkflow(db, id), w) == RulesOf(db, w)
    ensures forall w :: w != id ==> ErrorsOf(DeleteWorkflow(db, id), w) == ErrorsOf(db, w)
  {
  }

  /** Removing a rule from its workflow's `rules` collection: with
      `delete-orphan` the row itself is deleted, not left without a parent. */
  function RemoveRule(db: Db, key: nat): (r: Db)
    ensures r.rules.Keys == db.rules.Keys - {key}
    ensures forall k :: k in r.rules ==> r.rules[k] == db.rules[k]
    ensures r.workflows == db.workflows && r.errors == db.errors
    ensures ReferencesValid(db) ==> ReferencesValid(r)
  {
    db.(rules := map k | k in db.rules && k != key :: db.rules[k])
  }

  /** Removing an error from its workflow's `errors` collection deletes it. */
  function RemoveError(db: Db, key: nat): (r: Db)
    ensures r.errors.Keys == db.errors.Keys - {key}
    ensures forall k :: k in r.errors ==> r.errors[k] == db.errors[k]
    ensures r.workflows == db.workflows && r.rules == db.rules
    ensures ReferencesValid(db) ==> ReferencesValid(r)
  {
    db.(errors := map k | k in db.errors && k != key :: db.errors[k])
  }
}
