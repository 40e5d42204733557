/** Properties of the dispatcher over whole runs: a sequence of emitted
    records followed by `close`. */
module HandlerProperties {
  import opened Wrappers
  import opened Workflows
  import opened Handler

  /** One record handed to `emit`, with the database's answers for its scope. */
  datatype Delivery = Delivery(record: LogRecord, io: DbResponse)

  /** The state after emitting every delivery in order. */
  function Run(table: HandlerTable, s: HandlerState, ds: seq<Delivery>): HandlerState
    decreases |ds|
  {
    if ds == [] then s else Run(table, EmitStep(table, s, ds[0].record, ds[0].io), ds[1..])
  }

  /** A run of records that are all dropped leaves the store, the context and
      the error channel exactly as they were. */
  lemma {:induction false} DroppedRunIsNoOp(table: HandlerTable, s: HandlerState, ds: seq<Delivery>)
    requires forall i :: 0 <= i < |ds| ==> Resolve(ds[i].record.event) == Drop
    ensures Run(table, s, ds) == s
    decreases |ds|
  {
    if ds != [] {
      assert Resolve(ds[0].record.event) == Drop;
      DroppedRunIsNoOp(table, s, ds[1..]);
    }
  }

  /** The error channel is append-only and grows by at most one entry per
      record; a run of emits never runs the base `close`. */
  lemma {:induction false} RunErrorsOnlyGrow(table: HandlerTable, s: HandlerState, ds: seq<Delivery>)
    ensures s.errors <= Run(table, s, ds).errors
    ensures |Run(table, s, ds).errors| <= |s.errors| + |ds|
    ensures Run(table, s, ds).closed == s.closed
    decreases |ds|
  {
    if ds != [] {
      var s1 := EmitStep(table, s, ds[0].record, ds[0].io);
      RunErrorsOnlyGrow(table, s1, ds[1..]);
    }
  }

  /** Workflow `w` is stored with status ERROR. */
  predicate ErrorAt(db: Db, w: Uuid) {
    w in db.workflows && db.workflows[w].status == Error
  }

  /** A handler outcome that, if committed, keeps `w` at ERROR. */
  predicate KeepsErrorAt(res: HandlerResult, w: Uuid) {
    res.Raised? || ErrorAt(res.db, w)
  }

  /** No registered handler moves workflow `w` out of ERROR ("first error
      wins") nor deletes it. */
  ghost predicate HandlersKeepError(table: HandlerTable, w: Uuid) {
    forall k, record, db, ctx :: ErrorAt(db, w) ==> KeepsErrorAt(table(k)(record, db, ctx), w)
  }

  /** One emit keeps an ERROR workflow at ERROR when the handlers do. */
  lemma EmitKeepsError(table: HandlerTable, s: HandlerState, d: Delivery, w: Uuid)
    requires HandlersKeepError(table, w) && ErrorAt(s.store, w)
    ensures ErrorAt(EmitStep(table, s, d.record, d.io).store, w)
  {
    var r := Resolve(d.record.event);
    if r.Dispatch? {
      var res := table(r.kind)(d.record, s.store, s.context);
      assert KeepsErrorAt(res, w);
    }
  }

  /** ERROR is never overwritten: if the handlers never leave ERROR, a
      workflow that has failed is still ERROR after any run and the close. */
  lemma {:induction false} ErrorSurvivesRunAndClose(
    table: HandlerTable, s: HandlerState, ds: seq<Delivery>, w: Uuid,
    now: Timestamp, lookup: Outcome, io: DbResponse)
    requires HandlersKeepError(table, w) && ErrorAt(s.store, w)
    ensures ErrorAt(Run(table, s, ds).store, w)
    ensures ErrorAt(CloseStep(Run(table, s, ds), now, lookup, io).store, w)
    decreases |ds|
  {
    if ds != [] {
      EmitKeepsError(table, s, ds[0], w);
      ErrorSurvivesRunAndClose(table, EmitStep(table, s, ds[0].record, ds[0].io), ds[1..], w, now, lookup, io);
    }
  }

  /** A successful close of a workflow that has not failed records it as
      SUCCESS ending at `now`, and changes no other workflow. */
  lemma CloseMarksSuccess(s: HandlerState, now: Timestamp, io: DbResponse)
    requires s.context.currentWorkflowId.Some?
    requires s.context.currentWorkflowId.value in s.store.workflows
    requires s.store.workflows[s.context.currentWorkflowId.value].status != Error
    requires io.commit.Ok?
    ensures
      var id := s.context.currentWorkflowId.value;
      var r := CloseStep(s, now, Ok, io);
      && r.store.workflows[id] == s.store.workflows[id].(status := Success, endTime := Some(now))
      && r.store.workflows.Keys == s.store.workflows.Keys
      && r.errors == s.errors
  {
  }

  /** The context is not rolled back: a handler that records a new workflow
      id and then raises leaves that id in the context while its row is
      rolled back, so the later close finds no row and changes nothing. */
  lemma DanglingWorkflowId(
    table: HandlerTable, s: HandlerState, record: LogRecord, io: DbResponse, id: Uuid,
    now: Timestamp, lookup: Outcome, closeIo: DbResponse)
    requires Resolve(record.event).Dispatch?
    requires table(Resolve(record.event).kind)(record, s.store, s.context).Raised?
    requires table(Resolve(record.event).kind)(record, s.store, s.context).ctx.currentWorkflowId == Some(id)
    requires id !in s.store.workflows
    ensures
      var s1 := EmitStep(table, s, record, io);
      && s1.context.currentWorkflowId == Some(id)
      && s1.store == s.store
      && |s1.errors| == |s.errors| + 1
      && CloseStep(s1, now, lookup, closeIo).store == s.store
  {
  }

  /** SUCCESS is not protected the way ERROR is: closing again with the same
      workflow id keeps it SUCCESS but moves its end time to the new `now`. */
  lemma CloseAgainMovesEndTime(s: HandlerState, t1: Timestamp, t2: Timestamp, io: DbResponse)
    requires s.context.currentWorkflowId.Some?
    requires s.context.currentWorkflowId.value in s.store.workflows
    requires s.store.workflows[s.context.currentWorkflowId.value].status != Error
    requires io.commit.Ok? && t1 != t2
    ensures
      var id := s.context.currentWorkflowId.value;
      var once := CloseStep(s, t1, Ok, io);
      var twice := CloseStep(once, t2, Ok, io);
      && once.store.workflows[id].status == twice.store.workflows[id].status == Success
      && once.store.workflows[id].endTime == Some(t1)
      && twice.store.workflows[id].endTime == Some(t2)
  {
  }
}
