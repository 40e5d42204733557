/** The dispatcher (handler.py): it resolves each log record to one of nine
    per-kind handlers, runs that handler inside one transactional session
    scope, reports every failure instead of raising it, and on close marks
    the current workflow successful unless it already failed. */
module Handler {
  import opened Wrappers
  import opened Workflows
  import opened Sessions

  // ---------------------------------------------------------------------
  // Event kinds and the dispatch table

  /** The nine event kinds that have a registered handler. */
  datatype EventKind =
    | WorkflowStarted | JobInfo | JobStarted | JobFinished | JobError
    | RuleGraph | GroupInfo | GroupError | ErrorEvent

  /** The key each kind is registered under: the `.value` of its `LogEvent`
      member, a lower-case snake-case name. */
  function Key(k: EventKind): string {
    match k
    case WorkflowStarted => "workflow_started"
    case JobInfo => "job_info"
    case JobStarted => "job_started"
    case JobFinished => "job_finished"
    case JobError => "job_error"
    case RuleGraph => "rulegraph"
    case GroupInfo => "group_info"
    case GroupError => "group_error"
    case ErrorEvent => "error"
  }

  /** `self.event_handlers.get(key)`: the kind registered under `key`, if any.
      A key names at most one kind, and every kind is found under its key. */
  function Lookup(key: string): (r: Option<EventKind>)
    ensures r.Some? ==> Key(r.value) == key
    ensures forall k :: Key(k) == key ==> r == Some(k)
  {
    if key == "workflow_started" then Some(WorkflowStarted)
    else if key == "job_info" then Some(JobInfo)
    else if key == "job_started" then Some(JobStarted)
    else if key == "job_finished" then Some(JobFinished)
    else if key == "job_error" then Some(JobError)
    else if key == "rulegraph" then Some(RuleGraph)
    else if key == "group_info" then Some(GroupInfo)
    else if key == "group_error" then Some(GroupError)
    else if key == "error" then Some(ErrorEvent)
    else None
  }

  // ---------------------------------------------------------------------
  // Log records and how their event attribute is resolved

  /** The object found in a record's `event` attribute: whether it is truthy,
      its `.value` attribute if it has one, and `str(event)` (`None` when
      converting it to a string raises). */
  datatype EventObj = EventObj(truthy: bool, valueAttr: Option<string>, text: Option<string>)

  /** A log record; `event` is `None` when the attribute is absent or `None`.
      The other attributes are only ever passed on, to handlers and to the
      error channel. */
  datatype LogRecord = LogRecord(event: Option<EventObj>, msg: string)

  /** `str.lower` on one character (ASCII letters only). */
  function LowerChar(c: char): (r: char)
    ensures 'A' <= c <= 'Z' ==> 'a' <= r <= 'z' && r as int - c as int == 'a' as int - 'A' as int
    ensures !('A' <= c <= 'Z') ==> r == c
  {
    if 'A' <= c <= 'Z' then (c as int - 'A' as int + 'a' as int) as char else c
  }

  /** `str.lower`: every character lowered, nothing added or dropped. */
  function Lower(s: string): (r: string)
    ensures |r| == |s|
    ensures forall i :: 0 <= i < |s| ==> r[i] == LowerChar(s[i])
    ensures forall i :: 0 <= i < |r| ==> !('A' <= r[i] <= 'Z')
  {
    if s == [] then [] else [LowerChar(s[0])] + Lower(s[1..])
  }

  /** Lowering twice is lowering once. */
  lemma LowerIdempotent(s: string)
    ensures Lower(Lower(s)) == Lower(s)
  {
  }

  /** The registered keys are already lower-case, so a plain string event
      matches a key whatever the case of its letters. */
  lemma KeysAreLowerCase(k: EventKind)
    ensures Lower(Key(k)) == Key(k)
  {
    LowerKeepsLowerCase(Key(k));
  }

  /** A string without upper-case letters is its own lower-case form. */
  lemma LowerKeepsLowerCase(s: string)
    requires forall i :: 0 <= i < |s| ==> !('A' <= s[i] <= 'Z')
    ensures Lower(s) == s
  {
  }

  /** The kind string `emit` computes: `event.value` when the event has that
      attribute, otherwise `str(event).lower()`; `None` when `str` raises. */
  function KindString(e: EventObj): (r: Option<string>)
    ensures e.valueAttr.Some? ==> r == e.valueAttr
    ensures e.valueAttr.None? ==> (r.None? <==> e.text.None?)
    ensures e.valueAttr.None? && e.text.Some? ==> r == Some(Lower(e.text.value))
    ensures e.valueAttr.None? && r.Some? ==> |r.value| == |e.text.value| && Lower(r.value) == r.value
  {
    if e.valueAttr.Some? then e.valueAttr
    else if e.text.None? then None
    else
      LowerIdempotent(e.text.value);
      Some(Lower(e.text.value))
  }

  /** What `emit` does with a record before any session is opened. */
  datatype Resolution =
    | Drop                     // no event, a falsy event, or an unregistered kind
    | Unprintable              // `str(event)` raised: reported through `handleError(record)`
    | Dispatch(kind: EventKind)

  /** A record is dispatched to kind `k` exactly when its event is present,
      truthy and its kind string is `k`'s key. */
  function Resolve(event: Option<EventObj>): (r: Resolution)
    ensures event.None? || !event.value.truthy ==> r == Drop
    ensures r.Dispatch? ==> event.Some? && event.value.truthy && KindString(event.value) == Some(Key(r.kind))
    ensures forall k :: event.Some? && event.value.truthy && KindString(event.value) == Some(Key(k)) ==> r == Dispatch(k)
    ensures r == Unprintable <==> event.Some? && event.value.truthy && KindString(event.value).None?
  {
    if event.None? || !event.value.truthy then Drop
    else
      match KindString(event.value)
      case None => Unprintable
      case Some(kind) =>
        match Lookup(kind)
        case None => Drop
        case Some(k) => Dispatch(k)
  }

  /** A truthy event without `.value` is dispatched to kind `k` exactly when
      its string, lower-cased, is `k`'s key; in particular the key itself, in
      any letter case, dispatches to `k`. An event whose `.value` is the key
      dispatches to `k` whatever its string form. */
  lemma CaseInsensitiveDispatch(s: string, k: EventKind, text: Option<string>)
    ensures Resolve(Some(EventObj(true, None, Some(s)))) == Dispatch(k) <==> Lower(s) == Key(k)
    ensures Resolve(Some(EventObj(true, None, Some(Key(k))))) == Dispatch(k)
    ensures Resolve(Some(EventObj(true, Some(Key(k)), text))) == Dispatch(k)
  {
    KeysAreLowerCase(k);
  }

  // ---------------------------------------------------------------------
  // Run-context, handlers, error reports

  /** The run-context dict shared by all handlers. */
  datatype Context = Context(currentWorkflowId: Option<Uuid>, dryrun: bool)

  /** The context a new dispatcher starts with. */
  function InitialContext(settingsDryrun: bool): (r: Context)
    ensures r.currentWorkflowId.None? && r.dryrun == settingsDryrun
  {
    Context(None, settingsDryrun)
  }

  /** What a per-kind handler does to the session's working copy and to the
      context: it returns, or raises with a message after having staged
      `db` and left the context as `ctx`. */
  datatype HandlerResult =
    | Done(db: Db, ctx: Context)
    | Raised(db: Db, ctx: Context, message: string)

  /** A per-kind handler's `handle(record, session, context)`. */
  type HandlerFn = (LogRecord, Db, Context) -> HandlerResult

  /** The instances registered for the nine kinds. */
  type HandlerTable = EventKind -> HandlerFn

  /** An entry of the error channel `handleError`: either a record the
      dispatcher builds itself (logger `SQLiteLogHandler`, level ERROR) with
      message `msg`, or the original record being emitted. */
  datatype Report = Synthesized(msg: string) | Original(record: LogRecord)

  const DatabaseErrorPrefix: string := "Database error: "
  const CloseErrorPrefix: string := "Error closing workflow: "

  /** How the database answers the commit and the rollback of one scope. */
  datatype DbResponse = DbResponse(commit: Outcome, rollback: Outcome)

  // ---------------------------------------------------------------------
  // Close-time reconciliation

  /** The status update `close` makes in its session: a missing row is left
      alone, an ERROR row is left entirely untouched, any other row becomes
      SUCCESS ending at `now`; nothing else changes. */
  function Reconcile(db: Db, id: Uuid, now: Timestamp): (r: Db)
    ensures r.rules == db.rules && r.errors == db.errors
    ensures r.workflows.Keys == db.workflows.Keys
    ensures forall w :: w in db.workflows && w != id ==> r.workflows[w] == db.workflows[w]
    ensures id !in db.workflows ==> r == db
    ensures id in db.workflows && db.workflows[id].status == Error ==> r == db
    ensures id in db.workflows && db.workflows[id].status != Error ==>
      r.workflows[id] == db.workflows[id].(status := Success, endTime := Some(now))
    ensures id in r.workflows ==> r.workflows[id].status in {Success, Error}
  {
    if id in db.workflows && db.workflows[id].status != Error then
      db.(workflows := db.workflows[id := db.workflows[id].(status := Success, endTime := Some(now))])
    else db
  }

  // ---------------------------------------------------------------------
  // The dispatcher's observable state and one step per operation

  /** Everything the dispatcher can change: the committed database, the
      context, the error channel, and whether the base `close` has run. */
  datatype HandlerState = HandlerState(store: Db, context: Context, errors: seq<Report>, closed: bool)

  /** The body run inside a session scope: a handler, or the close-time
      lookup and update (`lookup` is how the database answers the query). */
  datatype Body =
    | RunHandler(handler: HandlerFn, record: LogRecord)
    | ReconcileWorkflow(id: Uuid, now: Timestamp, lookup: Outcome)

  function RunBody(body: Body, db: Db, ctx: Context): HandlerResult {
    match body
    case RunHandler(h, record) => h(record, db, ctx)
    case ReconcileWorkflow(id, now, lookup) =>
      if lookup.Fail? then Raised(db, ctx, lookup.message) else Done(Reconcile(db, id, now), ctx)
  }

  /** A session scope's effect, and the message of the exception that escapes
      it (only a failing rollback escapes). */
  datatype ScopeResult = ScopeResult(state: HandlerState, escaped: Option<string>)

  /** `session_scope`: the body's changes are committed when it and the commit
      succeed; otherwise the committed store is exactly as before and one
      "Database error" report is made, unless the rollback itself raises, in
      which case that exception escapes and nothing is reported here. The
      context keeps whatever the body did to it on every path. */
  function ScopeStep(s: HandlerState, body: Body, io: DbResponse): (r: ScopeResult)
    ensures r.state.context == RunBody(body, s.store, s.context).ctx
    ensures r.state.closed == s.closed
    ensures RunBody(body, s.store, s.context).Done? && io.commit.Ok? ==>
      r.state.store == RunBody(body, s.store, s.context).db && r.state.errors == s.errors && r.escaped.None?
    ensures !(RunBody(body, s.store, s.context).Done? && io.commit.Ok?) ==>
      && r.state.store == s.store
      && (r.escaped.None? <==> io.rollback.Ok?)
      && (io.rollback.Ok? ==> r.state.errors == s.errors + [Synthesized(DatabaseErrorPrefix + FailureMessage(RunBody(body, s.store, s.context), io))])
      && (io.rollback.Fail? ==> r.state.errors == s.errors && r.escaped == Some(io.rollback.message))
  {
    var res := RunBody(body, s.store, s.context);
    var s1 := s.(context := res.ctx);
    if res.Done? && io.commit.Ok? then ScopeResult(s1.(store := res.db), None)
    else if io.rollback.Ok? then
      ScopeResult(s1.(errors := s.errors + [Synthesized(DatabaseErrorPrefix + FailureMessage(res, io))]), None)
    else ScopeResult(s1, Some(io.rollback.message))
  }

  /** The message of the exception that sent a scope to its rollback: the
      body's own, or the commit's. */
  function FailureMessage(res: HandlerResult, io: DbResponse): string {
    if res.Raised? then res.message else if io.commit.Fail? then io.commit.message else ""
  }

  /** `emit`: drop the record, report it, or run exactly its kind's handler
      once in one scope with the shared context. It never raises: an
      exception escaping the scope becomes one report of the record. */
  function EmitStep(table: HandlerTable, s: HandlerState, record: LogRecord, io: DbResponse): (r: HandlerState)
    ensures Resolve(record.event) == Drop ==> r == s
    ensures Resolve(record.event) == Unprintable ==> r == s.(errors := s.errors + [Original(record)])
    ensures r.closed == s.closed
    ensures s.errors <= r.errors && |r.errors| <= |s.errors| + 1
    ensures Resolve(record.event).Dispatch? ==>
      var res := table(Resolve(record.event).kind)(record, s.store, s.context);
      && r.context == res.ctx
      && (res.Done? && io.commit.Ok? ==> r.store == res.db && r.errors == s.errors)
      && (!(res.Done? && io.commit.Ok?) ==> r.store == s.store && |r.errors| == |s.errors| + 1)
    ensures !Resolve(record.event).Dispatch? ==> r.store == s.store && r.context == s.context
  {
    match Resolve(record.event)
    case Drop => s
    case Unprintable => s.(errors := s.errors + [Original(record)])
    case Dispatch(k) =>
      var sr := ScopeStep(s, RunHandler(table(k), record), io);
      if sr.escaped.Some? then sr.state.(errors := sr.state.errors + [Original(record)]) else sr.state
  }

  /** `close`: with a current workflow id, one scope reconciles that row
      (an exception escaping it is reported as "Error closing workflow");
      without one, no session is opened. The base `close` always runs. */
  function CloseStep(s: HandlerState, now: Timestamp, lookup: Outcome, io: DbResponse): (r: HandlerState)
    ensures r.closed && r.context == s.context
    ensures s.context.currentWorkflowId.None? ==> r == s.(closed := true)
    ensures s.errors <= r.errors && |r.errors| <= |s.errors| + 1
    ensures s.context.currentWorkflowId.Some? && lookup.Ok? && io.commit.Ok? ==>
      r.store == Reconcile(s.store, s.context.currentWorkflowId.value, now) && r.errors == s.errors
    ensures s.context.currentWorkflowId.Some? && !(lookup.Ok? && io.commit.Ok?) ==>
      && r.store == s.store
      && |r.errors| == |s.errors| + 1
      && (io.rollback.Ok? ==>
            r.errors[|s.errors|] == Synthesized(DatabaseErrorPrefix + (if lookup.Fail? then lookup.message else io.commit.message)))
      && (io.rollback.Fail? ==> r.errors[|s.errors|] == Synthesized(CloseErrorPrefix + io.rollback.message))
    ensures forall w :: w in s.store.workflows && s.store.workflows[w].status == Error ==>
      w in r.store.workflows && r.store.workflows[w] == s.store.workflows[w]
    ensures forall w :: w in s.store.workflows && s.context.currentWorkflowId != Some(w) ==>
      w in r.store.workflows && r.store.workflows[w] == s.store.workflows[w]
  {
    match s.context.currentWorkflowId
    case None => s.(closed := true)
    case Some(id) =>
      var sr := ScopeStep(s, ReconcileWorkflow(id, now, lookup), io);
      var s2 := if sr.escaped.Some? then sr.state.(errors := sr.state.errors + [Synthesized(CloseErrorPrefix + sr.escaped.value)]) else sr.state;
      s2.(closed := true)
  }

  // ---------------------------------------------------------------------
  // The handler object

  class SQLiteLogHandler {
    const manager: DatabaseManager
    const handlers: HandlerTable
    var context: Context
    var errorLog: seq<Report>
    var closed: bool

    ghost predicate Valid()
      reads this, manager, manager.issued
    {
      manager.Valid()
    }

    /** The dispatcher's observable state. */
    function State(): HandlerState
      reads this, manager.engine.storage
    {
      HandlerState(manager.engine.storage.committed, context, errorLog, closed)
    }

    /** `__init__`: a database manager on the resolved path, the nine
        handlers, and a context with no current workflow. `file` stands for
        the database found at that path. */
    constructor (settingsDryrun: bool, dbPath: Option<string>, cwd: string, file: Storage, handlers: HandlerTable)
      ensures Valid() && fresh(manager) && manager.issued == []
      ensures manager.engine.url == ConnectionUrl(ResolveDbPath(dbPath, cwd))
      ensures manager.engine.storage == file
      ensures this.handlers == handlers
      ensures context == InitialContext(settingsDryrun)
      ensures errorLog == [] && !closed
    {
      manager := new DatabaseManager(dbPath, cwd, file);
      this.handlers := handlers;
      context := InitialContext(settingsDryrun);
      errorLog := [];
      closed := false;
    }

    /** `handleError`: one entry appended to the error channel. */
    method HandleError(report: Report)
      modifies this
      ensures errorLog == old(errorLog) + [report]
      ensures context == old(context) && closed == old(closed)
    {
      errorLog := errorLog + [report];
    }

    /** `session_scope` with `body` run inside it. */
    method SessionScope(body: Body, io: DbResponse) returns (escaped: Option<string>)
      requires Valid()
      modifies this, manager, manager.engine.storage
      ensures Valid()
      ensures State() == ScopeStep(old(State()), body, io).state
      ensures escaped == ScopeStep(old(State()), body, io).escaped
      ensures |manager.issued| == |old(manager.issued)| + 1
      ensures manager.issued[..|old(manager.issued)|] == old(manager.issued)
    {
      var session := manager.GetSession();
      var res := RunBody(body, session.staged, context);
      context := res.ctx;
      session.Stage(res.db);
      escaped := None;
      var failure: Option<string> := None;
      if res.Done? {
        var c := session.Commit(io.commit);
        if c.Fail? {
          failure := Some(c.message);
        }
      } else {
        failure := Some(res.message);
      }
      if failure.Some? {
        var rb := session.Rollback(io.rollback);
        if rb.Ok? {
          HandleError(Synthesized(DatabaseErrorPrefix + failure.value));
        } else {
          escaped := Some(rb.message);
        }
      }
      session.Close();
    }

    /** `emit(record)`. */
    method Emit(record: LogRecord, io: DbResponse)
      requires Valid()
      modifies this, manager, manager.engine.storage
      ensures Valid()
      ensures State() == EmitStep(handlers, old(State()), record, io)
      ensures !Resolve(record.event).Dispatch? ==> manager.issued == old(manager.issued)
      ensures Resolve(record.event).Dispatch? ==>
        |manager.issued| == |old(manager.issued)| + 1 && manager.issued[..|old(manager.issued)|] == old(manager.issued)
    {
      var event := record.event;
      if event.None? || !event.value.truthy {
        return;
      }
      var kind: string;
      if event.value.valueAttr.Some? {
        kind := event.value.valueAttr.value;
      } else if event.value.text.None? {
        HandleError(Original(record));
        return;
      } else {
        kind := Lower(event.value.text.value);
      }
      var registered := Lookup(kind);
      if registered.None? {
        return;
      }
      var escaped := SessionScope(RunHandler(handlers(registered.value), record), io);
      if escaped.Some? {
        HandleError(Original(record));
      }
    }

    /** `close()` at time `now`. */
    method Close(now: Timestamp, lookup: Outcome, io: DbResponse)
      requires Valid()
      modifies this, manager, manager.engine.storage
      ensures Valid()
      ensures State() == CloseStep(old(State()), now, lookup, io)
      ensures old(context).currentWorkflowId.None? ==> manager.issued == old(manager.issued)
      ensures old(context).currentWorkflowId.Some? ==>
        |manager.issued| == |old(manager.issued)| + 1 && manager.issued[..|old(manager.issued)|] == old(manager.issued)
    {
      if context.currentWorkflowId.Some? {
        var escaped := SessionScope(ReconcileWorkflow(context.currentWorkflowId.value, now, lookup), io);
        if escaped.Some? {
          HandleError(Synthesized(CloseErrorPrefix + escaped.value));
        }
      }
      closed := true;
    }
  }
}
