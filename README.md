# snakemake-logger-plugin-sqlite: the event dispatcher, in Dafny

This project models the core of the SQLite logger plugin for Snakemake:
`SQLiteLogHandler`, the logging handler that receives Snakemake's log
records, resolves each record's `event` attribute to one of nine per-kind
persistence handlers, runs that handler inside a transactional session scope,
and on `close` marks the current workflow as SUCCESS unless it already
failed. Beneath it sit the `Workflow` row type and the `DatabaseManager`
that owns the engine and hands out sessions.

Files and modules:

- `wrappers.dfy` (`Wrappers`): `Option`, and `Outcome` for a database call that returns or raises.
- `workflow.dfy` (`Workflows`): the `Workflow` row, the `Status` values the dispatcher names, the database as three tables (`workflows`, `rules`, `errors`), INSERT with the column defaults and NOT NULL / primary-key checks, cascade delete and delete-orphan.
- `session.dfy` (`Sessions`): the default database path (POSIX `os.path.join`), the `sqlite:///` URL, and the classes `Storage` (the committed file contents), `Engine`, `Session` (a working copy with stage / commit / rollback / close) and `DatabaseManager` (one engine, a fresh session per `get_session`).
- `handler.dfy` (`Handler`): event kinds and the dispatch table, event resolution, the run-context, the error channel, one pure step function per operation (`ScopeStep`, `EmitStep`, `CloseStep`) and the class `SQLiteLogHandler` whose methods `SessionScope`, `Emit` and `Close` are proved to change the state exactly as those functions say.
- `properties.dfy` (`HandlerProperties`): properties of whole runs (many emits, then close).

How the outside world enters the model:

- The per-kind handlers are opaque function values `(record, staged db, context) -> Done(db, context) | Raised(db, context, message)`. `Raised` carries the context as the handler left it, because the context is a dict mutated in place and is not rolled back.
- How the database answers a commit, a rollback and the close-time lookup is a parameter (`Outcome`): `Ok`, or `Fail(message)` for an exception whose `str(e)` is `message`.
- The wall clock (`datetime.utcnow()` in `close`) is the parameter `now`; `os.getcwd()` is the parameter `cwd`; the database file at the resolved path is the `Storage` object passed to the constructor.
- `handleError` appends to the error channel `errorLog`: either a record the handler builds itself ("Database error: ..." / "Error closing workflow: ...") or the original record.
- An event object is described by whether it is truthy, its `.value` (if it has one) and `str(event)` (`None` when `str` raises). The nine registered keys are the lower-case `LogEvent` values of the interface package; that package is not part of this model.

Behaviour of the code worth knowing:

- `close` protects only ERROR. A second `close` with the same workflow id keeps SUCCESS but moves `end_time` to the new time (`HandlerProperties.CloseAgainMovesEndTime`).
- When an exception escapes the session scope, `emit` passes the original record to `handleError` (`Report.Original`).
- The context is not restored on rollback. A handler that sets `current_workflow_id` and then raises leaves a dangling id behind (`HandlerProperties.DanglingWorkflowId`).

## Model

| member | source | states |
|---|---|---|
| `Handler.Lookup` | src/snakemake_logger_plugin_sqlite/handler.py:51-61 | the table maps each of the nine keys to its own kind and nothing else: a found kind has that key, and every kind is found under its key |
| `Handler.Lower` | src/snakemake_logger_plugin_sqlite/handler.py:103 | `str.lower()` keeps the length, lowers each character, and leaves no upper-case letter |
| `Handler.LowerIdempotent` | src/snakemake_logger_plugin_sqlite/handler.py:103 | lowering twice is lowering once |
| `Handler.KeysAreLowerCase` | src/snakemake_logger_plugin_sqlite/handler.py:51-61 | every registered key is its own lower-case form |
| `Handler.KindString` | src/snakemake_logger_plugin_sqlite/handler.py:103 | the kind is `event.value` when present, otherwise exactly `Lower(str(event))`; absent exactly when `str` raises |
| `Handler.CaseInsensitiveDispatch` | src/snakemake_logger_plugin_sqlite/handler.py:103-105 | a truthy event without `.value` dispatches to kind k exactly when its lower-cased string is k's key, so the key in any letter case dispatches to k; an event whose `.value` is the key dispatches to k |
| `Handler.Resolve` | src/snakemake_logger_plugin_sqlite/handler.py:98-107 | a missing or falsy event is dropped; a record is dispatched to kind k exactly when its kind string is k's key; an unregistered kind is dropped; an unprintable event is reported |
| `Handler.InitialContext` | src/snakemake_logger_plugin_sqlite/handler.py:63-66 | the context starts with no current workflow id and the settings' dry-run flag |
| `Handler.Reconcile` | src/snakemake_logger_plugin_sqlite/handler.py:121-126 | a missing row and an ERROR row are left untouched; any other row becomes SUCCESS with `end_time = now`; no other row or table changes; the row ends in a terminal status |
| `Handler.ScopeStep` | src/snakemake_logger_plugin_sqlite/handler.py:68-89 | on success of body and commit the staged changes become the store; otherwise the store is exactly as before and one "Database error" report is appended, unless the rollback raises, in which case that exception escapes; the context keeps the body's changes on every path |
| `Handler.EmitStep` | src/snakemake_logger_plugin_sqlite/handler.py:91-113 | a dropped record changes nothing; exactly the kind's handler runs with the shared context; a failed event leaves the store as it was and adds exactly one report; the error channel only grows, by at most one |
| `Handler.CloseStep` | src/snakemake_logger_plugin_sqlite/handler.py:115-140 | without a current id nothing but the base close happens; after a successful lookup and commit the store is the reconciled one and nothing is reported; otherwise the store is unchanged and exactly one report is added: "Database error: ..." with the lookup's or commit's message, or "Error closing workflow: ..." with the rollback's message when the rollback raises; an ERROR row and every other row are never changed; the base close always runs |
| `Handler.SQLiteLogHandler.constructor` | src/snakemake_logger_plugin_sqlite/handler.py:35-66 | one manager on the resolved path and URL, the given handler table, the initial context, an empty error channel |
| `Handler.SQLiteLogHandler.HandleError` | src/snakemake_logger_plugin_sqlite/handler.py:77-87 | one report appended to the error channel, nothing else changed |
| `Handler.SQLiteLogHandler.SessionScope` | src/snakemake_logger_plugin_sqlite/handler.py:68-89 | opens exactly one session, closes it on every path, and changes the state exactly as `ScopeStep` |
| `Handler.SQLiteLogHandler.Emit` | src/snakemake_logger_plugin_sqlite/handler.py:91-113 | changes the state exactly as `EmitStep`; opens exactly one session for a dispatched record and none otherwise; never raises |
| `Handler.SQLiteLogHandler.Close` | src/snakemake_logger_plugin_sqlite/handler.py:115-140 | changes the state exactly as `CloseStep`; opens one session when there is a current workflow id and none otherwise |
| `HandlerProperties.DroppedRunIsNoOp` | src/snakemake_logger_plugin_sqlite/handler.py:98-107 | a run of records that are all dropped leaves store, context and error channel unchanged |
| `HandlerProperties.RunErrorsOnlyGrow` | src/snakemake_logger_plugin_sqlite/handler.py:97-113 | over any run the error channel is append-only, grows by at most one entry per record, and the handler stays open |
| `HandlerProperties.EmitKeepsError` | src/snakemake_logger_plugin_sqlite/handler.py:109-110 | one emit keeps an ERROR workflow at ERROR when no handler moves it out of ERROR |
| `HandlerProperties.ErrorSurvivesRunAndClose` | src/snakemake_logger_plugin_sqlite/handler.py:124-126 | if no handler leaves ERROR, a failed workflow is still ERROR after any run and after close |
| `HandlerProperties.CloseMarksSuccess` | src/snakemake_logger_plugin_sqlite/handler.py:118-126 | a successful close of a workflow that has not failed records SUCCESS ending at `now` and adds no report |
| `HandlerProperties.DanglingWorkflowId` | src/snakemake_logger_plugin_sqlite/handler.py:72-126 | a handler that sets the workflow id and raises leaves the id in the context and its row rolled back; the later close leaves the store unchanged |
| `HandlerProperties.CloseAgainMovesEndTime` | src/snakemake_logger_plugin_sqlite/handler.py:124-126 | a second close keeps SUCCESS but overwrites `end_time` with the new time |
| `Workflows.Insert` | src/snakemake_logger_plugin_sqlite/models/workflow.py:15-26 | an INSERT without id or dryrun, or with an id already present, is refused; otherwise exactly that row is added, status defaults to UNKNOWN, `started_at` to the class-definition instant whatever the moment of the insert, optional columns as supplied; nothing else changes |
| `Workflows.InsertIgnoresClock` | src/snakemake_logger_plugin_sqlite/models/workflow.py:19 | as written, the moment of the insert has no influence on the inserted row |
| `Workflows.InsertKeepsInvariants` | src/snakemake_logger_plugin_sqlite/models/workflow.py:17 | an INSERT keeps every row under its own primary key and every foreign key valid |
| `Workflows.SharedStartDefault` | src/snakemake_logger_plugin_sqlite/models/workflow.py:19 | two rows inserted at moments `t1 < t2` after the class definition, without a start time, get the same `started_at`, which is neither moment and differs from what the per-row default records |
| `Workflows.InsertAt` | src/snakemake_logger_plugin_sqlite/models/workflow.py:19 | with a per-row clock default an unsupplied `started_at` is the insertion time |
| `Workflows.PerRowStartDefault` | src/snakemake_logger_plugin_sqlite/models/workflow.py:19 | with the per-row default, two rows inserted at `t1 < t2` start at `t1` and `t2` |
| `Workflows.DeleteWorkflow` | src/snakemake_logger_plugin_sqlite/models/workflow.py:27-38 | deleting a workflow deletes exactly its rules and errors and nothing else |
| `Workflows.DeleteKeepsInvariants` | src/snakemake_logger_plugin_sqlite/models/workflow.py:27-38 | cascade delete leaves no orphan, and other workflows keep exactly their children |
| `Workflows.RemoveRule` | src/snakemake_logger_plugin_sqlite/models/workflow.py:27-32 | removing a rule from the collection deletes the row (delete-orphan); nothing else changes; foreign keys stay valid |
| `Workflows.RemoveError` | src/snakemake_logger_plugin_sqlite/models/workflow.py:33-38 | removing an error from the collection deletes the row; nothing else changes; foreign keys stay valid |
| `Sessions.JoinPath` | src/snakemake_logger_plugin_sqlite/db/session.py:10 | POSIX `os.path.join`: an absolute component replaces the path, otherwise exactly one separator joins them |
| `Sessions.DefaultDbPath` | src/snakemake_logger_plugin_sqlite/db/session.py:9-10 | the default is `cwd` followed by `/.snakemake/log/snakemake.log.db` (no doubled separator) |
| `Sessions.ResolveDbPath` | src/snakemake_logger_plugin_sqlite/db/session.py:9-12 | a supplied path is used unchanged; `None` gives the default under `cwd` |
| `Sessions.ConnectionUrl` | src/snakemake_logger_plugin_sqlite/db/session.py:12 | the URL is `sqlite:///` followed by the path, character for character |
| `Sessions.ConnectionUrlInjective` | src/snakemake_logger_plugin_sqlite/db/session.py:12 | different paths give different URLs |
| `Sessions.Session.Stage` | src/snakemake_logger_plugin_sqlite/db/session.py:13-15 | staged changes touch only the session, never the file |
| `Sessions.Session.Commit` | src/snakemake_logger_plugin_sqlite/handler.py:74 | a successful commit makes the staged copy the file contents; a failed one leaves the file unchanged |
| `Sessions.Session.Rollback` | src/snakemake_logger_plugin_sqlite/handler.py:76 | a successful rollback discards the staged changes; the file is never touched |
| `Sessions.Session.Close` | src/snakemake_logger_plugin_sqlite/handler.py:89 | the session is closed and uncommitted changes are gone |
| `Sessions.DatabaseManager.constructor` | src/snakemake_logger_plugin_sqlite/db/session.py:8-15 | one fresh engine on the URL of the resolved path; sessions configured with autocommit and autoflush off |
| `Sessions.DatabaseManager.GetSession` | src/snakemake_logger_plugin_sqlite/db/session.py:17-18 | each call returns a new open session bound to the one engine and seeing the committed contents |

## Findings

| source | as written | input that shows it | evidently intended | confidence | as-written member | corrected member |
|---|---|---|---|---|---|---|
| src/snakemake_logger_plugin_sqlite/models/workflow.py:19 | `default=datetime.utcnow()` calls the clock once, when the class body runs | two workflows inserted at `t1 < t2` without `started_at` both get the import-time instant | `default=datetime.utcnow`, so each row gets its own insertion time | not executed; medium, since the workflow-started handler (not part of this model) may always supply `started_at` | `Workflows.SharedStartDefault` | `Workflows.PerRowStartDefault` |

## Left out

- The per-kind handlers (`events` module) and the parsers: they are opaque, possibly failing functions. Their inserts and updates are not modelled.
- `Base.metadata.create_all` (handler.py:49): the modelled database always has its three tables.
- SQLAlchemy internals: the ORM identity map, `query(...).get`, SQL text and locking. A session is a working copy of the whole database.
- JSON encoding of `rulegraph_data`: the column holds the structured `Json` value itself, so it reads back unchanged. The encoder and decoder belong to the database library. JSON numbers are integers here.
- `Status` members other than UNKNOWN, SUCCESS and ERROR are `OtherStatus` with a name different from those three; `models/enums` is not part of this model.
- Sessions.ConnectionUrl: what SQLAlchemy makes of the URL is not modelled. A `?` in the path would start a query string, and an empty path would open an in-memory database instead of a file.
- `models/rule.py` and `models/error.py` are not part of this model. Their rows keep only the workflow foreign key and a name or message.
- Handler.Lower: models `str.lower()` on ASCII letters only; Unicode case mapping is not modelled.
- Handler.KindString: a non-string `.value` is not modelled. Neither is an event whose truth test raises.
- Exceptions from `get_session`, `session.close()` and `handleError` itself are not modelled. Of the session machinery, only a failing rollback lets an exception escape a scope.
- The base `logging.Handler` (level filtering, locks, formatting, `raiseExceptions`): `handleError` is an append to the error channel and the base `close` is the `closed` flag.
- Keys other than `current_workflow_id` and `dryrun` that handlers might add to the context.
- `os.path.join` on Windows paths.
- The debug console handler (debug_handler.py): its only effect is terminal output.
