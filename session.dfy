/** The database manager (db/session.py): where the database file lives, the
    connection URL, the one engine, and a fresh session per request. */
module Sessions {
  import opened Wrappers
  import opened Workflows

  /** `dir` as a directory prefix: followed by a separator unless it is empty
      or already ends in one. */
  function DirPrefix(dir: string): (r: string)
    ensures dir <= r && |r| <= |dir| + 1
    ensures r == [] || r[|r| - 1] == '/'
  {
    if dir == [] || dir[|dir| - 1] == '/' then dir else dir + "/"
  }

  /** `os.path.join(a, b)` on POSIX: an absolute `b` replaces `a`; otherwise
      a separator is inserted unless `a` is empty or already ends in one. */
  function JoinPath(a: string, b: string): (r: string)
    ensures |b| > 0 && b[0] == '/' ==> r == b
    ensures !(|b| > 0 && b[0] == '/') ==> r == DirPrefix(a) + b
  {
    if |b| > 0 && b[0] == '/' then b
    else if a == [] || a[|a| - 1] == '/' then a + b
    else a + "/" + b
  }

  const DefaultTail: string := ".snakemake/log/snakemake.log.db"

  /** The directory prefix of `dir + seg` when `seg` is a plain name. */
  lemma DirPrefixOfName(dir: string, seg: string)
    requires |seg| > 0 && seg[|seg| - 1] != '/'
    ensures DirPrefix(dir + seg) == dir + (seg + "/")
  {
    assert (dir + seg)[|dir + seg| - 1] == seg[|seg| - 1];
  }

  /** Joining two plain names onto `dir` puts one separator between them. */
  lemma JoinNames(dir: string, x: string, y: string)
    requires |x| > 0 && x[0] != '/' && x[|x| - 1] != '/'
    requires |y| > 0 && y[0] != '/'
    ensures JoinPath(JoinPath(dir, x), y) == DirPrefix(dir) + (x + "/" + y)
  {
    var d := DirPrefix(dir);
    DirPrefixOfName(d, x);
    assert (d + (x + "/")) + y == d + (x + "/" + y);
  }

  /** Joining three plain names onto `dir` puts one separator between each. */
  lemma JoinThreeNames(dir: string, x: string, y: string, z: string)
    requires |x| > 0 && x[0] != '/' && x[|x| - 1] != '/'
    requires |y| > 0 && y[0] != '/' && y[|y| - 1] != '/'
    requires |z| > 0 && z[0] != '/'
    ensures JoinPath(JoinPath(JoinPath(dir, x), y), z) == DirPrefix(dir) + (x + "/" + y + "/" + z)
  {
    var d := DirPrefix(dir);
    var w := x + "/" + y;
    JoinNames(dir, x, y);
    assert w[|w| - 1] == y[|y| - 1];
    DirPrefixOfName(d, w);
    assert (d + (w + "/")) + z == d + (x + "/" + y + "/" + z);
  }

  /** The three joins of the default path, in closed form. */
  lemma JoinDefaultTail(cwd: string)
    ensures JoinPath(JoinPath(JoinPath(cwd, ".snakemake"), "log"), "snakemake.log.db") == DirPrefix(cwd) + DefaultTail
  {
    assert JoinPath(JoinPath(JoinPath(cwd, ".snakemake"), "log"), "snakemake.log.db")
        == DirPrefix(cwd) + (".snakemake" + "/" + "log" + "/" + "snakemake.log.db") by {
      JoinThreeNames(cwd, ".snakemake", "log", "snakemake.log.db");
    }
    DefaultTailSpelled();
  }

  lemma DefaultTailSpelled()
    ensures ".snakemake" + "/" + "log" + "/" + "snakemake.log.db" == DefaultTail
  {
  }

  /** The default database file: `<cwd>/.snakemake/log/snakemake.log.db`. */
  function DefaultDbPath(cwd: string): (r: string)
    ensures r == DirPrefix(cwd) + DefaultTail
    ensures cwd <= r && r[|r| - |DefaultTail|..] == DefaultTail
  {
    JoinDefaultTail(cwd);
    JoinPath(JoinPath(JoinPath(cwd, ".snakemake"), "log"), "snakemake.log.db")
  }

  /** The path the manager opens: the supplied one, unchanged (even when it
      is empty), or the default under the working directory when it is `None`. */
  function ResolveDbPath(dbPath: Option<string>, cwd: string): (r: string)
    ensures dbPath.Some? ==> r == dbPath.value
    ensures dbPath.None? ==> r == DirPrefix(cwd) + DefaultTail
  {
    match dbPath
    case Some(p) => p
    case None => DefaultDbPath(cwd)
  }

  const SqliteScheme: string := "sqlite:///"

  /** The SQLAlchemy connection URL for a SQLite file at `path`: the scheme
      followed by the path, character for character. */
  function ConnectionUrl(path: string): (r: string)
    ensures SqliteScheme <= r && |r| == |SqliteScheme| + |path|
    ensures r[|SqliteScheme|..] == path
  {
    SqliteScheme + path
  }

  /** Two different paths never give the same URL. */
  lemma ConnectionUrlInjective(p: string, q: string)
    ensures ConnectionUrl(p) == ConnectionUrl(q) ==> p == q
  {
    if ConnectionUrl(p) == ConnectionUrl(q) {
      assert p == ConnectionUrl(p)[|SqliteScheme|..];
    }
  }

  /** The database file: what has been committed to it. */
  class Storage {
    var committed: Db

    constructor (initial: Db)
      ensures committed == initial
    {
      committed := initial;
    }
  }

  /** What `create_engine(url)` returns: bound to one URL and so to one file. */
  class Engine {
    const url: string
    const storage: Storage

    constructor (url: string, storage: Storage)
      ensures this.url == url && this.storage == storage
    {
      this.url := url;
      this.storage := storage;
    }
  }

  /** The options given to `sessionmaker`. */
  datatype SessionConfig = SessionConfig(autocommit: bool, autoflush: bool)

  /** A session: a working copy of the database. With autocommit and
      autoflush off nothing it stages reaches the file before `Commit`. */
  class Session {
    const engine: Engine
    const config: SessionConfig
    var staged: Db
    var isOpen: bool

    constructor (engine: Engine, config: SessionConfig)
      ensures this.engine == engine && this.config == config
      ensures staged == engine.storage.committed && isOpen
    {
      this.engine := engine;
      this.config := config;
      staged := engine.storage.committed;
      isOpen := true;
    }

    /** The changes a unit of work makes to its objects; the file is untouched. */
    method Stage(db: Db)
      requires isOpen
      modifies this
      ensures staged == db && isOpen
    {
      staged := db;
    }

    /** `session.commit()`: on success the staged copy becomes the file's
        contents; a commit that raises leaves the file as it was. */
    method Commit(response: Outcome) returns (r: Outcome)
      requires isOpen
      modifies engine.storage
      ensures r == response
      ensures engine.storage.committed == if response.Ok? then staged else old(engine.storage.committed)
    {
      r := response;
      if response.Ok? {
        engine.storage.committed := staged;
      }
    }

    /** `session.rollback()`: on success the staged changes are discarded. */
    method Rollback(response: Outcome) returns (r: Outcome)
      requires isOpen
      modifies this
      ensures r == response && isOpen
      ensures staged == if response.Ok? then engine.storage.committed else old(staged)
    {
      r := response;
      if response.Ok? {
        staged := engine.storage.committed;
      }
    }

    /** `session.close()`: releases the session; anything uncommitted is lost. */
    method Close()
      modifies this
      ensures !isOpen && staged == engine.storage.committed
    {
      staged := engine.storage.committed;
      isOpen := false;
    }
  }

  /** `DatabaseManager`: one engine for its lifetime and a session factory
      bound to it. `issued` records every session handed out. */
  class DatabaseManager {
    const engine: Engine
    const sessionLocal: SessionConfig
    ghost var issued: seq<Session>

    /** Every session handed out is bound to this manager's engine and has
        been closed again. */
    ghost predicate Valid()
      reads this, issued
    {
      forall i :: 0 <= i < |issued| ==> issued[i].engine == engine && !issued[i].isOpen
    }

    /** `file` stands for the database file found at the resolved path. */
    constructor (dbPath: Option<string>, cwd: string, file: Storage)
      ensures engine.url == ConnectionUrl(ResolveDbPath(dbPath, cwd))
      ensures engine.storage == file && fresh(engine)
      ensures sessionLocal == SessionConfig(false, false)
      ensures issued == [] && Valid()
    {
      engine := new Engine(ConnectionUrl(ResolveDbPath(dbPath, cwd)), file);
      sessionLocal := SessionConfig(false, false);
      issued := [];
    }

    /** `get_session()`: a new, open session on the one engine, seeing the
        committed contents of the file. */
    method GetSession() returns (s: Session)
      modifies this
      ensures fresh(s) && s.engine == engine && s.config == sessionLocal
      ensures s.isOpen && s.staged == engine.storage.committed
      ensures issued == old(issued) + [s]
    {
      s := new Session(engine, sessionLocal);
      issued := issued + [s];
    }
  }
}
