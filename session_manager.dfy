/**
 * `DatabaseSessionManager` of `backend/api/core/base.py`: two nullable
 * handles, set by `init` and cleared by `close`, and guards that raise
 * `RuntimeError` while they are unset. The engine and the session factory
 * are opaque values here.
 */
module SessionManager {
  import opened Wrappers
  import opened Errors

  const NotInitialised := "DatabaseSessionManager is not initialized."

  /** An engine created for a connection string. */
  datatype AsyncEngine = AsyncEngine(url: string)

  /** A session factory bound to an engine. */
  datatype AsyncSessionmaker = AsyncSessionmaker(bind: AsyncEngine, autocommit: bool)

  /** What a `connect` or `session` context does with the resource it yields. */
  datatype Event = Opened | Committed | RolledBack | Closed

  class DatabaseSessionManager {
    var engine: Option<AsyncEngine>
    var sessionmaker: Option<AsyncSessionmaker>

    /** `init` sets both handles together and `close` clears both. */
    ghost predicate Valid()
      reads this
    {
      engine.None? <==> sessionmaker.None?
    }

    /** `__init__`: both handles are None. */
    constructor ()
      ensures Valid()
      ensures engine == None && sessionmaker == None
    {
      engine := None;
      sessionmaker := None;
    }

    /** `init`: an engine for `host` and a non-autocommit factory bound to it. */
    method Init(host: string)
      modifies this
      ensures Valid()
      ensures engine == Some(AsyncEngine(host))
      ensures sessionmaker == Some(AsyncSessionmaker(AsyncEngine(host), false))
    {
      engine := Some(AsyncEngine(host));
      sessionmaker := Some(AsyncSessionmaker(engine.value, false));
    }

    /** `close`: raises when there is no engine, otherwise clears both handles. */
    method Close() returns (r: Result<(), Error>)
      requires Valid()
      modifies this
      ensures Valid()
      ensures old(engine).None? ==> r == Err(RuntimeError(NotInitialised)) && engine == old(engine) && sessionmaker == old(sessionmaker)
      ensures old(engine).Some? ==> r == Ok(()) && engine == None && sessionmaker == None
    {
      if engine.None? {
        return Err(RuntimeError(NotInitialised));
      }
      engine := None;
      sessionmaker := None;
      r := Ok(());
    }

    /**
     * `connect`: raises when there is no engine; otherwise opens a
     * connection inside `engine.begin()`, which commits when the body
     * (`body`: the exception it raises, if any) completes and rolls back and
     * re-raises when it raises.
     */
    method Connect(body: Option<Error>) returns (events: seq<Event>, r: Result<(), Error>)
      ensures engine.None? ==> events == [] && r == Err(RuntimeError(NotInitialised))
      ensures engine.Some? ==> |events| == 2 && events[0] == Opened
      ensures engine.Some? ==> (RolledBack in events <==> body.Some?) && (Committed in events <==> body.None?)
      ensures engine.Some? ==> r == if body.Some? then Err(body.value) else Ok(())
    {
      if engine.None? {
        return [], Err(RuntimeError(NotInitialised));
      }
      events := [Opened];
      if body.Some? {
        events := events + [RolledBack];
        return events, Err(body.value);
      }
      events := events + [Committed];
      r := Ok(());
    }

    /**
     * `session`: raises when there is no factory; otherwise yields a new
     * session, rolls it back and re-raises if the body raises, and closes it
     * in every case.
     */
    method Session(body: Option<Error>) returns (events: seq<Event>, r: Result<(), Error>)
      ensures sessionmaker.None? ==> events == [] && r == Err(RuntimeError(NotInitialised))
      ensures sessionmaker.Some? ==> |events| >= 2 && events[0] == Opened && events[|events| - 1] == Closed
      ensures sessionmaker.Some? ==> (RolledBack in events <==> body.Some?) && Committed !in events
      ensures sessionmaker.Some? ==> r == if body.Some? then Err(body.value) else Ok(())
    {
      if sessionmaker.None? {
        return [], Err(RuntimeError(NotInitialised));
      }
      events := [Opened];
      r := Ok(());
      if body.Some? {
        events := events + [RolledBack];
        r := Err(body.value);
      }
      events := events + [Closed];
    }

    /**
     * `startup`: opens a connection and creates the tables unless they
     * exist; the result tells whether it created them.
     */
    method Startup(tablesExist: bool) returns (r: Result<bool, Error>)
      ensures engine.None? ==> r == Err(RuntimeError(NotInitialised))
      ensures engine.Some? ==> r == Ok(!tablesExist)
    {
      var events, outcome := Connect(None);
      if outcome.Err? {
        return Err(outcome.error);
      }
      r := Ok(!tablesExist);
    }

    /** The `engine` property. */
    function Engine(): Option<AsyncEngine>
      reads this
    {
      engine
    }
  }
}
