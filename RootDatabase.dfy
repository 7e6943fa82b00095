/** The unprivileged side of the root database connection: the service
    connection callbacks record the binder handle and whether the database
    is usable, publish that as an initialization state, and guard every
    access to the handle.
 */
module RootDb {
  import opened Common

  /** The value published on the initialization state flow. */
  datatype DatabaseInitializationState = DatabaseInitializationState(isInitialized: bool)

  /** The outcome of getRootDatabase: the handle, or the failed check. */
  datatype DbAccess<H> = Database(handle: H) | NotInitialized

  /** `H` stands for the remote database interface; the model never looks
      inside a handle. */
  class InitRootDB<H> {
    var isRootDatabaseInitialized: bool
    /** The lateinit field: None until the first successful connect. */
    var rootDatabase: Option<H>
    var databaseInitializationState: DatabaseInitializationState

    /** A set flag always comes with a stored handle. */
    predicate Valid()
      reads this
    {
      isRootDatabaseInitialized ==> rootDatabase.Some?
    }

    /** The published state tells the truth about the flag. */
    predicate Agree()
      reads this
    {
      databaseInitializationState.isInitialized == isRootDatabaseInitialized
    }

    constructor ()
      ensures Valid() && Agree()
      ensures !isRootDatabaseInitialized && rootDatabase == None
      ensures databaseInitializationState == DatabaseInitializationState(false)
    {
      isRootDatabaseInitialized := false;
      rootDatabase := None;
      databaseInitializationState := DatabaseInitializationState(false);
    }

    method SetDatabaseInitialized(isInitialized: bool)
      modifies this`databaseInitializationState
      ensures databaseInitializationState == DatabaseInitializationState(isInitialized)
    {
      databaseInitializationState := DatabaseInitializationState(isInitialized);
    }

    /** onServiceConnected. A null binder fails the non-null assignment to
        the lateinit field: the exception is rethrown and nothing changes. */
    method OnServiceConnected(service: Option<H>) returns (ok: bool)
      requires Valid()
      modifies this
      ensures Valid()
      ensures old(Agree()) ==> Agree()
      ensures ok == service.Some?
      ensures ok ==> rootDatabase == service && isRootDatabaseInitialized && Agree()
      ensures !ok ==> isRootDatabaseInitialized == old(isRootDatabaseInitialized) &&
                      rootDatabase == old(rootDatabase) &&
                      databaseInitializationState == old(databaseInitializationState)
    {
      ok := service.Some?;
      if ok {
        rootDatabase := service;
        isRootDatabaseInitialized := true;
        SetDatabaseInitialized(true);
      }
    }

    /** onServiceDisconnected: the handle stays stored but is no longer handed out. */
    method OnServiceDisconnected()
      requires Valid()
      modifies this`isRootDatabaseInitialized, this`databaseInitializationState
      ensures Valid() && Agree()
      ensures !isRootDatabaseInitialized
      ensures databaseInitializationState == DatabaseInitializationState(false)
    {
      isRootDatabaseInitialized := false;
      SetDatabaseInitialized(false);
    }

    method GetRootDatabase() returns (r: DbAccess<H>)
      requires Valid()
      ensures r.Database? <==> isRootDatabaseInitialized
      ensures r.Database? ==> Some(r.handle) == rootDatabase
    {
      if isRootDatabaseInitialized {
        r := Database(rootDatabase.value);
      } else {
        r := NotInitialized;
      }
    }
  }

  /** Connect, disconnect and reconnect with a second handle: the database is
      handed out only while connected, and always the latest handle. */
  method ReconnectScenario<H>(first: H, second: H) returns (a: DbAccess<H>, b: DbAccess<H>, c: DbAccess<H>)
    ensures a == Database(first)
    ensures b == NotInitialized
    ensures c == Database(second)
  {
    var db := new InitRootDB<H>();
    var ok := db.OnServiceConnected(Some(first));
    a := db.GetRootDatabase();
    db.OnServiceDisconnected();
    b := db.GetRootDatabase();
    ok := db.OnServiceConnected(Some(second));
    c := db.GetRootDatabase();
  }

  /** Before any connect the database is refused, whatever was published. */
  method PublishedStateDoesNotUnlock<H>() returns (published: bool, access: DbAccess<H>)
    ensures published
    ensures access == NotInitialized
  {
    var db := new InitRootDB<H>();
    db.SetDatabaseInitialized(true);
    published := db.databaseInitializationState.isInitialized;
    access := db.GetRootDatabase();
  }
}
