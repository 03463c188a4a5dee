/** A database with one level of transactions, whatever its tables are. */
module Databases {
  import opened Prelude

  class Database<T> {
    var tables: T
    var savepoint: Option<T>

    /** Opens the database, whatever it holds. */
    constructor (stored: T)
      ensures tables == stored && savepoint == None
    {
      tables, savepoint := stored, None;
    }

    method Begin()
      requires savepoint == None
      modifies this
      ensures tables == old(tables) && savepoint == Some(old(tables))
    {
      savepoint := Some(tables);
    }

    method Commit()
      requires savepoint.Some?
      modifies this
      ensures tables == old(tables) && savepoint == None
    {
      savepoint := None;
    }

    /** Restores every table as it was when the transaction began. */
    method Rollback()
      requires savepoint.Some?
      modifies this
      ensures tables == old(savepoint.value) && savepoint == None
    {
      tables, savepoint := savepoint.value, None;
    }
  }
}
