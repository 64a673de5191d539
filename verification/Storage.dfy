/** The transactor: a database session with one transaction at a time over tables of type T. */
module Storage {

  function Same<T>(): T -> T {
    t => t
  }

  function Then<T>(f: T -> T, g: T -> T): T -> T {
    t => g(f(t))
  }

  /** `committed` is what everybody sees, `pending` what the statements of the open transaction do to it. Other sessions
      may commit at any time; a statement sees what is committed when it executes, with the transaction's own changes,
      and what it decides to do is done to the tables as they are at the commit. As in PostgreSQL, a failed statement
      aborts the open transaction: later statements fail too and a commit rolls back. The arguments named `ok` say
      whether the database carries the request out. */
  class Session<T(0)> {
    var committed: T
    var pending: T -> T
    var open: bool
    var aborted: bool

    ghost predicate Valid()
      reads this
    {
      !open ==> !aborted
    }

    function Current(): T
      reads this
    {
      if open then pending(committed) else committed
    }

    constructor (tables: T)
      ensures Valid() && !open && committed == tables
    {
      committed, pending, open, aborted := tables, Same<T>(), false, false;
    }

    method Begin(ok: bool) returns (begun: bool)
      requires Valid() && !open
      modifies this
      ensures Valid() && begun == ok && open == ok && !aborted
      ensures committed == old(committed) && (open ==> pending == Same<T>())
    {
      pending, open, begun := Same<T>(), ok, ok;
    }

    /** One statement that has decided on `effect`. Outside a transaction it commits itself. */
    method Exec(effect: T -> T, ok: bool) returns (done: bool)
      requires Valid()
      modifies this
      ensures Valid() && open == old(open)
      ensures done == (ok && !old(aborted))
      ensures aborted == (open && !done)
      ensures open ==> committed == old(committed)
      ensures open ==> pending == if done then Then(old(pending), effect) else old(pending)
      ensures !open ==> committed == if done then effect(old(committed)) else old(committed)
    {
      done := ok && !aborted;
      if !done {
        aborted := open;
      } else if open {
        pending := Then(pending, effect);
      } else {
        committed := effect(committed);
      }
    }

    /** Other sessions commit. */
    method Elapse(tables: T)
      requires Valid()
      modifies this
      ensures Valid() && committed == tables && pending == old(pending) && open == old(open) && aborted == old(aborted)
    {
      committed := tables;
    }

    method Rollback()
      requires Valid() && open
      modifies this
      ensures Valid() && !open && committed == old(committed)
    {
      open, aborted := false, false;
    }

    /** Ends the transaction either way; the changes survive exactly when no statement failed and the commit got
        through. */
    method Commit(ok: bool) returns (done: bool)
      requires Valid() && open
      modifies this
      ensures Valid() && !open
      ensures done == (ok && !old(aborted))
      ensures committed == if done then old(pending)(old(committed)) else old(committed)
    {
      done := ok && !aborted;
      if done { committed := pending(committed); }
      open, aborted := false, false;
    }
  }
}
