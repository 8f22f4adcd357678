/**
 The advisory lock that serialises the scheduled jobs of all replicas
 (app/services/scheduler_lock_service.py).
 */
module SchedulerLock {
  import opened Prelude

  /** A database session; each job opens its own. */
  type Session = int

  /** The session-level advisory lock kept by the database: a session may take it several times over. */
  class AdvisoryLock {
    var holder: Option<Session>
    var depth: nat

    predicate Valid()
      reads this
    {
      holder.None? <==> depth == 0
    }

    constructor ()
      ensures Valid() && holder == None
    {
      holder, depth := None, 0;
    }
  }

  class SchedulerLockService {
    const db: AdvisoryLock
    const session: Session
    var acquired: bool

    constructor (db: AdvisoryLock, session: Session)
      requires db.Valid()
      ensures Valid() && this.db == db && this.session == session && !acquired
    {
      this.db, this.session, acquired := db, session, false;
    }

    /** A service that says it acquired the lock holds it. */
    predicate Valid()
      reads this, db
    {
      db.Valid() && (acquired ==> db.holder == Some(session))
    }

    /** Taken exactly if the lock is free or already this session's. */
    method Acquire() returns (taken: bool)
      requires Valid()
      modifies `acquired, db
      ensures Valid() && taken == acquired == (old(db.holder).None? || old(db.holder) == Some(session))
      ensures db.holder == if taken then Some(session) else old(db.holder)
      ensures db.depth == old(db.depth) + if taken then 1 else 0
    {
      acquired := db.holder.None? || db.holder == Some(session);
      if acquired {
        db.holder, db.depth := Some(session), db.depth + 1;
      }
      taken := acquired;
    }

    /**
     Gives the lock back once: it becomes free exactly if it had been taken once. Other
     sessions' locks are left alone.
     */
    method Release()
      requires Valid()
      modifies `acquired, db
      ensures Valid() && !acquired
      ensures db.depth == old(db.depth) - if old(acquired) then 1 else 0
      ensures db.holder == if old(acquired) && old(db.depth) == 1 then None else old(db.holder)
    {
      if !acquired {
        return;
      }
      db.depth := db.depth - 1;
      if db.depth == 0 {
        db.holder := None;
      }
      acquired := false;
    }
  }
}
