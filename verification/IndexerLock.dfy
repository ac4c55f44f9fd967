/** The session-level advisory lock as one worker's handle on it, and the server it lives on. */
module AdvisoryLock {
  import opened Wrappers

  /** The server side: which session holds the lock. A session that ends lets go of it. */
  class LockServer {
    var holder: Option<nat>

    constructor ()
      ensures holder == None
    {
      holder := None;
    }

    method TryLock(session: nat) returns (locked: bool)
      modifies this
      ensures locked <==> old(holder).None? || old(holder) == Some(session)
      ensures holder == if locked then Some(session) else old(holder)
    {
      locked := holder.None? || holder == Some(session);
      if locked {
        holder := Some(session);
      }
    }

    method EndSession(session: nat)
      modifies this
      ensures holder == if old(holder) == Some(session) then None else old(holder)
    {
      if holder == Some(session) {
        holder := None;
      }
    }
  }

  class IndexerLock {
    const server: LockServer
    const session: nat
    var held: bool
    var released: bool

    /** A handle exists only for a session the server has granted the lock. */
    constructor (server: LockServer, session: nat)
      requires server.holder == Some(session)
      ensures this.server == server && this.session == session && held && !released
    {
      this.server, this.session := server, session;
      held, released := true, false;
    }

    function IsHeld(): bool reads this { held }

    /** The connection's error event clears the flag; what the server has done with the session it cannot tell. */
    method ConnectionFailed()
      modifies this`held
      ensures !held && !IsHeld()
    {
      held := false;
    }

    /**
     A working handle is unlocked. Releasing twice, or after a failure was seen, sends nothing to
     the server, so it never takes the lock from a later holder, and never frees a session that
     the server still keeps.
     */
    method Release()
      modifies this, server
      ensures released && (!old(released) ==> !held)
      ensures old(released) ==> held == old(held)
      ensures server.holder ==
        if !old(released) && old(held) && old(server.holder) == Some(session) then None else old(server.holder)
    {
      if released {
        return;
      }
      released := true;
      if held {
        server.EndSession(session);
      }
      held := false;
    }
  }

  method TryAcquireIndexerLock(server: LockServer, session: nat) returns (lock: IndexerLock?)
    requires server.holder != Some(session)
    modifies server
    ensures lock != null <==> old(server.holder).None?
    ensures lock != null ==>
      fresh(lock) && lock.server == server && lock.session == session && lock.IsHeld() && !lock.released
    ensures server.holder == if lock != null then Some(session) else old(server.holder)
  {
    var locked := server.TryLock(session);
    if !locked {
      server.EndSession(session);
      return null;
    }
    lock := new IndexerLock(server, session);
  }
}
