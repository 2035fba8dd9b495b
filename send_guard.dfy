/** The per-connection single-flight guard of both hubs: a dictionary from
    connection id to a semaphore of capacity one, here a flag that says whether
    the connection's semaphore is currently held. The model is sequential: one
    call runs at a time, and a held entry stands for a submission that is still
    being served. */
module SendGuard {
  import opened Contracts

  class SendLocks {
    /** `held[id]` is true while a submission of connection `id` is served. */
    var held: map<ConnectionId, bool>

    constructor ()
      ensures held == map[]
    {
      held := map[];
    }

    /** Whether the connection's semaphore is currently taken. */
    predicate IsHeld(id: ConnectionId)
      reads this
    {
      id in held && held[id]
    }

    /** `GetOrAdd(id, new SemaphoreSlim(1, 1))` followed by `WaitAsync(0)`:
        creates a free entry for an unknown connection, then takes the entry
        when it is free and gives up at once when it is not. */
    method TryAcquire(id: ConnectionId) returns (acquired: bool)
      modifies this
      ensures acquired <==> !old(IsHeld(id))
      ensures acquired ==> held == old(held)[id := true]
      ensures !acquired ==> held == old(held)
    {
      if id !in held {
        held := held[id := false];
      }
      acquired := !held[id];
      if acquired {
        held := held[id := true];
      }
    }

    /** `semaphore.Release()` on the semaphore the caller acquired. */
    method Release(id: ConnectionId)
      requires IsHeld(id)
      modifies this
      ensures held == old(held)[id := false]
    {
      held := held[id := false];
    }

    /** `TryRemove(id, out _)`: drops the connection's entry, if any. */
    method TryRemove(id: ConnectionId)
      modifies this
      ensures held == old(held) - {id}
    {
      held := held - {id};
    }
  }
}
