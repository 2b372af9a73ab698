/** The single-worker lease of operations/models.py. */
module Leases {
  import opened Wrappers
  import opened Records

  /** What a fenced transaction raises. */
  datatype LeaseLost = LeaseLost

  predicate HoldsLease(t: Tables, me: Process) {
    t.lease.Some? && t.lease.value.holder == me
  }

  predicate MayTake(lease: Option<Lease>, me: Process, now: Time) {
    lease.None? || lease.value.holder.host == me.host || lease.value.heartbeatAt < now - TAKEOVER_AFTER
  }

  function Acquired(t: Tables, me: Process, now: Time): Tables {
    if HoldsLease(t, me) || !MayTake(t.lease, me, now) then t else t.(lease := Some(Lease(me, now)))
  }

  function Renewed(t: Tables, me: Process, now: Time): Tables {
    if HoldsLease(t, me) then t.(lease := Some(Lease(me, now))) else t
  }

  method Acquire(db: Database, me: Process, now: Time) returns (held: bool)
    modifies db`lease
    ensures db.View() == Acquired(old(db.View()), me, now)
    ensures held <==> HoldsLease(db.View(), me)
    // free, its own, of its own host, or silent for more than two minutes
    ensures var l := old(db.lease);
            held <==> || l.None? || l.value.holder == me || l.value.holder.host == me.host
                      || l.value.heartbeatAt + 120 < now
    ensures db.lease == if held && (old(db.lease).None? || old(db.lease).value.holder != me)
                        then Some(Lease(me, now)) else old(db.lease)
  {
    if db.lease.None? {
      db.lease := Some(Lease(me, now));
      return true;
    }
    var lease := db.lease.value;
    if lease.holder == me {
      return true;
    }
    if lease.holder.host == me.host || lease.heartbeatAt < now - TAKEOVER_AFTER {
      db.lease := Some(Lease(me, now));
      return true;
    }
    held := false;
  }

  method Renew(db: Database, me: Process, now: Time) returns (held: bool)
    modifies db`lease
    ensures db.View() == Renewed(old(db.View()), me, now)
    ensures held <==> old(db.lease).Some? && old(db.lease).value.holder == me
    ensures db.lease == if held then Some(Lease(me, now)) else old(db.lease)
  {
    held := db.lease.Some? && db.lease.value.holder == me;
    if held {
      db.lease := Some(Lease(me, now));
    }
  }
}
