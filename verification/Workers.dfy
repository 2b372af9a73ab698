/** What the worker's manager, its recovery and its housekeeping do to the
    tables: operations/worker.py. */
module Workers {
  import opened Wrappers
  import opened Records
  import opened Leases
  import opened Jobs

  /** _claim's update of one candidate. */
  function Started(t: Tables, me: Process, id: Id): Tables {
    if HoldsLease(t, me) && id in t.ops && t.ops[id].state == Queued
    then WithOp(t, id, t.ops[id].(state := Running, worker := By(me), starts := t.ops[id].starts + 1))
    else t
  }

  method Start(db: Database, me: Process, id: Id) returns (r: Result<bool, LeaseLost>)
    modifies db`ops
    ensures db.View() == Started(old(db.View()), me, id)
    ensures r.Failure? <==> !HoldsLease(old(db.View()), me)
    ensures r.Failure? <==> old(db.lease).None? || old(db.lease).value.holder != me
    ensures r.Success? ==> r.value == (id in old(db.ops) && old(db.ops)[id].state == Queued)
    ensures r == Success(true) ==>
              && db.ops == old(db.ops)[id := db.ops[id]]
              && db.ops[id].state == Running && db.ops[id].worker == By(me)
              && db.ops[id].params == old(db.ops)[id].params && db.ops[id].plan == old(db.ops)[id].plan
    ensures r != Success(true) ==> db.ops == old(db.ops)
  {
    if db.lease.None? || db.lease.value.holder != me {
      return Failure(LeaseLost);
    }
    if id !in db.ops || db.ops[id].state != Queued {
      return Success(false);
    }
    var op := db.ops[id];
    db.ops := db.ops[id := op.(state := Running, worker := By(me), starts := op.starts + 1)];
    r := Success(true);
  }

  /** _limits: a job over its time limit that can be cancelled. */
  function Limited(t: Tables, me: Process, id: Id): Tables {
    if HoldsLease(t, me) && Owns(t, me, id) && Active(t.ops[id].state)
    then WithOp(t, id, t.ops[id].(state := Cancelling, cancelRequested := true))
    else t
  }

  method Limit(db: Database, me: Process, id: Id) returns (r: Result<bool, LeaseLost>)
    modifies db`ops
    ensures db.View() == Limited(old(db.View()), me, id)
    ensures r.Failure? <==> old(db.lease).None? || old(db.lease).value.holder != me
    ensures r.Success? ==>
              (r.value <==> && id in old(db.ops) && old(db.ops)[id].worker == By(me)
                            && old(db.ops)[id].state in {Queued, Running, Cancelling})
    ensures db.ops == if r == Success(true)
                      then old(db.ops)[id := old(db.ops)[id].(state := Cancelling, cancelRequested := true)]
                      else old(db.ops)
  {
    if db.lease.None? || db.lease.value.holder != me {
      return Failure(LeaseLost);
    }
    if id !in db.ops || db.ops[id].worker != By(me) || !Active(db.ops[id].state) {
      return Success(false);
    }
    db.ops := db.ops[id := db.ops[id].(state := Cancelling, cancelRequested := true)];
    r := Success(true);
  }

  predicate MayTakeOver(t: Tables, me: Process, id: Id, previous: Process) {
    HoldsLease(t, me) && Owns(t, previous, id) && Begun(t.ops[id].state)
  }

  /** _take_over: another host's job ends uncertain in the same transaction. */
  function TakenOver(t: Tables, me: Process, id: Id, previous: Process, now: Time): Tables {
    if !MayTakeOver(t, me, id, previous) then t
    else
      var mine := WithOp(t, id, t.ops[id].(worker := By(me)));
      if previous.host == me.host then mine else Finished(mine, id, Uncertain, Some(me), now)
  }

  /** What _inspect does after a take-over: goes on, or is done with the job. */
  datatype Taken = Mine(effectsStarted: bool) | NotMine

  method TakeOver(db: Database, me: Process, id: Id, previous: Process, now: Time) returns (r: Result<Taken, LeaseLost>)
    modifies db
    ensures db.View() == TakenOver(old(db.View()), me, id, previous, now)
    ensures r.Failure? <==> !HoldsLease(old(db.View()), me)
    ensures r.Success? ==>
              r.value == if MayTakeOver(old(db.View()), me, id, previous) && previous.host == me.host
                         then Mine(old(db.ops)[id].effectsStarted) else NotMine
    // from the worker that was read, and only a job under way; a job of another node ends uncertain, with its claims
    ensures var mine := && r.Success? && id in old(db.ops) && old(db.ops)[id].worker == By(previous)
                        && old(db.ops)[id].state in {Running, Cancelling};
            && (mine ==> && db.ops == old(db.ops)[id := db.ops[id]] && db.ops[id].worker == By(me)
                         && db.ops[id].state == (if previous.host == me.host then old(db.ops)[id].state else Uncertain))
            && (!mine ==> db.ops == old(db.ops))
            && (r.Success? && r.value.Mine? <==> mine && previous.host == me.host)
    ensures db.claims == old(db.claims)
  {
    if db.lease.None? || db.lease.value.holder != me {
      return Failure(LeaseLost);
    }
    if id !in db.ops || db.ops[id].worker != By(previous) || !Begun(db.ops[id].state) {
      return Success(NotMine);
    }
    db.ops := db.ops[id := db.ops[id].(worker := By(me))];
    if previous.host != me.host {
      var ended := Finish(db, id, Uncertain, Some(me), now);
      return Success(NotMine);
    }
    r := Success(Mine(db.ops[id].effectsStarted));
  }

  /** A job housekeeping may delete: ended, not uncertain, older than the
      retention, and without a claim. */
  predicate Stale(t: Tables, id: Id, now: Time, days: nat) {
    && id in t.ops && Ended(t.ops[id].state)
    && t.ops[id].finishedAt.Some? && t.ops[id].finishedAt.value < now - days * DAY
    && forall c <- t.claims :: t.claims[c] != OfJob(id, t.claims[c].mode)
  }

  /** The same, column by column. */
  ghost predicate Old(t: Tables, id: Id, now: Time, days: nat) {
    && id in t.ops && t.ops[id].state in {Succeeded, Failed, Cancelled}
    && t.ops[id].finishedAt.Some? && t.ops[id].finishedAt.value + days * 86400 < now
    && forall c <- t.claims :: t.claims[c].OfJob? ==> t.claims[c].job != id
  }

  lemma StaleIsOld(t: Tables, now: Time, days: nat)
    ensures forall id :: Stale(t, id, now, days) <==> Old(t, id, now, days)
  {
  }

  function Cleaned(t: Tables, dropped: set<Id>, now: Time): Tables {
    t.(ops := t.ops - dropped,
       claims := map c | c in t.claims && !(t.claims[c].Transient? && t.claims[c].expires < now)
                         && !(t.claims[c].OfJob? && t.claims[c].job in dropped) :: t.claims[c])
  }

  method Housekeeping(db: Database, now: Time, days: nat) returns (dropped: set<Id>)
    modifies db
    ensures forall id <- dropped :: Stale(old(db.View()), id, now, days)
    ensures |dropped| <= 500
    ensures |dropped| < 500 ==> forall id :: Stale(old(db.View()), id, now, days) ==> id in dropped
    ensures db.View() == Cleaned(old(db.View()), dropped, now)
    // ended for longer than the retention, and without a claim; with them go the transient claims that expired
    ensures forall id ::
              (id in dropped ==> Old(old(db.View()), id, now, days))
              && (|dropped| < 500 && Old(old(db.View()), id, now, days) ==> id in dropped)
    ensures db.ops == old(db.ops) - dropped
    ensures forall c <- old(db.claims) ::
              c in db.claims <==> !(old(db.claims)[c].Transient? && old(db.claims)[c].expires < now)
    ensures forall c <- db.claims :: c in old(db.claims) && db.claims[c] == old(db.claims)[c]
  {
    StaleIsOld(db.View(), now, days);
    var candidates := set id | id in db.ops && Stale(db.View(), id, now, days);
    dropped := {};
    while candidates != {} && |dropped| < 500
      invariant forall id <- candidates + dropped :: Stale(old(db.View()), id, now, days)
      invariant forall id :: Stale(old(db.View()), id, now, days) ==> id in candidates + dropped
      invariant |dropped| <= 500
      decreases candidates
    {
      var id :| id in candidates;
      candidates, dropped := candidates - {id}, dropped + {id};
    }
    db.ops := db.ops - dropped;
    db.claims := map c | c in db.claims && !(db.claims[c].Transient? && db.claims[c].expires < now)
                         && !(db.claims[c].OfJob? && db.claims[c].job in dropped) :: db.claims[c];
  }
}
