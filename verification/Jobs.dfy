/** What requests and job threads do to a job: operations/jobs.py. */
module Jobs {
  import opened Wrappers
  import opened Records
  import opened Leases
  import opened Claims

  // -- submission ---------------------------------------------------------

  /** What the client asked for; plan is what kind.plan returned for it. */
  datatype Request = Request(user: User, key: string, kind: string, params: nat)

  /** A submission's answer: the job of an earlier copy, a conflict with one,
      the claim it is refused for, or its own job. */
  datatype Reply = Existing(id: Id) | Conflict | Refused(blocker: ClaimId) | Created(id: Id)

  predicate Submitted(t: Tables, id: Id, q: Request) {
    id in t.ops && t.ops[id].user == q.user && t.ops[id].key == Sent(q.key)
  }

  predicate KeysClash(t: Tables, a: Id, b: Id) {
    a in t.ops && b in t.ops && t.ops[a].user == t.ops[b].user && t.ops[a].key == t.ops[b].key && a != b
  }

  /** The unique constraint on user and submission key. */
  ghost predicate KeysUnique(t: Tables) {
    forall a, b :: !KeysClash(t, a, b)
  }

  predicate KeyExpired(op: Op, now: Time) {
    op.createdAt < now - SUBMISSION_KEY_TTL
  }

  predicate SameRequest(op: Op, q: Request) {
    op.kind == q.kind && op.params == q.params
  }

  /** _existing: an expired key is renamed and counts as absent. */
  ghost function Looked(t: Tables, q: Request, now: Time): (Tables, Option<Reply>) {
    if id :| Submitted(t, id, q) then
      if KeyExpired(t.ops[id], now) then (WithOp(t, id, t.ops[id].(key := Expired(id))), None)
      else (t, Some(if SameRequest(t.ops[id], q) then Existing(id) else Conflict))
    else (t, None)
  }

  function NewJob(q: Request, plan: Wanted, inRequest: bool, grant: nat, now: Time): Op {
    Op(q.kind, q.user, q.params, Sent(q.key), if inRequest then Running else Queued, false,
       if inRequest then ByRequest else Nobody, false, now, None, plan, grant, q.key, 0, 0, false)
  }

  /** The row of a job just admitted, column by column. */
  predicate AsAsked(op: Op, q: Request, inRequest: bool, now: Time) {
    && op.user == q.user && op.kind == q.kind && op.params == q.params && op.key == Sent(q.key)
    && op.createdAt == now && op.finishedAt.None? && !op.effectsStarted && !op.cancelRequested
    && (if inRequest then op.state == Running && op.worker == ByRequest else op.state == Queued && op.worker == Nobody)
  }

  /** The tables with the job and its claims, when nothing blocks them. */
  function WithJob(t: Tables, id: Id, q: Request, plan: Wanted, inRequest: bool, now: Time, dead: set<Process>): Tables
  {
    t.(ops := t.ops[id := NewJob(q, plan, inRequest, t.nextGrant, now)],
       claims := Cleared(t.claims, plan, now, dead) + JobRows(t.nextGrant, plan, id),
       nextGrant := t.nextGrant + 1)
  }

  /** admit_job: the earlier copy first, then the claims, then the job. */
  ghost function JobAdmitted(t: Tables, id: Id, q: Request, plan: Wanted, inRequest: bool, now: Time,
                             dead: set<Process>): Tables
  {
    var (t1, found) := Looked(t, q, now);
    if found.Some? then t1
    else if Blocked(t1.claims, plan, now, dead) then t
    else WithJob(t1, id, q, plan, inRequest, now, dead)
  }

  method LookUp(db: Database, q: Request, now: Time) returns (found: Option<Reply>)
    requires KeysUnique(db.View())
    modifies db`ops
    ensures (db.View(), found) == Looked(old(db.View()), q, now)
    // the job of the user and key, for a day; a conflict when it is of another request
    ensures forall id <- old(db.ops) ::
              var op := old(db.ops)[id];
              op.user == q.user && op.key == Sent(q.key) ==>
                found == if op.createdAt + 86400 < now then None
                         else Some(if op.kind == q.kind && op.params == q.params then Existing(id) else Conflict)
    ensures found.Some? ==>
              exists id <- old(db.ops) :: old(db.ops)[id].user == q.user && old(db.ops)[id].key == Sent(q.key)
    // only the key of one that expired changes
    ensures db.ops.Keys == old(db.ops).Keys
    ensures forall id <- db.ops ::
              var op := old(db.ops)[id];
              db.ops[id] == if op.user == q.user && op.key == Sent(q.key) && op.createdAt + 86400 < now
                            then op.(key := Expired(id)) else op
  {
    var ids := db.ops.Keys;
    while ids != {}
      invariant ids <= db.ops.Keys
      invariant db.View() == old(db.View())
      invariant forall id :: Submitted(db.View(), id, q) ==> id in ids
      invariant forall id <- db.ops :: db.ops[id].user == q.user && db.ops[id].key == Sent(q.key) ==> id in ids
      decreases ids
    {
      var id :| id in ids;
      ids := ids - {id};
      var op := db.ops[id];
      if op.user == q.user && op.key == Sent(q.key) {
        assert Submitted(db.View(), id, q);
        forall other <- db.ops | other != id ensures !(db.ops[other].user == q.user && db.ops[other].key == op.key) {
          assert !KeysClash(db.View(), id, other);
        }
        assert forall other :: Submitted(db.View(), other, q) ==> other == id;
        if KeyExpired(op, now) {
          db.ops := db.ops[id := op.(key := Expired(id))];
          return None;
        }
        return Some(if SameRequest(op, q) then Existing(id) else Conflict);
      }
    }
    found := None;
  }

  method AdmitJob(db: Database, id: Id, q: Request, plan: Wanted, inRequest: bool, now: Time, dead: set<Process>)
    returns (reply: Reply)
    requires KeysUnique(db.View())
    modifies db
    ensures db.View() == JobAdmitted(old(db.View()), id, q, plan, inRequest, now, dead)
    ensures var (t1, found) := Looked(old(db.View()), q, now);
            if found.Some? then reply == found.value
            else if Blocked(t1.claims, plan, now, dead) then reply.Refused?
            else reply == Created(id)
    // an earlier copy of the last day answers, and nothing is written
    ensures forall i <- old(db.ops) ::
              var op := old(db.ops)[i];
              op.user == q.user && op.key == Sent(q.key) && now <= op.createdAt + 86400 ==>
                && reply == (if op.kind == q.kind && op.params == q.params then Existing(i) else Conflict)
                && db.View() == old(db.View())
    ensures reply.Existing? || reply.Conflict? ==>
              exists i <- old(db.ops) :: old(db.ops)[i].user == q.user && old(db.ops)[i].key == Sent(q.key)
                                         && now <= old(db.ops)[i].createdAt + 86400
    ensures reply.Refused? ==> db.View() == old(db.View())
    ensures reply.Created? ==>
              && reply == Created(id) && id in db.ops && AsAsked(db.ops[id], q, inRequest, now)
              && JobRowsAdded(old(db.claims), db.claims, plan, old(db.nextGrant), id, now, dead)
    ensures var claims := old(db.claims);
            reply.Created? || reply.Refused? ==>
              (reply.Refused? <==>
               exists c :: && c in claims && c.resource in plan
                           && (plan[c.resource] == Exclusive || claims[c].mode == Exclusive)
                           && (claims[c].OfJob? || (now < claims[c].expires && claims[c].holder !in dead)))
  {
    var before := db.ops;
    var found := LookUp(db, q, now);
    if found.Some? {
      return found.value;
    }
    reply := Insert(db, before, id, q, plan, inRequest, now, dead);
  }

  /** What an admission leaves of the claims of before, with its own: of the
      rows on planned resources the expired go, and those of dead processes in the way. */
  ghost predicate JobRowsAdded(before: map<ClaimId, Claim>, after: map<ClaimId, Claim>, plan: Wanted, grant: nat,
                               id: Id, now: Time, dead: set<Process>)
  {
    && (forall key <- plan ::
          var c := ClaimId(grant, key);
          c in after && after[c] == OfJob(id, plan[key]))
    && (forall c <- after ::
          || (c.grant == grant && c.resource in plan)
          || (c in before && after[c] == before[c]))
    && (forall c <- before ::
          c.grant != grant ==>
            (c !in after <==>
             && c.resource in plan && before[c].Transient?
             && (|| before[c].expires <= now
                 || (before[c].holder in dead && (plan[c.resource] == Exclusive || before[c].mode == Exclusive)))))
  }

  lemma RowsOfJob(claims: map<ClaimId, Claim>, plan: Wanted, grant: nat, id: Id, now: Time, dead: set<Process>)
    ensures var after := Cleared(claims, plan, now, dead) + JobRows(grant, plan, id);
            JobRowsAdded(claims, after, plan, grant, id, now, dead)
  {
    ClearedAre(claims, plan, now, dead);
  }

  /** The rest of admit_job's transaction, which began with the jobs in before. */
  method Insert(db: Database, before: map<Id, Op>, id: Id, q: Request, plan: Wanted, inRequest: bool, now: Time,
                dead: set<Process>)
    returns (reply: Reply)
    modifies db
    ensures if Blocked(old(db.claims), plan, now, dead)
            then reply.Refused? && db.View() == old(db.View()).(ops := before)
            else reply == Created(id) && db.View() == WithJob(old(db.View()), id, q, plan, inRequest, now, dead)
    ensures reply.Refused? ==> Blocks(old(db.claims), reply.blocker, plan, now, dead)
    ensures var claims := old(db.claims);
            reply.Refused? <==>
            exists c :: && c in claims && c.resource in plan
                        && (plan[c.resource] == Exclusive || claims[c].mode == Exclusive)
                        && (claims[c].OfJob? || (now < claims[c].expires && claims[c].holder !in dead))
    ensures reply.Created? ==>
              && id in db.ops && AsAsked(db.ops[id], q, inRequest, now) && db.ops == old(db.ops)[id := db.ops[id]]
              && JobRowsAdded(old(db.claims), db.claims, plan, old(db.nextGrant), id, now, dead)
  {
    var rows := db.claims;
    BlockedIff(rows, plan, now, dead);
    var blocker := Check(db, plan, now, dead);
    if blocker.Some? {
      db.ops, db.claims := before, rows;  // the transaction is rolled back
      assert blocker.value in rows;
      return Refused(blocker.value);
    }
    Write(db, rows, id, q, plan, inRequest, now, dead);
    reply := Created(id);
  }

  /** The job's row and its claims, beside those that _check left. */
  method Write(db: Database, ghost rows: map<ClaimId, Claim>, id: Id, q: Request, plan: Wanted, inRequest: bool,
               now: Time, dead: set<Process>)
    requires db.claims == Cleared(rows, plan, now, dead)
    modifies db
    ensures db.View() == WithJob(old(db.View()).(claims := rows), id, q, plan, inRequest, now, dead)
    ensures id in db.ops && AsAsked(db.ops[id], q, inRequest, now) && db.ops == old(db.ops)[id := db.ops[id]]
    ensures JobRowsAdded(rows, db.claims, plan, old(db.nextGrant), id, now, dead)
  {
    RowsOfJob(rows, plan, db.nextGrant, id, now, dead);
    db.ops := db.ops[id := NewJob(q, plan, inRequest, db.nextGrant, now)];
    db.claims := db.claims + JobRows(db.nextGrant, plan, id);
    db.nextGrant := db.nextGrant + 1;
  }

  // -- a running job's writes ---------------------------------------------

  predicate Owns(t: Tables, me: Process, id: Id) {
    id in t.ops && t.ops[id].worker == By(me)
  }

  /** Context.record_intent: effects_started is set with the first intent. */
  function Recorded(t: Tables, me: Process, id: Id): Tables {
    if HoldsLease(t, me) && Owns(t, me, id) then WithOp(t, id, t.ops[id].(effectsStarted := true)) else t
  }

  method RecordIntent(db: Database, me: Process, id: Id) returns (r: Result<(), LeaseLost>)
    modifies db
    ensures db.View() == Recorded(old(db.View()), me, id)
    ensures r.Success? <==> && old(db.lease).Some? && old(db.lease).value.holder == me
                            && id in old(db.ops) && old(db.ops)[id].worker == By(me)
    ensures db.ops == if r.Success? then old(db.ops)[id := old(db.ops)[id].(effectsStarted := true)] else old(db.ops)
  {
    if db.lease.None? || db.lease.value.holder != me {
      return Failure(LeaseLost);
    }
    if id !in db.ops || db.ops[id].worker != By(me) {
      return Failure(LeaseLost);
    }
    db.ops := db.ops[id := db.ops[id].(effectsStarted := true)];
    r := Success(());
  }

  // -- ends ---------------------------------------------------------------

  /** Whether finish changes the job; worker: the one it is fenced for. */
  predicate MayFinish(t: Tables, id: Id, worker: Option<Process>) {
    && id in t.ops && Active(t.ops[id].state)
    && (worker.Some? ==> HoldsLease(t, worker.value) && t.ops[id].worker == By(worker.value))
  }

  function Finished(t: Tables, id: Id, outcome: State, worker: Option<Process>, now: Time): Tables {
    if !MayFinish(t, id, worker) then t
    else WithOp(t, id, t.ops[id].(state := outcome, finishedAt := Some(now), ends := t.ops[id].ends + 1))
         .(claims := if outcome == Uncertain then t.claims else DropJobClaims(t.claims, id))
  }

  method Finish(db: Database, id: Id, outcome: State, worker: Option<Process>, now: Time)
    returns (r: Result<bool, LeaseLost>)
    modifies db
    ensures db.View() == Finished(old(db.View()), id, outcome, worker, now)
    ensures r.Failure? <==> worker.Some? && !HoldsLease(old(db.View()), worker.value)
    ensures r.Success? ==> r.value == MayFinish(old(db.View()), id, worker)
    // once, of a job that has not ended, and of the worker's own where one asks
    ensures r.Success? ==>
              (r.value <==>
               && id in old(db.ops) && old(db.ops)[id].state in {Queued, Running, Cancelling}
               && (worker.Some? ==> old(db.ops)[id].worker == By(worker.value)))
    ensures r == Success(true) ==>
              && id in db.ops && db.ops == old(db.ops)[id := db.ops[id]]
              && db.ops[id].state == outcome && db.ops[id].finishedAt == Some(now)
              && db.claims == if outcome == Uncertain then old(db.claims) else DropJobClaims(old(db.claims), id)
    ensures r != Success(true) ==> db.View() == old(db.View())
  {
    if worker.Some? && (db.lease.None? || db.lease.value.holder != worker.value) {
      return Failure(LeaseLost);
    }
    if id !in db.ops || !Active(db.ops[id].state) || (worker.Some? && db.ops[id].worker != By(worker.value)) {
      return Success(false);
    }
    db.ops := db.ops[id := db.ops[id].(state := outcome, finishedAt := Some(now), ends := db.ops[id].ends + 1)];
    if outcome != Uncertain {
      db.claims := DropJobClaims(db.claims, id);
    }
    r := Success(true);
  }

  datatype Refusal = NotCancellable | AlreadyEnded | NotUncertain | NoSuchJob | NoOutcome

  function CancelAsked(t: Tables, id: Id, cancellable: bool, now: Time): Tables {
    if id !in t.ops then t
    else match t.ops[id].state
      case Queued =>
        WithOp(t, id, t.ops[id].(state := Cancelled, finishedAt := Some(now), ends := t.ops[id].ends + 1))
        .(claims := DropJobClaims(t.claims, id))
      case Running =>
        if cancellable then WithOp(t, id, t.ops[id].(state := Cancelling, cancelRequested := true)) else t
      case _ => t
  }

  method Cancel(db: Database, id: Id, cancellable: bool, now: Time) returns (r: Result<(), Refusal>)
    modifies db
    ensures db.View() == CancelAsked(old(db.View()), id, cancellable, now)
    ensures r.Failure? <==> id !in old(db.ops) || !Active(old(db.ops)[id].state)
                            || (old(db.ops)[id].state.Running? && !cancellable)
    // at once while it waits, else the thread is asked to stop; a repeated cancel changes nothing
    ensures r.Success? ==>
              && db.ops == old(db.ops)[id := db.ops[id]]
              && match old(db.ops)[id].state
                 case Queued => && db.ops[id].state == Cancelled && db.ops[id].finishedAt == Some(now)
                                && db.claims == DropJobClaims(old(db.claims), id)
                 case Running => && db.ops[id].state == Cancelling && db.ops[id].cancelRequested
                                 && db.ops[id].finishedAt == old(db.ops)[id].finishedAt && db.claims == old(db.claims)
                 case _ => db.View() == old(db.View())
    ensures r.Failure? ==> db.View() == old(db.View())
  {
    if id !in db.ops {
      return Failure(NoSuchJob);
    }
    var op := db.ops[id];
    if op.state == Queued {
      db.ops := db.ops[id := op.(state := Cancelled, finishedAt := Some(now), ends := op.ends + 1)];
      db.claims := DropJobClaims(db.claims, id);
    } else if op.state == Running {
      if !cancellable {
        return Failure(NotCancellable);
      }
      db.ops := db.ops[id := op.(state := Cancelling, cancelRequested := true)];
    } else if op.state != Cancelling {
      return Failure(AlreadyEnded);
    }
    r := Success(());
  }

  predicate MayResolve(t: Tables, id: Id, outcome: State) {
    (outcome == Succeeded || outcome == Failed) && id in t.ops && t.ops[id].state == Uncertain
  }

  function Resolved(t: Tables, id: Id, outcome: State): Tables {
    if !MayResolve(t, id, outcome) then t
    else WithOp(t, id, t.ops[id].(state := outcome)).(claims := DropJobClaims(t.claims, id))
  }

  method Resolve(db: Database, id: Id, outcome: State) returns (r: Result<(), Refusal>)
    modifies db
    ensures db.View() == Resolved(old(db.View()), id, outcome)
    ensures r.Success? <==>
              outcome in {Succeeded, Failed} && id in old(db.ops) && old(db.ops)[id].state == Uncertain
    ensures r.Success? ==>
              && db.ops == old(db.ops)[id := old(db.ops)[id].(state := outcome)]
              && db.claims == DropJobClaims(old(db.claims), id)
    ensures r.Failure? ==> db.View() == old(db.View())
  {
    if outcome != Succeeded && outcome != Failed {
      return Failure(NoOutcome);
    }
    if id !in db.ops {
      return Failure(NoSuchJob);
    }
    if db.ops[id].state != Uncertain {
      return Failure(NotUncertain);
    }
    db.ops := db.ops[id := db.ops[id].(state := outcome)];
    db.claims := DropJobClaims(db.claims, id);
    r := Success(());
  }
}
