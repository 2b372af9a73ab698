/** The shared world: the tables, the clock, the processes, their job threads,
    their recovery and their short blocks. Every transaction is one event;
    so are the clock's advance and a process's death. */
module Worlds {
  import opened Wrappers
  import opened Records
  import opened Leases
  import opened Claims
  import opened Jobs
  import opened Workers

  /** Where an inspection of a job is: it read the row of another worker's
      job, or it owns the job and knows whether its effects started. */
  datatype Inspection = OfOther(previous: Process) | Owned(effectsStarted: bool)

  /** A process's block between hold's entry and exit. */
  datatype Block = Block(holder: Process, wanted: Wanted, expires: Time)

  /** What was asked when a job was admitted, and when that was. */
  datatype Made = Made(user: User, key: string, kind: string, params: nat, plan: Wanted, at: Time)

  /** threads: job threads that may still act, and whether their context
      knows of a recorded intent; due: jobs in a process's recovery
      table; looks: its inspections under way; ready: workers past
      schedule_orphans; made: every job ever admitted. */
  datatype World = World(
    db: Tables,
    now: Time,
    alive: set<Process>,
    used: set<Process>,
    workers: set<Process>,
    ready: set<Process>,
    threads: map<(Process, Id), bool>,
    due: set<(Process, Id)>,
    looks: map<(Process, Id), Inspection>,
    blocks: map<nat, Block>,
    made: map<Id, Made>)

  const EMPTY := World(Tables(map[], map[], 0, None), 0, {}, {}, {}, {}, map[], {}, map[], map[], map[])

  datatype Event =
    | Tick(seconds: nat)
    | Launch(p: Process, worker: bool)
    | Die(p: Process)
    | Acquire(p: Process)
    | Renew(p: Process)
    | Orphans(p: Process)
    | Enter(p: Process, wanted: Wanted, ttl: nat, dead: set<Process>)
    | Leave(grant: nat)
    | Look(q: Request)
    | Submit(id: Id, q: Request, plan: Wanted, inRequest: bool, dead: set<Process>)
    | StartJob(p: Process, id: Id)
    | Record(p: Process, id: Id, answered: bool)
    | EndThread(p: Process, id: Id, outcome: State)
    | Abandon(p: Process, id: Id)
    | LeaveToRecovery(p: Process, id: Id)
    | Inspect(p: Process, id: Id)
    | Take(p: Process, id: Id)
    | FailUntouched(p: Process, id: Id)
    | Judge(p: Process, id: Id, outcome: State)
    | Postpone(p: Process, id: Id)
    | AskCancel(id: Id, cancellable: bool)
    | OverTime(p: Process, id: Id)
    | EndInRequest(id: Id, outcome: State)
    | ResolveJob(id: Id, outcome: State)
    | Keep(dropped: set<Id>, days: nat)

  /** One worker runs per node: its flock. Another process of the node may
      start at any time; a process's identity is never used again. */
  predicate MayLaunch(w: World, p: Process, worker: bool) {
    p !in w.used && (worker ==> forall v <- w.workers * w.alive :: v.host != p.host)
  }

  predicate Outcome(s: State) { Ended(s) || s.Uncertain? }

  /** What holds of an event that can happen in w. */
  predicate Enabled(w: World, e: Event) {
    match e
    case Launch(p, worker) => MayLaunch(w, p, worker)
    case Die(p) => p in w.alive
    case Acquire(p) => p in w.alive && p in w.workers
    case Renew(p) => p in w.alive && p in w.workers
    case Orphans(p) => p in w.alive && p in w.workers && p !in w.ready
    // only processes that ended are seen as gone
    case Enter(p, _, _, dead) => p in w.alive && dead !! w.alive
    case Leave(grant) => grant in w.blocks
    case Submit(id, _, _, _, dead) => id !in w.made && dead !! w.alive
    case StartJob(p, id) => p in w.alive && p in w.ready
    case Record(p, id, _) => (p, id) in w.threads
    // execute itself ends a job failed only before its effects
    case EndThread(p, id, outcome) =>
      (p, id) in w.threads && Ended(outcome) && (outcome == Failed ==> !w.threads[(p, id)])
    case Abandon(p, id) => (p, id) in w.threads
    case LeaveToRecovery(p, id) => (p, id) in w.threads
    case Inspect(p, id) => (p, id) in w.due && (p, id) !in w.looks && id in w.db.ops
    case Take(p, id) => (p, id) in w.looks && w.looks[(p, id)].OfOther?
    case FailUntouched(p, id) => (p, id) in w.looks && w.looks[(p, id)] == Owned(false)
    case Judge(p, id, outcome) => (p, id) in w.looks && w.looks[(p, id)] == Owned(true) && Outcome(outcome)
    case Postpone(p, id) => (p, id) in w.looks
    // the manager's table of jobs, not yet reaped
    case OverTime(p, id) => p in w.alive && p in w.ready
    // only a kind its requests run is ended without a worker
    case EndInRequest(id, outcome) => id in w.db.ops && w.db.ops[id].worker == ByRequest && Ended(outcome)
    case Keep(dropped, days) => days >= 1 && forall id <- dropped :: Stale(w.db, id, w.now, days)
    case _ => true
  }

  function Done(w: World, p: Process, id: Id): World {
    w.(due := w.due - {(p, id)}, looks := w.looks - {(p, id)})
  }

  /** The inspection of a job whose row it just read. */
  function Inspected(w: World, p: Process, id: Id): World
    requires id in w.db.ops
  {
    var op := w.db.ops[id];
    if !Begun(op.state) then Done(w, p, id)
    else if op.worker == By(p) then w.(looks := w.looks[(p, id) := Owned(op.effectsStarted)])
    else if op.worker.By? then w.(looks := w.looks[(p, id) := OfOther(op.worker.process)])
    else w
  }

  function Took(w: World, p: Process, id: Id): World
    requires (p, id) in w.looks && w.looks[(p, id)].OfOther?
  {
    var previous := w.looks[(p, id)].previous;
    var w' := w.(db := TakenOver(w.db, p, id, previous, w.now));
    if MayTakeOver(w.db, p, id, previous) && previous.host == p.host
    then w'.(looks := w.looks[(p, id) := Owned(w.db.ops[id].effectsStarted)])
    else Done(w', p, id)
  }

  /** The job as the inspection ends it: "stopped before it changed anything". */
  function FailedUntouched(w: World, p: Process, id: Id): World {
    var db := Finished(w.db, id, Failed, Some(p), w.now);
    var marked := if MayFinish(w.db, id, Some(p)) then WithOp(db, id, db.ops[id].(untouched := true)) else db;
    Done(w.(db := marked), p, id)
  }

  ghost function Effect(w: World, e: Event): World
    requires Enabled(w, e)
  {
    match e
    case Tick(seconds) => w.(now := w.now + seconds)
    case Launch(p, worker) =>
      w.(alive := w.alive + {p}, used := w.used + {p}, workers := if worker then w.workers + {p} else w.workers)
    case Die(p) =>
      w.(alive := w.alive - {p}, threads := map x | x in w.threads && x.0 != p :: w.threads[x],
         due := (set x | x in w.due && x.0 != p),
         looks := map x | x in w.looks && x.0 != p :: w.looks[x],
         blocks := map g | g in w.blocks && w.blocks[g].holder != p :: w.blocks[g])
    case Acquire(p) => w.(db := Acquired(w.db, p, w.now))
    case Renew(p) => w.(db := Renewed(w.db, p, w.now))
    case Orphans(p) =>
      w.(ready := w.ready + {p},
         due := w.due + (set id | id in w.db.ops && Begun(w.db.ops[id].state)
                         && w.db.ops[id].worker !in {By(p), ByRequest} :: (p, id)))
    case Enter(p, wanted, ttl, dead) =>
      if Blocked(w.db.claims, wanted, w.now, dead) then w
      else w.(db := Admitted(w.db, wanted, p, w.now, ttl, dead),
              blocks := w.blocks[w.db.nextGrant := Block(p, wanted, w.now + ttl)])
    case Leave(grant) => w.(db := Left(w.db, grant), blocks := w.blocks - {grant})
    case Look(q) => w.(db := Looked(w.db, q, w.now).0)
    case Submit(id, q, plan, inRequest, dead) =>
      var db := JobAdmitted(w.db, id, q, plan, inRequest, w.now, dead);
      w.(db := db,
         made := if id in db.ops then w.made[id := Made(q.user, q.key, q.kind, q.params, plan, w.now)] else w.made)
    case StartJob(p, id) =>
      w.(db := Started(w.db, p, id),
         threads := if Started(w.db, p, id) != w.db then w.threads[(p, id) := false] else w.threads)
    // a commit may take effect though its answer is lost
    case Record(p, id, answered) =>
      if HoldsLease(w.db, p) && Owns(w.db, p, id)
      then w.(db := Recorded(w.db, p, id), threads := if answered then w.threads[(p, id) := true] else w.threads)
      else w
    case EndThread(p, id, outcome) =>
      w.(db := Finished(w.db, id, outcome, Some(p), w.now), threads := w.threads - {(p, id)})
    case Abandon(p, id) => w.(threads := w.threads - {(p, id)})
    case LeaveToRecovery(p, id) => w.(threads := w.threads - {(p, id)}, due := w.due + {(p, id)})
    case Inspect(p, id) => Inspected(w, p, id)
    case Take(p, id) => Took(w, p, id)
    case FailUntouched(p, id) => FailedUntouched(w, p, id)
    case Judge(p, id, outcome) => Done(w.(db := Finished(w.db, id, outcome, Some(p), w.now)), p, id)
    case Postpone(p, id) => w.(looks := w.looks - {(p, id)})
    case AskCancel(id, cancellable) => w.(db := CancelAsked(w.db, id, cancellable, w.now))
    case OverTime(p, id) => w.(db := Limited(w.db, p, id))
    case EndInRequest(id, outcome) => w.(db := Finished(w.db, id, outcome, None, w.now))
    case ResolveJob(id, outcome) => w.(db := Resolved(w.db, id, outcome))
    case Keep(dropped, _) => w.(db := Cleaned(w.db, dropped, w.now))
  }

  /** An event that cannot happen changes nothing. */
  ghost function Apply(w: World, e: Event): World {
    if Enabled(w, e) then Effect(w, e) else w
  }

  ghost function Run(w: World, events: seq<Event>): World
    decreases |events|
  {
    if events == [] then w else Run(Apply(w, events[0]), events[1..])
  }

  // -- what every reachable world keeps ------------------------------------

  /** Two live claims on one resource that exclude each other. */
  predicate Clash(w: World, a: ClaimId, b: ClaimId) {
    && a in w.db.claims && b in w.db.claims && a != b && a.resource == b.resource
    && Live(w.db.claims[a], w.now) && Live(w.db.claims[b], w.now)
    && !Compatible(w.db.claims[a].mode, w.db.claims[b].mode)
  }

  /** A claim row belongs to a past admission; a job's, to a job that keeps its claims. */
  predicate RowOk(w: World, c: ClaimId) {
    c in w.db.claims ==>
      && c.grant < w.db.nextGrant
      && (w.db.claims[c].OfJob? ==>
            var id := w.db.claims[c].job;
            && id in w.db.ops && Keeps(w.db.ops[id].state)
            && c.grant == w.db.ops[id].grant && c.grant !in w.blocks && c.resource in w.db.ops[id].plan)
  }

  /** A job that keeps its claims has the row of each it planned. */
  predicate PlanOk(w: World, id: Id, r: Resource) {
    id in w.db.ops && Keeps(w.db.ops[id].state) && r in w.db.ops[id].plan ==>
      var c := ClaimId(w.db.ops[id].grant, r);
      c in w.db.claims && w.db.claims[c] == OfJob(id, w.db.ops[id].plan[r])
  }

  /** A block that has not outlived its claims has the row of each. */
  predicate BlockOk(w: World, g: nat, r: Resource) {
    g in w.blocks ==>
      && g < w.db.nextGrant && w.blocks[g].holder in w.alive
      && (r in w.blocks[g].wanted && w.now < w.blocks[g].expires ==>
            var c := ClaimId(g, r);
            c in w.db.claims && w.db.claims[c] ==
                  Transient(w.blocks[g].holder, w.blocks[g].expires, w.blocks[g].wanted[r]))
  }

  predicate OpSound(op: Op, now: Time) {
    && (op.state.Queued? ==> op.worker == Nobody && !op.effectsStarted)
    && (op.worker.By? <==> op.starts == 1) && op.starts <= 1
    && (op.worker.Nobody? ==> op.state.Queued? || op.state.Cancelled?)
    && op.ends == (if Active(op.state) then 0 else 1)
    && op.createdAt <= now
    && (if Active(op.state) then op.finishedAt.None?
        else op.finishedAt.Some? && op.createdAt <= op.finishedAt.value <= now)
    && (op.untouched ==> op.state == Failed && op.worker.By? && !op.effectsStarted)
  }

  predicate OpOk(w: World, id: Id) {
    id in w.db.ops ==>
      var op := w.db.ops[id];
      && OpSound(op, w.now)
      && (op.key == Sent(op.sent) || op.key == Expired(id))
      && id in w.made && w.made[id] == Made(op.user, op.sent, op.kind, op.params, op.plan, op.createdAt)
  }

  /** What a process's thread, recovery entry and inspection know of a job. */
  predicate PairOk(w: World, x: (Process, Id)) {
    var known := x.1 in w.db.ops;
    var own := known && w.db.ops[x.1].worker == By(x.0);
    && (x in w.threads || x in w.due ==> x.0 in w.ready && x.1 in w.made && (known ==> w.db.ops[x.1].worker.By?))
    && (x in w.threads ==>
          && x !in w.due
          && (own ==> (w.threads[x] ==> w.db.ops[x.1].effectsStarted) && Begun(w.db.ops[x.1].state)))
    && (x in w.looks ==>
          && x in w.due
          && (w.looks[x].OfOther? ==> w.looks[x].previous != x.0)
          && (w.looks[x].Owned? && own ==> w.db.ops[x.1].effectsStarted == w.looks[x].effectsStarted))
  }

  /** A job stays findable by the key the client sent for as long as the key lives. */
  predicate MadeOk(w: World, id: Id) {
    id in w.made ==>
      && w.made[id].at <= w.now
      && (w.made[id].at >= w.now - SUBMISSION_KEY_TTL ==> id in w.db.ops && w.db.ops[id].key == Sent(w.made[id].key))
  }

  /** Two jobs of one user and key made within the key's life. */
  predicate Twice(w: World, a: Id, b: Id) {
    && a in w.made && b in w.made && a != b && w.made[a].user == w.made[b].user && w.made[a].key == w.made[b].key
    && w.made[a].at <= w.made[b].at <= w.made[a].at + SUBMISSION_KEY_TTL
  }

  ghost predicate ClaimsOk(w: World) {
    && (forall a, b :: !Clash(w, a, b))
    && (forall c :: RowOk(w, c))
    && (forall id, r :: PlanOk(w, id, r))
    && (forall g, r :: BlockOk(w, g, r))
  }

  ghost predicate JobsOk(w: World) {
    && (forall id :: OpOk(w, id))
    && KeysUnique(w.db)
    && (forall id :: MadeOk(w, id))
    && (forall a, b :: !Twice(w, a, b))
  }

  ghost predicate PairsOk(w: World) {
    forall x :: PairOk(w, x)
  }

  ghost predicate Sound(w: World) {
    ClaimsOk(w) && JobsOk(w) && PairsOk(w)
  }
}
