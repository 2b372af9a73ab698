/** Processes and nodes in every reachable world: whose lease it is, and that a
    job's thread, its recovery and an upload's requests keep out of each
    other's way. */
module WorldNodes {
  import opened Wrappers
  import opened Records
  import opened Leases
  import opened Claims
  import opened Jobs
  import opened Workers
  import opened Worlds
  import opened WorldProofs
  import opened WorldTheorems

  predicate Runs(w: World, p: Process) { p in w.alive && p in w.workers }

  /** One worker runs per node. */
  predicate OneWorker(w: World, p: Process, q: Process) {
    Runs(w, p) && Runs(w, q) && p.host == q.host ==> p == q
  }

  /** Processes that were started, and workers among them that are ready or hold the lease. */
  predicate ProcessOk(w: World, p: Process) {
    && (p in w.alive || p in w.workers ==> p in w.used)
    && (p in w.ready ==> p in w.workers)
    && (w.db.lease.Some? && w.db.lease.value.holder == p ==> p in w.workers)
  }

  /** Threads and inspections are of workers that run; a job stays on the node
      its thread was started on for as long as it runs. */
  predicate WorkerOk(w: World, x: (Process, Id)) {
    && (x in w.threads || x in w.due || x in w.looks ==> Runs(w, x.0))
    && (x in w.threads && x.1 in w.db.ops && Begun(w.db.ops[x.1].state) ==>
          w.db.ops[x.1].worker.By? && w.db.ops[x.1].worker.process.host == x.0.host)
  }

  /** An inspection that owns its job runs on the node of the job's thread. */
  predicate SameNode(w: World, p: Process, q: Process, id: Id) {
    (p, id) in w.threads && (q, id) in w.looks && w.looks[(q, id)].Owned? ==> p.host == q.host
  }

  ghost predicate NodesOk(w: World) {
    && (forall p, q :: OneWorker(w, p, q))
    && (forall p :: ProcessOk(w, p))
    && (forall x :: WorkerOk(w, x))
    && (forall p, q, id :: SameNode(w, p, q, id))
  }

  // -- events that start no thread and take no job over ----------------------------------

  /** A job that runs after the event ran before it, for the same worker, or is new. */
  predicate RowRuns(w: World, w': World, id: Id) {
    id in w'.db.ops && Begun(w'.db.ops[id].state) ==>
      id !in w.made || (id in w.db.ops && Begun(w.db.ops[id].state) && w'.db.ops[id].worker == w.db.ops[id].worker)
  }

  /** The processes stay, and threads and inspections only end. */
  predicate Quiet(w: World, w': World) {
    && w'.alive == w.alive && w'.workers == w.workers && w'.used == w.used && w'.ready == w.ready
    && w'.db.lease == w.db.lease
    && w'.threads.Keys <= w.threads.Keys && w'.due <= w.due
    && (forall x <- w'.looks :: x in w.looks && w'.looks[x] == w.looks[x])
  }

  lemma QuietKeepsNodes(w: World, w': World)
    requires Sound(w) && NodesOk(w) && Quiet(w, w') && forall id :: RowRuns(w, w', id)
    ensures NodesOk(w')
  {
    forall p, q ensures OneWorker(w', p, q) { assert OneWorker(w, p, q); }
    forall p ensures ProcessOk(w', p) { assert ProcessOk(w, p); }
    forall x ensures WorkerOk(w', x) { assert WorkerOk(w, x) && PairOk(w, x) && RowRuns(w, w', x.1); }
    forall p, q, id ensures SameNode(w', p, q, id) { assert SameNode(w, p, q, id); }
  }

  predicate IsQuiet(e: Event) {
    || e.Tick? || e.Enter? || e.Leave? || e.Look? || e.Submit? || e.Record? || e.EndThread? || e.Abandon?
    || e.FailUntouched?
    || e.Judge? || e.Postpone? || e.AskCancel? || e.OverTime? || e.EndInRequest? || e.ResolveJob? || e.Keep?
  }

  lemma QuietEvent(w: World, e: Event)
    requires Enabled(w, e) && IsQuiet(e)
    ensures Quiet(w, Effect(w, e))
  {
    if e.Look? {
      LookKeepsLease(w.db, e.q, w.now);
    } else if e.Submit? {
      AdmissionKeepsLease(w.db, e.id, e.q, e.plan, e.inRequest, w.now, e.dead);
    } else {
      OtherQuietEvent(w, e);
    }
  }

  lemma LookKeepsLease(t: Tables, q: Request, now: Time)
    ensures Looked(t, q, now).0.lease == t.lease
  {
  }

  lemma AdmissionKeepsLease(t: Tables, id: Id, q: Request, plan: Wanted, inRequest: bool, now: Time, dead: set<Process>)
    ensures JobAdmitted(t, id, q, plan, inRequest, now, dead).lease == t.lease
  {
    LookKeepsLease(t, q, now);
  }

  lemma OtherQuietEvent(w: World, e: Event)
    requires Enabled(w, e) && IsQuiet(e) && !e.Look? && !e.Submit?
    ensures Quiet(w, Effect(w, e))
  {
    if OfWorker(e) { QuietWorkerEvent(w, e); } else { QuietUserEvent(w, e); }
  }

  lemma QuietWorkerEvent(w: World, e: Event)
    requires Enabled(w, e) && IsQuiet(e) && OfWorker(e)
    ensures Quiet(w, Effect(w, e))
  {
  }

  lemma QuietUserEvent(w: World, e: Event)
    requires Enabled(w, e) && IsQuiet(e) && !e.Look? && !e.Submit? && !OfWorker(e)
    ensures Quiet(w, Effect(w, e))
  {
  }

  lemma QuietRows(w: World, e: Event, id: Id)
    requires Sound(w) && Enabled(w, e) && IsQuiet(e)
    ensures RowRuns(w, Effect(w, e), id)
  {
    assert OpOk(w, id);
    if e.Look? {
      LookRenamesOnly(w.db, e.q, w.now);
    } else if e.Submit? {
      AdmissionAddsOne(w.db, e.id, e.q, e.plan, e.inRequest, w.now, e.dead);
      if id in w.db.ops { AdmissionRenamesOnly(w.db, e.id, e.q, e.plan, e.inRequest, w.now, e.dead, id); }
    } else {
      OtherQuietRows(w, e, id);
    }
  }

  lemma OtherQuietRows(w: World, e: Event, id: Id)
    requires OpOk(w, id) && Enabled(w, e) && IsQuiet(e) && !e.Look? && !e.Submit?
    ensures RowRuns(w, Effect(w, e), id)
  {
    if OfWorker(e) { QuietWorkerRows(w, e, id); } else { QuietUserRows(w, e, id); }
  }

  lemma QuietWorkerRows(w: World, e: Event, id: Id)
    requires OpOk(w, id) && Enabled(w, e) && IsQuiet(e) && OfWorker(e)
    ensures RowRuns(w, Effect(w, e), id)
  {
  }

  lemma QuietUserRows(w: World, e: Event, id: Id)
    requires OpOk(w, id) && Enabled(w, e) && IsQuiet(e) && !e.Look? && !e.Submit? && !OfWorker(e)
    ensures RowRuns(w, Effect(w, e), id)
  {
  }

  // -- the others --------------------------------------------------------------------------

  predicate OfNodes(e: Event) {
    e.Launch? || e.Die? || e.Acquire? || e.Renew? || e.Orphans? || e.LeaveToRecovery? || e.Inspect?
  }

  /** Processes come and go, the lease passes, jobs are listed for recovery. */
  lemma NodeEventKeepsNodes(w: World, e: Event)
    requires Sound(w) && NodesOk(w) && Enabled(w, e) && OfNodes(e)
    ensures NodesOk(Effect(w, e))
  {
    NodeEventKeepsProcesses(w, e);
    forall x ensures WorkerOk(Effect(w, e), x) {
      assert WorkerOk(w, x) && PairOk(w, x);
      if e.Orphans? || e.LeaveToRecovery? {
        ListingKeepsWorker(w, e, x);
      } else {
        NodeEventKeepsWorker(w, e, x);
      }
    }
    forall p, q, id ensures SameNode(Effect(w, e), p, q, id) {
      assert SameNode(w, p, q, id) && WorkerOk(w, (p, id));
      NodeEventKeepsSame(w, e, p, q, id);
    }
  }

  lemma NodeEventKeepsProcesses(w: World, e: Event)
    requires NodesOk(w) && Enabled(w, e) && OfNodes(e)
    ensures (forall p, q :: OneWorker(Effect(w, e), p, q)) && (forall p :: ProcessOk(Effect(w, e), p))
  {
    var w' := Effect(w, e);
    forall p, q ensures OneWorker(w', p, q) { assert OneWorker(w, p, q) && ProcessOk(w, p) && ProcessOk(w, q); }
    forall p ensures ProcessOk(w', p) { assert ProcessOk(w, p); }
  }

  lemma ListingKeepsWorker(w: World, e: Event, x: (Process, Id))
    requires WorkerOk(w, x) && Enabled(w, e) && (e.Orphans? || e.LeaveToRecovery?)
    requires e.LeaveToRecovery? ==> WorkerOk(w, (e.p, e.id))
    ensures WorkerOk(Effect(w, e), x)
  {
  }

  lemma NodeEventKeepsWorker(w: World, e: Event, x: (Process, Id))
    requires WorkerOk(w, x) && PairOk(w, x) && Enabled(w, e) && OfNodes(e) && !e.Orphans? && !e.LeaveToRecovery?
    requires e.Inspect? ==> WorkerOk(w, (e.p, e.id))
    ensures WorkerOk(Effect(w, e), x)
  {
  }

  lemma NodeEventKeepsSame(w: World, e: Event, p: Process, q: Process, id: Id)
    requires SameNode(w, p, q, id) && WorkerOk(w, (p, id)) && Enabled(w, e) && OfNodes(e)
    ensures SameNode(Effect(w, e), p, q, id)
  {
  }

  lemma StartKeepsNodes(w: World, p: Process, id: Id)
    requires Sound(w) && NodesOk(w) && Enabled(w, StartJob(p, id))
    ensures NodesOk(Effect(w, StartJob(p, id)))
  {
    var w' := Effect(w, StartJob(p, id));
    forall a, b ensures OneWorker(w', a, b) { assert OneWorker(w, a, b); }
    forall a ensures ProcessOk(w', a) { assert ProcessOk(w, a); }
    forall x ensures WorkerOk(w', x) { assert WorkerOk(w, x) && PairOk(w, x) && ProcessOk(w, p) && OpOk(w, x.1); }
    forall a, b, i ensures SameNode(w', a, b, i) { assert SameNode(w, a, b, i) && PairOk(w, (b, i)) && OpOk(w, i); }
  }

  lemma TakeKeepsNodes(w: World, p: Process, id: Id)
    requires Sound(w) && NodesOk(w) && Enabled(w, Take(p, id))
    ensures NodesOk(Effect(w, Take(p, id)))
  {
    var w' := Effect(w, Take(p, id));
    if MayTakeOver(w.db, p, id, w.looks[(p, id)].previous) {
      TakenOverIsOneRow(w.db, p, id, w.looks[(p, id)].previous, w.now);
    }
    forall a, b ensures OneWorker(w', a, b) { assert OneWorker(w, a, b); }
    forall a ensures ProcessOk(w', a) { assert ProcessOk(w, a); }
    forall x ensures WorkerOk(w', x) { assert WorkerOk(w, x); }
    forall a, b, i ensures SameNode(w', a, b, i) { assert SameNode(w, a, b, i) && WorkerOk(w, (a, i)); }
  }

  lemma StepKeepsNodes(w: World, e: Event)
    requires Sound(w) && NodesOk(w)
    ensures NodesOk(Apply(w, e))
  {
    if Enabled(w, e) {
      if IsQuiet(e) {
        QuietEvent(w, e);
        forall id ensures RowRuns(w, Effect(w, e), id) { QuietRows(w, e, id); }
        QuietKeepsNodes(w, Effect(w, e));
      } else if e.StartJob? {
        StartKeepsNodes(w, e.p, e.id);
      } else if e.Take? {
        TakeKeepsNodes(w, e.p, e.id);
      } else {
        NodeEventKeepsNodes(w, e);
      }
    }
  }

  lemma {:induction false} RunsKeepNodes(w: World, events: seq<Event>)
    requires Sound(w) && NodesOk(w)
    ensures Sound(Run(w, events)) && NodesOk(Run(w, events))
    decreases |events|
  {
    if events != [] {
      StepKeepsSound(w, events[0]);
      StepKeepsNodes(w, events[0]);
      RunsKeepNodes(Apply(w, events[0]), events[1..]);
    }
  }

  lemma ReachableNodes(events: seq<Event>)
    ensures Sound(Run(EMPTY, events)) && NodesOk(Run(EMPTY, events))
  {
    RunsKeepNodes(EMPTY, events);
  }

  // -- what follows -------------------------------------------------------------------------

  /** The lease passes only to a worker that acquires it, and only from a
      process that ended or was silent for TAKEOVER_AFTER: a worker that runs
      and renews in time is never displaced. */
  lemma LeasePassesFromDeadOrSilent(events: seq<Event>, e: Event)
    requires var w := Run(EMPTY, events);
             && w.db.lease.Some? && Apply(w, e).db.lease.Some?
             && Apply(w, e).db.lease.value.holder != w.db.lease.value.holder
    ensures var w := Run(EMPTY, events);
            && e.Acquire? && Runs(w, e.p) && Apply(w, e).db.lease == Some(Lease(e.p, w.now))
            && (w.db.lease.value.holder !in w.alive || w.db.lease.value.heartbeatAt < w.now - TAKEOVER_AFTER)
  {
    ReachableNodes(events);
    LeasePasses(Run(EMPTY, events), e);
  }

  lemma LeasePasses(w: World, e: Event)
    requires NodesOk(w) && w.db.lease.Some? && Apply(w, e).db.lease.Some?
    requires Apply(w, e).db.lease.value.holder != w.db.lease.value.holder
    ensures e.Acquire? && Runs(w, e.p) && Apply(w, e).db.lease == Some(Lease(e.p, w.now))
    ensures w.db.lease.value.holder !in w.alive || w.db.lease.value.heartbeatAt < w.now - TAKEOVER_AFTER
  {
    LeaseMoves(w, e);
    var holder := w.db.lease.value.holder;
    assert OneWorker(w, holder, e.p) && ProcessOk(w, holder);
  }

  lemma LeaseMoves(w: World, e: Event)
    requires w.db.lease.Some? && Apply(w, e).db.lease.Some?
    requires Apply(w, e).db.lease.value.holder != w.db.lease.value.holder
    ensures e.Acquire? && Enabled(w, e)
  {
    if Enabled(w, e) {
      if IsQuiet(e) {
        QuietEvent(w, e);
      } else if e.Take? && MayTakeOver(w.db, e.p, e.id, w.looks[(e.p, e.id)].previous) {
        TakenOverIsOneRow(w.db, e.p, e.id, w.looks[(e.p, e.id)].previous, w.now);
      }
    }
  }

  /** No recovery works on a job while any process's thread may act on it. */
  lemma RecoveryRunsAlone(events: seq<Event>, p: Process, q: Process, id: Id)
    requires var w := Run(EMPTY, events); (q, id) in w.looks && w.looks[(q, id)].Owned?
    ensures (p, id) !in Run(EMPTY, events).threads
  {
    ReachableNodes(events);
    var w := Run(EMPTY, events);
    assert PairOk(w, (q, id)) && SameNode(w, p, q, id) && OneWorker(w, p, q);
    assert WorkerOk(w, (p, id)) && WorkerOk(w, (q, id));
  }

  /** An upload's chunk requests and its ending, each in its session claim's
      life, run one at a time. */
  lemma UploadRequestsTakeTurns(events: seq<Event>, g: nat, h: nat, upload: Id)
    requires var w := Run(EMPTY, events);
             && g in w.blocks && h in w.blocks && w.now < w.blocks[g].expires && w.now < w.blocks[h].expires
             && SessionKey(upload) in w.blocks[g].wanted && w.blocks[g].wanted[SessionKey(upload)] == Exclusive
             && SessionKey(upload) in w.blocks[h].wanted
    ensures g == h
  {
    if g != h {
      BlocksExclude(events, g, h, SessionKey(upload));
    }
  }
}
