/** What the sound worlds mean: safety over every run of panel, workers and
    clients from an empty database. */
module WorldTheorems {
  import opened Wrappers
  import opened Records
  import opened Leases
  import opened Claims
  import opened Jobs
  import opened Workers
  import opened Worlds
  import opened WorldProofs

  lemma ReachableIsSound(events: seq<Event>)
    ensures Sound(Run(EMPTY, events))
  {
    RunsAreSound(EMPTY, events);
  }

  // -- claims -----------------------------------------------------------------

  /** Two live claims on one resource are both shared. */
  lemma LiveClaimsAgree(events: seq<Event>, a: ClaimId, b: ClaimId)
    requires var w := Run(EMPTY, events);
             && a in w.db.claims && b in w.db.claims && a != b && a.resource == b.resource
             && Live(w.db.claims[a], w.now) && Live(w.db.claims[b], w.now)
    ensures var w := Run(EMPTY, events); w.db.claims[a].mode == w.db.claims[b].mode == Shared
  {
    ReachableIsSound(events);
    assert !Clash(Run(EMPTY, events), a, b);
  }

  /** A job's rows are exactly its plan until it ended, and none from then on. */
  lemma JobsHoldTheirPlans(events: seq<Event>, id: Id)
    requires id in Run(EMPTY, events).db.ops
    ensures var w := Run(EMPTY, events);
            && id in w.made
            && var op, plan := w.db.ops[id], w.made[id].plan;
            && OwnClaims(w.db.claims, id) ==
                 (if op.state in {Succeeded, Failed, Cancelled} then {} else set r | r in plan :: ClaimId(op.grant, r))
            && forall c <- OwnClaims(w.db.claims, id) :: w.db.claims[c].mode == plan[c.resource]
  {
    ReachableIsSound(events);
    var w := Run(EMPTY, events);
    var op := w.db.ops[id];
    assert OpOk(w, id);
    forall c | c in OwnClaims(w.db.claims, id)
      ensures Keeps(op.state) && c == ClaimId(op.grant, c.resource) && c.resource in op.plan
              && w.db.claims[c].mode == op.plan[c.resource]
    {
      assert RowOk(w, c) && PlanOk(w, id, c.resource);
    }
    forall r | r in op.plan && Keeps(op.state) ensures ClaimId(op.grant, r) in OwnClaims(w.db.claims, id) {
      assert PlanOk(w, id, r);
    }
  }

  /** Two blocks inside their claims' life that share a resource both share it. */
  lemma BlocksExclude(events: seq<Event>, g: nat, h: nat, r: Resource)
    requires var w := Run(EMPTY, events);
             && g != h && g in w.blocks && h in w.blocks
             && r in w.blocks[g].wanted && r in w.blocks[h].wanted
             && w.now < w.blocks[g].expires && w.now < w.blocks[h].expires
    ensures var w := Run(EMPTY, events); w.blocks[g].wanted[r] == w.blocks[h].wanted[r] == Shared
  {
    ReachableIsSound(events);
    var w := Run(EMPTY, events);
    SoundBlocksExclude(w, g, h, r);
  }

  lemma SoundBlocksExclude(w: World, g: nat, h: nat, r: Resource)
    requires Sound(w)
    requires g != h && g in w.blocks && h in w.blocks
    requires r in w.blocks[g].wanted && r in w.blocks[h].wanted
    requires w.now < w.blocks[g].expires && w.now < w.blocks[h].expires
    ensures w.blocks[g].wanted[r] == w.blocks[h].wanted[r] == Shared
  {
    assert BlockOk(w, g, r) && BlockOk(w, h, r) && !Clash(w, ClaimId(g, r), ClaimId(h, r));
  }

  /** A block inside its claims' life and a job that keeps its own exclude each other. */
  lemma SoundBlockExcludesJob(w: World, g: nat, id: Id, r: Resource)
    requires Sound(w)
    requires g in w.blocks && r in w.blocks[g].wanted && w.now < w.blocks[g].expires
    requires id in w.db.ops && Keeps(w.db.ops[id].state) && r in w.db.ops[id].plan
    ensures w.blocks[g].wanted[r] == w.db.ops[id].plan[r] == Shared
  {
    assert BlockOk(w, g, r) && PlanOk(w, id, r);
    var c := ClaimId(w.db.ops[id].grant, r);
    assert RowOk(w, c) && !Clash(w, ClaimId(g, r), c);
  }

  // -- the states of a job ------------------------------------------------------

  /** The worker process an event is the work of. */
  function Author(e: Event): Option<Process> {
    match e
    case StartJob(p, _) => Some(p)
    case Record(p, _, _) => Some(p)
    case EndThread(p, _, _) => Some(p)
    case Take(p, _) => Some(p)
    case FailUntouched(p, _) => Some(p)
    case Judge(p, _, _) => Some(p)
    case OverTime(p, _) => Some(p)
    case _ => None
  }

  /** The states an event may lead to from a state. */
  predicate Edge(a: State, b: State, e: Event) {
    || a == b
    || (a == Queued && b == Running && e.StartJob?)
    || (a == Queued && b == Cancelled && e.AskCancel?)
    || (a == Running && b == Cancelling && (e.AskCancel? || e.OverTime?))
    || (a in {Running, Cancelling} && b in {Succeeded, Failed, Cancelled} && e.EndInRequest? && b == e.outcome)
    || (a in {Running, Cancelling} && b in {Succeeded, Failed, Cancelled, Uncertain} && e.Judge? && b == e.outcome)
    || (a in {Running, Cancelling} && b in {Succeeded, Failed, Cancelled} && e.EndThread? && b == e.outcome)
    || (a in {Running, Cancelling} && b == Failed && e.FailUntouched?)
    || (a in {Running, Cancelling} && b == Uncertain && e.Take?)
    || (a == Uncertain && b in {Succeeded, Failed} && e.ResolveJob? && b == e.outcome)
  }

  /** What an event may do to a job's row. */
  predicate RowStep(a: Op, b: Op, e: Event) {
    && Edge(a.state, b.state, e)
    && (a.worker == ByRequest <==> b.worker == ByRequest)
    && (Ended(a.state) ==> b == a.(key := b.key))
    && (b.effectsStarted != a.effectsStarted ==> e.Record? && Begun(a.state) && b.effectsStarted)
    // a recovery asks libvirt only about a job that recorded an intent, and fails any other
    && (b.state != a.state && e.Judge? ==> a.effectsStarted)
    && (b.state != a.state && e.FailUntouched? ==> !a.effectsStarted)
  }

  /** Every event moves a job along an edge, and leaves an ended job as it is;
      only a resolution ends "uncertain". */
  lemma StatesFollowEdges(w: World, e: Event, id: Id)
    requires Sound(w) && id in w.db.ops && id in Apply(w, e).db.ops
    ensures RowStep(w.db.ops[id], Apply(w, e).db.ops[id], e)
  {
    if Author(e).Some? {
      WorkersStepRows(w, e, id);
    } else if e.Submit? || e.Look? {
      SubmissionsStepRows(w, e, id);
    } else if OfProcess(e) {
      if Enabled(w, e) {
        ProcessEventFrames(w, e);
      }
    } else {
      UsersStepRows(w, e, id);
    }
  }

  /** Cancels, resolutions, the ends of request-run jobs, and what no job sees. */
  lemma UsersStepRows(w: World, e: Event, id: Id)
    requires Sound(w) && id in w.db.ops && id in Apply(w, e).db.ops
    requires Author(e).None? && !e.Submit? && !e.Look? && !OfProcess(e)
    ensures RowStep(w.db.ops[id], Apply(w, e).db.ops[id], e)
  {
    if Enabled(w, e) {
      assert OpOk(w, id);
    }
  }

  lemma SubmissionsStepRows(w: World, e: Event, id: Id)
    requires Sound(w) && id in w.db.ops && id in Apply(w, e).db.ops && (e.Submit? || e.Look?)
    ensures RowStep(w.db.ops[id], Apply(w, e).db.ops[id], e)
  {
    assert OpOk(w, id);
    if e.Look? {
      LookRenamesOnly(w.db, e.q, w.now);
    } else if Enabled(w, e) {
      AdmissionRenamesOnly(w.db, e.id, e.q, e.plan, e.inRequest, w.now, e.dead, id);
    }
  }

  /** _existing changes no row but the key of an expired one, and adds none. */
  lemma LookRenamesOnly(t: Tables, q: Request, now: Time)
    ensures Looked(t, q, now).0.ops.Keys == t.ops.Keys
    ensures forall i <- t.ops :: Looked(t, q, now).0.ops[i] == t.ops[i].(key := Looked(t, q, now).0.ops[i].key)
  {
  }

  /** Nor does an admission, but for its own job. */
  lemma AdmissionRenamesOnly(t: Tables, own: Id, q: Request, plan: Wanted, inRequest: bool, now: Time,
                             dead: set<Process>, id: Id)
    requires id in t.ops && id != own
    ensures var t' := JobAdmitted(t, own, q, plan, inRequest, now, dead);
            id in t'.ops && t'.ops[id] == t.ops[id].(key := t'.ops[id].key)
  {
    LookRenamesOnly(t, q, now);
  }

  lemma WorkersStepRows(w: World, e: Event, id: Id)
    requires Sound(w) && id in w.db.ops && id in Apply(w, e).db.ops && Author(e).Some?
    ensures RowStep(w.db.ops[id], Apply(w, e).db.ops[id], e)
  {
    if Enabled(w, e) && id == e.id {
      assert OpOk(w, id) && PairOk(w, (e.p, id));
      if e.Take? {
        TakeStepsRow(w, e.p, id);
      }
    } else {
      WorkersWriteOneRow(w, e, id);
    }
  }

  lemma TakeStepsRow(w: World, p: Process, id: Id)
    requires id in w.db.ops && OpOk(w, id) && Enabled(w, Take(p, id))
    ensures id in Took(w, p, id).db.ops && RowStep(w.db.ops[id], Took(w, p, id).db.ops[id], Take(p, id))
  {
    var previous := w.looks[(p, id)].previous;
    if MayTakeOver(w.db, p, id, previous) {
      TakenOverIsOneRow(w.db, p, id, previous, w.now);
      TakenRowSteps(w.db.ops[id], p, previous, w.now, Take(p, id));
    }
  }

  lemma TakenRowSteps(op: Op, me: Process, previous: Process, now: Time, e: Event)
    requires op.worker.By? && Begun(op.state) && e.Take?
    ensures RowStep(op, TakenRow(op, me, previous, now), e)
  {
  }

  lemma WorkersWriteOneRow(w: World, e: Event, id: Id)
    requires id in w.db.ops && Author(e).Some? && (Enabled(w, e) ==> id != e.id)
    ensures id in Apply(w, e).db.ops && Apply(w, e).db.ops[id] == w.db.ops[id]
  {
  }

  /** run starts at most once and finish takes effect at most once, however
      many workers, restarts and take-overs there are; a started thread is that run. */
  lemma RunsAndEndsOnce(events: seq<Event>, id: Id)
    requires id in Run(EMPTY, events).db.ops
    ensures var op := Run(EMPTY, events).db.ops[id];
            && op.starts <= 1 && op.ends <= 1 && (op.ends == 1 <==> !Active(op.state))
            && (op.state.Queued? ==> op.starts == 0)
  {
    ReachableIsSound(events);
    assert OpOk(Run(EMPTY, events), id);
  }

  /** A job its requests run has no thread, recovery or inspection anywhere. */
  lemma RequestJobsAreLeftAlone(events: seq<Event>, id: Id, p: Process)
    requires id in Run(EMPTY, events).db.ops && Run(EMPTY, events).db.ops[id].worker == ByRequest
    ensures var w := Run(EMPTY, events);
            && w.db.ops[id].starts == 0 && !w.db.ops[id].state.Queued?
            && (p, id) !in w.threads && (p, id) !in w.due && (p, id) !in w.looks
  {
    ReachableIsSound(events);
    assert OpOk(Run(EMPTY, events), id) && PairOk(Run(EMPTY, events), (p, id));
  }

  // -- failures of a job's own thread --------------------------------------------------

  /** A thread whose intent was committed, and that was told so, keeps knowing it. */
  lemma KnownStaysKnown(w: World, e: Event, p: Process, id: Id)
    requires Sound(w) && (p, id) in w.threads && w.threads[(p, id)]
    ensures (p, id) in Apply(w, e).threads ==> Apply(w, e).threads[(p, id)]
  {
    if e.StartJob? {
      StartKeepsKnown(w, e.p, e.id, p, id);
    } else if Author(e).Some? {
      WorkerKeepsKnown(w, e, p, id);
    } else {
      OthersKeepKnown(w, e, p, id);
    }
  }

  lemma StartKeepsKnown(w: World, q: Process, job: Id, p: Process, id: Id)
    requires Sound(w) && (p, id) in w.threads && w.threads[(p, id)]
    ensures var w' := Apply(w, StartJob(q, job)); (p, id) in w'.threads ==> w'.threads[(p, id)]
  {
    assert PairOk(w, (p, id));
    if job in w.db.ops { assert OpOk(w, job); }
  }

  lemma WorkerKeepsKnown(w: World, e: Event, p: Process, id: Id)
    requires (p, id) in w.threads && w.threads[(p, id)] && !e.StartJob? && Author(e).Some?
    ensures (p, id) in Apply(w, e).threads ==> Apply(w, e).threads[(p, id)]
  {
  }

  lemma OthersKeepKnown(w: World, e: Event, p: Process, id: Id)
    requires (p, id) in w.threads && w.threads[(p, id)] && Author(e).None?
    ensures (p, id) in Apply(w, e).threads ==> Apply(w, e).threads[(p, id)]
  {
  }

  /** From an intent a thread committed on, as long as it lives: the thread does
      not fail its job itself. What happened to it is the recovery's to say. */
  lemma {:induction false} AfterIntentThreadsFailNothing(w: World, p: Process, id: Id, events: seq<Event>)
    requires Sound(w) && (p, id) in w.threads && HoldsLease(w.db, p) && Owns(w.db, p, id)
    requires forall i :: 0 <= i <= |events| ==> (p, id) in Run(Apply(w, Record(p, id, true)), events[..i]).threads
    ensures var w' := Run(Apply(w, Record(p, id, true)), events);
            Apply(w', EndThread(p, id, Failed)) == w'
  {
    StepKeepsSound(w, Record(p, id, true));
    KnownThroughout(Apply(w, Record(p, id, true)), p, id, events);
  }

  lemma {:induction false} KnownThroughout(w: World, p: Process, id: Id, events: seq<Event>)
    requires Sound(w) && (p, id) in w.threads && w.threads[(p, id)]
    requires forall i :: 0 <= i <= |events| ==> (p, id) in Run(w, events[..i]).threads
    ensures var w' := Run(w, events); (p, id) in w'.threads && w'.threads[(p, id)]
    decreases |events|
  {
    if events != [] {
      var w1 := Apply(w, events[0]);
      StepKeepsSound(w, events[0]);
      KnownStaysKnown(w, events[0], p, id);
      forall i | 0 <= i <= |events[1..]| ensures (p, id) in Run(w1, events[1..][..i]).threads {
        assert events[..i + 1][0] == events[0] && events[..i + 1][1..] == events[1..][..i];
        assert (p, id) in Run(w, events[..i + 1]).threads;
      }
      assert events[1..][..0] == [] && Run(w1, []) == w1;
      KnownThroughout(w1, p, id, events[1..]);
    }
  }

  // -- fencing --------------------------------------------------------------------

  /** What a worker commits, it commits while it holds the lease, to one job,
      which then is its own. */
  lemma WorkersWriteFenced(w: World, e: Event)
    requires Author(e).Some? && Apply(w, e).db != w.db
    ensures HoldsLease(w.db, Author(e).value)
    ensures e.id in Apply(w, e).db.ops && Apply(w, e).db.ops[e.id].worker == By(Author(e).value)
    ensures forall id <- w.db.ops :: id != e.id ==> id in Apply(w, e).db.ops && Apply(w, e).db.ops[id] == w.db.ops[id]
  {
    if e.Take? {
      TakenOverIsOneRow(w.db, e.p, e.id, w.looks[(e.p, e.id)].previous, w.now);
    }
  }

  /** A job of a worker on another host is touched by a worker only to end it
      uncertain, in the event that takes it over. */
  lemma OtherHostsJobsEndUncertain(w: World, e: Event, id: Id)
    requires Sound(w) && Author(e).Some? && id in w.db.ops && w.db.ops[id].worker.By?
    requires w.db.ops[id].worker.process.host != Author(e).value.host
    requires id in Apply(w, e).db.ops && Apply(w, e).db.ops[id] != w.db.ops[id]
    ensures e.Take? && Apply(w, e).db.ops[id].state == Uncertain && Apply(w, e).db.ops[id].worker == By(Author(e).value)
  {
    WorkersWriteFenced(w, e);
    assert OpOk(w, id);
    if e.Take? {
      TakenOverIsOneRow(w.db, e.p, e.id, w.looks[(e.p, e.id)].previous, w.now);
    }
  }

  /** A job failed as stopped before it changed anything has recorded no
      intent, and never will, whatever thread of whatever worker still runs. */
  lemma {:induction false} UntouchedStaysUntouched(w: World, events: seq<Event>, id: Id)
    requires Sound(w) && id in w.db.ops && w.db.ops[id].untouched
    ensures var w' := Run(w, events);
            id in w'.db.ops ==>
              var op := w'.db.ops[id];
              op.untouched && !op.effectsStarted && op.state == Failed
    decreases |events|
  {
    assert OpOk(w, id);
    if events != [] {
      var w1 := Apply(w, events[0]);
      StepKeepsSound(w, events[0]);
      if id in w1.db.ops {
        StatesFollowEdges(w, events[0], id);
        UntouchedStaysUntouched(w1, events[1..], id);
      } else {
        assert OpOk(w, id);
        MadeStaysMade(w, events[0], id);
        DeletedStaysDeleted(w1, events[1..], id);
      }
    }
  }

  lemma MadeStaysMade(w: World, e: Event, id: Id)
    requires id in w.made
    ensures id in Apply(w, e).made
  {
  }

  lemma DeletedIsNotRemade(w: World, e: Event, id: Id)
    requires id in w.made && id !in w.db.ops
    ensures id !in Apply(w, e).db.ops
  {
    if e.Look? {
      LookRenamesOnly(w.db, e.q, w.now);
    } else if e.Submit? {
      AdmissionAddsOne(w.db, e.id, e.q, e.plan, e.inRequest, w.now, e.dead);
    } else if OfProcess(e) {
      if Enabled(w, e) {
        ProcessEventFrames(w, e);
      }
    } else if !e.Take? {
      OthersAddNone(w, e, id);
    }
  }

  lemma AdmissionAddsOne(t: Tables, id: Id, q: Request, plan: Wanted, inRequest: bool, now: Time, dead: set<Process>)
    ensures JobAdmitted(t, id, q, plan, inRequest, now, dead).ops.Keys <= t.ops.Keys + {id}
  {
    LookRenamesOnly(t, q, now);
  }

  lemma OthersAddNone(w: World, e: Event, id: Id)
    requires id !in w.db.ops && !e.Look? && !e.Submit? && !OfProcess(e) && !e.Take?
    ensures id !in Apply(w, e).db.ops
  {
  }

  /** No job comes back once housekeeping deleted it: its id is not used again. */
  lemma {:induction false} DeletedStaysDeleted(w: World, events: seq<Event>, id: Id)
    requires id in w.made && id !in w.db.ops
    ensures id !in Run(w, events).db.ops
    decreases |events|
  {
    if events != [] {
      MadeStaysMade(w, events[0], id);
      DeletedIsNotRemade(w, events[0], id);
      DeletedStaysDeleted(Apply(w, events[0]), events[1..], id);
    }
  }

  // -- submissions ------------------------------------------------------------------

  /** Within a key's life at most one job is made with it. */
  lemma OneJobPerKey(events: seq<Event>, a: Id, b: Id)
    requires var w := Run(EMPTY, events);
             a in w.made && b in w.made && a != b && w.made[a].user == w.made[b].user && w.made[a].key == w.made[b].key
    ensures var w := Run(EMPTY, events);
            w.made[b].at > w.made[a].at + SUBMISSION_KEY_TTL || w.made[a].at > w.made[b].at + SUBMISSION_KEY_TTL
  {
    ReachableIsSound(events);
    assert !Twice(Run(EMPTY, events), a, b) && !Twice(Run(EMPTY, events), b, a);
  }

  /** Every decision point of a submission - the first look, the look after a
      failed plan, the admission - that comes after its copy's admission and
      within the key's life finds that job, or a conflict when the copy asked
      for something else: never Busy, never the plan's error, and it changes nothing. */
  lemma LateCopiesFindTheJob(events: seq<Event>, id: Id, q: Request, other: Id, plan: Wanted, inRequest: bool,
                             dead: set<Process>)
    requires var w := Run(EMPTY, events);
             id in w.made && w.made[id].user == q.user && w.made[id].key == q.key
             && w.made[id].at >= w.now - SUBMISSION_KEY_TTL
    ensures var w := Run(EMPTY, events);
            && id in w.db.ops
            && Looked(w.db, q, w.now) == (w.db, Some(if w.made[id].kind == q.kind && w.made[id].params == q.params
                                                 then Existing(id) else Conflict))
            && JobAdmitted(w.db, other, q, plan, inRequest, w.now, dead) == w.db
  {
    ReachableIsSound(events);
    var w := Run(EMPTY, events);
    assert MadeOk(w, id) && OpOk(w, id) && Submitted(w.db, id, q);
    forall i | Submitted(w.db, i, q) ensures i == id { assert !KeysClash(w.db, i, id); }
  }

  /** Housekeeping deletes no job its key could still find, and none that has a claim. */
  lemma RetentionSparesTheWindow(events: seq<Event>, id: Id, days: nat)
    requires var w := Run(EMPTY, events); days >= 1 && Stale(w.db, id, w.now, days)
    ensures var w := Run(EMPTY, events);
            KeyExpired(w.db.ops[id], w.now) && Ended(w.db.ops[id].state) && OwnClaims(w.db.claims, id) == {}
  {
    ReachableIsSound(events);
    assert OpOk(Run(EMPTY, events), id);
    JobsHoldTheirPlans(events, id);
  }
}
