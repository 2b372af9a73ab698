/** Every event keeps the world sound. */
module WorldProofs {
  import opened Wrappers
  import opened Records
  import opened Leases
  import opened Claims
  import opened Jobs
  import opened Workers
  import opened Worlds

  // -- a row rewritten -------------------------------------------------------

  /** A job's row rewritten, its claims deleted with its end. */
  function Update(db: Tables, id: Id, op: Op): Tables {
    WithOp(db, id, op).(claims := if Ended(op.state) then DropJobClaims(db.claims, id) else db.claims)
  }

  /** What no rewrite of a row but a key's renaming changes. */
  predicate SameJob(a: Op, b: Op) {
    && a.user == b.user && a.sent == b.sent && a.kind == b.kind && a.params == b.params
    && a.plan == b.plan && a.grant == b.grant && a.createdAt == b.createdAt
    && a.key == b.key
  }

  /** w' is w with one job rewritten, and with any threads and inspections. */
  predicate Rewrites(w: World, w': World, id: Id, op: Op) {
    && id in w.db.ops && SameJob(w.db.ops[id], op) && OpSound(op, w.now)
    && (Keeps(op.state) ==> Keeps(w.db.ops[id].state))
    && w'.db == Update(w.db, id, op)
    && w'.now == w.now && w'.made == w.made && w'.blocks == w.blocks && w'.alive == w.alive
  }

  lemma RewriteKeepsClaims(w: World, w': World, id: Id, op: Op)
    requires ClaimsOk(w) && Rewrites(w, w', id, op)
    ensures ClaimsOk(w')
  {
    forall a, b ensures !Clash(w', a, b) { assert !Clash(w, a, b); }
    forall c ensures RowOk(w', c) { assert RowOk(w, c); }
    forall i, r ensures PlanOk(w', i, r) { assert PlanOk(w, i, r); }
    forall g, r ensures BlockOk(w', g, r) {
      assert BlockOk(w, g, r);
      assert RowOk(w, ClaimId(g, r));
    }
  }

  lemma RewriteKeepsJobs(w: World, w': World, id: Id, op: Op)
    requires JobsOk(w) && Rewrites(w, w', id, op)
    ensures JobsOk(w')
  {
    forall i ensures OpOk(w', i) { assert OpOk(w, i) && OpOk(w, id); }
    forall i ensures MadeOk(w', i) { assert MadeOk(w, i); }
    forall a, b ensures !Twice(w', a, b) { assert !Twice(w, a, b); }
    forall a, b ensures !KeysClash(w'.db, a, b) { assert !KeysClash(w.db, a, b); }
  }

  lemma RewriteKeepsOthers(w: World, w': World, id: Id, op: Op)
    requires ClaimsOk(w) && JobsOk(w) && Rewrites(w, w', id, op)
    ensures ClaimsOk(w') && JobsOk(w')
  {
    RewriteKeepsClaims(w, w', id, op);
    RewriteKeepsJobs(w, w', id, op);
  }

  /** Only the lease, processes, threads and inspections change, and blocks end with their process. */
  predicate Frames(w: World, w': World) {
    && w'.db.(lease := w.db.lease) == w.db && w'.now == w.now && w'.made == w.made
    && forall g <- w'.blocks ::
         g in w.blocks && w'.blocks[g] == w.blocks[g]
             && (w.blocks[g].holder in w.alive ==> w.blocks[g].holder in w'.alive)
  }

  lemma FrameKeepsOthers(w: World, w': World)
    requires ClaimsOk(w) && JobsOk(w) && Frames(w, w')
    ensures ClaimsOk(w') && JobsOk(w')
  {
    forall a, b ensures !Clash(w', a, b) { assert !Clash(w, a, b); }
    forall c ensures RowOk(w', c) { assert RowOk(w, c); }
    forall i, r ensures PlanOk(w', i, r) { assert PlanOk(w, i, r); }
    forall g, r ensures BlockOk(w', g, r) { assert BlockOk(w, g, r); }
    forall i ensures OpOk(w', i) { assert OpOk(w, i); }
    forall i ensures MadeOk(w', i) { assert MadeOk(w, i); }
    forall a, b ensures !Twice(w', a, b) { assert !Twice(w, a, b); }
    forall a, b ensures !KeysClash(w'.db, a, b) { assert !KeysClash(w.db, a, b); }
  }

  // -- one lemma an event ----------------------------------------------------

  lemma TickKeepsSound(w: World, seconds: nat)
    requires Sound(w)
    ensures Sound(Effect(w, Tick(seconds)))
  {
    var w' := Effect(w, Tick(seconds));
    forall a, b ensures !Clash(w', a, b) { assert !Clash(w, a, b); }
    forall c ensures RowOk(w', c) { assert RowOk(w, c); }
    forall i, r ensures PlanOk(w', i, r) { assert PlanOk(w, i, r); }
    forall g, r ensures BlockOk(w', g, r) { assert BlockOk(w, g, r); }
    forall i ensures OpOk(w', i) { assert OpOk(w, i); }
    forall i ensures MadeOk(w', i) { assert MadeOk(w, i); }
    forall a, b ensures !Twice(w', a, b) { assert !Twice(w, a, b); }
    forall x ensures PairOk(w', x) { assert PairOk(w, x); }
  }

  predicate OfProcess(e: Event) {
    e.Launch? || e.Die? || e.Acquire? || e.Renew? || e.Orphans? || e.Abandon? || e.LeaveToRecovery? || e.Inspect?
        || e.Postpone?
  }

  /** Launch, death, lease and recovery-table events write no job or claim. */
  lemma ProcessEventKeepsSound(w: World, e: Event)
    requires Sound(w) && Enabled(w, e) && OfProcess(e)
    ensures Sound(Effect(w, e))
  {
    ProcessEventFrames(w, e);
    FrameKeepsOthers(w, Effect(w, e));
    ProcessEventKeepsPairs(w, e);
  }

  lemma ProcessEventFrames(w: World, e: Event)
    requires Enabled(w, e) && OfProcess(e)
    ensures Frames(w, Effect(w, e))
  {
  }

  lemma ProcessEventKeepsPairs(w: World, e: Event)
    requires JobsOk(w) && PairsOk(w) && Enabled(w, e) && OfProcess(e)
    ensures PairsOk(Effect(w, e))
  {
    forall x ensures PairOk(Effect(w, e), x) {
      assert PairOk(w, x) && OpOk(w, x.1);
      if e.Inspect? {
        InspectKeepsPair(w, e.p, e.id, x);
      } else {
        ProcessEventKeepsPair(w, e, x);
      }
    }
  }

  lemma InspectKeepsPair(w: World, p: Process, id: Id, x: (Process, Id))
    requires PairOk(w, x) && Enabled(w, Inspect(p, id))
    ensures PairOk(Inspected(w, p, id), x)
  {
  }

  lemma ProcessEventKeepsPair(w: World, e: Event, x: (Process, Id))
    requires PairOk(w, x) && OpOk(w, x.1) && Enabled(w, e) && OfProcess(e) && !e.Inspect?
    ensures PairOk(Effect(w, e), x)
  {
  }

  lemma StartKeepsSound(w: World, p: Process, id: Id)
    requires Sound(w) && Enabled(w, StartJob(p, id))
    ensures Sound(Effect(w, StartJob(p, id)))
  {
    var w' := Effect(w, StartJob(p, id));
    if Started(w.db, p, id) != w.db {
      assert OpOk(w, id);
      RewriteKeepsOthers(w, w', id,
                         w.db.ops[id].(state := Running, worker := By(p), starts := w.db.ops[id].starts + 1));
      forall x ensures PairOk(w', x) { assert PairOk(w, x) && PairOk(w, (p, id)); }
    }
  }

  lemma RecordKeepsSound(w: World, p: Process, id: Id, answered: bool)
    requires Sound(w) && Enabled(w, Record(p, id, answered))
    ensures Sound(Effect(w, Record(p, id, answered)))
  {
    var w' := Effect(w, Record(p, id, answered));
    if HoldsLease(w.db, p) && Owns(w.db, p, id) {
      assert OpOk(w, id) && PairOk(w, (p, id));
      RewriteKeepsOthers(w, w', id, w.db.ops[id].(effectsStarted := true));
      forall x ensures PairOk(w', x) { assert PairOk(w, x); }
    }
  }

  /** finish, whatever table of the process it leaves afterwards. */
  lemma FinishKeepsSound(w: World, w': World, id: Id, outcome: State, worker: Option<Process>, untouched: bool)
    requires Sound(w) && Outcome(outcome)
    requires MayFinish(w.db, id, worker)
    requires worker.None? ==> w.db.ops[id].worker == ByRequest
    requires untouched ==> outcome == Failed && worker.Some? && !w.db.ops[id].effectsStarted
    requires w'.db == Update(w.db, id,
                             w.db.ops[id].(state := outcome, finishedAt := Some(w.now), ends := w.db.ops[id].ends + 1,
                                           untouched := untouched))
    requires w'.(db := w.db, threads := w.threads, due := w.due, looks := w.looks) == w
    requires forall x :: x in w'.threads ==> x in w.threads && w'.threads[x] == w.threads[x]
    requires forall x :: x in w'.looks ==> x in w.looks && w'.looks[x] == w.looks[x] && (x in w.due ==> x in w'.due)
    requires w'.due <= w.due
    requires worker.Some? ==> (worker.value, id) !in w'.threads
    ensures Sound(w')
  {
    assert OpOk(w, id);
    RewriteKeepsOthers(w, w', id, w'.db.ops[id]);
    forall x ensures PairOk(w', x) { assert PairOk(w, x); }
  }

  /** finish that found the job ended or another's. */
  lemma UnfinishedKeepsSound(w: World, w': World)
    requires Sound(w)
    requires w'.(threads := w.threads, due := w.due, looks := w.looks) == w
    requires forall x :: x in w'.threads ==> x in w.threads && w'.threads[x] == w.threads[x]
    requires forall x :: x in w'.looks ==> x in w.looks && w'.looks[x] == w.looks[x] && (x in w.due ==> x in w'.due)
    requires w'.due <= w.due
    ensures Sound(w')
  {
    FrameKeepsOthers(w, w');
    forall x ensures PairOk(w', x) { assert PairOk(w, x); }
  }

  lemma EndThreadKeepsSound(w: World, p: Process, id: Id, outcome: State)
    requires Sound(w) && Enabled(w, EndThread(p, id, outcome))
    ensures Sound(Effect(w, EndThread(p, id, outcome)))
  {
    var w' := Effect(w, EndThread(p, id, outcome));
    if MayFinish(w.db, id, Some(p)) {
      assert OpOk(w, id);
      FinishKeepsSound(w, w', id, outcome, Some(p), false);
    } else {
      UnfinishedKeepsSound(w, w');
    }
  }

  lemma JudgeKeepsSound(w: World, p: Process, id: Id, outcome: State)
    requires Sound(w) && Enabled(w, Judge(p, id, outcome))
    ensures Sound(Effect(w, Judge(p, id, outcome)))
  {
    var w' := Effect(w, Judge(p, id, outcome));
    if MayFinish(w.db, id, Some(p)) {
      assert OpOk(w, id) && PairOk(w, (p, id));
      FinishKeepsSound(w, w', id, outcome, Some(p), false);
    } else {
      UnfinishedKeepsSound(w, w');
    }
  }

  lemma FailUntouchedKeepsSound(w: World, p: Process, id: Id)
    requires Sound(w) && Enabled(w, FailUntouched(p, id))
    ensures Sound(Effect(w, FailUntouched(p, id)))
  {
    var w' := Effect(w, FailUntouched(p, id));
    if MayFinish(w.db, id, Some(p)) {
      assert OpOk(w, id) && PairOk(w, (p, id));
      FinishKeepsSound(w, w', id, Failed, Some(p), true);
    } else {
      UnfinishedKeepsSound(w, w');
    }
  }

  lemma TakeKeepsSound(w: World, p: Process, id: Id)
    requires Sound(w) && Enabled(w, Take(p, id))
    ensures Sound(Effect(w, Take(p, id)))
  {
    if MayTakeOver(w.db, p, id, w.looks[(p, id)].previous) {
      TakeRewrites(w, p, id);
      RewriteKeepsOthers(w, Took(w, p, id), id, Took(w, p, id).db.ops[id]);
      TakeKeepsPairs(w, p, id);
    } else {
      UnfinishedKeepsSound(w, Took(w, p, id));
    }
  }

  /** The row as a take-over leaves it. */
  function TakenRow(op: Op, me: Process, previous: Process, now: Time): Op {
    if previous.host == me.host then op.(worker := By(me))
    else op.(worker := By(me), state := Uncertain, finishedAt := Some(now), ends := op.ends + 1)
  }

  lemma TakenOverIsOneRow(t: Tables, me: Process, id: Id, previous: Process, now: Time)
    requires MayTakeOver(t, me, id, previous)
    ensures TakenOver(t, me, id, previous, now) == WithOp(t, id, TakenRow(t.ops[id], me, previous, now))
  {
    var mine := t.ops[id].(worker := By(me));
    var row := TakenRow(t.ops[id], me, previous, now);
    assert t.ops[id := mine][id := row] == t.ops[id := row];
  }

  lemma TakeRewrites(w: World, p: Process, id: Id)
    requires OpOk(w, id) && Enabled(w, Take(p, id))
    requires MayTakeOver(w.db, p, id, w.looks[(p, id)].previous)
    ensures id in Took(w, p, id).db.ops && Rewrites(w, Took(w, p, id), id, Took(w, p, id).db.ops[id])
  {
    var previous := w.looks[(p, id)].previous;
    TakenOverIsOneRow(w.db, p, id, previous, w.now);
    TakenRowIsSound(w.db.ops[id], p, previous, w.now);
  }

  lemma TakenRowIsSound(op: Op, me: Process, previous: Process, now: Time)
    requires OpSound(op, now) && op.worker.By? && Begun(op.state)
    ensures var row := TakenRow(op, me, previous, now);
            OpSound(row, now) && SameJob(op, row) && Keeps(row.state)
  {
  }

  lemma TakeKeepsPairs(w: World, p: Process, id: Id)
    requires PairsOk(w) && Enabled(w, Take(p, id))
    requires MayTakeOver(w.db, p, id, w.looks[(p, id)].previous)
    ensures PairsOk(Took(w, p, id))
  {
    TakenOverIsOneRow(w.db, p, id, w.looks[(p, id)].previous, w.now);
    assert PairOk(w, (p, id));
    forall x ensures PairOk(Took(w, p, id), x) {
      assert PairOk(w, x);
      TakeKeepsPair(w, p, id, x);
    }
  }

  lemma TakeKeepsPair(w: World, p: Process, id: Id, x: (Process, Id))
    requires PairOk(w, x) && PairOk(w, (p, id)) && Enabled(w, Take(p, id))
    requires MayTakeOver(w.db, p, id, w.looks[(p, id)].previous)
    requires Took(w, p, id).db == WithOp(w.db, id, TakenRow(w.db.ops[id], p, w.looks[(p, id)].previous, w.now))
    ensures PairOk(Took(w, p, id), x)
  {
  }

  lemma AskCancelKeepsSound(w: World, id: Id, cancellable: bool)
    requires Sound(w)
    ensures Sound(Effect(w, AskCancel(id, cancellable)))
  {
    var w' := Effect(w, AskCancel(id, cancellable));
    if w'.db != w.db {
      assert OpOk(w, id);
      RewriteKeepsOthers(w, w', id, w'.db.ops[id]);
      forall x ensures PairOk(w', x) { assert PairOk(w, x); }
    }
  }

  lemma OverTimeKeepsSound(w: World, p: Process, id: Id)
    requires Sound(w) && Enabled(w, OverTime(p, id))
    ensures Sound(Effect(w, OverTime(p, id)))
  {
    var w' := Effect(w, OverTime(p, id));
    if w'.db != w.db {
      assert OpOk(w, id);
      RewriteKeepsOthers(w, w', id, w'.db.ops[id]);
      forall x ensures PairOk(w', x) { assert PairOk(w, x); }
    }
  }

  lemma EndInRequestKeepsSound(w: World, id: Id, outcome: State)
    requires Sound(w) && Enabled(w, EndInRequest(id, outcome))
    ensures Sound(Effect(w, EndInRequest(id, outcome)))
  {
    if MayFinish(w.db, id, None) {
      assert OpOk(w, id);
      FinishKeepsSound(w, Effect(w, EndInRequest(id, outcome)), id, outcome, None, false);
    }
  }

  lemma ResolveKeepsSound(w: World, id: Id, outcome: State)
    requires Sound(w)
    ensures Sound(Effect(w, ResolveJob(id, outcome)))
  {
    var w' := Effect(w, ResolveJob(id, outcome));
    if MayResolve(w.db, id, outcome) {
      assert OpOk(w, id);
      RewriteKeepsOthers(w, w', id, w'.db.ops[id]);
      forall x ensures PairOk(w', x) { assert PairOk(w, x); }
    }
  }

  lemma KeepKeepsSound(w: World, dropped: set<Id>, days: nat)
    requires Sound(w) && Enabled(w, Keep(dropped, days))
    ensures Sound(Effect(w, Keep(dropped, days)))
  {
    var w' := Effect(w, Keep(dropped, days));
    forall a, b ensures !Clash(w', a, b) { assert !Clash(w, a, b); }
    forall c ensures RowOk(w', c) { assert RowOk(w, c); }
    forall i, r ensures PlanOk(w', i, r) { assert PlanOk(w, i, r); }
    forall g, r ensures BlockOk(w', g, r) { assert BlockOk(w, g, r); }
    forall i ensures OpOk(w', i) { assert OpOk(w, i); }
    forall i ensures MadeOk(w', i) { assert MadeOk(w, i) && OpOk(w, i); }
    forall a, b ensures !Twice(w', a, b) { assert !Twice(w, a, b); }
    forall a, b ensures !KeysClash(w'.db, a, b) { assert !KeysClash(w.db, a, b); }
    forall x ensures PairOk(w', x) { assert PairOk(w, x); }
  }

  lemma SameJobsStayOk(w: World, w': World)
    requires JobsOk(w) && PairsOk(w)
    requires w'.db.ops == w.db.ops && w'.now == w.now && w'.made == w.made
    requires w'.ready == w.ready && w'.threads == w.threads && w'.due == w.due && w'.looks == w.looks
    ensures JobsOk(w') && PairsOk(w')
  {
    forall i ensures OpOk(w', i) { assert OpOk(w, i); }
    forall i ensures MadeOk(w', i) { assert MadeOk(w, i); }
    forall a, b ensures !Twice(w', a, b) { assert !Twice(w, a, b); }
    forall a, b ensures !KeysClash(w'.db, a, b) { assert !KeysClash(w.db, a, b); }
    forall x ensures PairOk(w', x) { assert PairOk(w, x); }
  }

  lemma EnterKeepsSound(w: World, p: Process, wanted: Wanted, ttl: nat, dead: set<Process>)
    requires Sound(w) && Enabled(w, Enter(p, wanted, ttl, dead))
    ensures Sound(Effect(w, Enter(p, wanted, ttl, dead)))
  {
    var w' := Effect(w, Enter(p, wanted, ttl, dead));
    SameJobsStayOk(w, w');
    if !Blocked(w.db.claims, wanted, w.now, dead) {
      forall a, b ensures !Clash(w', a, b) {
        assert !Clash(w, a, b) && RowOk(w, a) && RowOk(w, b);
        AdmittedDoNotClash(w, wanted, dead, a);
        AdmittedDoNotClash(w, wanted, dead, b);
      }
      EnterKeepsRows(w, p, wanted, ttl, dead);
    }
  }

  lemma EnterKeepsRows(w: World, p: Process, wanted: Wanted, ttl: nat, dead: set<Process>)
    requires Sound(w) && Enabled(w, Enter(p, wanted, ttl, dead))
    requires !Blocked(w.db.claims, wanted, w.now, dead)
    ensures var w' := Effect(w, Enter(p, wanted, ttl, dead));
            && (forall c :: RowOk(w', c)) && (forall i, r :: PlanOk(w', i, r)) && (forall g, r :: BlockOk(w', g, r))
  {
    var w' := Effect(w, Enter(p, wanted, ttl, dead));
    forall c ensures RowOk(w', c) { assert RowOk(w, c); }
    forall i, r ensures PlanOk(w', i, r) {
      assert PlanOk(w, i, r) && (i in w.db.ops ==> RowOk(w, ClaimId(w.db.ops[i].grant, r)));
    }
    forall g, r ensures BlockOk(w', g, r) { assert BlockOk(w, g, r) && RowOk(w, ClaimId(g, r)); }
  }

  /** What an admission leaves of the live rows goes with what it asked for. */
  lemma AdmittedDoNotClash(w: World, wanted: Wanted, dead: set<Process>, c: ClaimId)
    requires !Blocked(w.db.claims, wanted, w.now, dead)
    ensures c in Cleared(w.db.claims, wanted, w.now, dead) && Live(w.db.claims[c], w.now) && c.resource in wanted
            ==> Compatible(wanted[c.resource], w.db.claims[c].mode)
  {
    if c in w.db.claims {
      assert !Blocks(w.db.claims, c, wanted, w.now, dead);
    }
  }

  lemma LeaveKeepsSound(w: World, grant: nat)
    requires Sound(w) && Enabled(w, Leave(grant))
    ensures Sound(Effect(w, Leave(grant)))
  {
    var w' := Effect(w, Leave(grant));
    SameJobsStayOk(w, w');
    forall a, b ensures !Clash(w', a, b) { assert !Clash(w, a, b); }
    forall c ensures RowOk(w', c) { assert RowOk(w, c); }
    forall i, r ensures PlanOk(w', i, r) {
      assert PlanOk(w, i, r) && (i in w.db.ops ==> RowOk(w, ClaimId(w.db.ops[i].grant, r)));
    }
    forall g, r ensures BlockOk(w', g, r) { assert BlockOk(w, g, r); }
  }

  /** _existing renames an expired key, and then no job has the key. */
  lemma LookKeepsSound(w: World, q: Request)
    requires Sound(w)
    ensures Sound(w.(db := Looked(w.db, q, w.now).0))
    ensures Looked(w.db, q, w.now).1.None? ==> forall i :: !Submitted(Looked(w.db, q, w.now).0, i, q)
  {
    var w' := w.(db := Looked(w.db, q, w.now).0);
    if id :| Submitted(w.db, id, q) {
      forall i | Submitted(w.db, i, q) ensures i == id { assert !KeysClash(w.db, i, id); }
      if KeyExpired(w.db.ops[id], w.now) {
        RenameKeepsSound(w, id);
        assert forall i :: Submitted(w'.db, i, q) ==> Submitted(w.db, i, q) && i != id;
      }
    }
  }

  lemma RenameKeepsSound(w: World, id: Id)
    requires Sound(w) && id in w.db.ops && KeyExpired(w.db.ops[id], w.now)
    ensures Sound(w.(db := WithOp(w.db, id, w.db.ops[id].(key := Expired(id)))))
  {
    var w' := w.(db := WithOp(w.db, id, w.db.ops[id].(key := Expired(id))));
    forall a, b ensures !Clash(w', a, b) { assert !Clash(w, a, b); }
    forall c ensures RowOk(w', c) { assert RowOk(w, c); }
    forall i, r ensures PlanOk(w', i, r) { assert PlanOk(w, i, r); }
    forall g, r ensures BlockOk(w', g, r) { assert BlockOk(w, g, r); }
    forall x ensures PairOk(w', x) { assert PairOk(w, x); }
    RenameKeepsJobs(w, id);
  }

  lemma RenameKeepsJobs(w: World, id: Id)
    requires JobsOk(w) && id in w.db.ops && KeyExpired(w.db.ops[id], w.now)
    ensures JobsOk(w.(db := WithOp(w.db, id, w.db.ops[id].(key := Expired(id)))))
  {
    var w' := w.(db := WithOp(w.db, id, w.db.ops[id].(key := Expired(id))));
    forall i ensures OpOk(w', i) { assert OpOk(w, i); }
    forall i ensures MadeOk(w', i) { assert MadeOk(w, i) && OpOk(w, i); }
    forall a, b ensures !Twice(w', a, b) { assert !Twice(w, a, b); }
    forall a, b ensures !KeysClash(w'.db, a, b) { assert !KeysClash(w.db, a, b) && OpOk(w, a) && OpOk(w, b); }
  }

  lemma SubmitKeepsSound(w: World, id: Id, q: Request, plan: Wanted, inRequest: bool, dead: set<Process>)
    requires Sound(w) && Enabled(w, Submit(id, q, plan, inRequest, dead))
    ensures Sound(Effect(w, Submit(id, q, plan, inRequest, dead)))
  {
    var (t1, found) := Looked(w.db, q, w.now);
    LookKeepsSound(w, q);
    assert OpOk(w, id) && OpOk(w.(db := t1), id);
    if found.None? && !Blocked(t1.claims, plan, w.now, dead) {
      AddJobKeepsSound(w.(db := t1), id, q, plan, inRequest, dead);
    }
  }

  function WithNewJob(w: World, id: Id, q: Request, plan: Wanted, inRequest: bool, dead: set<Process>): World {
    w.(db := WithJob(w.db, id, q, plan, inRequest, w.now, dead),
         made := w.made[id := Made(q.user, q.key, q.kind, q.params, plan, w.now)])
  }

  lemma AddJobKeepsSound(w: World, id: Id, q: Request, plan: Wanted, inRequest: bool, dead: set<Process>)
    requires Sound(w) && id !in w.made && !Blocked(w.db.claims, plan, w.now, dead) && dead !! w.alive
    requires forall i :: !Submitted(w.db, i, q)
    ensures Sound(WithNewJob(w, id, q, plan, inRequest, dead))
  {
    var w' := WithNewJob(w, id, q, plan, inRequest, dead);
    assert OpOk(w, id);
    forall x ensures PairOk(w', x) { assert PairOk(w, x); }
    AddJobKeepsJobs(w, id, q, plan, inRequest, dead);
    AddJobKeepsRows(w, id, q, plan, inRequest, dead);
    forall a, b ensures !Clash(w', a, b) {
      assert !Clash(w, a, b) && RowOk(w, a) && RowOk(w, b);
      AdmittedDoNotClash(w, plan, dead, a);
      AdmittedDoNotClash(w, plan, dead, b);
    }
  }

  lemma AddJobKeepsJobs(w: World, id: Id, q: Request, plan: Wanted, inRequest: bool, dead: set<Process>)
    requires JobsOk(w) && id !in w.made
    requires forall i :: !Submitted(w.db, i, q)
    ensures JobsOk(WithNewJob(w, id, q, plan, inRequest, dead))
  {
    var w' := WithNewJob(w, id, q, plan, inRequest, dead);
    forall i ensures OpOk(w', i) { assert OpOk(w, i); }
    forall i ensures MadeOk(w', i) { assert MadeOk(w, i); }
    forall a, b ensures !Twice(w', a, b) {
      assert !Twice(w, a, b);
      NoRecentCopy(w, q, a);
      NoRecentCopy(w, q, b);
    }
    forall a, b ensures !KeysClash(w'.db, a, b) {
      assert !KeysClash(w.db, a, b) && !Submitted(w.db, a, q) && !Submitted(w.db, b, q);
    }
  }

  /** A key no row has was not used within its life. */
  lemma NoRecentCopy(w: World, q: Request, a: Id)
    requires JobsOk(w) && !Submitted(w.db, a, q)
    ensures a in w.made && w.made[a].user == q.user && w.made[a].key == q.key ==>
              w.made[a].at < w.now - SUBMISSION_KEY_TTL
  {
    assert MadeOk(w, a) && OpOk(w, a);
  }

  lemma AddJobKeepsRows(w: World, id: Id, q: Request, plan: Wanted, inRequest: bool, dead: set<Process>)
    requires ClaimsOk(w) && id !in w.db.ops && dead !! w.alive
    ensures var w' := WithNewJob(w, id, q, plan, inRequest, dead);
            && (forall c :: RowOk(w', c)) && (forall i, r :: PlanOk(w', i, r)) && (forall g, r :: BlockOk(w', g, r))
  {
    var w' := WithNewJob(w, id, q, plan, inRequest, dead);
    forall c ensures RowOk(w', c) { NewJobRow(w, id, q, plan, inRequest, dead, c); }
    forall i, r ensures PlanOk(w', i, r) {
      assert PlanOk(w, i, r);
      if i in w.db.ops { assert RowOk(w, ClaimId(w.db.ops[i].grant, r)); }
    }
    forall g, r ensures BlockOk(w', g, r) { assert BlockOk(w, g, r) && RowOk(w, ClaimId(g, r)); }
  }

  lemma NewJobRow(w: World, id: Id, q: Request, plan: Wanted, inRequest: bool, dead: set<Process>, c: ClaimId)
    requires ClaimsOk(w) && id !in w.db.ops
    ensures RowOk(WithNewJob(w, id, q, plan, inRequest, dead), c)
  {
    NewOrOldRow(w.db.claims, plan, w.db.nextGrant, id, w.now, dead, c);
    if c.grant == w.db.nextGrant {
      assert RowOk(w, c) && BlockOk(w, c.grant, c.resource);
    } else {
      OldJobRow(w, id, q, plan, inRequest, dead, c);
    }
  }

  lemma OldJobRow(w: World, id: Id, q: Request, plan: Wanted, inRequest: bool, dead: set<Process>, c: ClaimId)
    requires ClaimsOk(w) && id !in w.db.ops && c.grant != w.db.nextGrant
    ensures RowOk(WithNewJob(w, id, q, plan, inRequest, dead), c)
  {
    NewOrOldRow(w.db.claims, plan, w.db.nextGrant, id, w.now, dead, c);
    assert RowOk(w, c);
  }

  /** After a job's admission a row is one of its own, or was there. */
  lemma NewOrOldRow(claims: map<ClaimId, Claim>, plan: Wanted, grant: nat, id: Id, now: Time, dead: set<Process>,
                    c: ClaimId)
    ensures var after := Cleared(claims, plan, now, dead) + JobRows(grant, plan, id);
            c in after ==>
              if c.grant == grant && c.resource in plan then after[c] == OfJob(id, plan[c.resource])
              else c in claims && after[c] == claims[c]
  {
  }

  // -- every run --------------------------------------------------------------

  predicate OfWorker(e: Event) {
    e.StartJob? || e.Record? || e.EndThread? || e.Take? || e.FailUntouched? || e.Judge? || e.OverTime?
  }

  lemma WorkerEventKeepsSound(w: World, e: Event)
    requires Sound(w) && Enabled(w, e) && OfWorker(e)
    ensures Sound(Effect(w, e))
  {
    match e
    case StartJob(p, id) => StartKeepsSound(w, p, id);
    case Record(p, id, answered) => RecordKeepsSound(w, p, id, answered);
    case EndThread(p, id, outcome) => EndThreadKeepsSound(w, p, id, outcome);
    case Take(p, id) => TakeKeepsSound(w, p, id);
    case FailUntouched(p, id) => FailUntouchedKeepsSound(w, p, id);
    case Judge(p, id, outcome) => JudgeKeepsSound(w, p, id, outcome);
    case OverTime(p, id) => OverTimeKeepsSound(w, p, id);
    case _ =>
  }

  lemma UserEventKeepsSound(w: World, e: Event)
    requires Sound(w) && Enabled(w, e) && !OfWorker(e) && !OfProcess(e)
    ensures Sound(Effect(w, e))
  {
    match e
    case Tick(seconds) => TickKeepsSound(w, seconds);
    case Enter(p, wanted, ttl, dead) => EnterKeepsSound(w, p, wanted, ttl, dead);
    case Leave(grant) => LeaveKeepsSound(w, grant);
    case Look(q) => LookKeepsSound(w, q);
    case Submit(id, q, plan, inRequest, dead) => SubmitKeepsSound(w, id, q, plan, inRequest, dead);
    case AskCancel(id, cancellable) => AskCancelKeepsSound(w, id, cancellable);
    case EndInRequest(id, outcome) => EndInRequestKeepsSound(w, id, outcome);
    case ResolveJob(id, outcome) => ResolveKeepsSound(w, id, outcome);
    case Keep(dropped, days) => KeepKeepsSound(w, dropped, days);
    case _ =>
  }

  lemma StepKeepsSound(w: World, e: Event)
    requires Sound(w)
    ensures Sound(Apply(w, e))
  {
    if Enabled(w, e) {
      if OfWorker(e) {
        WorkerEventKeepsSound(w, e);
      } else if OfProcess(e) {
        ProcessEventKeepsSound(w, e);
      } else {
        UserEventKeepsSound(w, e);
      }
    }
  }

  /** Every interleaving of every event, from an empty database. */
  lemma {:induction false} RunsAreSound(w: World, events: seq<Event>)
    requires Sound(w)
    ensures Sound(Run(w, events))
    decreases |events|
  {
    if events != [] {
      StepKeepsSound(w, events[0]);
      RunsAreSound(Apply(w, events[0]), events[1..]);
    }
  }
}
