/** Reconciles of many computes at once, and the jobs that change a compute's
    VMs: computes/utils.py reads libvirt and commits inside one block. */
module Listings {
  import opened Records
  import opened Claims
  import opened Jobs
  import opened Worlds
  import opened WorldProofs
  import opened WorldTheorems

  /** A listing read inside a block, numbered in the order libvirt was read. */
  datatype Listing = Listing(compute: nat, number: nat)

  /** What changed a compute's rows: a listing committed, numbered when it was
      read, or a job that records, moves or removes a VM, numbered when it did. */
  datatype Entry = Committed(listing: Listing) | Wrote(job: Id, compute: nat, number: nat)

  /** listed: the blocks that read libvirt and did not commit yet. */
  datatype Story = Story(world: World, next: nat, listed: map<nat, Listing>, log: seq<Entry>)

  function At(e: Entry): Listing {
    match e
    case Committed(listing) => listing
    case Wrote(_, compute, number) => Listing(compute, number)
  }

  datatype Event =
    | Other(event: Worlds.Event)
    | List(block: nat, compute: nat)
    | Commit(block: nat)
    | Write(job: Id, compute: nat)

  /** The claims refresh_instance_database holds. */
  function ReconcileClaims(compute: nat): Wanted {
    map[ComputeKey(compute) := Shared, ReconcileKey(compute) := Exclusive]
  }

  /** The block is open and has not outlived its claims. */
  predicate InBlock(w: World, block: nat, compute: nat) {
    && block in w.blocks && w.now < w.blocks[block].expires
    && w.blocks[block].wanted == ReconcileClaims(compute)
  }

  /** A job that adds a VM to the compute, or that holds the whole compute, as
      vm_claims, a migration's and a deletion's plan have it. */
  predicate HoldsRows(w: World, job: Id, compute: nat) {
    && job in w.db.ops && Keeps(w.db.ops[job].state)
    && var plan := w.db.ops[job].plan;
       || (ReconcileKey(compute) in plan && plan[ReconcileKey(compute)] == Exclusive)
       || (ComputeKey(compute) in plan && plan[ComputeKey(compute)] == Exclusive)
  }

  /** The claims of a job that adds a VM of this name do hold them, and so does
      the whole compute. */
  lemma AddersHoldRows(w: World, job: Id, compute: nat, name: string)
    requires job in w.db.ops && w.db.ops[job].state in {Queued, Running, Cancelling, Uncertain}
    requires var plan := w.db.ops[job].plan;
             || plan == map[ComputeKey(compute) := Shared, ReconcileKey(compute) := Exclusive,
                            NameKey(name) := Exclusive]
             || (ComputeKey(compute) in plan && plan[ComputeKey(compute)] == Exclusive)
    ensures HoldsRows(w, job, compute)
  {
  }

  /** Jobs that share the compute and add no VM to it do not keep a reconcile out. */
  lemma SharersLetReconcilesIn(claims: map<ClaimId, Claim>, compute: nat, now: Time, dead: set<Process>)
    requires forall id <- claims :: id.resource != ReconcileKey(compute)
    requires forall id <- claims :: id.resource == ComputeKey(compute) ==> claims[id].mode == Shared
    ensures !Blocked(claims, ReconcileClaims(compute), now, dead)
  {
  }

  predicate Enabled(s: Story, e: Event) {
    match e
    case Other(_) => true
    case List(block, compute) => InBlock(s.world, block, compute)
    case Commit(block) => block in s.listed && InBlock(s.world, block, s.listed[block].compute)
    case Write(job, compute) => HoldsRows(s.world, job, compute)
  }

  ghost function Apply(s: Story, e: Event): Story {
    if !Enabled(s, e) then s
    else match e
      case Other(event) => s.(world := Worlds.Apply(s.world, event))
      case List(block, compute) => s.(next := s.next + 1, listed := s.listed[block := Listing(compute, s.next)])
      case Commit(block) => s.(log := s.log + [Committed(s.listed[block])], listed := s.listed - {block})
      case Write(job, compute) => s.(log := s.log + [Wrote(job, compute, s.next)], next := s.next + 1)
  }

  ghost function Run(s: Story, events: seq<Event>): Story
    decreases |events|
  {
    if events == [] then s else Run(Apply(s, events[0]), events[1..])
  }

  const START := Story(EMPTY, 0, map[], [])

  predicate Older(a: Listing, b: Listing) {
    a.compute == b.compute ==> a.number < b.number
  }

  predicate ListedOk(s: Story, g: nat) {
    g in s.listed ==>
      && g < s.world.db.nextGrant && s.listed[g].number < s.next
      && (g in s.world.blocks ==> s.world.blocks[g].wanted == ReconcileClaims(s.listed[g].compute))
  }

  /** What is in the log is older than what an open block has read. */
  predicate LoggedOk(s: Story, i: nat, g: nat) {
    i < |s.log| ==>
      && At(s.log[i]).number < s.next
      && (g in s.listed && InBlock(s.world, g, s.listed[g].compute) ==> Older(At(s.log[i]), s.listed[g]))
  }

  ghost predicate InOrder(s: Story) {
    && Sound(s.world)
    && (forall g :: ListedOk(s, g))
    && (forall i, g :: LoggedOk(s, i, g))
    && (forall i, j :: 0 <= i < j < |s.log| ==> Older(At(s.log[i]), At(s.log[j])))
  }

  lemma OtherKeepsOrder(s: Story, e: Worlds.Event)
    requires InOrder(s)
    ensures InOrder(s.(world := Worlds.Apply(s.world, e)))
  {
    var s' := s.(world := Worlds.Apply(s.world, e));
    StepKeepsSound(s.world, e);
    forall g ensures ListedOk(s', g) {
      assert ListedOk(s, g);
      BlocksAreNew(s.world, e, g);
    }
    forall i, g ensures LoggedOk(s', i, g) {
      assert LoggedOk(s, i, g) && ListedOk(s, g);
      BlocksAreNew(s.world, e, g);
    }
  }

  /** An old grant's block is as it was, or gone; time never runs back. */
  lemma BlocksAreNew(w: World, e: Worlds.Event, g: nat)
    ensures w.db.nextGrant <= Worlds.Apply(w, e).db.nextGrant && w.now <= Worlds.Apply(w, e).now
    ensures g < w.db.nextGrant && g in Worlds.Apply(w, e).blocks ==>
              g in w.blocks && Worlds.Apply(w, e).blocks[g] == w.blocks[g]
  {
    if e.Submit? {
      GrantsGrow(w.db, e.id, e.q, e.plan, e.inRequest, w.now, e.dead);
    } else if OfProcess(e) && Worlds.Enabled(w, e) {
      ProcessEventFrames(w, e);
    } else if !e.Take? {
      OthersAreNew(w, e, g);
    }
  }

  lemma GrantsGrow(t: Tables, id: Id, q: Request, plan: Wanted, inRequest: bool, now: Time, dead: set<Process>)
    ensures JobAdmitted(t, id, q, plan, inRequest, now, dead).nextGrant >= t.nextGrant
  {
  }

  lemma OthersAreNew(w: World, e: Worlds.Event, g: nat)
    requires !e.Submit? && !e.Take? && (OfProcess(e) ==> !Worlds.Enabled(w, e))
    ensures w.db.nextGrant <= Worlds.Apply(w, e).db.nextGrant && w.now <= Worlds.Apply(w, e).now
    ensures g < w.db.nextGrant && g in Worlds.Apply(w, e).blocks ==>
              g in w.blocks && Worlds.Apply(w, e).blocks[g] == w.blocks[g]
  {
  }

  /** While a job may write a compute's rows, no reconcile of it is inside its block. */
  lemma WritersKeepReconcilesOut(w: World, job: Id, compute: nat, block: nat)
    requires Sound(w) && HoldsRows(w, job, compute)
    ensures !InBlock(w, block, compute)
  {
    if InBlock(w, block, compute) {
      var plan := w.db.ops[job].plan;
      if ReconcileKey(compute) in plan { SoundBlockExcludesJob(w, block, job, ReconcileKey(compute)); }
      if ComputeKey(compute) in plan { SoundBlockExcludesJob(w, block, job, ComputeKey(compute)); }
    }
  }

  lemma WriteKeepsOrder(s: Story, job: Id, compute: nat)
    requires InOrder(s) && HoldsRows(s.world, job, compute)
    ensures InOrder(Apply(s, Write(job, compute)))
  {
    var s' := Apply(s, Write(job, compute));
    forall g ensures ListedOk(s', g) { assert ListedOk(s, g); }
    forall i, g ensures LoggedOk(s', i, g) {
      assert LoggedOk(s, i, g);
      if g in s.listed && s.listed[g].compute == compute { WritersKeepReconcilesOut(s.world, job, compute, g); }
    }
    forall i, j | 0 <= i < j < |s'.log| ensures Older(At(s'.log[i]), At(s'.log[j])) {
      assert LoggedOk(s, i, 0);
    }
  }

  lemma StepKeepsOrder(s: Story, e: Event)
    requires InOrder(s)
    ensures InOrder(Apply(s, e))
  {
    var s' := Apply(s, e);
    if Enabled(s, e) {
      match e
      case Other(event) => OtherKeepsOrder(s, event);
      case List(block, compute) =>
        assert BlockOk(s.world, block, ReconcileKey(compute));
        forall g ensures ListedOk(s', g) { assert ListedOk(s, g); }
        forall i, g ensures LoggedOk(s', i, g) { assert LoggedOk(s, i, g); }
      case Commit(block) =>
        forall g ensures ListedOk(s', g) { assert ListedOk(s, g); }
        forall i, g ensures LoggedOk(s', i, g) {
          assert LoggedOk(s, i, g) && ListedOk(s, g) && ListedOk(s, block);
          if g in s.listed && g != block && s.listed[g].compute == s.listed[block].compute
              && InBlock(s.world, g, s.listed[g].compute) {
            SoundBlocksExclude(s.world, g, block, ReconcileKey(s.listed[g].compute));
          }
        }
        forall i, j | 0 <= i < j < |s'.log| ensures Older(At(s'.log[i]), At(s'.log[j])) {
          assert LoggedOk(s, i, block);
        }
      case Write(job, compute) =>
        WriteKeepsOrder(s, job, compute);
    }
  }

  lemma {:induction false} RunsKeepOrder(s: Story, events: seq<Event>)
    requires InOrder(s)
    ensures InOrder(Run(s, events))
    decreases |events|
  {
    if events != [] {
      StepKeepsOrder(s, events[0]);
      RunsKeepOrder(Apply(s, events[0]), events[1..]);
    }
  }

  /** Of one compute, listings are committed in the order they were read, and
      after a job's change only those read after it: an older listing undoes
      neither a newer one nor what a job did, whoever reconciles meanwhile. */
  lemma OlderListingNeverUndoesNewer(events: seq<Event>, i: nat, j: nat)
    requires var s := Run(START, events);
             i < j < |s.log| && At(s.log[i]).compute == At(s.log[j]).compute
    ensures var s := Run(START, events); At(s.log[i]).number < At(s.log[j]).number
  {
    assert Sound(EMPTY);
    RunsKeepOrder(START, events);
  }

  /** A job that adds a VM to the compute or moves one, or that holds the
      whole compute, and a reconcile's block exclude each other: nothing such a
      job is adding is read or recorded by a reconcile meanwhile. */
  lemma JobsKeepReconcilesOut(events: seq<Event>, block: nat, compute: nat, id: Id)
    requires var w := Run(START, events).world;
             && InBlock(w, block, compute)
             && id in w.db.ops && Keeps(w.db.ops[id].state)
    ensures var plan := Run(START, events).world.db.ops[id].plan;
            && ReconcileKey(compute) !in plan
            && (ComputeKey(compute) in plan ==> plan[ComputeKey(compute)] == Shared)
  {
    assert Sound(EMPTY);
    RunsKeepOrder(START, events);
    var w := Run(START, events).world;
    var plan := w.db.ops[id].plan;
    if ReconcileKey(compute) in plan { SoundBlockExcludesJob(w, block, id, ReconcileKey(compute)); }
    if ComputeKey(compute) in plan { SoundBlockExcludesJob(w, block, id, ComputeKey(compute)); }
  }
}
