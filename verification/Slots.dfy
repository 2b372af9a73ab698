/** The manager's job slots: Worker._claim and Worker._reap of
    operations/worker.py. */
module Slots {
  import opened Wrappers
  import opened Records
  import opened Leases
  import opened Workers
  import opened Sets

  /** hosts_of: the computes a job has claims on. */
  function HostsOf(claims: map<ClaimId, Claim>, id: Id): (hosts: set<Host>)
    ensures forall h :: h in hosts <==>
                        exists c <- claims :: c.resource == ComputeKey(h) && claims[c].OfJob? && claims[c].job == id
  {
    set c | c in claims && claims[c] == OfJob(id, claims[c].mode) && c.resource.ComputeKey? :: c.resource.compute
  }

  function NamedHosts(claims: map<ClaimId, Claim>, queued: seq<Id>): map<Id, set<Host>> {
    map id | id in queued :: HostsOf(claims, id)
  }

  /** How many slots the jobs of one host may take. */
  function PerHost(concurrency: nat): (share: nat)
    ensures if concurrency < 4 then share == 1 else 2 * share <= concurrency <= 2 * share + 1
  {
    if concurrency / 2 > 1 then concurrency / 2 else 1
  }

  /** The jobs that hold a host: a job of two hosts is in both sets. */
  function OnHost(jobHosts: map<Id, set<Host>>, h: Host): set<Id> {
    set id | id in jobHosts && h in jobHosts[id]
  }

  ghost predicate WithinLimits(jobHosts: map<Id, set<Host>>, concurrency: nat) {
    |jobHosts| <= concurrency && forall h :: |OnHost(jobHosts, h)| <= PerHost(concurrency)
  }

  /** The job names a host that has its share of the slots. */
  ghost predicate HeldBack(jobHosts: map<Id, set<Host>>, hosts: set<Host>, concurrency: nat) {
    exists h <- hosts :: |OnHost(jobHosts, h)| >= PerHost(concurrency)
  }

  /** Held back: of some host no more than half the slots may go to its jobs, and they do. */
  lemma HeldBackIff(jobHosts: map<Id, set<Host>>, hosts: set<Host>, concurrency: nat)
    ensures HeldBack(jobHosts, hosts, concurrency) <==>
            exists h <- hosts :: |set id | id in jobHosts && h in jobHosts[id]| >=
                                 (if concurrency < 4 then 1 else concurrency / 2)
  {
    forall h ensures OnHost(jobHosts, h) == set id | id in jobHosts && h in jobHosts[id] {
    }
  }

  /** How a pass ended: no slot, a stop, a lost lease, or the list's end. */
  datatype PassEnd = Full | Stopped | LostLease | Through

  lemma AddJobLoad(jobHosts: map<Id, set<Host>>, id: Id, hosts: set<Host>, h: Host)
    requires id !in jobHosts
    ensures |OnHost(jobHosts[id := hosts], h)| == |OnHost(jobHosts, h)| + (if h in hosts then 1 else 0)
  {
    if h in hosts {
      assert OnHost(jobHosts[id := hosts], h) == OnHost(jobHosts, h) + {id};
    } else {
      assert OnHost(jobHosts[id := hosts], h) == OnHost(jobHosts, h);
    }
  }

  /** The counts with one more job of these hosts. */
  function CountJob(running: map<Host, nat>, hosts: set<Host>): map<Host, nat> {
    map h | h in running :: running[h] + if h in hosts then 1 else 0
  }

  lemma AddCounts(jobHosts: map<Id, set<Host>>, id: Id, hosts: set<Host>, running: map<Host, nat>,
                  counted: map<Host, nat>)
    requires id !in jobHosts && counted == CountJob(running, hosts)
    requires forall h <- running :: running[h] == |OnHost(jobHosts, h)|
    ensures forall h <- counted :: counted[h] == |OnHost(jobHosts[id := hosts], h)|
  {
    forall h ensures |OnHost(jobHosts[id := hosts], h)| == |OnHost(jobHosts, h)| + (if h in hosts then 1 else 0) {
      AddJobLoad(jobHosts, id, hosts, h);
    }
  }

  /** A job of hosts with room fits, and holds back no fewer jobs than before. */
  lemma AddKeepsLimits(jobHosts: map<Id, set<Host>>, id: Id, hosts: set<Host>, concurrency: nat)
    requires WithinLimits(jobHosts, concurrency) && id !in jobHosts && |jobHosts| < concurrency
    requires !HeldBack(jobHosts, hosts, concurrency)
    ensures WithinLimits(jobHosts[id := hosts], concurrency)
    ensures forall other: set<Host> :: HeldBack(jobHosts, other, concurrency) ==>
              HeldBack(jobHosts[id := hosts], other, concurrency)
  {
    var more := jobHosts[id := hosts];
    assert more.Keys == jobHosts.Keys + {id};
    forall h ensures |OnHost(more, h)| <= PerHost(concurrency) && |OnHost(more, h)| >= |OnHost(jobHosts, h)| {
      AddJobLoad(jobHosts, id, hosts, h);
    }
  }

  lemma FewerKeepLimits(jobHosts: map<Id, set<Host>>, fewer: map<Id, set<Host>>, concurrency: nat)
    requires WithinLimits(jobHosts, concurrency)
    requires forall id <- fewer :: id in jobHosts && fewer[id] == jobHosts[id]
    ensures WithinLimits(fewer, concurrency)
  {
    SubsetIsSmaller(fewer.Keys, jobHosts.Keys);
    forall h ensures |OnHost(fewer, h)| <= PerHost(concurrency) {
      SubsetIsSmaller(OnHost(fewer, h), OnHost(jobHosts, h));
    }
  }

  function StartedRow(op: Op, me: Process): Op {
    op.(state := Running, worker := By(me), starts := op.starts + 1)
  }

  /** From jobs0, a pass over seen put the jobs of begun, each still queued
      when it started it, into slots, and no others. */
  ghost predicate StartedBy(jobs0: map<Id, set<Host>>, jobs1: map<Id, set<Host>>, begun: map<Id, Op>,
                        hosts: map<Id, set<Host>>, seen: seq<Id>) {
    && begun.Keys !! jobs0.Keys && jobs1.Keys == jobs0.Keys + begun.Keys
    && (forall id <- jobs0 :: jobs1[id] == jobs0[id])
    && (forall id <- begun :: id in seen && id in hosts && jobs1[id] == hosts[id] && begun[id].state == Queued)
  }

  /** Each job of seen that is still queued is held back by a host. */
  ghost predicate OnlyHeldBackLeft(seen: seq<Id>, ops: map<Id, Op>, hosts: map<Id, set<Host>>,
                                   jobHosts: map<Id, set<Host>>, concurrency: nat) {
    forall id <- seen :: id in ops && ops[id].state == Queued ==>
          id in hosts && HeldBack(jobHosts, hosts[id], concurrency)
  }

  /** Whatever others commit, no job of ids becomes queued again. */
  predicate NoneRequeued(ops: map<Id, Op>, ops': map<Id, Op>, ids: set<Id>) {
    forall id <- ids :: id in ops' && ops'[id].state == Queued ==> id in ops && ops[id].state == Queued
  }

  lemma NothingStarted(jobHosts: map<Id, set<Host>>, hosts: map<Id, set<Host>>)
    ensures StartedBy(jobHosts, jobHosts, map[], hosts, [])
  {
    var none: map<Id, Op> := map[];
    assert none.Keys == {};
  }

  lemma PassSkips(ops: map<Id, Op>, hosts: map<Id, set<Host>>, jobHosts: map<Id, set<Host>>, seen: seq<Id>, id: Id,
                  concurrency: nat)
    requires OnlyHeldBackLeft(seen, ops, hosts, jobHosts, concurrency) && id in hosts
    requires id in ops && ops[id].state == Queued ==> HeldBack(jobHosts, hosts[id], concurrency)
    ensures OnlyHeldBackLeft(seen + [id], ops, hosts, jobHosts, concurrency)
  {
  }

  lemma PassStarts(jobs0: map<Id, set<Host>>, jobs1: map<Id, set<Host>>, begun: map<Id, Op>, hosts: map<Id, set<Host>>,
                   seen: seq<Id>, ops: map<Id, Op>, me: Process, id: Id, concurrency: nat)
    requires StartedBy(jobs0, jobs1, begun, hosts, seen) && OnlyHeldBackLeft(seen, ops, hosts, jobs1, concurrency)
    requires id in hosts && id in ops && ops[id].state == Queued && id !in jobs1
    requires forall other: set<Host> :: HeldBack(jobs1, other, concurrency) ==>
               HeldBack(jobs1[id := hosts[id]], other, concurrency)
    ensures StartedBy(jobs0, jobs1[id := hosts[id]], begun[id := ops[id]], hosts, seen + [id])
    ensures OnlyHeldBackLeft(seen + [id], ops[id := StartedRow(ops[id], me)], hosts, jobs1[id := hosts[id]],
                             concurrency)
  {
  }

  /** No job that runs here is queued. */
  ghost predicate NoneQueued(jobHosts: map<Id, set<Host>>, ops: map<Id, Op>) {
    forall id <- jobHosts :: id in ops ==> ops[id].state != Queued
  }

  lemma StillNone(jobHosts: map<Id, set<Host>>, ops: map<Id, Op>, ops': map<Id, Op>, seen: seq<Id>,
                  hosts: map<Id, set<Host>>, concurrency: nat)
    requires NoneRequeued(ops, ops', jobHosts.Keys + set x | x in seen)
    requires NoneQueued(jobHosts, ops) && OnlyHeldBackLeft(seen, ops, hosts, jobHosts, concurrency)
    ensures NoneQueued(jobHosts, ops') && OnlyHeldBackLeft(seen, ops', hosts, jobHosts, concurrency)
  {
  }

  class Manager {
    const me: Process
    const concurrency: nat
    var jobHosts: map<Id, set<Host>>  // the running jobs

    constructor (me: Process, concurrency: nat)
      requires concurrency >= 1
      ensures this.me == me && this.concurrency == concurrency && jobHosts == map[]
      ensures WithinLimits(jobHosts, concurrency)
    {
      this.me, this.concurrency, jobHosts := me, concurrency, map[];
    }

    /** _reap: a job whose thread ended gives its slot back. */
    method Reap(done: set<Id>)
      requires WithinLimits(jobHosts, concurrency)
      modifies this
      ensures jobHosts == old(jobHosts) - done
      ensures WithinLimits(jobHosts, concurrency)
    {
      var left := done * jobHosts.Keys;
      while left != {}
        invariant left <= done
        invariant forall id :: id in jobHosts <==> id in old(jobHosts) && (id in done ==> id in left)
        invariant forall id <- jobHosts :: jobHosts[id] == old(jobHosts)[id]
        decreases left
      {
        var id :| id in left;
        left := left - {id};
        jobHosts := jobHosts - {id};
      }
      assert jobHosts == old(jobHosts) - done;
      FewerKeepLimits(old(jobHosts), jobHosts, concurrency);
    }

    /** How many running jobs hold each of these hosts. */
    method CountHosts(hosts: set<Host>) returns (running: map<Host, nat>)
      ensures running.Keys == hosts && forall h <- hosts :: running[h] == |OnHost(jobHosts, h)|
    {
      running := map h | h in hosts :: 0;
      var seen: map<Id, set<Host>> := map[];
      var left := jobHosts.Keys;
      while left != {}
        invariant left <= jobHosts.Keys
        invariant seen == jobHosts - left
        invariant running.Keys == hosts && forall h <- hosts :: running[h] == |OnHost(seen, h)|
        decreases left
      {
        var id :| id in left;
        forall h ensures |OnHost(seen[id := jobHosts[id]], h)| ==
              |OnHost(seen, h)| + (if h in jobHosts[id] then 1 else 0) {
          AddJobLoad(seen, id, jobHosts[id], h);
        }
        running := map h | h in hosts :: running[h] + if h in jobHosts[id] then 1 else 0;
        left := left - {id};
        seen := seen[id := jobHosts[id]];
      }
      assert seen == jobHosts;
    }

    /** What others commit between two candidates: cancels, ends, new jobs, a
        takeover of the lease. */
    method Meanwhile(db: Database, ids: set<Id>)
      modifies db
      ensures NoneRequeued(old(db.ops), db.ops, ids)
    {
      var t: Tables := *;
      if NoneRequeued(db.ops, t.ops, ids) {
        db.ops, db.claims, db.nextGrant, db.lease := t.ops, t.claims, t.nextGrant, t.lease;
      }
    }

    /** A pass over seen, so far. */
    ghost predicate PassOk(ops: map<Id, Op>, hosts: map<Id, set<Host>>, running: map<Host, nat>,
                           jobs0: map<Id, set<Host>>, begun: map<Id, Op>, seen: seq<Id>)
      reads this
    {
      && WithinLimits(jobHosts, concurrency) && NoneQueued(jobHosts, ops)
      && (forall id <- hosts :: hosts[id] <= running.Keys)
      && (forall h <- running :: running[h] == |OnHost(jobHosts, h)|)
      && StartedBy(jobs0, jobHosts, begun, hosts, seen)
      && OnlyHeldBackLeft(seen, ops, hosts, jobHosts, concurrency)
    }

    /** _claim: queued is the list it read, oldest first; stoppable: a stop may
        be asked while it runs. begun: the jobs it
        started, with the rows StartOne found. It keeps both limits and skips
        only jobs of a host that has its share: no younger job starts before an
        older one that could. */
    method ClaimQueued(db: Database, queued: seq<Id>, stoppable: bool)
      returns (end: PassEnd, reached: nat, ghost begun: map<Id, Op>)
      requires WithinLimits(jobHosts, concurrency) && NoneQueued(jobHosts, db.ops)
      modifies this, db
      ensures WithinLimits(jobHosts, concurrency) && NoneQueued(jobHosts, db.ops)
      ensures reached <= |queued|
      ensures StartedBy(old(jobHosts), jobHosts, begun, NamedHosts(old(db.claims), queued), queued[..reached])
      ensures OnlyHeldBackLeft(queued[..reached], db.ops, NamedHosts(old(db.claims), queued), jobHosts, concurrency)
      ensures end == Full ==> |jobHosts| == concurrency
      ensures end == Through ==> reached == |queued|
      ensures end == LostLease ==> !HoldsLease(db.View(), me)
      ensures end == Stopped ==> stoppable
    {
      reached, begun := 0, map[];
      if concurrency <= |jobHosts| {
        return Full, 0, begun;
      }
      var hosts := NamedHosts(db.claims, queued);
      var names := set id, h | id in queued && h in hosts[id] :: h;
      var running := CountHosts(names);
      assert PassOk(db.ops, hosts, running, jobHosts, map[], []) by { NothingStarted(jobHosts, hosts); }
      end, reached, begun := Pass(db, queued, hosts, running, stoppable);
    }

    /** The loop over the candidates. */
    method Pass(db: Database, queued: seq<Id>, hosts: map<Id, set<Host>>, running: map<Host, nat>, stoppable: bool)
      returns (end: PassEnd, reached: nat, ghost begun: map<Id, Op>)
      requires hosts.Keys == (set id | id in queued) && PassOk(db.ops, hosts, running, jobHosts, map[], [])
      modifies this, db
      ensures reached <= |queued| && WithinLimits(jobHosts, concurrency) && NoneQueued(jobHosts, db.ops)
      ensures StartedBy(old(jobHosts), jobHosts, begun, hosts, queued[..reached])
      ensures OnlyHeldBackLeft(queued[..reached], db.ops, hosts, jobHosts, concurrency)
      ensures end == Full ==> |jobHosts| == concurrency
      ensures end == Through ==> reached == |queued|
      ensures end == LostLease ==> !HoldsLease(db.View(), me)
      ensures end == Stopped ==> stoppable
    {
      reached, begun := 0, map[];
      var counts := running;
      while reached < |queued|
        invariant reached <= |queued|
        invariant PassOk(db.ops, hosts, counts, old(jobHosts), begun, queued[..reached])
      {
        var stop := *;  // another thread may ask to stop at any time
        if concurrency <= |jobHosts| {
          return Full, reached, begun;
        }
        if stop && stoppable {
          return Stopped, reached, begun;
        }
        assert queued[..reached + 1] == queued[..reached] + [queued[reached]];
        var considered;
        considered, counts, begun :=
          Consider(db, queued[reached], hosts, counts, old(jobHosts), begun, queued[..reached]);
        if considered.Failure? {
          return LostLease, reached, begun;
        }
        reached := reached + 1;
      }
      end := Through;
    }

    /** What others commit leaves the pass sound: nothing it saw is queued again. */
    method Disturb(db: Database, ghost hosts: map<Id, set<Host>>, ghost running: map<Host, nat>,
                   ghost jobs0: map<Id, set<Host>>, ghost begun: map<Id, Op>, seen: seq<Id>)
      requires PassOk(db.ops, hosts, running, jobs0, begun, seen)
      modifies db
      ensures PassOk(db.ops, hosts, running, jobs0, begun, seen)
    {
      ghost var before := db.ops;
      Meanwhile(db, jobHosts.Keys + set x | x in seen);
      assert NoneQueued(jobHosts, db.ops) && OnlyHeldBackLeft(seen, db.ops, hosts, jobHosts, concurrency) by {
        StillNone(jobHosts, before, db.ops, seen, hosts, concurrency);
      }
    }

    /** One candidate, after whatever others did since the last: left when a
        host of it has its share, else started. jobs0, begun, seen: the pass so far. */
    method Consider(db: Database, id: Id, hosts: map<Id, set<Host>>, running: map<Host, nat>,
                    ghost jobs0: map<Id, set<Host>>, ghost begun: map<Id, Op>, seen: seq<Id>)
      returns (r: Result<(), LeaseLost>, counted: map<Host, nat>, ghost begun': map<Id, Op>)
      requires PassOk(db.ops, hosts, running, jobs0, begun, seen) && id in hosts && |jobHosts| < concurrency
      modifies this, db
      ensures PassOk(db.ops, hosts, counted, jobs0, begun', if r.Success? then seen + [id] else seen)
      ensures r.Failure? ==> !HoldsLease(db.View(), me)
    {
      Disturb(db, hosts, running, jobs0, begun, seen);
      counted, begun' := running, begun;
      if exists h :: h in hosts[id] && running[h] >= PerHost(concurrency) {
        assert HeldBack(jobHosts, hosts[id], concurrency);
        PassSkips(db.ops, hosts, jobHosts, seen, id, concurrency);
        return Success(()), counted, begun';
      }
      assert !HeldBack(jobHosts, hosts[id], concurrency);
      r, counted, begun' := Try(db, id, hosts, running, jobs0, begun, seen);
    }

    /** The candidate has room on its hosts. */
    method Try(db: Database, id: Id, hosts: map<Id, set<Host>>, running: map<Host, nat>,
               ghost jobs0: map<Id, set<Host>>, ghost begun: map<Id, Op>, ghost seen: seq<Id>)
      returns (r: Result<(), LeaseLost>, counted: map<Host, nat>, ghost begun': map<Id, Op>)
      requires PassOk(db.ops, hosts, running, jobs0, begun, seen) && id in hosts && |jobHosts| < concurrency
      requires !HeldBack(jobHosts, hosts[id], concurrency)
      modifies this, db`ops
      ensures PassOk(db.ops, hosts, counted, jobs0, begun', if r.Success? then seen + [id] else seen)
      ensures r.Failure? ==> !HoldsLease(db.View(), me)
    {
      begun' := begun;
      var started;
      started, counted := StartOne(db, id, hosts[id], running);
      if started.Failure? {
        return Failure(LeaseLost), counted, begun';
      }
      if started.value {
        begun' := begun[id := old(db.ops)[id]];
        PassStarts(jobs0, old(jobHosts), begun, hosts, seen, old(db.ops), me, id, concurrency);
      } else {
        PassSkips(db.ops, hosts, jobHosts, seen, id, concurrency);
      }
      r := Success(());
    }

    /** The fenced update of one candidate, and its thread. */
    method StartOne(db: Database, id: Id, hosts: set<Host>, running: map<Host, nat>)
      returns (started: Result<bool, LeaseLost>, counted: map<Host, nat>)
      requires WithinLimits(jobHosts, concurrency) && NoneQueued(jobHosts, db.ops) && |jobHosts| < concurrency
      requires !HeldBack(jobHosts, hosts, concurrency)
      requires forall h <- running :: running[h] == |OnHost(jobHosts, h)|
      modifies this, db`ops
      ensures counted.Keys == running.Keys && forall h <- counted :: counted[h] == |OnHost(jobHosts, h)|
      ensures started.Failure? <==> !HoldsLease(old(db.View()), me)
      ensures started == Success(true) ==>
                && id in old(db.ops) && old(db.ops)[id].state == Queued && id !in old(jobHosts)
                && db.ops == old(db.ops)[id := StartedRow(old(db.ops)[id], me)]
                && jobHosts == old(jobHosts)[id := hosts]
      ensures started != Success(true) ==> db.ops == old(db.ops) && jobHosts == old(jobHosts)
      ensures started == Success(false) ==> id !in db.ops || db.ops[id].state != Queued
      ensures WithinLimits(jobHosts, concurrency) && NoneQueued(jobHosts, db.ops)
      ensures forall other: set<Host> :: HeldBack(old(jobHosts), other, concurrency) ==>
                HeldBack(jobHosts, other, concurrency)
    {
      counted := running;
      started := Start(db, me, id);
      if started == Success(true) {
        AddKeepsLimits(jobHosts, id, hosts, concurrency);
        counted := CountJob(running, hosts);
        AddCounts(jobHosts, id, hosts, running, counted);
        jobHosts := jobHosts[id := hosts];
      }
    }
  }
}
