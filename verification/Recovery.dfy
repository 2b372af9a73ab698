/** The recovery scheduler and the control threads of operations/worker.py. */
module Recovery {
  import opened Wrappers
  import opened Records

  /** A reading of the monotonic clock, or a span of it. */
  type Seconds = real

  const CONTROL_THREADS: nat := 4
  const BACKOFF: seq<Seconds> := [30.0, 60.0, 120.0, 300.0, 600.0]
  const WATCH_EVERY: Seconds := 15.0
  const STALL_LIMIT: Seconds := 600.0
  const RECOVERY_LIMIT: Seconds := 3600.0

  // -- control threads ---------------------------------------------------------

  /** Each element is a control task that runs, by its hosts; tasks without a
      host are not listed. */
  function AllHosts(tasks: seq<set<Host>>): set<Host> {
    if tasks == [] then {} else tasks[0] + AllHosts(tasks[1..])
  }

  /** A host has at most one control task, and one thread is left over. */
  ghost predicate OnePerHost(tasks: seq<set<Host>>) {
    && |tasks| <= CONTROL_THREADS - 1
    && (forall i :: 0 <= i < |tasks| ==> tasks[i] != {})
    && (forall i, j :: 0 <= i < j < |tasks| ==> tasks[i] !! tasks[j])
  }

  lemma AllHostsAre(tasks: seq<set<Host>>, h: Host)
    ensures h in AllHosts(tasks) <==> exists i :: 0 <= i < |tasks| && h in tasks[i]
  {
    if tasks != [] {
      AllHostsAre(tasks[1..], h);
      if i :| 0 <= i < |tasks| && h in tasks[i] && i > 0 {
        assert tasks[1..][i - 1] == tasks[i];
      }
      if i :| 0 <= i < |tasks[1..]| && h in tasks[1..][i] {
        assert tasks[i + 1] == tasks[1..][i];
      }
    }
  }

  class Controls {
    var hosts: set<Host>
    var count: nat
    ghost var tasks: seq<set<Host>>

    ghost predicate Valid()
      reads this
    {
      OnePerHost(tasks) && hosts == AllHosts(tasks) && count == |tasks|
    }

    constructor ()
      ensures Valid() && tasks == []
    {
      hosts, count, tasks := {}, 0, [];
    }

    /** run_control: false when a host is busy or only one thread is left. */
    method RunControl(wanted: set<Host>) returns (started: bool)
      requires Valid()
      modifies this
      ensures Valid()
      ensures started <==> wanted == {} || (|old(tasks)| < 3 && forall t <- old(tasks) :: t !! wanted)
      ensures tasks == if started && wanted != {} then old(tasks) + [wanted] else old(tasks)
      ensures hosts == if started then old(hosts) + wanted else old(hosts)
      ensures !started ==> wanted != {} && (wanted * hosts != {} || |tasks| == CONTROL_THREADS - 1)
    {
      forall h ensures h in hosts <==> exists i :: 0 <= i < |tasks| && h in tasks[i] { AllHostsAre(tasks, h); }
      if wanted * hosts != {} {
        ghost var h :| h in wanted * hosts;
        ghost var i :| 0 <= i < |tasks| && h in tasks[i];
        assert tasks[i] in tasks && !(tasks[i] !! wanted);
        return false;
      }
      assert forall i :: 0 <= i < |tasks| ==> tasks[i] !! wanted by {
        forall i, h | 0 <= i < |tasks| && h in tasks[i] ensures h !in wanted {
          assert h in hosts && h !in wanted * hosts;
        }
      }
      if wanted != {} && count >= CONTROL_THREADS - 1 {
        return false;
      }
      started := true;
      if wanted != {} {
        ghost var more := tasks + [wanted];
        forall h ensures h in AllHosts(more) <==> h in hosts + wanted {
          AllHostsAre(more, h);
          if h in wanted { assert h in more[|tasks|]; }
          if i :| 0 <= i < |tasks| && h in tasks[i] { assert h in more[i]; }
        }
        hosts, count, tasks := hosts + wanted, count + 1, more;
      }
    }

    /** The task's end: its hosts are free again. */
    method Ended(wanted: set<Host>, ghost i: nat)
      requires Valid() && i < |tasks| && wanted == tasks[i]
      modifies this
      ensures Valid() && tasks == old(tasks)[..i] + old(tasks)[i + 1..]
    {
      ghost var fewer := tasks[..i] + tasks[i + 1..];
      forall h ensures h in AllHosts(fewer) <==> h in hosts - tasks[i] {
        AllHostsAre(fewer, h);
        AllHostsAre(tasks, h);
        if k :| 0 <= k < |tasks| && h in tasks[k] && k != i {
          assert fewer[if k < i then k else k - 1] == tasks[k];
        }
      }
      hosts, count, tasks := hosts - wanted, count - 1, fewer;
    }
  }

  // -- one job's recovery ---------------------------------------------------------

  /** The scheduler's tables for one job: not in next_try once it is done. */
  datatype Row = Row(nextTry: Option<Seconds>, attempts: nat, failingSince: Option<Seconds>,
                     stalledSince: Option<Seconds>)

  const ABSENT := Row(None, 0, None, None)

  /** What an inspection found: the job ended or is another's; a state reconcile
      decided; libvirt still working; reconcile raised; the inspection itself raised. */
  datatype Finding = NotOurs | Decided | Working(stalled: bool) | Unreadable | Broke

  /** How the inspection leaves the job. */
  datatype Result = Finished | GaveUp | Left | Later

  function Min(a: nat, b: nat): nat { if a < b then a else b }

  /** The wait after the n-th failure: the last one repeats. */
  function Backoff(n: nat): Seconds {
    BACKOFF[Min(n, |BACKOFF| - 1)]
  }

  /** The row after an inspection that ended at now. */
  function Inspected(row: Row, finding: Finding, now: Seconds): (Row, Result) {
    match finding
    case NotOurs => (ABSENT, Left)
    case Decided => (ABSENT, Finished)
    case Broke => (row.(nextTry := Some(now + Backoff(|BACKOFF| - 1))), Later)
    case Unreadable =>
      var since := if row.failingSince.Some? then row.failingSince.value else now;
      if now - since >= RECOVERY_LIMIT then (ABSENT, GaveUp)
      else (row.(nextTry := Some(now + Backoff(row.attempts)), attempts := row.attempts + 1,
                 failingSince := Some(since)), Later)
    case Working(stalled) =>
      var calm := row.(failingSince := None);
      if !stalled then (calm.(nextTry := Some(now + WATCH_EVERY), stalledSince := None), Later)
      else
        var since := if row.stalledSince.Some? then row.stalledSince.value else now;
        if now - since >= STALL_LIMIT then (ABSENT, GaveUp)
        else (calm.(nextTry := Some(now + WATCH_EVERY), stalledSince := Some(since)), Later)
  }

  /** Each finding's row and outcome, in seconds. */
  lemma InspectedIs(row: Row, finding: Finding, now: Seconds)
    ensures var (row', result) := Inspected(row, finding, now);
            match finding
            case NotOurs => result == Left && row' == Row(None, 0, None, None)
            case Decided => result == Finished && row' == Row(None, 0, None, None)
            // an inspection that raised waits ten minutes
            case Broke => result == Later && row' == row.(nextTry := Some(now + 600.0))
            // a job that could not be read for an hour is given up, else the wait grows
            case Unreadable =>
              var since := if row.failingSince.Some? then row.failingSince.value else now;
              var n := row.attempts;
              var wait := if n == 0 then 30.0 else if n == 1 then 60.0 else if n == 2 then 120.0
                          else if n == 3 then 300.0 else 600.0;
              if now - since >= 3600.0 then result == GaveUp && row' == Row(None, 0, None, None)
              else result == Later && row' == Row(Some(now + wait), n + 1, Some(since), row.stalledSince)
            // one that libvirt works on ends the streak; it is given up once stalled for ten minutes
            case Working(stalled) =>
              var since := if !stalled then None else if row.stalledSince.Some? then row.stalledSince else Some(now);
              if since.Some? && now - since.value >= 600.0 then result == GaveUp && row' == Row(None, 0, None, None)
              else result == Later && row' == Row(Some(now + 15.0), row.attempts, None, since)
  {
  }

  class Scheduler {
    var nextTry: map<Id, Seconds>
    var attempts: map<Id, nat>
    var failingSince: map<Id, Seconds>
    var stalledSince: map<Id, Seconds>
    var inflight: set<Id>

    function RowOf(id: Id): Row
      reads this
    {
      Row(if id in nextTry then Some(nextTry[id]) else None,
          if id in attempts then attempts[id] else 0,
          if id in failingSince then Some(failingSince[id]) else None,
          if id in stalledSince then Some(stalledSince[id]) else None)
    }

    constructor ()
      ensures inflight == {} && forall id :: RowOf(id) == ABSENT
    {
      nextTry, attempts, failingSince, stalledSince, inflight := map[], map[], map[], map[], {};
    }

    method InspectNow(id: Id)
      modifies this
      ensures RowOf(id) == old(RowOf(id)).(nextTry := Some(0.0))
      ensures inflight == old(inflight) && forall other :: other != id ==> RowOf(other) == old(RowOf(other))
    {
      nextTry := nextTry[id := 0.0];
    }

    /** due: starts the inspections whose time has come, of jobs not already
        inspected, as far as their hosts' control tasks let it. */
    method Due(controls: Controls, hosts: map<Id, set<Host>>, now: Seconds) returns (started: set<Id>)
      requires controls.Valid()
      modifies this`inflight, controls
      ensures controls.Valid()
      ensures inflight == old(inflight) + started && started !! old(inflight)
      ensures forall id <- started :: RowOf(id).nextTry.Some? && RowOf(id).nextTry.value <= now
      ensures forall id <- nextTry :: nextTry[id] <= now && id !in inflight ==>
                id in hosts && hosts[id] != {}
                    && (|controls.tasks| == CONTROL_THREADS - 1 || hosts[id] * controls.hosts != {})
    {
      var due := set id | id in nextTry && nextTry[id] <= now && id !in inflight;
      started := {};
      while due != {}
        invariant controls.Valid()
        invariant due <= nextTry.Keys && due !! inflight
        invariant inflight == old(inflight) + started && started !! old(inflight)
        invariant forall id <- started :: id in nextTry && nextTry[id] <= now
        invariant forall id <- nextTry :: nextTry[id] <= now && id !in inflight && id !in due ==>
                    id in hosts && hosts[id] != {}
                        && (|controls.tasks| == CONTROL_THREADS - 1 || hosts[id] * controls.hosts != {})
        decreases due
      {
        var id :| id in due;
        due := due - {id};
        inflight := inflight + {id};
        var wanted := if id in hosts then hosts[id] else {};
        var runs := controls.RunControl(wanted);
        if runs {
          started := started + {id};
        } else {
          inflight := inflight - {id};
        }
      }
    }

    method Done(id: Id)
      modifies this
      ensures RowOf(id) == ABSENT && inflight == old(inflight)
      ensures forall other :: other != id ==> RowOf(other) == old(RowOf(other))
    {
      nextTry, attempts := nextTry - {id}, attempts - {id};
      failingSince, stalledSince := failingSince - {id}, stalledSince - {id};
    }

    /** _inspect, from its finding on. */
    method Inspect(id: Id, finding: Finding, now: Seconds) returns (result: Result)
      requires id in inflight
      modifies this
      ensures (RowOf(id), result) == Inspected(old(RowOf(id)), finding, now)
      ensures forall other :: other != id ==> RowOf(other) == old(RowOf(other))
      ensures inflight == old(inflight) - {id}
    {
      inflight := inflight - {id};
      match finding
      case NotOurs =>
        Done(id);
        result := Left;
      case Decided =>
        Done(id);
        result := Finished;
      case Broke =>
        nextTry := nextTry[id := now + BACKOFF[|BACKOFF| - 1]];
        result := Later;
      case Unreadable =>
        if id !in failingSince {
          failingSince := failingSince[id := now];
        }
        if now - failingSince[id] >= RECOVERY_LIMIT {
          Done(id);
          return GaveUp;
        }
        var n := if id in attempts then attempts[id] else 0;
        attempts := attempts[id := n + 1];
        nextTry := nextTry[id := now + BACKOFF[if n < |BACKOFF| - 1 then n else |BACKOFF| - 1]];
        result := Later;
      case Working(stalled) =>
        failingSince := failingSince - {id};
        if !stalled {
          stalledSince := stalledSince - {id};
        } else {
          if id !in stalledSince {
            stalledSince := stalledSince[id := now];
          }
          if now - stalledSince[id] >= STALL_LIMIT {
            Done(id);
            return GaveUp;
          }
        }
        nextTry := nextTry[id := now + WATCH_EVERY];
        result := Later;
    }
  }

  /** Every inspection ends the job here, or leaves it to a strictly later time. */
  lemma InspectionsMoveOn(row: Row, finding: Finding, now: Seconds)
    ensures var (row', result) := Inspected(row, finding, now);
            if result == Later then row'.nextTry.Some? && row'.nextTry.value >= now + WATCH_EVERY else row' == ABSENT
  {
  }

  /** The row after a streak of inspections that could not read the job's
      state, at these times; None once one of them gave up. */
  function AfterFailures(row: Row, times: seq<Seconds>): Option<Row>
    decreases |times|
  {
    if times == [] then Some(row)
    else
      var (row', result) := Inspected(row, Unreadable, times[0]);
      if result == Later then AfterFailures(row', times[1..]) else None
  }

  /** Each failure comes no earlier than the one before scheduled it. */
  predicate Timely(row: Row, times: seq<Seconds>)
    decreases |times|
  {
    times == [] ||
      var (row', result) := Inspected(row, Unreadable, times[0]);
      && (row.nextTry.Some? ==> times[0] >= row.nextTry.value)
      && (result == Later ==> Timely(row', times[1..]))
  }

  /** The waits after the n-th, ..., (n + k - 1)-th attempt. */
  function Waits(n: nat, k: nat): Seconds
    decreases k
  {
    if k == 0 then 0.0 else Backoff(n) + Waits(n + 1, k - 1)
  }

  lemma {:induction false} StreakLasts(row: Row, times: seq<Seconds>, since: Seconds)
    requires row.failingSince == Some(since) && row.nextTry.Some?
    requires Timely(row, times) && AfterFailures(row, times).Some? && times != []
    ensures row.nextTry.value - since + Waits(row.attempts, |times| - 1) < RECOVERY_LIMIT
    decreases |times|
  {
    if |times| > 1 {
      StreakLasts(Inspected(row, Unreadable, times[0]).0, times[1..], since);
    }
  }

  /** Ten failures in a row at most: the eleventh ends the job uncertain,
      whatever the ticks' timing and however many attempts came before. */
  lemma StreaksEnd(row: Row, times: seq<Seconds>)
    requires row.failingSince.None? && Timely(row, times) && |times| >= 11
    ensures AfterFailures(row, times).None?
  {
    if AfterFailures(row, times).Some? {
      var row1 := Inspected(row, Unreadable, times[0]).0;
      StreakLasts(row1, times[1..], times[0]);
      WaitsGrow(0, row.attempts, 10, |times| - 1);
      TenWaits();
      assert false;
    }
  }

  /** More attempts, or more of them before, wait no shorter. */
  lemma {:induction false} WaitsGrow(n: nat, m: nat, k: nat, l: nat)
    requires n <= m && k <= l
    ensures 0.0 <= Waits(n, k) <= Waits(m, l)
    decreases l
  {
    if k > 0 {
      WaitsGrow(n + 1, m + 1, k - 1, l - 1);
    } else if l > 0 {
      WaitsGrow(n + 1, m + 1, 0, l - 1);
    }
  }

  lemma TenWaits()
    ensures Waits(0, 10) == 4110.0
  {
    assert Waits(5, 5) == 3000.0 by { assert Waits(8, 2) == 1200.0; }
    assert Waits(3, 7) == 3900.0;
  }

  /** Inspections on the dot, from the n-th failure to the tenth. */
  function OnTheDot(n: nat, at: Seconds): seq<Seconds>
    decreases 10 - n
  {
    if n >= 10 then [] else [at] + OnTheDot(n + 1, at + Backoff(n))
  }

  /** The bound is met: inspected on the dot, ten failures leave the job scheduled. */
  lemma TenFailuresMayPass(now: Seconds)
    ensures |OnTheDot(0, now)| == 10
    ensures Timely(ABSENT, OnTheDot(0, now)) && AfterFailures(ABSENT, OnTheDot(0, now)).Some?
  {
    OnTheDotLength(0, now);
    OnTheDotPasses(0, now, now);
  }

  /** The row before the n-th failure in a row, when it is due. */
  function DotRow(n: nat, at: Seconds, since: Seconds): Row {
    if n == 0 then ABSENT else Row(Some(at), n, Some(since), None)
  }

  lemma OneMoreFailure(n: nat, at: Seconds, since: Seconds)
    requires n < 10 && at - since == Waits(0, n)
    ensures Inspected(DotRow(n, at, since), Unreadable, at) == (DotRow(n + 1, at + Backoff(n), since), Later)
    ensures at + Backoff(n) - since == Waits(0, n + 1)
  {
    NineWaitsAreShort(n);
    LastWait(0, n);
  }

  /** The streak leaves the job scheduled. */
  predicate Survives(row: Row, times: seq<Seconds>) {
    Timely(row, times) && AfterFailures(row, times).Some?
  }

  lemma FailureFirst(row: Row, row': Row, at: Seconds, rest: seq<Seconds>)
    requires Inspected(row, Unreadable, at) == (row', Later) && (row.nextTry.Some? ==> at >= row.nextTry.value)
    requires Survives(row', rest)
    ensures Survives(row, [at] + rest)
  {
    assert ([at] + rest)[0] == at && ([at] + rest)[1..] == rest;
  }

  lemma {:induction false} OnTheDotPasses(n: nat, at: Seconds, since: Seconds)
    requires n <= 10 && at - since == Waits(0, n)
    ensures Survives(DotRow(n, at, since), OnTheDot(n, at))
    decreases 10 - n
  {
    if n < 10 {
      var next := at + Backoff(n);
      var rest := OnTheDot(n + 1, next);
      OneMoreFailure(n, at, since);
      OnTheDotPasses(n + 1, next, since);
      FailureFirst(DotRow(n, at, since), DotRow(n + 1, next, since), at, rest);
      assert OnTheDot(n, at) == [at] + rest;
    }
  }

  lemma {:induction false} OnTheDotLength(n: nat, at: Seconds)
    requires n <= 10
    ensures |OnTheDot(n, at)| == 10 - n
    decreases 10 - n
  {
    if n < 10 {
      OnTheDotLength(n + 1, at + Backoff(n));
    }
  }

  lemma NineWaitsAreShort(n: nat)
    requires n < 10
    ensures 0.0 <= Waits(0, n) < RECOVERY_LIMIT
  {
    WaitsGrow(0, 0, n, 9);
    LastWait(0, 9);
    TenWaits();
  }

  lemma {:induction false} LastWait(n: nat, k: nat)
    ensures Waits(n, k + 1) == Waits(n, k) + Backoff(n + k)
    decreases k
  {
    if k > 0 {
      LastWait(n + 1, k - 1);
    }
  }
}
