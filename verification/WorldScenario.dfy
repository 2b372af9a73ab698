/** One run through a crash: the machine does reach what the theorems speak of. */
module WorldScenarios {
  import opened Wrappers
  import opened Records
  import opened Leases
  import opened Claims
  import opened Jobs
  import opened Workers
  import opened Worlds

  ghost predicate Reachable(w: World) { exists events :: Run(EMPTY, events) == w }

  lemma {:induction false} RunOn(w: World, events: seq<Event>, e: Event)
    ensures Run(w, events + [e]) == Apply(Run(w, events), e)
    decreases |events|
  {
    if events == [] {
      assert ([e])[1..] == [] && events + [e] == [e];
      assert Run(w, [e]) == Run(Apply(w, e), []);
    } else {
      assert (events + [e])[0] == events[0] && (events + [e])[1..] == events[1..] + [e];
      RunOn(Apply(w, events[0]), events[1..], e);
    }
  }

  lemma Reaches(w: World, e: Event)
    requires Reachable(w)
    ensures Reachable(Apply(w, e))
  {
    var events :| Run(EMPTY, events) == w;
    RunOn(EMPTY, events, e);
    assert Run(EMPTY, events + [e]) == Apply(w, e);
  }

  const FIRST := Process(1, 1)
  const SECOND := Process(1, 2)
  const ASKED := Request(5, "k", "clone", 9)

  function Job(state: State, worker: Owner, effects: bool, finished: Option<Time>, starts: nat, ends: nat): Op {
    Op("clone", 5, 9, Sent("k"), state, effects, worker, false, 0, finished, map[NameKey("vm") := Exclusive], 0, "k",
       starts, ends, false)
  }

  function Held(state: State, worker: Owner, effects: bool, lease: Process): Tables {
    Tables(map[7 := Job(state, worker, effects, None, if worker.By? then 1 else 0, 0)],
           map[ClaimId(0, NameKey("vm")) := OfJob(7, Exclusive)], 1, Some(Lease(lease, 0)))
  }

  const MADE: map<Id, Made> := map[7 := Made(5, "k", "clone", 9, map[NameKey("vm") := Exclusive], 0)]

  /** A world of the first worker. */
  function First(db: Tables, alive: bool, threads: map<(Process, Id), bool>, made: map<Id, Made>): World {
    World(db, 0, if alive then {FIRST} else {}, {FIRST}, {FIRST}, {FIRST}, threads, {}, map[], map[], made)
  }

  lemma WorkerStarts()
    ensures Reachable(First(Tables(map[], map[], 0, Some(Lease(FIRST, 0))), true, map[], map[]))
  {
    assert Run(EMPTY, []) == EMPTY;
    var w1 := Apply(EMPTY, Launch(FIRST, true));
    Reaches(EMPTY, Launch(FIRST, true));
    var w2 := Apply(w1, Acquire(FIRST));
    Reaches(w1, Acquire(FIRST));
    Reaches(w2, Orphans(FIRST));
    assert Apply(w2, Orphans(FIRST)) == First(Tables(map[], map[], 0, Some(Lease(FIRST, 0))), true, map[], map[]);
  }

  lemma JobIsTaken()
    ensures Reachable(First(Held(Queued, Nobody, false, FIRST), true, map[], MADE))
  {
    WorkerStarts();
    var w := First(Tables(map[], map[], 0, Some(Lease(FIRST, 0))), true, map[], map[]);
    var plan := map[NameKey("vm") := Exclusive];
    Reaches(w, Submit(7, ASKED, plan, false, {}));
    assert Looked(w.db, ASKED, 0) == (w.db, None);
    assert Cleared(w.db.claims, plan, 0, {}) + JobRows(0, plan, 7) ==
             map[ClaimId(0, NameKey("vm")) := OfJob(7, Exclusive)];
    assert JobAdmitted(w.db, 7, ASKED, plan, false, 0, {}) == Held(Queued, Nobody, false, FIRST);
  }

  lemma JobRuns()
    ensures Reachable(First(Held(Running, By(FIRST), false, FIRST), true, map[(FIRST, 7) := false], MADE))
  {
    JobIsTaken();
    var w := First(Held(Queued, Nobody, false, FIRST), true, map[], MADE);
    Reaches(w, StartJob(FIRST, 7));
    assert Started(w.db, FIRST, 7) == Held(Running, By(FIRST), false, FIRST);
    assert Apply(w, StartJob(FIRST, 7)) ==
             First(Held(Running, By(FIRST), false, FIRST), true, map[(FIRST, 7) := false], MADE);
  }

  lemma JobRecords()
    ensures Reachable(First(Held(Running, By(FIRST), true, FIRST), true, map[(FIRST, 7) := true], MADE))
  {
    JobRuns();
    var w := First(Held(Running, By(FIRST), false, FIRST), true, map[(FIRST, 7) := false], MADE);
    Reaches(w, Record(FIRST, 7, true));
    assert Recorded(w.db, FIRST, 7) == Held(Running, By(FIRST), true, FIRST);
    assert Apply(w, Record(FIRST, 7, true)) ==
             First(Held(Running, By(FIRST), true, FIRST), true, map[(FIRST, 7) := true], MADE);
  }

  lemma WorkerDies()
    ensures Reachable(First(Held(Running, By(FIRST), true, FIRST), false, map[], MADE))
  {
    JobRecords();
    var w := First(Held(Running, By(FIRST), true, FIRST), true, map[(FIRST, 7) := true], MADE);
    Reaches(w, Die(FIRST));
    assert Apply(w, Die(FIRST)) == First(Held(Running, By(FIRST), true, FIRST), false, map[], MADE);
  }

  /** A world of the next worker of its node. */
  function Second(db: Tables, ready: bool, due: set<(Process, Id)>, looks: map<(Process, Id), Inspection>): World {
    World(db, 0, {SECOND}, {FIRST, SECOND}, {FIRST, SECOND}, if ready then {FIRST, SECOND} else {FIRST},
          map[], due, looks, map[], MADE)
  }

  lemma NextStarts()
    ensures Reachable(Second(Held(Running, By(FIRST), true, SECOND), false, {}, map[]))
  {
    WorkerDies();
    var w := First(Held(Running, By(FIRST), true, FIRST), false, map[], MADE);
    Reaches(w, Launch(SECOND, true));
    var w1 := Second(Held(Running, By(FIRST), true, FIRST), false, {}, map[]);
    assert Apply(w, Launch(SECOND, true)) == w1;
    Reaches(w1, Acquire(SECOND));
    assert Acquired(w1.db, SECOND, 0) == Held(Running, By(FIRST), true, SECOND);
    assert Apply(w1, Acquire(SECOND)) == Second(Held(Running, By(FIRST), true, SECOND), false, {}, map[]);
  }

  lemma NextLooks()
    ensures var looks := map[(SECOND, 7) := OfOther(FIRST)];
            Reachable(Second(Held(Running, By(FIRST), true, SECOND), true, {(SECOND, 7)}, looks))
  {
    NextStarts();
    var db := Held(Running, By(FIRST), true, SECOND);
    var w := Second(db, false, {}, map[]);
    var w1 := Second(db, true, {(SECOND, 7)}, map[]);
    Reaches(w, Orphans(SECOND));
    assert Apply(w, Orphans(SECOND)) == w1;
    Reaches(w1, Inspect(SECOND, 7));
    assert Apply(w1, Inspect(SECOND, 7)) == Second(db, true, {(SECOND, 7)}, map[(SECOND, 7) := OfOther(FIRST)]);
  }

  lemma NextTakesOver()
    ensures var looks := map[(SECOND, 7) := Owned(true)];
            Reachable(Second(Held(Running, By(SECOND), true, SECOND), true, {(SECOND, 7)}, looks))
  {
    NextLooks();
    var db := Held(Running, By(FIRST), true, SECOND);
    var w := Second(db, true, {(SECOND, 7)}, map[(SECOND, 7) := OfOther(FIRST)]);
    Reaches(w, Take(SECOND, 7));
    assert TakenOver(db, SECOND, 7, FIRST, 0) == Held(Running, By(SECOND), true, SECOND);
    assert Apply(w, Take(SECOND, 7)) ==
             Second(Held(Running, By(SECOND), true, SECOND), true, {(SECOND, 7)}, map[(SECOND, 7) := Owned(true)]);
  }

  /** A worker takes a job in, starts it, records its intent and dies; the next
      worker of its node takes the job over, asks libvirt, and ends it. */
  lemma CrashedJobIsRecovered()
    ensures exists w :: && Reachable(w) && 7 in w.db.ops && w.db.ops[7].state == Succeeded && w.db.claims == map[]
                        && w.due == {} && w.looks == map[]
  {
    NextTakesOver();
    var db := Held(Running, By(SECOND), true, SECOND);
    var w := Second(db, true, {(SECOND, 7)}, map[(SECOND, 7) := Owned(true)]);
    Reaches(w, Judge(SECOND, 7, Succeeded));
    var w' := Apply(w, Judge(SECOND, 7, Succeeded));
    assert DropJobClaims(db.claims, 7) == map[];
    assert w'.due == {} && w'.looks == map[] && w'.db.claims == map[];
  }
}
