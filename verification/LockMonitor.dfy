/** Every interleaving of threads on one ReadWriteLock: which threads sleep in
    wait(), which of them are notified, and what each holds. */
module LockMonitor {
  import opened Wrappers
  import opened ReadWriteLocks

  /** What a sleeping thread asked for. */
  datatype Wish = Reading | Writing(upgrade: bool)

  /** upgrader: the sleeper that gave up its read locks to write; held:
      acquires minus releases of each thread, counted from outside. */
  datatype Monitor = Monitor(
    lock: Fields,
    sleepers: map<Thread, Wish>,
    notified: set<Thread>,
    upgrader: Option<Thread>,
    held: map<Thread, nat>)

  /** late: the call has a timeout and it is over. Wake: a sleeper leaves
      wait(), notified or with its timeout over. */
  datatype Event =
    | CallRead(thread: Thread, late: bool)
    | CallWrite(thread: Thread, late: bool)
    | Wake(thread: Thread, late: bool)
    | CallRelease(thread: Thread)

  const START := Monitor(Fields(None, 0, 0, [], map[]), map[], {}, None, map[])

  function Held(m: Monitor, t: Thread): nat {
    if t in m.held then m.held[t] else 0
  }

  predicate Guard(f: Fields, t: Thread, wish: Wish) {
    match wish
    case Reading => ReadGuard(f, t)
    case Writing(upgrade) => WriteGuard(f, t, upgrade)
  }

  function Landed(m: Monitor, t: Thread, wish: Wish, pass: (Fields, Answer)): Monitor {
    var others := if m.upgrader == Some(t) then None else m.upgrader;
    match pass.1
    case Sleeps =>
      Monitor(pass.0, m.sleepers[t := wish], m.notified - {t},
              if wish == Writing(true) then Some(t) else others, m.held)
    case Granted =>
      Monitor(pass.0, m.sleepers - {t}, m.notified - {t}, others, m.held[t := Held(m, t) + 1])
    case _ =>
      Monitor(pass.0, m.sleepers - {t}, m.notified - {t}, others, m.held)
  }

  function Retry(f: Fields, t: Thread, wish: Wish, late: bool): (Fields, Answer) {
    match wish
    case Reading => ReadPass(f, t, late)
    case Writing(upgrade) => WritePass(f, t, upgrade, late)
  }

  /** A thread asleep calls nothing, and one neither notified nor late stays
      asleep; such events change nothing. */
  function Apply(m: Monitor, e: Event): Monitor {
    var t := e.thread;
    if e.Wake? then
      if t in m.sleepers && (e.late || t in m.notified) then
        Landed(m, t, m.sleepers[t], Retry(m.lock, t, m.sleepers[t], e.late))
      else m
    else if t in m.sleepers then m
    else match e
      case CallRead(_, late) => Landed(m, t, Reading, ReadCall(m.lock, t, late))
      case CallWrite(_, late) => Landed(m, t, Writing(t in m.lock.readers), WriteCall(m.lock, t, late))
      case _ => Released(m, t)
  }

  function Released(m: Monitor, t: Thread): Monitor {
    if (m.lock.writer == Some(t) && m.lock.writerCount == 0) || (t in m.lock.readers && m.lock.readers[t] == 0) then m
    else
      var (lock, answer, all) := ReleaseCall(m.lock, t);
      m.(lock := lock, notified := if all then m.sleepers.Keys else m.notified,
         held := if answer == Granted && Held(m, t) > 0 then m.held[t := Held(m, t) - 1] else m.held)
  }

  function Run(m: Monitor, events: seq<Event>): Monitor
    decreases |events|
  {
    if events == [] then m else Run(Apply(m, events[0]), events[1..])
  }

  /** What the lock itself counts for a thread: its write or read depth, or
      the read depth kept for it while it waits to upgrade. */
  function Depth(m: Monitor, t: Thread): nat {
    if m.lock.writer == Some(t) then m.lock.writerCount
    else if t in m.lock.readers then m.lock.readers[t]
    else if m.upgrader == Some(t) then m.lock.upgradeCount
    else 0
  }

  /** A writer excludes readers and upgraders; nobody both holds and sleeps. */
  ghost predicate Exclusive(m: Monitor) {
    && (m.lock.writer.Some? ==>
          && m.lock.writerCount > 0 && m.lock.readers == map[] && m.lock.upgradeCount == 0
          && m.lock.writer.value !in m.sleepers)
    && (forall t <- m.lock.readers :: m.lock.readers[t] > 0 && t !in m.sleepers)
    && (m.lock.upgradeCount > 0 <==> m.upgrader.Some?)
    && (forall t <- m.sleepers :: m.sleepers[t] == Writing(true) <==> m.upgrader == Some(t))
    && (m.upgrader.Some? ==> m.upgrader.value in m.sleepers)
    && m.notified <= m.sleepers.Keys
  }

  /** The queue of writers is the sleeping writers, each once. */
  ghost predicate Queued(m: Monitor) {
    && (forall i, j :: 0 <= i < j < |m.lock.pending| ==> m.lock.pending[i] != m.lock.pending[j])
    && (forall t :: t in m.lock.pending <==> t in m.sleepers && m.sleepers[t] == Writing(false))
  }

  ghost predicate Counted(m: Monitor) {
    forall t :: Held(m, t) == Depth(m, t)
  }

  ghost predicate Safe(m: Monitor) {
    Exclusive(m) && Queued(m) && Counted(m)
  }

  /** No sleeper that nobody notified could go on. */
  ghost predicate NoLostWakeup(m: Monitor) {
    forall t <- m.sleepers :: t !in m.notified ==> !Guard(m.lock, t, m.sleepers[t])
  }

  predicate Distinct(s: seq<Thread>) {
    forall i, j :: 0 <= i < j < |s| ==> s[i] != s[j]
  }

  lemma {:induction false} WithoutHas(s: seq<Thread>, t: Thread, u: Thread)
    requires Distinct(s)
    ensures u in Without(s, t) <==> u in s && u != t
  {
    if s != [] {
      assert s == [s[0]] + s[1..];
      if s[0] == t {
        assert t !in s[1..];
      } else {
        WithoutHas(s[1..], t, u);
      }
    }
  }

  lemma {:induction false} WithoutIsDistinct(s: seq<Thread>, t: Thread)
    requires Distinct(s)
    ensures Distinct(Without(s, t))
  {
    if s != [] && s[0] != t {
      WithoutIsDistinct(s[1..], t);
      WithoutHas(s[1..], t, s[0]);
      assert s[0] !in s[1..];
    }
  }

  lemma WithoutDropsOne(s: seq<Thread>, t: Thread)
    requires forall i, j :: 0 <= i < j < |s| ==> s[i] != s[j]
    ensures forall u :: u in Without(s, t) <==> u in s && u != t
    ensures forall i, j :: 0 <= i < j < |Without(s, t)| ==> Without(s, t)[i] != Without(s, t)[j]
    ensures s != [] && s[0] != t ==> Without(s, t) != [] && Without(s, t)[0] == s[0]
  {
    forall u ensures u in Without(s, t) <==> u in s && u != t { WithoutHas(s, t, u); }
    WithoutIsDistinct(s, t);
  }

  /** The monitor once t has put down its wish, before the first pass. */
  function Asked(m: Monitor, t: Thread, write: bool): Monitor {
    if !write then
      m.(sleepers := m.sleepers[t := Reading])
    else if t in m.lock.readers then
      m.(lock := m.lock.(upgradeCount := m.lock.readers[t], readers := m.lock.readers - {t}),
         sleepers := m.sleepers[t := Writing(true)], upgrader := Some(t))
    else
      m.(lock := m.lock.(pending := m.lock.pending + [t]), sleepers := m.sleepers[t := Writing(false)])
  }

  predicate MayAsk(m: Monitor, t: Thread, write: bool) {
    && t !in m.sleepers && m.lock.writer != Some(t)
    && (if write then t in m.lock.readers ==> m.lock.upgradeCount == 0 else !ReadGuard(m.lock, t))
  }

  lemma AskingIsSafe(m: Monitor, t: Thread, write: bool)
    requires Safe(m) && MayAsk(m, t, write)
    ensures Safe(Asked(m, t, write))
  {
    var m' := Asked(m, t, write);
    assert forall u :: Held(m', u) == Held(m, u) == Depth(m, u) == Depth(m', u);
  }

  function Passed(m: Monitor, t: Thread, late: bool): Monitor
    requires t in m.sleepers
  {
    Landed(m, t, m.sleepers[t], Retry(m.lock, t, m.sleepers[t], late))
  }

  lemma PassIsSafe(m: Monitor, t: Thread, late: bool)
    requires Safe(m) && t in m.sleepers
    ensures Safe(Passed(m, t, late))
  {
    PassExcludes(m, t, late);
    PassQueues(m, t, late);
    PassCounts(m, t, late);
  }

  lemma PassExcludes(m: Monitor, t: Thread, late: bool)
    requires Safe(m) && t in m.sleepers
    ensures Exclusive(Passed(m, t, late))
  {
  }

  lemma PassQueues(m: Monitor, t: Thread, late: bool)
    requires Safe(m) && t in m.sleepers
    ensures Queued(Passed(m, t, late))
  {
    WithoutDropsOne(m.lock.pending, t);
  }

  lemma PassCounts(m: Monitor, t: Thread, late: bool)
    requires Safe(m) && t in m.sleepers
    ensures Counted(Passed(m, t, late))
  {
    var m' := Passed(m, t, late);
    forall u ensures Held(m', u) == Depth(m', u) {
      assert Held(m, u) == Depth(m, u);
    }
  }

  lemma ReleaseIsSafe(m: Monitor, t: Thread)
    requires Safe(m) && t !in m.sleepers
    ensures Safe(Released(m, t))
  {
    var m' := Released(m, t);
    forall u ensures Held(m', u) == Depth(m', u) {
      assert Held(m, u) == Depth(m, u);
    }
  }

  lemma StepKeepsSafe(m: Monitor, e: Event)
    requires Safe(m)
    ensures Safe(Apply(m, e))
  {
    var t := e.thread;
    if e.Wake? {
      if t in m.sleepers { PassIsSafe(m, t, e.late); }
    } else if t !in m.sleepers {
      match e
      case CallRelease(_) => ReleaseIsSafe(m, t);
      case _ => CallKeepsSafe(m, t, e.CallWrite?, e.late);
    }
  }

  lemma CallKeepsSafe(m: Monitor, t: Thread, write: bool, late: bool)
    requires Safe(m) && t !in m.sleepers
    ensures Safe(Apply(m, if write then CallWrite(t, late) else CallRead(t, late)))
  {
    if MayAsk(m, t, write) {
      var a := Asked(m, t, write);
      AskingIsSafe(m, t, write);
      PassIsSafe(a, t, late);
      AskThenPass(m, t, write, late);
    } else {
      GrantAtOnceIsSafe(m, t, write, late);
    }
  }

  /** A call that has to ask is the wish put down and one pass. */
  lemma AskThenPass(m: Monitor, t: Thread, write: bool, late: bool)
    requires Safe(m) && MayAsk(m, t, write)
    ensures var a := Asked(m, t, write);
            Apply(m, if write then CallWrite(t, late) else CallRead(t, late))
            == Passed(a, t, late)
  {
    var a := Asked(m, t, write);
    assert a.sleepers - {t} == m.sleepers - {t};
    assert a.sleepers[t := a.sleepers[t]] == m.sleepers[t := a.sleepers[t]];
  }

  lemma GrantAtOnceIsSafe(m: Monitor, t: Thread, write: bool, late: bool)
    requires Safe(m) && t !in m.sleepers && !MayAsk(m, t, write)
    ensures Safe(Apply(m, if write then CallWrite(t, late) else CallRead(t, late)))
  {
    var m' := Apply(m, if write then CallWrite(t, late) else CallRead(t, late));
    assert m.sleepers - {t} == m.sleepers && m.notified - {t} == m.notified;
    forall u ensures Held(m', u) == Depth(m', u) {
      assert Held(m, u) == Depth(m, u);
    }
  }

  /** Every run, whatever its calls, timeouts and order, is safe. */
  lemma {:induction false} RunsAreSafe(m: Monitor, events: seq<Event>)
    requires Safe(m)
    ensures Safe(Run(m, events))
    decreases |events|
  {
    if events != [] {
      StepKeepsSafe(m, events[0]);
      RunsAreSafe(Apply(m, events[0]), events[1..]);
    }
  }

  /** Whoever holds the lock, through an upgrade too, excludes every other
      writer; a writer excludes every reader; and a thread holds exactly its
      acquires minus its releases. */
  lemma HoldersExclude(events: seq<Event>, t: Thread, u: Thread)
    ensures var m := Run(START, events);
            && Held(m, t) == Depth(m, t)
            && (Held(m, t) > 0 ==> m.lock.writer == None || m.lock.writer == Some(t))
            && (m.lock.writer == Some(u) && t != u ==> Held(m, t) == 0 && t !in m.lock.readers)
  {
    StartIsSafe();
    RunsAreSafe(START, events);
    assert Held(Run(START, events), t) == Depth(Run(START, events), t);
  }

  lemma StartIsSafe()
    ensures Safe(START) && NoLostWakeup(START)
  {
  }

  /** From the read lock of an upgrader to its granted write lock, step by
      step, no other thread is ever the writer. */
  lemma {:induction false} UpgradeIsUnbroken(m: Monitor, events: seq<Event>, t: Thread)
    requires Safe(m)
    requires forall i :: 0 <= i <= |events| ==> Held(Run(m, events[..i]), t) > 0
    ensures forall i :: 0 <= i <= |events| ==>
              Run(m, events[..i]).lock.writer == None || Run(m, events[..i]).lock.writer == Some(t)
  {
    forall i | 0 <= i <= |events|
      ensures Run(m, events[..i]).lock.writer == None || Run(m, events[..i]).lock.writer == Some(t)
    {
      RunsAreSafe(m, events[..i]);
      assert Held(Run(m, events[..i]), t) == Depth(Run(m, events[..i]), t);
    }
  }

  predicate Untimed(e: Event) {
    e.CallRelease? || !e.late
  }

  lemma CallReadKeepsWakeups(m: Monitor, t: Thread, late: bool)
    requires Safe(m) && NoLostWakeup(m)
    ensures NoLostWakeup(Apply(m, CallRead(t, late)))
  {
  }

  /** A call to write that gives up before it sleeps leaves the lock as it was. */
  lemma CallWriteKeepsWakeups(m: Monitor, t: Thread, late: bool)
    requires Safe(m) && NoLostWakeup(m)
    ensures NoLostWakeup(Apply(m, CallWrite(t, late)))
  {
    if t !in m.sleepers {
      if t in m.lock.readers {
        UpgradeKeepsWakeups(m, t, late);
      } else {
        WithoutLast(m.lock.pending, t);
      }
    }
  }

  lemma UpgradeKeepsWakeups(m: Monitor, t: Thread, late: bool)
    requires Safe(m) && NoLostWakeup(m) && t !in m.sleepers && t in m.lock.readers
    ensures NoLostWakeup(Apply(m, CallWrite(t, late)))
  {
  }

  lemma {:induction false} WithoutLast(s: seq<Thread>, t: Thread)
    requires t !in s
    ensures Without(s + [t], t) == s
  {
    if s != [] {
      assert (s + [t])[1..] == s[1..] + [t];
      WithoutLast(s[1..], t);
    }
  }

  lemma ReleaseKeepsWakeups(m: Monitor, t: Thread)
    requires Safe(m) && NoLostWakeup(m)
    ensures NoLostWakeup(Apply(m, CallRelease(t)))
  {
  }

  /** A sleeper that is granted what it asked for, or goes on sleeping. */
  lemma WakeKeepsWakeups(m: Monitor, t: Thread, late: bool)
    requires Safe(m) && NoLostWakeup(m)
    requires t in m.sleepers && late ==> Guard(m.lock, t, m.sleepers[t])
    ensures NoLostWakeup(Apply(m, Wake(t, late)))
  {
  }

  lemma StepKeepsWakeups(m: Monitor, e: Event)
    requires Safe(m) && NoLostWakeup(m) && Untimed(e)
    ensures NoLostWakeup(Apply(m, e))
  {
    match e
    case CallRead(t, late) => CallReadKeepsWakeups(m, t, late);
    case CallWrite(t, late) => CallWriteKeepsWakeups(m, t, late);
    case Wake(t, late) => WakeKeepsWakeups(m, t, late);
    case CallRelease(t) => ReleaseKeepsWakeups(m, t);
  }

  lemma {:induction false} UntimedRunsKeepWakeups(m: Monitor, events: seq<Event>)
    requires Safe(m) && NoLostWakeup(m)
    requires forall i :: 0 <= i < |events| ==> Untimed(events[i])
    ensures NoLostWakeup(Run(m, events))
    decreases |events|
  {
    if events != [] {
      StepKeepsSafe(m, events[0]);
      StepKeepsWakeups(m, events[0]);
      UntimedRunsKeepWakeups(Apply(m, events[0]), events[1..]);
    }
  }

  /** The thread whose turn it is when nobody holds the lock. */
  function Next(m: Monitor): Option<Thread> {
    if m.upgrader.Some? then m.upgrader
    else if m.lock.pending != [] then Some(m.lock.pending[0])
    else None
  }

  /** In untimed use a free lock with sleepers always has one that is notified
      and will be granted: the upgrader, else the first writer, else any reader. */
  lemma FreeLockMovesOn(events: seq<Event>, t: Thread)
    requires forall i :: 0 <= i < |events| ==> Untimed(events[i])
    requires var m := Run(START, events);
             m.lock.writer == None && m.lock.readers == map[] && t in m.sleepers
    ensures var m := Run(START, events);
            var u := if Next(m).Some? then Next(m).value else t;
            && u in m.sleepers && u in m.notified
            && Retry(m.lock, u, m.sleepers[u], false).1 == Granted
  {
    StartIsSafe();
    RunsAreSafe(START, events);
    UntimedRunsKeepWakeups(START, events);
  }

  /** t is the last writer that kept a sleeping reader out, and gives up. */
  ghost predicate LastWriterGivesUp(m: Monitor, t: Thread)
    requires t in m.sleepers
  {
    && m.sleepers[t].Writing? && m.lock.writer == None
    && (if m.sleepers[t].upgrade then m.lock.pending == [] else m.lock.upgradeCount == 0 && m.lock.pending == [t])
    && exists u :: u in m.sleepers && m.sleepers[u] == Reading && u !in m.notified
  }

  /** Of all events, timed or not, one loses a wake-up exactly when a sleeper
      whose timeout is over is the last writer that gives up. */
  lemma WakeupLostExactly(m: Monitor, e: Event)
    requires Safe(m) && NoLostWakeup(m)
    ensures NoLostWakeup(Apply(m, e)) <==>
            !(e.Wake? && e.late && e.thread in m.sleepers && !Guard(m.lock, e.thread, m.sleepers[e.thread])
              && LastWriterGivesUp(m, e.thread))
  {
    match e
    case CallRead(t, late) => CallReadKeepsWakeups(m, t, late);
    case CallWrite(t, late) => CallWriteKeepsWakeups(m, t, late);
    case CallRelease(t) => ReleaseKeepsWakeups(m, t);
    case Wake(t, late) =>
      if t in m.sleepers && late && !Guard(m.lock, t, m.sleepers[t]) {
        TimeoutLosesWakeup(m, t);
      } else {
        WakeKeepsWakeups(m, t, late);
      }
  }

  /** A timeout notifies nobody: it loses a wake-up exactly when the last
      waiting writer gives up while a reader sleeps on. */
  lemma TimeoutLosesWakeup(m: Monitor, t: Thread)
    requires Safe(m) && NoLostWakeup(m)
    requires t in m.sleepers && !Guard(m.lock, t, m.sleepers[t])
    ensures NoLostWakeup(Apply(m, Wake(t, true))) <==> !LastWriterGivesUp(m, t)
  {
    WithoutDropsOne(m.lock.pending, t);
    var m' := Apply(m, Wake(t, true));
    if LastWriterGivesUp(m, t) {
      var u :| u in m.sleepers && m.sleepers[u] == Reading && u !in m.notified;
      assert ReadGuard(m'.lock, u) && u in m'.sleepers;
    } else if m.sleepers[t] == Writing(false) && |m.lock.pending| > 1 {
      assert exists u :: u in m.lock.pending && u != t by {
        assert m.lock.pending[0] != m.lock.pending[1];
        assert m.lock.pending[0] in m.lock.pending && m.lock.pending[1] in m.lock.pending;
      }
    }
  }

  /** It happens: reader 1 holds, writer 2 waits, reader 3 waits behind it;
      2 times out and 3 sleeps though it could read. */
  lemma TimedWriterStrandsReader()
    ensures var m := Run(START, [CallRead(1, false), CallWrite(2, false), CallRead(3, false), Wake(2, true)]);
            3 in m.sleepers && 3 !in m.notified && Guard(m.lock, 3, m.sleepers[3])
  {
    var m1 := Apply(START, CallRead(1, false));
    var m2 := Apply(m1, CallWrite(2, false));
    var m3 := Apply(m2, CallRead(3, false));
    var m4 := Apply(m3, Wake(2, true));
    var es := [CallRead(1, false), CallWrite(2, false), CallRead(3, false), Wake(2, true)];
    assert es[1..][1..][1..] == [Wake(2, true)] && es[1..][1..][1..][1..] == [];
    assert m4.lock.pending == [];
    assert Run(START, es) == m4;
  }
}
