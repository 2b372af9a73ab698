/** Who is granted the lock, told from outside: by what each thread holds and
    who sleeps. Writers take turns as they came, and new readers wait for them. */
module LockOrders {
  import opened Wrappers
  import opened ReadWriteLocks
  import opened LockMonitor

  predicate Granted(m: Monitor, m': Monitor, t: Thread) { Held(m', t) == Held(m, t) + 1 }

  /** No other thread holds anything. */
  ghost predicate Alone(m: Monitor, t: Thread) { forall u | u != t :: Held(m, u) == 0 }

  predicate NoWriterWaits(m: Monitor) { forall s <- m.sleepers :: m.sleepers[s].Reading? }

  lemma Waiting(m: Monitor)
    requires Safe(m)
    ensures NoWriterWaits(m) <==> m.lock.pending == [] && m.lock.upgradeCount == 0
  {
    if m.lock.pending != [] { assert m.lock.pending[0] in m.lock.pending; }
    if s :| s in m.sleepers && m.sleepers[s] == Writing(false) { assert s in m.lock.pending; }
    if s :| s in m.sleepers && m.sleepers[s] == Writing(true) { assert m.upgrader == Some(s); }
  }

  lemma Using(m: Monitor, t: Thread)
    requires Safe(m)
    ensures t !in m.sleepers ==> (Held(m, t) > 0 <==> m.lock.writer == Some(t) || t in m.lock.readers)
    ensures Alone(m, t) <==> && (m.lock.writer.None? || m.lock.writer == Some(t)) && m.lock.readers.Keys <= {t}
                             && (m.upgrader.None? || m.upgrader == Some(t))
  {
    forall u ensures Held(m, u) == Depth(m, u) {}
    if Alone(m, t) {
      if m.lock.writer.Some? { assert Held(m, m.lock.writer.value) > 0; }
      if m.upgrader.Some? { assert Held(m, m.upgrader.value) > 0; }
      forall u | u in m.lock.readers ensures u == t { assert Held(m, u) > 0; }
    }
  }

  /** A read lock is granted unless another thread writes; to a thread that has
      none yet, only while nobody waits to write. */
  lemma ReadGrantedIff(m: Monitor, t: Thread, late: bool)
    requires Safe(m) && t !in m.sleepers
    ensures var m' := Apply(m, CallRead(t, late));
            && (Granted(m, m', t) <==>
                && (m.lock.writer.None? || m.lock.writer == Some(t))
                && (Held(m, t) > 0 || NoWriterWaits(m)))
            && (!Granted(m, m', t) ==> m'.lock == m.lock && (t in m'.sleepers <==> !late))
  {
    Waiting(m);
    Using(m, t);
  }

  /** A write lock is granted when no other thread holds anything; to a thread
      that holds nothing itself, only while nobody waits to write. */
  lemma WriteGrantedIff(m: Monitor, t: Thread, late: bool)
    requires Safe(m) && t !in m.sleepers
    ensures var m' := Apply(m, CallWrite(t, late));
            && (Granted(m, m', t) <==> Alone(m, t) && (Held(m, t) > 0 || NoWriterWaits(m)))
            && (Granted(m, m', t) ==> m'.lock.writer == Some(t) && m'.lock.readers == map[])
            // a reader that waits to upgrade is denied while another does
            && (!Granted(m, m', t) && (late || (t in m.lock.readers && m.upgrader.Some?)) ==>
                  t !in m'.sleepers && Held(m', t) == Held(m, t) && m'.lock == m.lock)
            && (!Granted(m, m', t) && !late && (t !in m.lock.readers || m.upgrader.None?) ==>
                  m'.sleepers == m.sleepers[t := Writing(t in m.lock.readers)])
  {
    Waiting(m);
    Using(m, t);
    if u :| u in m.lock.readers && u != t {
      assert u in m.lock.readers - {t};
    } else {
      assert m.lock.readers - {t} == map[];
    }
    if t !in m.lock.readers && m.lock.writer != Some(t) {
      WithoutLast(m.lock.pending, t);
      assert (m.lock.pending + [t])[0] == if m.lock.pending == [] then t else m.lock.pending[0];
      assert m.lock.pending != [] ==> m.lock.pending[0] in m.lock.pending;
      assert t !in m.lock.pending;
    }
  }

  /** A sleeper that wakes is granted what it asked for: a reader when nobody
      writes or waits to, an upgrader when it is alone, a writer when nobody
      holds anything and it is the first in line. */
  lemma WakeGrantedIff(m: Monitor, t: Thread, late: bool)
    requires Safe(m) && t in m.sleepers && (late || t in m.notified)
    ensures var m' := Apply(m, Wake(t, late));
            && (Granted(m, m', t) <==>
                match m.sleepers[t]
                case Reading => m.lock.writer.None? && NoWriterWaits(m)
                case Writing(upgrade) => Alone(m, t) && (upgrade || (m.lock.pending[0] == t && Held(m, t) == 0)))
            && (Granted(m, m', t) ==> t !in m'.sleepers)
            && (Granted(m, m', t) && m.sleepers[t].Writing? ==> m'.lock.writer == Some(t))
            && (!Granted(m, m', t) ==> Held(m', t) == Held(m, t) && (t in m'.sleepers <==> !late))
  {
    Waiting(m);
    Using(m, t);
    assert Held(m, t) == Depth(m, t);
    if m.sleepers[t] == Writing(false) { assert t in m.lock.pending; }
  }

  /** A release of what is not held changes nothing, and notifies nobody. */
  lemma ReleaseOfNothing(m: Monitor, t: Thread)
    requires Safe(m) && t !in m.sleepers && Held(m, t) == 0
    ensures Apply(m, CallRelease(t)) == m
  {
    Using(m, t);
  }

  /** A release gives one level back; everyone is notified when nobody but a
      waiting upgrader holds anything any more. */
  lemma ReleaseFrees(m: Monitor, t: Thread)
    requires Safe(m) && t !in m.sleepers && Held(m, t) > 0
    ensures var m' := Apply(m, CallRelease(t));
            && Held(m', t) == Held(m, t) - 1 && (forall u | u != t :: Held(m', u) == Held(m, u))
            && m'.sleepers == m.sleepers
            && m'.notified == if forall u: Thread | m.upgrader != Some(u) :: Held(m', u) == 0 then m.sleepers.Keys
                              else m.notified
  {
    var m' := Apply(m, CallRelease(t));
    Using(m, t);
    ReleaseIsSafe(m, t);
    forall u: Thread ensures Held(m', u) == Depth(m', u)
                     && (m'.lock.writer == Some(u) || u in m'.lock.readers ==> Held(m', u) > 0 && m.upgrader != Some(u))
    {
    }
  }

  // -- writers in line -------------------------------------------------------------------

  predicate WaitsToWrite(m: Monitor, t: Thread) { t in m.sleepers && m.sleepers[t] == Writing(false) }

  function Others(s: seq<Thread>, t: Thread): seq<Thread> {
    if s == [] then [] else (if s[0] == t then [] else [s[0]]) + Others(s[1..], t)
  }

  /** A line of threads after a step of t: it joins at the end when it begins
      to wait to write, and leaves when it no longer waits. */
  function Moved(line: seq<Thread>, m: Monitor, m': Monitor, t: Thread): seq<Thread> {
    if WaitsToWrite(m', t) && !WaitsToWrite(m, t) then line + [t]
    else if WaitsToWrite(m, t) && !WaitsToWrite(m', t) then Others(line, t)
    else line
  }

  /** The writers that wait after these events, as they came. */
  function Line(m: Monitor, line: seq<Thread>, events: seq<Event>): seq<Thread>
    decreases |events|
  {
    if events == [] then line
    else
      var m' := Apply(m, events[0]);
      Line(m', Moved(line, m, m', events[0].thread), events[1..])
  }

  lemma {:induction false} OthersAre(s: seq<Thread>, t: Thread)
    requires Distinct(s)
    ensures Others(s, t) == Without(s, t) && (t !in s ==> Others(s, t) == s)
    ensures s != [] && s[0] == t ==> Others(s, t) == s[1..]
  {
    if s != [] {
      OthersAre(s[1..], t);
      if s[0] == t { assert t !in s[1..]; }
    }
  }

  lemma StepMovesLine(m: Monitor, e: Event)
    requires Safe(m)
    ensures Apply(m, e).lock.pending == Moved(m.lock.pending, m, Apply(m, e), e.thread)
  {
    match e
    case CallWrite(t, late) => CallMovesLine(m, t, late);
    case Wake(t, late) => WakeMovesLine(m, t, late);
    case _ =>
  }

  lemma CallMovesLine(m: Monitor, t: Thread, late: bool)
    requires Safe(m)
    ensures Apply(m, CallWrite(t, late)).lock.pending == Moved(m.lock.pending, m, Apply(m, CallWrite(t, late)), t)
  {
    if t !in m.sleepers {
      WithoutLast(m.lock.pending, t);
      if m.lock.pending == [] { assert (m.lock.pending + [t])[1..] == []; }
      else { assert (m.lock.pending + [t])[0] == m.lock.pending[0] != t; }
    }
  }

  lemma WakeMovesLine(m: Monitor, t: Thread, late: bool)
    requires Safe(m)
    ensures Apply(m, Wake(t, late)).lock.pending == Moved(m.lock.pending, m, Apply(m, Wake(t, late)), t)
  {
    if WaitsToWrite(m, t) {
      WriterMovesLine(m, t, late);
    } else {
      OtherKeepsLine(m, t, late);
    }
  }

  lemma WriterMovesLine(m: Monitor, t: Thread, late: bool)
    requires Safe(m) && WaitsToWrite(m, t)
    ensures Apply(m, Wake(t, late)).lock.pending == Moved(m.lock.pending, m, Apply(m, Wake(t, late)), t)
  {
    OthersAre(m.lock.pending, t);
  }

  lemma OtherKeepsLine(m: Monitor, t: Thread, late: bool)
    requires Safe(m) && !WaitsToWrite(m, t)
    ensures Apply(m, Wake(t, late)).lock.pending == m.lock.pending && !WaitsToWrite(Apply(m, Wake(t, late)), t)
  {
  }

  /** The lock's queue is that line. */
  lemma {:induction false} QueueIsLine(m: Monitor, events: seq<Event>)
    requires Safe(m)
    ensures Run(m, events).lock.pending == Line(m, m.lock.pending, events)
    decreases |events|
  {
    if events != [] {
      StepKeepsSafe(m, events[0]);
      StepMovesLine(m, events[0]);
      QueueIsLine(Apply(m, events[0]), events[1..]);
    }
  }

  /** In any run, a thread that held nothing becomes the writer only when
      nobody waits to write who came before it. */
  lemma WritersTakeTurns(events: seq<Event>, e: Event)
    requires var m := Run(START, events);
             Held(m, e.thread) == 0 && Apply(m, e).lock.writer == Some(e.thread)
    ensures var line := Line(START, [], events);
            line == [] || line[0] == e.thread
  {
    StartIsSafe();
    RunsAreSafe(START, events);
    QueueIsLine(START, events);
    var m := Run(START, events);
    assert Held(m, e.thread) == Depth(m, e.thread);
    if e.CallWrite? && m.lock.pending != [] {
      assert (m.lock.pending + [e.thread])[0] == m.lock.pending[0];
    }
  }
}
