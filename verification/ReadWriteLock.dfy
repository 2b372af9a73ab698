/** The reentrant, writer-preferring, upgradable lock of vrtManager/rwlock.py.
    A call runs in stretches: from the entry, or from a wake-up, to the return
    or to the next wait. The condition's lock makes each stretch atomic. */
module ReadWriteLocks {
  import opened Wrappers

  type Thread = nat

  /** How a stretch ends: the call returns, sleeps, or raises. */
  datatype Answer = Granted | Sleeps | TimedOut | DeadLock | NotHeld

  /** The lock's fields as one value. */
  datatype Fields = Fields(
    writer: Option<Thread>,
    writerCount: nat,
    upgradeCount: nat,
    pending: seq<Thread>,
    readers: map<Thread, nat>)

  /** The test in acquireRead's loop. */
  predicate ReadGuard(f: Fields, me: Thread) {
    f.writer == None && ((f.upgradeCount == 0 && f.pending == []) || me in f.readers)
  }

  /** The tests in acquireWrite's loop. */
  predicate WriteGuard(f: Fields, me: Thread, upgrade: bool) {
    && f.readers == map[] && f.writer == None
    && if f.upgradeCount > 0 then upgrade else f.pending != [] && f.pending[0] == me
  }

  function Without(s: seq<Thread>, t: Thread): seq<Thread> {
    if s == [] then [] else if s[0] == t then s[1..] else [s[0]] + Without(s[1..], t)
  }

  /** One pass of acquireRead's loop; late: its timeout is over. */
  function ReadPass(f: Fields, me: Thread, late: bool): (Fields, Answer) {
    if ReadGuard(f, me) then
      (f.(readers := f.readers[me := (if me in f.readers then f.readers[me] else 0) + 1]), Granted)
    else
      (f, if late then TimedOut else Sleeps)
  }

  function ReadCall(f: Fields, me: Thread, late: bool): (Fields, Answer) {
    if f.writer == Some(me) then (f.(writerCount := f.writerCount + 1), Granted) else ReadPass(f, me, late)
  }

  /** One pass of acquireWrite's loop. */
  function WritePass(f: Fields, me: Thread, upgrade: bool, late: bool): (Fields, Answer) {
    if WriteGuard(f, me, upgrade) then
      if f.upgradeCount > 0 then
        (f.(writer := Some(me), writerCount := f.upgradeCount + 1, upgradeCount := 0), Granted)
      else
        (f.(writer := Some(me), writerCount := 1, pending := f.pending[1..]), Granted)
    else if !late then
      (f, Sleeps)
    else if upgrade then
      (f.(readers := f.readers[me := f.upgradeCount], upgradeCount := 0), TimedOut)
    else
      (f.(pending := Without(f.pending, me)), TimedOut)
  }

  function WriteCall(f: Fields, me: Thread, late: bool): (Fields, Answer) {
    if f.writer == Some(me) then
      (f.(writerCount := f.writerCount + 1), Granted)
    else if me in f.readers then
      if f.upgradeCount > 0 then (f, DeadLock)
      else WritePass(f.(upgradeCount := f.readers[me], readers := f.readers - {me}), me, true, late)
    else
      WritePass(f.(pending := f.pending + [me]), me, false, late)
  }

  /** The fields after release(), its answer, and whether it notified all. */
  function ReleaseCall(f: Fields, me: Thread): (Fields, Answer, bool)
    requires f.writer == Some(me) ==> f.writerCount > 0
    requires me in f.readers ==> f.readers[me] > 0
  {
    if f.writer == Some(me) then
      if f.writerCount == 1 then (f.(writerCount := 0, writer := None), Granted, true)
      else (f.(writerCount := f.writerCount - 1), Granted, false)
    else if me in f.readers then
      if f.readers[me] > 1 then (f.(readers := f.readers[me := f.readers[me] - 1]), Granted, false)
      else (f.(readers := f.readers - {me}), Granted, f.readers - {me} == map[])
    else
      (f, NotHeld, false)
  }

  lemma WithoutLater(s: seq<Thread>, i: nat, me: Thread)
    requires i < |s| && s[i] != me
    ensures s[..i] + Without(s[i..], me) == s[..i + 1] + Without(s[i + 1..], me)
  {
    assert s[i..][1..] == s[i + 1..];
    assert s[..i] + [s[i]] == s[..i + 1];
  }

  lemma WithoutHere(s: seq<Thread>, i: nat, me: Thread)
    requires i < |s| && s[i] == me
    ensures s[..i] + Without(s[i..], me) == s[..i] + s[i + 1..]
  {
    assert s[i..][1..] == s[i + 1..];
  }

  class ReadWriteLock {
    var writer: Option<Thread>
    var writerCount: nat
    var upgradeWriterCount: nat
    var pendingWriters: seq<Thread>
    var readers: map<Thread, nat>

    function View(): Fields
      reads this
    {
      Fields(writer, writerCount, upgradeWriterCount, pendingWriters, readers)
    }

    constructor ()
      ensures View() == Fields(None, 0, 0, [], map[])
    {
      writer, writerCount, upgradeWriterCount := None, 0, 0;
      pendingWriters, readers := [], map[];
    }

    /** acquireRead's loop body, from the entry or a wake-up to the next wait. */
    method TryRead(me: Thread, late: bool) returns (answer: Answer)
      modifies this
      ensures (View(), answer) == ReadPass(old(View()), me, late)
    {
      if writer == None {
        if upgradeWriterCount > 0 || pendingWriters != [] {
          if me in readers {
            readers := readers[me := readers[me] + 1];
            return Granted;
          }
        } else {
          readers := readers[me := (if me in readers then readers[me] else 0) + 1];
          return Granted;
        }
      }
      answer := if late then TimedOut else Sleeps;
    }

    method AcquireRead(me: Thread, late: bool) returns (answer: Answer)
      modifies this
      ensures (View(), answer) == ReadCall(old(View()), me, late)
    {
      if writer == Some(me) {
        writerCount := writerCount + 1;
        return Granted;
      }
      answer := TryRead(me, late);
    }

    /** acquireWrite's loop body. */
    method TryWrite(me: Thread, upgrade: bool, late: bool) returns (answer: Answer)
      modifies this
      ensures (View(), answer) == WritePass(old(View()), me, upgrade, late)
    {
      if readers == map[] && writer == None {
        if upgradeWriterCount > 0 {
          if upgrade {
            writer, writerCount := Some(me), upgradeWriterCount + 1;
            upgradeWriterCount := 0;
            return Granted;
          }
        } else if pendingWriters != [] && pendingWriters[0] == me {
          writer, writerCount := Some(me), 1;
          pendingWriters := pendingWriters[1..];
          return Granted;
        }
      }
      if !late {
        return Sleeps;
      }
      if upgrade {
        readers := readers[me := upgradeWriterCount];
        upgradeWriterCount := 0;
      } else {
        RemovePending(me);
      }
      answer := TimedOut;
    }

    /** list.remove: the first occurrence. */
    method RemovePending(me: Thread)
      modifies `pendingWriters
      ensures pendingWriters == Without(old(pendingWriters), me)
    {
      var i := 0;
      while i < |pendingWriters| && pendingWriters[i] != me
        invariant 0 <= i <= |pendingWriters|
        invariant pendingWriters == old(pendingWriters)
        invariant Without(pendingWriters, me) == pendingWriters[..i] + Without(pendingWriters[i..], me)
      {
        WithoutLater(pendingWriters, i, me);
        i := i + 1;
      }
      if i < |pendingWriters| {
        WithoutHere(pendingWriters, i, me);
        pendingWriters := pendingWriters[..i] + pendingWriters[i + 1..];
      }
    }

    method AcquireWrite(me: Thread, late: bool) returns (answer: Answer)
      modifies this
      ensures (View(), answer) == WriteCall(old(View()), me, late)
    {
      var upgrade := false;
      if writer == Some(me) {
        writerCount := writerCount + 1;
        return Granted;
      } else if me in readers {
        if upgradeWriterCount > 0 {
          return DeadLock;
        }
        upgrade := true;
        upgradeWriterCount := readers[me];
        readers := readers - {me};
      } else {
        pendingWriters := pendingWriters + [me];
      }
      answer := TryWrite(me, upgrade, late);
    }

    method Release(me: Thread) returns (answer: Answer, notified: bool)
      requires writer == Some(me) ==> writerCount > 0
      requires me in readers ==> readers[me] > 0
      modifies this
      ensures (View(), answer, notified) == ReleaseCall(old(View()), me)
    {
      answer, notified := Granted, false;
      if writer == Some(me) {
        writerCount := writerCount - 1;
        if writerCount == 0 {
          writer := None;
          notified := true;
        }
      } else if me in readers {
        readers := readers[me := readers[me] - 1];
        if readers[me] == 0 {
          readers := readers - {me};
          assert readers == old(readers) - {me};
          notified := readers == map[];
        }
      } else {
        answer := NotHeld;
      }
    }
  }
}
