/** The clone of a running VM: CloneInstance.run, cancel and reconcile and
    _delete_created of instances/jobs.py, killed and recovered at any point. */
module LiveClones {
  import opened Wrappers
  import opened Records
  import opened Faults

  /** A volume, named by its path. */
  type Path = string

  /** What the job committed before its effects. planned and created hold the
      first targets of the list, in order; None: no result was recorded. */
  datatype Intent = Intent(live: bool, planned: nat, created: nat, copyStarted: bool, copyResult: Option<bool>)

  const BLANK := Intent(false, 0, 0, false, None)

  /** The result libvirt keeps of the VM's last backup; ours: of this job's. */
  datatype Done = Done(success: bool, ours: bool)

  /** libvirt: the volumes this job made, those of them its backup filled, the
      volumes of others, the files of the running backup, the kept result, and
      whether the clone is defined. */
  datatype Host = Host(mine: set<Path>, filled: set<Path>, foreign: set<Path>,
                       backup: Option<set<Path>>, result: Option<Done>, clone: bool)

  /** The paths of the first n targets. */
  function Paths(targets: seq<Path>, n: nat): set<Path>
    requires n <= |targets|
  {
    set p | p in targets[..n]
  }

  function All(targets: seq<Path>): set<Path> { Paths(targets, |targets|) }

  lemma NextPath(targets: seq<Path>, n: nat)
    requires n < |targets|
    ensures Paths(targets, n + 1) == Paths(targets, n) + {targets[n]}
  {
    assert targets[..n + 1] == targets[..n] + [targets[n]];
  }

  /** What may happen to libvirt beside the job: other volumes come and go, but
      at no name the job holds a claim on; another backup begins; the running
      one ends, of itself or aborted by a cancel; the VM or libvirt restarts and forgets its jobs. */
  datatype Event = Appears(path: Path) | Vanishes(path: Path) | OtherBackup(paths: set<Path>)
                 | BackupEnds(success: bool) | Forgets

  function Happens(h: Host, targets: seq<Path>, i: Intent, e: Event): Host
    requires i.created <= |targets|
  {
    match e
    case Appears(p) => if p in h.mine || p in Paths(targets, i.created) then h else h.(foreign := h.foreign + {p})
    case Vanishes(p) => h.(foreign := h.foreign - {p})
    case OtherBackup(paths) => if h.backup.Some? || paths == All(targets) then h else h.(backup := Some(paths))
    case BackupEnds(success) =>
      if h.backup.None? then h
      else
        var ours := h.backup.value == All(targets);
        h.(backup := None, result := Some(Done(success, ours)),
           filled := if ours && success then All(targets) else h.filled)
    case Forgets => h.(backup := None, result := None)
  }

  // -- the invariant ----------------------------------------------------------------

  predicate Copying(h: Host, targets: seq<Path>) { h.backup == Some(All(targets)) }

  /** Every disk of the clone has its copy, and the copy succeeded. */
  predicate Whole(h: Host, targets: seq<Path>) { h.mine == All(targets) == h.filled }

  /** Nothing of the clone is left. */
  predicate Nothing(h: Host) { h.mine == {} && !h.clone }

  predicate IntentOk(i: Intent, targets: seq<Path>) {
    && i.created <= i.planned <= i.created + 1 && i.planned <= |targets|
    && (i.planned > 0 ==> i.live)
    && (i.copyStarted ==> i.live && i.created == |targets|)
    && (i.copyResult.Some? ==> i.copyStarted)
  }

  /** The intent covers what the job did, before and after every step; alone:
      nothing outside the job backs up the VM meanwhile; own: the result by
      which the copy was called a success is of this job's backup. */
  predicate Covered(targets: seq<Path>, alone: bool, own: bool, i: Intent, h: Host) {
    && IntentOk(i, targets)
    && h.filled <= h.mine <= Paths(targets, i.planned)
    && h.mine !! h.foreign && h.foreign !! Paths(targets, i.created)
    && (Copying(h, targets) ==> i.copyStarted && i.copyResult.None? && h.mine == All(targets) && !h.clone)
    && (h.result.Some? && h.result.value.ours ==> i.copyStarted && !Copying(h, targets))
    && (h.result == Some(Done(true, true)) && i.copyResult != Some(false) ==> Whole(h, targets))
    && (i.copyResult == Some(true) ==> h.mine == All(targets) && (own ==> Whole(h, targets)))
    && (h.clone ==> i.copyStarted && i.copyResult != Some(false) && (own ==> Whole(h, targets)))
    && (alone && (i.copyResult == Some(true) || h.clone) ==> own)
    && (alone ==> (h.backup.Some? ==> Copying(h, targets)) && (i.copyStarted && h.result.Some? ==> h.result.value.ours))
  }

  lemma HappensKeepsCovered(targets: seq<Path>, alone: bool, own: bool, i: Intent, h: Host, e: Event)
    requires Covered(targets, alone, own, i, h) && (alone ==> !e.OtherBackup?)
    ensures var h' := Happens(h, targets, i, e);
            && Covered(targets, alone, own, i, h')
            && h'.mine == h.mine && h'.clone == h.clone
            && (!Copying(h, targets) ==> !Copying(h', targets) && h'.filled == h.filled
                                         && (h'.result.Some? && h'.result.value.ours ==> h'.result == h.result))
            && (h.backup.None? && !e.OtherBackup? ==> h'.backup.None? && (h'.result == h.result || h'.result.None?))
  {
  }

  // -- the recovery's decision --------------------------------------------------------

  datatype Verdict = Unstarted | StillCopying | OtherRuns | NoResult | CopyFailed | Define

  /** _live_outcome once the clone is not defined and no volume was being made:
      from the intent, the files of the running backup and the kept result. */
  function Judged(i: Intent, targets: seq<Path>, backup: Option<set<Path>>, result: Option<bool>): Verdict
    requires i.created <= |targets|
  {
    if !i.copyStarted then Unstarted
    else if i.copyResult.None? && backup.Some? then
      if backup.value == Paths(targets, i.created) then StillCopying else OtherRuns
    else
      var r := if i.copyResult.Some? then i.copyResult else result;
      if r.None? then NoResult else if r.value then Define else CopyFailed
  }

  predicate Ours(result: Option<Done>) { result.Some? && result.value.ours }

  function Kept(h: Host): Option<bool> {
    if h.result.Some? then Some(h.result.value.success) else None
  }

  /** Any events between the job's steps. */
  function After(h: Host, targets: seq<Path>, i: Intent, es: seq<Event>): Host
    requires i.created <= |targets|
    decreases |es|
  {
    if es == [] then h else After(Happens(h, targets, i, es[0]), targets, i, es[1..])
  }

  /** A recovery that reads libvirt after these events defines the clone. */
  predicate Defines(h: Host, targets: seq<Path>, i: Intent, es: seq<Event>)
    requires i.created <= |targets|
  {
    var h' := After(h, targets, i, es);
    Judged(i, targets, h'.backup, Kept(h')) == Define
  }

  lemma {:induction false} WholeStays(h: Host, targets: seq<Path>, i: Intent, es: seq<Event>)
    requires i.created <= |targets| && Whole(h, targets)
    ensures Whole(After(h, targets, i, es), targets)
    decreases |es|
  {
    if es != [] {
      WholeStays(Happens(h, targets, i, es[0]), targets, i, es[1..]);
    }
  }

  /** The job's backup, if it runs, is aborted; one from outside, of these
      files, runs and completes. */
  function Outside(other: set<Path>): seq<Event> {
    [BackupEnds(false), OtherBackup(other), BackupEnds(true)]
  }

  /** Whatever the copies are, recovery then takes the other backup's result
      for the job's. */
  lemma OutsideBackupIsTaken(targets: seq<Path>, i: Intent, h: Host, other: set<Path>)
    requires i.copyStarted && i.copyResult.None? && i.created == |targets| && other != All(targets)
    ensures Defines(h, targets, i, Outside(other))
    ensures After(h, targets, i, Outside(other)) == h.(backup := None, result := Some(Done(true, false)))
  {
    var es := Outside(other);
    assert es[1..] == [OtherBackup(other), BackupEnds(true)] && es[1..][1..] == [BackupEnds(true)]
           && es[1..][1..][1..] == [];
    var h1 := Happens(h, targets, i, es[0]);
    var h2 := Happens(h1, targets, i, es[1]);
    var h3 := Happens(h2, targets, i, es[2]);
    assert After(h2, targets, i, es[1..][1..]) == After(h3, targets, i, []) == h3;
    assert After(h1, targets, i, es[1..]) == h3;
  }

  /** Whatever is backed up outside the panel from now on, recovery defines a
      clone only of whole copies: exactly when they are whole already, or the
      intent keeps it from defining one. */
  lemma DefinesWholeIff(targets: seq<Path>, own: bool, i: Intent, h: Host)
    requires Covered(targets, false, own, i, h)
    ensures !i.copyStarted || i.copyResult == Some(false) || Whole(h, targets) <==>
            forall es :: Defines(h, targets, i, es) ==> Whole(After(h, targets, i, es), targets)
  {
    if !i.copyStarted || i.copyResult == Some(false) {
    } else if Whole(h, targets) {
      forall es ensures Whole(After(h, targets, i, es), targets) { WholeStays(h, targets, i, es); }
    } else if i.copyResult.Some? {
      assert i.copyResult.value;
      assert Defines(h, targets, i, []) && !Whole(After(h, targets, i, []), targets);
    } else {
      var other := if All(targets) == {} then {"other"} else {};
      assert "other" in {"other"};
      OutsideBackupIsTaken(targets, i, h, other);
      assert !Whole(After(h, targets, i, Outside(other)), targets);
    }
  }

  /** And without such backups, always. */
  lemma {:induction false} AloneDefinesWhole(targets: seq<Path>, own: bool, i: Intent, h: Host, es: seq<Event>)
    requires Covered(targets, true, own, i, h) && forall e <- es :: !e.OtherBackup?
    ensures Defines(h, targets, i, es) ==> Whole(After(h, targets, i, es), targets)
    decreases |es|
  {
    if es != [] {
      HappensKeepsCovered(targets, true, own, i, h, es[0]);
      AloneDefinesWhole(targets, own, i, Happens(h, targets, i, es[0]), es[1..]);
    }
  }

  /** The worker dies after it recorded copy_started and before its own backup:
      a backup from outside makes the recovery define a clone of empty volumes. */
  lemma OtherBackupDefinesTheClone(targets: seq<Path>, other: set<Path>)
    requires targets != [] && other != All(targets)
    ensures var i := Intent(true, |targets|, |targets|, true, None);
            var h := Host(All(targets), {}, {}, None, None, false);
            && Covered(targets, false, false, i, h)
            && Defines(h, targets, i, Outside(other))
            && After(h, targets, i, Outside(other)).filled == {} != All(targets)
  {
    assert targets[0] in All(targets);
    OutsideBackupIsTaken(targets, Intent(true, |targets|, |targets|, true, None),
                         Host(All(targets), {}, {}, None, None, false), other);
  }

  /** The volumes are not even there when it completes after the recovery of a
      failed copy deleted them, and before the job ended. */
  lemma OtherBackupDefinesDeletedDisks(targets: seq<Path>, other: set<Path>)
    requires targets != [] && other != All(targets)
    ensures var i := Intent(true, |targets|, |targets|, true, None);
            var h := Host(All(targets), {}, {}, None, Some(Done(false, true)), false);
            var deleted := h.(mine := {});
            && Covered(targets, false, false, i, h)
            && Judged(i, targets, h.backup, Kept(h)) == CopyFailed
            && Defines(deleted, targets, i, Outside(other))
            && After(deleted, targets, i, Outside(other)).mine == {} != All(targets)
  {
    var i := Intent(true, |targets|, |targets|, true, None);
    var deleted := Host({}, {}, {}, None, Some(Done(false, true)), false);
    assert targets[0] in All(targets);
    OutsideBackupIsTaken(targets, i, deleted, other);
    assert deleted == Host(All(targets), {}, {}, None, Some(Done(false, true)), false).(mine := {});
  }

  // -- the job ---------------------------------------------------------------------

  /** How run and reconcile end: with a state, with an exception, or by the
      death of the process. Watch: libvirt still copies. */
  datatype End = Ends(state: State) | Watch | Raises | Dead

  function Broken(f: Fate): End { if Dies(f) then Dead else Raises }

  class LiveClone {
    const targets: seq<Path>
    const alone: bool
    const smooth: bool  // no call fails, nothing happens beside the job, and its backup succeeds

    var intent: Intent
    var host: Host
    var state: State
    var cancelRequested: bool
    ghost var others: set<Path>  // what others made of their volumes: written in Meanwhile only
    ghost var own: bool          // the success that was read is of this job's backup

    ghost predicate Valid()
      reads this
    {
      && Covered(targets, alone, own, intent, host) && host.foreign == others
      && (Active(state) ==> Begun(state))
      && (!intent.live ==> Nothing(host))
      && (state == Succeeded ==> host.clone)
      && (state == Failed || state == Cancelled ==> Nothing(host))
      && (state == Cancelled ==> cancelRequested)
    }

    constructor (targets: seq<Path>, alone: bool, smooth: bool, foreign: set<Path>, result: Option<Done>)
      requires result.Some? ==> !result.value.ours
      ensures Valid() && state == Running && intent == BLANK && this.targets == targets && this.alone == alone
      ensures this.smooth == smooth && host.foreign == foreign && host.backup.None? && !cancelRequested
    {
      this.targets, this.alone, this.smooth := targets, alone, smooth;
      intent, host := BLANK, Host({}, {}, foreign, None, result, false);
      state, cancelRequested, others, own := Running, false, foreign, false;
    }

    /** Any number of events between two steps. */
    method Meanwhile()
      requires Valid()
      modifies this`host, this`others, this`state, this`cancelRequested
      ensures Valid()
      ensures Active(state) == Active(old(state)) && (!Active(state) ==> state == old(state))
      ensures host.mine == old(host).mine && host.clone == old(host).clone
      ensures old(cancelRequested) ==> cancelRequested
      ensures !Copying(old(host), targets) ==>
                && !Copying(host, targets) && host.filled == old(host).filled
                && (host.result.Some? && host.result.value.ours ==> host.result == old(host).result)
      ensures alone && old(host).backup.None? ==>
                host.backup.None? && (host.result == old(host).result || host.result.None?)
      ensures smooth ==> host == old(host) && state == old(state) && cancelRequested == old(cancelRequested)
    {
      if smooth {
        return;
      }
      var events: seq<Event> := *;
      for n := 0 to |events|
        invariant Covered(targets, alone, own, intent, host) && host.foreign == others
        invariant state == old(state) && cancelRequested == old(cancelRequested)
        invariant host.mine == old(host).mine && host.clone == old(host).clone
        invariant !Copying(old(host), targets) ==>
                    && !Copying(host, targets) && host.filled == old(host).filled
                    && (host.result.Some? && host.result.value.ours ==> host.result == old(host).result)
        invariant alone && old(host).backup.None? ==>
                    host.backup.None? && (host.result == old(host).result || host.result.None?)
      {
        if !(alone && events[n].OtherBackup?) {
          HappensKeepsCovered(targets, alone, own, intent, host, events[n]);
          host := Happens(host, targets, intent, events[n]);
          others := host.foreign;
        }
      }
      var cancel: bool := *;
      if cancel && Active(state) {
        state, cancelRequested := Cancelling, true;
      }
    }

    /** ctx.record_intent. */
    method Record(i: Intent) returns (fate: Fate)
      requires Valid() && Active(state) && i.live && Covered(targets, alone, own, i, host)
      modifies this`intent
      ensures Valid()
      ensures intent == if Effective(fate) then i else old(intent)
      ensures smooth ==> fate == Works
    {
      fate := Fated(smooth);
      if Effective(fate) {
        intent := i;
      }
    }

    /** create_clone_target: libvirt refuses a name that is taken. */
    method Create(path: Path) returns (fate: Fate)
      requires Valid() && Active(state) && intent.planned == intent.created + 1 && path == targets[intent.created]
      requires !intent.copyStarted
      modifies this`host
      ensures Valid()
      ensures fate.Works? ==> host == old(host).(mine := old(host).mine + {path})
      ensures fate.Works? ==> path !in old(host).foreign
      ensures smooth ==> host == old(host).(mine := host.mine)
      ensures smooth && path !in old(host).mine + old(host).foreign ==> fate == Works
    {
      NextPath(targets, intent.created);
      fate := Fated(smooth);
      if path in host.mine || path in host.foreign {
        fate := Refusal(fate);
      } else if Effective(fate) {
        host := host.(mine := host.mine + {path});
      }
    }

    /** When the job's volumes may go: no clone uses them, no backup of the job
        fills them, and no success of it is still to be read. */
    ghost predicate Disposable()
      reads this
    {
      && Active(state) && !host.clone && !Copying(host, targets)
      && intent.copyResult != Some(true)
      && (host.result == Some(Done(true, true)) ==> intent.copyResult == Some(false))
    }

    /** get_volume_by_path and delete: of whatever volume has the path; none is fine. */
    method Delete(path: Path) returns (fate: Fate)
      requires Valid() && Disposable() && path !in host.foreign
      modifies this`host
      ensures Valid() && Disposable()
      ensures host == old(host).(mine := host.mine, filled := host.filled)
      ensures host.mine == old(host).mine || host.mine == old(host).mine - {path}
      ensures fate.Works? ==> path !in host.mine
      ensures smooth ==> fate == Works
    {
      fate := Fated(smooth);
      if Effective(fate) {
        host := host.(mine := host.mine - {path}, filled := host.filled - {path}, foreign := host.foreign - {path});
      }
    }

    /** _delete_created: a call that fails ends it; no volume of another goes. */
    method DeleteCreated() returns (fate: Fate)
      requires Valid() && Disposable() && host.mine <= Paths(targets, intent.created)
      modifies this`host, this`others, this`state, this`cancelRequested
      ensures Valid() && Disposable()
      ensures host.mine <= old(host).mine && host.foreign == others
      ensures old(cancelRequested) ==> cancelRequested
      ensures fate.Works? ==> Nothing(host)
      ensures smooth ==> fate == Works && cancelRequested == old(cancelRequested)
    {
      fate := Works;
      for n := 0 to intent.created
        invariant Valid() && Disposable() && fate.Works?
        invariant host.mine <= old(host).mine && (old(cancelRequested) ==> cancelRequested)
        invariant smooth ==> cancelRequested == old(cancelRequested)
        invariant host.mine !! Paths(targets, n)
      {
        NextPath(targets, n);
        assert targets[n] in targets[..intent.created];
        fate := Delete(targets[n]);
        if !fate.Works? {
          return;
        }
        Meanwhile();
      }
    }

    // -- run ------------------------------------------------------------------------

    /** Nothing is in the clone's way. */
    predicate Clear()
      reads this
    {
      && host.backup.None? && host.mine == {} && host.foreign !! All(targets)
      && forall i, j | 0 <= i < j < |targets| :: targets[i] != targets[j]
    }

    /** run: targets, volumes, backup, definition. */
    method Run() returns (end: End)
      requires Valid() && Active(state) && intent == BLANK
      modifies this`intent, this`host, this`others, this`state, this`cancelRequested, this`own
      ensures Valid() && Active(state)
      ensures end != Watch && (end.Ends? ==> end.state == Succeeded || end.state == Cancelled)
      ensures end == Ends(Succeeded) ==> host.clone
      ensures end == Ends(Cancelled) ==> Nothing(host) && cancelRequested
      ensures end == Raises && !intent.live ==> Nothing(host)
      // undisturbed, the clone is made
      ensures smooth && old(!cancelRequested && Clear()) ==> end == Ends(Succeeded) && Whole(host, targets)
      ensures smooth && old(cancelRequested && Clear()) ==> end == Ends(Cancelled)
    {
      var fate := Record(intent.(live := true));
      if !fate.Works? {
        return Broken(fate);
      }
      fate := CreateCopies();
      if !fate.Works? {
        return Broken(fate);
      }
      fate := StartOver();
      if !fate.Works? {
        return Broken(fate);
      }
      Meanwhile();
      if cancelRequested {
        fate := DeleteCreated();
        return if fate.Works? then Ends(Cancelled) else Broken(fate);
      }
      fate := BeginBackup();
      if !fate.Works? {
        return Broken(fate);
      }
      end := AwaitBackup();
    }

    /** One copy's volume: planned before and listed after it is made. */
    method CreateCopy(n: nat) returns (fate: Fate)
      requires Valid() && Active(state) && n < |targets|
      requires intent == Intent(true, n, n, false, None) && host.mine == Paths(targets, n)
      modifies this`intent, this`host, this`others, this`state, this`cancelRequested
      ensures Valid() && Active(state) && intent.live
      ensures fate.Works? ==> intent == Intent(true, n + 1, n + 1, false, None) && host.mine == Paths(targets, n + 1)
      ensures smooth ==> host == old(host).(mine := host.mine) && cancelRequested == old(cancelRequested)
      ensures smooth && targets[n] !in old(host).mine + old(host).foreign ==> fate == Works
    {
      NextPath(targets, n);
      fate := Record(intent.(planned := n + 1));
      if !fate.Works? {
        return;
      }
      Meanwhile();
      fate := Create(targets[n]);
      if !fate.Works? {
        return;
      }
      Meanwhile();
      fate := Record(intent.(created := n + 1));
      Meanwhile();
    }

    /** The copies' volumes, in order. */
    method CreateCopies() returns (fate: Fate)
      requires Valid() && Active(state) && intent == BLANK.(live := true)
      modifies this`intent, this`host, this`others, this`state, this`cancelRequested
      ensures Valid() && Active(state) && intent.live
      ensures fate.Works? ==> !intent.copyStarted && intent.created == |targets| && host.mine == All(targets)
      ensures smooth && old(Clear()) ==> fate == Works && host.backup.None?
      ensures smooth ==> cancelRequested == old(cancelRequested)
    {
      fate := Works;
      for n := 0 to |targets|
        invariant Valid() && Active(state) && fate.Works?
        invariant intent == Intent(true, n, n, false, None) && host.mine == Paths(targets, n)
        invariant smooth ==> host == old(host).(mine := host.mine) && cancelRequested == old(cancelRequested)
      {
        assert old(Clear()) ==> targets[n] !in Paths(targets, n) && targets[n] in All(targets);
        fate := CreateCopy(n);
        if !fate.Works? {
          return;
        }
      }
    }

    /** An earlier job's result is dropped, then copy_started is recorded. */
    method StartOver() returns (fate: Fate)
      requires Valid() && Active(state) && intent == Intent(true, |targets|, |targets|, false, None)
      requires host.mine == All(targets)
      modifies this`intent, this`host, this`others, this`state, this`cancelRequested
      ensures Valid() && Active(state) && intent.live
      ensures fate.Works? ==> intent == Intent(true, |targets|, |targets|, true, None)
      ensures host.mine == All(targets) && !host.clone && !Copying(host, targets)
      ensures host.result.Some? ==> !host.result.value.ours
      ensures smooth ==> fate == Works && host.backup == old(host).backup && cancelRequested == old(cancelRequested)
    {
      fate := Fated(smooth);
      if Effective(fate) {
        host := host.(result := None);
      }
      if !fate.Works? {
        return;
      }
      Meanwhile();
      fate := Record(intent.(copyStarted := true));
    }

    /** begin_clone_backup: refused while another one runs. Its error is
        recorded as the copy's, unless this job's backup runs. */
    method BeginBackup() returns (fate: Fate)
      requires Valid() && Active(state) && intent == Intent(true, |targets|, |targets|, true, None)
      requires host.mine == All(targets) && !host.clone && !Copying(host, targets)
      requires host.result.Some? ==> !host.result.value.ours
      modifies this`intent, this`host, this`others, this`state, this`cancelRequested
      ensures Valid() && Active(state) && intent.live
      ensures fate.Works? ==> intent == old(intent)
      ensures host.mine == All(targets) && !host.clone
      ensures smooth && old(host).backup.None? ==> fate == Works && Copying(host, targets)
      ensures smooth && old(host).backup.Some? ==> !fate.Works? && intent == old(intent).(copyResult := Some(false))
    {
      fate := Fated(smooth);
      if host.backup.Some? {
        fate := Refusal(fate);
      } else if Effective(fate) {
        host := host.(backup := Some(All(targets)), filled := {});
      }
      Meanwhile();
      if Fails(fate) {
        RecordFailure();
      }
    }

    /** After an error of the begin: the copy failed, unless its backup runs. */
    method RecordFailure()
      requires Valid() && Active(state) && intent.copyStarted && intent.copyResult.None? && !host.clone
      modifies this`intent
      ensures Valid() && intent.live
      ensures smooth && !Copying(host, targets) ==> intent == old(intent).(copyResult := Some(false))
      ensures intent == old(intent) || (intent == old(intent).(copyResult := Some(false)) && !Copying(host, targets))
    {
      var read := Fated(smooth);
      if read.Works? && !Copying(host, targets) {
        var recorded := Record(intent.(copyResult := Some(false)));
      }
    }

    /** The loop on backup_progress: it ends when no backup runs, unless a read
        fails or the process dies first. */
    method AwaitEnd() returns (read: Fate)
      requires Valid() && Active(state) && intent == Intent(true, |targets|, |targets|, true, None)
      requires host.mine == All(targets) && !host.clone
      modifies this`host, this`others, this`state, this`cancelRequested
      ensures Valid() && Active(state) && host.mine == All(targets) && !host.clone
      ensures read.Works? ==> host.backup.None?
      ensures smooth && old(host).backup.None? ==>
                read == Works && host == old(host) && cancelRequested == old(cancelRequested)
      ensures smooth && Copying(old(host), targets) ==> read == Works && host.result == Some(Done(true, true))
    {
      Meanwhile();
      read := Fated(smooth);
      if read.Works? {
        var success: bool := *;
        HappensKeepsCovered(targets, alone, own, intent, host, BackupEnds(success || smooth));
        host := Happens(host, targets, intent, BackupEnds(success || smooth));
      }
    }

    /** The result libvirt keeps once no backup runs. */
    method ReadKept() returns (fate: Fate, result: Option<Done>)
      requires Valid() && Active(state) && intent == Intent(true, |targets|, |targets|, true, None)
      requires host.mine == All(targets) && !host.clone
      modifies this`host, this`others, this`state, this`cancelRequested, this`own
      ensures Valid() && Active(state) && host.mine == All(targets) && !host.clone
      ensures fate.Works? ==> !Copying(host, targets) && own == Ours(result)
      ensures fate.Works? && result.Some? && result.value.success ==> (own ==> Whole(host, targets)) && (alone ==> own)
      ensures smooth && old(host).backup.None? ==>
                fate == Works && host == old(host) && result == host.result && cancelRequested == old(cancelRequested)
      ensures smooth && Copying(old(host), targets) ==>
                fate == Works && result == Some(Done(true, true)) && Whole(host, targets)
    {
      result := None;
      fate := AwaitEnd();
      if !fate.Works? {
        return;
      }
      Meanwhile();
      result := host.result;
      fate := Fated(smooth);
      own := Ours(result);
      Meanwhile();
    }

    /** The same, recorded. */
    method ReadResult() returns (fate: Fate, result: Option<Done>)
      requires Valid() && Active(state) && intent == Intent(true, |targets|, |targets|, true, None)
      requires host.mine == All(targets) && !host.clone
      modifies this`intent, this`host, this`others, this`state, this`cancelRequested, this`own
      ensures Valid() && Active(state) && intent.live && host.mine == All(targets) && !host.clone
      ensures fate.Works? ==>
                && intent.copyStarted && !Copying(host, targets)
                && intent.copyResult == (if result.Some? then Some(result.value.success) else None)
                && own == Ours(result)
      ensures smooth && old(host).backup.None? ==>
                fate == Works && host == old(host) && result == host.result && cancelRequested == old(cancelRequested)
      ensures smooth && Copying(old(host), targets) ==>
                fate == Works && result == Some(Done(true, true)) && Whole(host, targets)
    {
      fate, result := ReadKept();
      if !fate.Works? {
        return;
      }
      fate := Record(intent.(copyResult := if result.Some? then Some(result.value.success) else None));
      Meanwhile();
    }

    /** The wait for the backup's end, its result, and what follows from it. */
    method AwaitBackup() returns (end: End)
      requires Valid() && Active(state) && intent == Intent(true, |targets|, |targets|, true, None)
      requires host.mine == All(targets) && !host.clone
      modifies this`intent, this`host, this`others, this`state, this`cancelRequested, this`own
      ensures Valid() && Active(state) && intent.live
      ensures end != Watch && (end.Ends? ==> end.state == Succeeded || end.state == Cancelled)
      ensures end == Ends(Succeeded) ==> host.clone
      ensures end == Ends(Cancelled) ==> Nothing(host) && cancelRequested
      // with no backup left: no result, an error; a failure, removal; a success, the clone
      ensures smooth && old(host).backup.None? ==>
                && (old(host).result.None? ==> end == Raises)
                && (old(host).result.Some? && old(host).result.value.success ==> end == Ends(Succeeded))
                && (old(host).result.Some? && !old(host).result.value.success ==>
                      Nothing(host) && end == if old(cancelRequested) then Ends(Cancelled) else Raises)
      ensures smooth && Copying(old(host), targets) ==> end == Ends(Succeeded) && Whole(host, targets)
    {
      var fate, result := ReadResult();
      if !fate.Works? {
        return Broken(fate);
      }
      if result.None? {
        return Raises;
      }
      Meanwhile();
      if result.value.success {
        fate := Defined();
        return if fate.Works? then Ends(Succeeded) else Broken(fate);
      }
      fate := DeleteCreated();
      if !fate.Works? {
        return Broken(fate);
      }
      end := if cancelRequested then Ends(Cancelled) else Raises;
    }

    /** define_clone, then record_vm, resize and start, which leave it defined. */
    method Defined() returns (fate: Fate)
      requires Valid() && Active(state) && intent.copyStarted && intent.copyResult != Some(false)
      requires !Copying(host, targets)
      requires (own ==> Whole(host, targets)) && (alone ==> own)
      modifies this`host
      ensures Valid()
      ensures host == old(host).(clone := host.clone)
      ensures host.clone == (Effective(fate) || old(host).clone)
      ensures smooth ==> fate == Works
    {
      fate := Fated(smooth);
      if Effective(fate) {
        host := host.(clone := true);
      }
    }

    // -- reconcile ---------------------------------------------------------------------

    /** A volume that was planned and not listed is there, made by whomever. */
    predicate Pending(h: Host)
      requires IntentOk(intent, targets)
      reads this
    {
      intent.planned > intent.created && targets[intent.created] in h.mine + h.foreign
    }

    /** The lookup of a volume planned and not listed. */
    method LookForPending() returns (read: Fate, pending: bool)
      requires Valid() && Active(state) && !host.clone
      modifies this`host, this`others, this`state, this`cancelRequested
      ensures Valid() && Active(state) && !host.clone && (old(cancelRequested) ==> cancelRequested)
      ensures read.Works? && !pending ==> host.mine <= Paths(targets, intent.created)
      ensures smooth ==> read == Works && host == old(host) && pending == Pending(host)
    {
      Meanwhile();
      read := Fated(smooth);
      pending := Pending(host);
      if intent.planned > intent.created {
        NextPath(targets, intent.created);
      }
      Meanwhile();
    }

    /** reconcile after the worker's death or an error of run; there: the VM
        still is on the compute. Freezing and thawing are left out. */
    method Reconcile(there: bool) returns (end: End)
      requires Valid() && Active(state) && intent.live
      modifies this`host, this`others, this`state, this`cancelRequested, this`own
      ensures Valid() && Active(state) && intent.live
      ensures end == Ends(Succeeded) ==> host.clone
      ensures end == Ends(Failed) || end == Ends(Cancelled) ==> Nothing(host)
      ensures end == Ends(Cancelled) ==> cancelRequested
      ensures smooth && !end.Ends? ==> end == Watch && Copying(host, targets)
      ensures end.Ends? ==> end.state in {Succeeded, Failed, Cancelled, Uncertain}
      ensures !there ==> host == old(host) && (end.Ends? ==> end.state == Uncertain)
      // undisturbed, the recovery table: the VM gone, the clone defined, a volume half made
      ensures smooth && !there ==> end == Ends(Uncertain)
      ensures smooth && there && old(host).clone ==> end == Ends(Succeeded)
      ensures var volumes := old(host).mine + old(host).foreign;
              var pending := intent.planned > intent.created && targets[intent.created] in volumes;
              var h, ended := old(host), if old(cancelRequested) then Cancelled else Failed;
              && (smooth && there && !h.clone && pending ==> end == Ends(Uncertain))
              && (smooth && there && !h.clone && !pending ==>
                    && (!intent.copyStarted ==> end == Ends(ended) && Nothing(host))
                    && (intent.copyStarted && intent.copyResult.None? ==>
                          // the job's own backup runs, another's does; none does, and what libvirt kept
                          && (h.backup == Some(set p | p in targets) ==> end == Watch)
                          && (h.backup.Some? && h.backup.value != (set p | p in targets) ==> end == Ends(Uncertain))
                          && (h.backup.None? && h.result.None? ==> end == Ends(Uncertain))
                          && (h.backup.None? && h.result.Some? && h.result.value.success ==>
                                end == Ends(Succeeded) && host.clone)
                          && (h.backup.None? && h.result.Some? && !h.result.value.success ==>
                                end == Ends(ended) && Nothing(host)))
                    // the result recorded before
                    && (intent.copyResult == Some(true) ==> end == Ends(Succeeded) && host.clone)
                    && (intent.copyResult == Some(false) ==> end == Ends(ended) && Nothing(host)))
    {
      var read := Fated(smooth);
      if !read.Works? {
        return Broken(read);
      }
      if !there {
        return Ends(Uncertain);
      }
      var ended := if cancelRequested then Cancelled else Failed;
      if host.clone {
        read := Fated(smooth);
        return if read.Works? then Ends(Succeeded) else Broken(read);
      }
      var pending;
      read, pending := LookForPending();
      if !read.Works? {
        return Broken(read);
      }
      end := if pending then Ends(Uncertain) else Watch;
      if !pending {
        end := LiveOutcome(ended);
      }
    }

    /** What the recovery reads of the copy, and what that lets it do. */
    method ReadVerdict() returns (read: Fate, verdict: Verdict, ghost result: Option<Done>)
      requires Valid() && Active(state) && intent.live && !host.clone
      modifies this`host, this`others, this`state, this`cancelRequested, this`own
      ensures Valid() && Active(state) && !host.clone && host.mine == old(host).mine
      ensures (old(cancelRequested) ==> cancelRequested) && (smooth ==> host == old(host))
      ensures read.Works? && (verdict == Unstarted || verdict == CopyFailed) ==> Disposable()
      ensures read.Works? && verdict == Define ==>
                && intent.copyStarted && intent.copyResult != Some(false) && !Copying(host, targets)
                && (own ==> Whole(host, targets)) && (alone ==> own)
      // a definition follows the success read from libvirt, or the one recorded before
      ensures verdict == Define && result.None? ==> intent.copyResult == Some(true) && own == old(own)
      ensures result.Some? ==>
                && intent.copyStarted && intent.copyResult.None? && own == result.value.ours
                && verdict == if result.value.success then Define else CopyFailed
      ensures smooth ==> read == Works && verdict == Judged(intent, targets, old(host).backup, Kept(old(host)))
    {
      read, verdict, result := Works, Judged(intent, targets, None, None), None;
      if intent.copyStarted && intent.copyResult.None? {
        read := Fated(smooth);
        if !read.Works? {
          return;
        }
        verdict := Judged(intent, targets, host.backup, None);
        if host.backup.None? {
          Meanwhile();
          read := Fated(smooth);
          verdict, result := Judged(intent, targets, None, Kept(host)), host.result;
          own := Ours(result);
        }
      }
    }

    /** define_clone in the recovery. An error of libvirt, other than a lost
        connection, would come back at every retry. */
    method DefineAgain() returns (end: End, fate: Fate, lost: bool)
      requires Valid() && Active(state) && intent.copyStarted && intent.copyResult != Some(false)
      requires !Copying(host, targets)
      requires (own ==> Whole(host, targets)) && (alone ==> own)
      modifies this`host
      ensures Valid() && host == old(host).(clone := host.clone) && (smooth ==> fate == Works)
      ensures fate.Works? ==> end == Ends(Succeeded) && host.clone
      ensures fate.FailsBefore? || fate.FailsAfter? ==> end == if lost then Raises else Ends(Uncertain)
      ensures fate.DiesBefore? || fate.DiesAfter? ==> end == Dead
    {
      fate := Defined();
      lost := *;
      end := if fate.Works? then Ends(Succeeded) else if lost then Broken(fate)
             else if Fails(fate) then Ends(Uncertain) else Dead;
    }

    /** The rest of _live_outcome: no clone is defined, no volume was being made. */
    method LiveOutcome(ended: State) returns (end: End)
      requires Valid() && Active(state) && intent.live && !host.clone
      requires host.mine <= Paths(targets, intent.created)
      requires ended == Failed || (ended == Cancelled && cancelRequested)
      modifies this`host, this`others, this`state, this`cancelRequested, this`own
      ensures Valid() && Active(state)
      ensures end == Ends(Succeeded) ==> host.clone
      ensures end == Ends(Failed) || end == Ends(Cancelled) ==> Nothing(host)
      ensures end.Ends? ==> end.state in {Succeeded, ended, Uncertain}
      ensures end == Ends(Cancelled) ==> cancelRequested
      ensures smooth && !end.Ends? ==> end == Watch && Copying(host, targets)
      // undisturbed, case by case: no copy, the job's own backup runs, another's does; none does, and what libvirt kept
      ensures smooth && !intent.copyStarted ==> end == Ends(ended)
      ensures var h := old(host);
              smooth && intent.copyStarted && intent.copyResult.None? ==>
                && (h.backup == Some(set p | p in targets) ==> end == Watch)
                && (h.backup.Some? && h.backup.value != (set p | p in targets) ==> end == Ends(Uncertain))
                && (h.backup.None? && h.result.None? ==> end == Ends(Uncertain))
                && (h.backup.None? && h.result.Some? ==>
                      end == if h.result.value.success then Ends(Succeeded) else Ends(ended))
      ensures smooth && intent.copyResult.Some? ==>
                end == if intent.copyResult.value then Ends(Succeeded) else Ends(ended)
    {
      var read, verdict, _ := ReadVerdict();
      if !read.Works? {
        return Broken(read);
      }
      if verdict == Unstarted || verdict == CopyFailed {
        var fate := DeleteCreated();
        end := if fate.Works? then Ends(ended) else Broken(fate);
      } else if verdict == Define {
        var fate, lost;
        end, fate, lost := DefineAgain();
      } else {
        end := if verdict == StillCopying then Watch else Ends(Uncertain);
      }
    }

    // -- the whole job ----------------------------------------------------------------

    /** jobs.finish. */
    method Finish(end: State)
      requires Valid() && Active(state) && !Active(end)
      requires end == Succeeded ==> host.clone
      requires end == Failed || end == Cancelled ==> Nothing(host)
      requires end == Cancelled ==> cancelRequested
      modifies this`state
      ensures Valid() && (state == end || state == old(state)) && (smooth ==> state == end)
    {
      var fate := Fated(smooth);
      if Effective(fate) {
        state := end;
      }
    }

    /** One inspection of the job by a recovery, which may be killed at any point. */
    method Recover(there: bool)
      requires Valid()
      modifies this`intent, this`host, this`others, this`state, this`cancelRequested, this`own
      ensures Valid()
      ensures smooth ==> !Active(state) || Copying(host, targets)
      ensures smooth && !Active(old(state)) ==> state == old(state) && host == old(host)
      // a job that recorded no intent failed before it changed anything
      ensures smooth && Active(old(state)) && !old(intent).live ==> state == Failed
    {
      Meanwhile();
      if !Active(state) {
        return;
      }
      if !intent.live {
        Finish(Failed);
      } else {
        var end := Reconcile(there);
        if end.Ends? {
          Finish(end.state);
        }
      }
    }

    /** execute, then any number of recoveries, each of them killed at any
        point: what the job comes to. */
    method Live(recoveries: seq<bool>)
      requires Valid() && Active(state) && intent == BLANK
      modifies this`intent, this`host, this`others, this`state, this`cancelRequested, this`own
      ensures Valid()
      // it ends failed or cancelled only with nothing of it left
      ensures state == Failed || state == Cancelled ==> host.mine == {} && !host.clone
      // it succeeds only with the clone defined, and a clone's copies are whole
      // where the success read was of the job's own backup
      ensures state == Succeeded ==> host.clone
      ensures host.clone && own ==> Whole(host, targets)
      ensures host.clone && alone ==> own
      // what it made is planned, and no call of it took a volume of another
      ensures host.mine <= Paths(targets, intent.planned) && host.mine !! host.foreign
      ensures host.foreign == others
      ensures state == Cancelled ==> cancelRequested
      // undisturbed, a recovery ends it, unless its copy still runs
      ensures smooth && recoveries != [] ==> !Active(state) || Copying(host, targets)
      // undisturbed, it succeeds with whole copies, or is cancelled as was asked
      ensures smooth && old(Clear()) ==>
                if old(cancelRequested) then state == Cancelled else state == Succeeded && Whole(host, targets)
    {
      var end := Run();
      if end.Ends? {
        Finish(end.state);
      } else if end == Raises && !intent.live {
        Finish(Failed);
      }
      for n := 0 to |recoveries|
        invariant Valid()
        invariant smooth && n > 0 ==> !Active(state) || Copying(host, targets)
        invariant smooth && old(Clear()) ==>
                    if old(cancelRequested) then state == Cancelled else state == Succeeded && Whole(host, targets)
      {
        Recover(recoveries[n]);
      }
    }
  }
}
