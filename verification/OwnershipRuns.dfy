/** Runs of the ownership steps: which tables each step may lead to, and what
    any run of them keeps. */
module OwnershipRuns {
  import opened Wrappers
  import opened Ownership

  /** The compute's rows have the listing's UUIDs and names. */
  predicate Matches(records: map<Key, Record>, compute: nat, listing: map<nat, string>) {
    && (forall key | key in records && key.compute == compute ::
          key.uuid in listing && records[key].name == listing[key.uuid])
    && (forall uuid | uuid in listing :: Key(compute, uuid) in records)
  }

  /** What a step of one compute leaves of the others: the rows and their names. */
  predicate OthersKept(records: map<Key, Record>, records': map<Key, Record>, compute: nat) {
    && (forall key | key in records && key.compute != compute ::
          key in records' && records'[key].name == records[key].name)
    && (forall key | key in records' && key.compute != compute :: key in records)
  }

  // -- the steps --------------------------------------------------------------------------

  datatype State = State(tables: Tables, users: set<User>, computes: set<nat>)

  ghost predicate Proper(s: State) {
    Tidy(s.tables) && forall key | key in s.tables.records :: key.compute in s.computes
  }

  /** first, second: what libvirt lists before and under the claim; claimed:
      the claim was free; expiry: tombstones removed before it go. */
  datatype Step =
    | Refreshed(compute: nat, first: Option<map<nat, string>>, second: Option<map<nat, string>>, claimed: bool,
                now: Time, expiry: Time)
    | Migrated(uuid: nat, source: nat, target: nat)
    | Recorded(key: Key, name: string, owner: Option<User>)
    | VmDeleted(key: Key)
    | ComputeDeleted(compute: nat, now: Time)
    | UserDeleted(user: User)

  /** The listing a reconcile finds the rows equal to, or makes them equal to. */
  function SyncedBy(s: State, step: Step): Option<map<nat, string>>
    requires step.Refreshed?
  {
    if step.first.None? then None
    else if UpToDate(s.tables, step) then step.first
    else if !step.claimed || step.second.None? || step.compute !in s.computes then None
    else step.second
  }

  /** The rows match the first listing, and no tombstone has expired. */
  predicate UpToDate(t: Tables, step: Step)
    requires step.Refreshed? && step.first.Some?
  {
    Matches(t.records, step.compute, step.first.value) && Unexpired(t.tombs, step.expiry)
  }

  /** Tombstones of now are new, and no others. */
  predicate NewTombs(tombs: map<nat, Tomb>, tombs': map<nat, Tomb>, now: Time) {
    forall id | id in tombs' :: (id in tombs && tombs'[id] == tombs[id]) || tombs'[id].removed == now
  }

  /** The compute's rows that stay keep their marks; a new row of a VM that
      another compute has too is a copy, and gets none. */
  ghost predicate OwnRowsFair(records: map<Key, Record>, records': map<Key, Record>, compute: nat) {
    && (forall key | key in records' && key in records && key.compute == compute ::
          records'[key].marks == records[key].marks)
    && (forall key, k | key in records' && key !in records && key.compute == compute
                        && k in records && k.uuid == key.uuid && k.compute != compute ::
          records'[key].marks == Marks(false, map[]))
  }

  ghost predicate Reconciled(t: Tables, t': Tables, step: Step, listing: map<nat, string>, users: set<User>)
    requires step.Refreshed?
  {
    && Tidy(t') && Conserved(t, t', step.expiry, users)
    && Matches(t'.records, step.compute, listing) && OthersKept(t.records, t'.records, step.compute)
    && Unexpired(t'.tombs, step.expiry) && NewTombs(t.tombs, t'.tombs, step.now)
    && OwnRowsFair(t.records, t'.records, step.compute)
  }

  /** A compute's deletion: its rows are gone, all marks stay. */
  ghost predicate Emptied(t: Tables, t': Tables, compute: nat, now: Time, users: set<User>) {
    && Tidy(t') && Kept(t, t', {}, {}, {}, users)
    && Matches(t'.records, compute, map[]) && OthersKept(t.records, t'.records, compute)
    && NewTombs(t.tombs, t'.tombs, now) && forall id | id in t.tombs :: id in t'.tombs && t'.tombs[id] == t.tombs[id]
  }

  /** The row of a VM that is made or already there, with its owner. */
  function RecordedRow(t: Tables, key: Key, name: string, owner: Option<User>, users: set<User>): Record {
    var row := if key in t.records then t.records[key] else Record(name, BLANK);
    if owner.Some? && owner.value in users && owner.value !in row.marks.owners
    then row.(marks := Marks(row.marks.template, row.marks.owners[owner.value := Rights(true, true, true)]))
    else row
  }

  function WithoutUser(t: Tables, user: User): Tables {
    t.(records := map key | key in t.records ::
         t.records[key].(marks := Marks(t.records[key].marks.template, t.records[key].marks.owners - {user})))
  }

  predicate MayMigrate(s: State, step: Step)
    requires step.Migrated?
  {
    Key(step.source, step.uuid) in s.tables.records && step.target in s.computes && step.source != step.target
  }

  /** A job's new VM has a UUID no tombstone has. */
  predicate MayRecord(s: State, step: Step)
    requires step.Recorded?
  {
    step.key.compute in s.computes && forall id | id in s.tables.tombs :: s.tables.tombs[id].uuid != step.key.uuid
  }

  /** What each step may do; one that may not be taken changes nothing. */
  ghost predicate Stepped(s: State, s': State, step: Step) {
    match step
    case Refreshed(_, _, _, _, _, _) =>
      var listing := SyncedBy(s, step);
      if listing.None? || UpToDate(s.tables, step) then s' == s
      else s' == s.(tables := s'.tables) && Reconciled(s.tables, s'.tables, step, listing.value, s.users)
    case Migrated(uuid, source, target) =>
      s' == s.(tables := if MayMigrate(s, step) then MigratedRow(s.tables, Key(source, uuid), Key(target, uuid))
                           else s.tables)
    case Recorded(key, name, owner) =>
      s' == s.(tables := if !MayRecord(s, step) then s.tables
                         else s.tables.(records := s.tables.records[
                           key := RecordedRow(s.tables, key, name, owner, s.users)]))
    case VmDeleted(key) => s' == s.(tables := s.tables.(records := s.tables.records - {key}))
    case ComputeDeleted(compute, now) =>
      s' == State(s'.tables, s.users, s.computes - {compute}) && Emptied(s.tables, s'.tables, compute, now, s.users)
    case UserDeleted(user) => s' == State(WithoutUser(s.tables, user), s.users - {user}, s.computes)
  }

  /** record_migration, on a compute that lists the VM already or does not yet. */
  function MigratedRow(t: Tables, source: Key, target: Key): Tables
    requires source in t.records && source != target
  {
    if target in t.records then Moved(t, source, target) else Rehomed(t, source, target)
  }

  // -- the listings and what changed since ------------------------------------------------------

  /** A listing committed, or a row a job recorded, moved or removed. */
  datatype Change = Synced(compute: nat, listing: map<nat, string>) | Row(compute: nat, uuid: nat, name: Option<string>)

  /** A compute's listing after one more change; None while it has none. */
  function Followed(listing: Option<map<nat, string>>, e: Change, compute: nat): Option<map<nat, string>> {
    if e.compute != compute then listing
    else if e.Synced? then Some(e.listing)
    else if listing.None? then None
    else Some(if e.name.Some? then listing.value[e.uuid := e.name.value] else listing.value - {e.uuid})
  }

  function Replayed(listing: Option<map<nat, string>>, log: seq<Change>, compute: nat): Option<map<nat, string>>
    decreases |log|
  {
    if log == [] then listing else Replayed(Followed(listing, log[0], compute), log[1..], compute)
  }

  /** The compute's rows are those of the listing, if it has one. */
  predicate Follows(records: map<Key, Record>, compute: nat, listing: Option<map<nat, string>>) {
    listing.Some? ==> Matches(records, compute, listing.value)
  }

  lemma {:induction false} ReplayedOn(l: Option<map<nat, string>>, log: seq<Change>, more: seq<Change>, compute: nat)
    ensures Replayed(l, log + more, compute) == Replayed(Replayed(l, log, compute), more, compute)
    decreases |log|
  {
    if log == [] {
      assert log + more == more;
    } else {
      assert (log + more)[0] == log[0] && (log + more)[1..] == log[1..] + more;
      ReplayedOn(Followed(l, log[0], compute), log[1..], more, compute);
    }
  }

  lemma ReplayedTwo(l: Option<map<nat, string>>, e: Change, f: Change, compute: nat)
    ensures Replayed(l, [e], compute) == Followed(l, e, compute)
    ensures Replayed(l, [e, f], compute) == Followed(Followed(l, e, compute), f, compute)
  {
    assert [e][1..] == [] && [e, f][1..] == [f] && [f][1..] == [];
    var next := Followed(l, e, compute);
    assert Replayed(l, [e, f], compute) == Replayed(next, [f], compute) ==
             Replayed(Followed(next, f, compute), [], compute);
  }

  lemma FollowSync(records: map<Key, Record>, records': map<Key, Record>, compute: nat, listing: map<nat, string>)
    requires Matches(records', compute, listing) && OthersKept(records, records', compute)
    ensures forall c, l | Follows(records, c, l) :: Follows(records', c, Replayed(l, [Synced(compute, listing)], c))
  {
    forall c, l | Follows(records, c, l) ensures Follows(records', c, Replayed(l, [Synced(compute, listing)], c)) {
      ReplayedTwo(l, Synced(compute, listing), Synced(compute, listing), c);
    }
  }

  lemma FollowRow(records: map<Key, Record>, records': map<Key, Record>, key: Key)
    requires records'.Keys == records.Keys + {key}
    requires forall k | k in records' && k != key :: k in records && records'[k].name == records[k].name
    ensures var e := Row(key.compute, key.uuid, Some(records'[key].name));
            forall c, l | Follows(records, c, l) :: Follows(records', c, Replayed(l, [e], c))
  {
    var e := Row(key.compute, key.uuid, Some(records'[key].name));
    forall c, l | Follows(records, c, l) ensures Follows(records', c, Replayed(l, [e], c)) {
      ReplayedTwo(l, e, e, c);
      if l.Some? && c == key.compute {
        var next := Followed(l, e, c).value;
        assert forall k | k in records' && k.compute == c && k != key :: k.uuid != key.uuid;
        assert next == l.value[key.uuid := records'[key].name];
      }
    }
  }

  lemma FollowMove(records: map<Key, Record>, records': map<Key, Record>, source: Key, target: Key)
    requires source in records && source.uuid == target.uuid && source != target
    requires records'.Keys == records.Keys - {source} + {target}
    requires forall k | k in records' && k != target :: k in records && records'[k].name == records[k].name
    ensures var e, f := Row(source.compute, source.uuid, None),
                        Row(target.compute, target.uuid, Some(records'[target].name));
            forall c, l | Follows(records, c, l) :: Follows(records', c, Replayed(l, [e, f], c))
  {
    var e, f := Row(source.compute, source.uuid, None), Row(target.compute, target.uuid, Some(records'[target].name));
    forall c, l | Follows(records, c, l) ensures Follows(records', c, Replayed(l, [e, f], c)) {
      ReplayedTwo(l, e, f, c);
      if l.Some? {
        var next := Followed(Followed(l, e, c), f, c).value;
        forall k | k in records' && k.compute == c ensures k.uuid in next && records'[k].name == next[k.uuid] {
          if k != target { assert k in records && k != source; }
        }
        forall uuid | uuid in next ensures Key(c, uuid) in records' {
          assert Key(c, uuid) != target ==> uuid in l.value && Key(c, uuid) in records && Key(c, uuid) != source;
        }
      }
    }
  }

  // -- what each step loses, makes, removes and logs -----------------------------------------------

  /** The tombstones a step expires: those of a reconcile that runs. */
  function LostBy(s: State, step: Step): set<Tomb> {
    if step.Refreshed? && SyncedBy(s, step).Some? then ExpiredBy(s.tables.tombs, step.expiry) else {}
  }

  function MadeBy(s: State, step: Step): set<nat> {
    if step.Recorded? && MayRecord(s, step) then {step.key.uuid} else {}
  }

  function GoneBy(step: Step): set<nat> {
    if step.VmDeleted? then {step.key.uuid} else {}
  }

  function LogOf(s: State, step: Step): seq<Change> {
    match step
    case Refreshed(compute, _, _, _, _, _) =>
      var listing := SyncedBy(s, step);
      if listing.Some? then [Synced(compute, listing.value)] else []
    case Migrated(uuid, source, target) =>
      if !MayMigrate(s, step) then []
      else
        var from, to := Key(source, uuid), Key(target, uuid);
        var name := if to in s.tables.records then s.tables.records[to].name else s.tables.records[from].name;
        [Row(source, uuid, None), Row(target, uuid, Some(name))]
    case Recorded(key, name, owner) =>
      if !MayRecord(s, step) then []
      else [Row(key.compute, key.uuid, Some(RecordedRow(s.tables, key, name, owner, s.users).name))]
    case VmDeleted(key) => [Row(key.compute, key.uuid, None)]
    case ComputeDeleted(compute, _) => [Synced(compute, map[])]
    case UserDeleted(_) => []
  }

  lemma FollowGone(records: map<Key, Record>, key: Key)
    ensures var e := Row(key.compute, key.uuid, None);
            forall c, l | Follows(records, c, l) :: Follows(records - {key}, c, Replayed(l, [e], c))
  {
    var e := Row(key.compute, key.uuid, None);
    forall c, l | Follows(records, c, l) ensures Follows(records - {key}, c, Replayed(l, [e], c)) {
      ReplayedTwo(l, e, e, c);
      if l.Some? && c == key.compute {
        forall k | k in records - {key} && k.compute == c ensures k.uuid in l.value - {key.uuid} { assert k != key; }
      }
    }
  }

  /** What holds after a step of what held before. */
  ghost predicate StepKeeps(s: State, s': State, step: Step) {
    && Proper(s') && s'.users <= s.users
    && Kept(s.tables, s'.tables, LostBy(s, step), MadeBy(s, step), GoneBy(step), s'.users)
    && forall c, l | Follows(s.tables.records, c, l) :: Follows(s'.tables.records, c, Replayed(l, LogOf(s, step), c))
  }

  lemma RefreshKeeps(s: State, s': State, step: Step)
    requires Proper(s) && step.Refreshed? && Stepped(s, s', step)
    ensures StepKeeps(s, s', step)
  {
    var listing := SyncedBy(s, step);
    if listing.None? {
      KeptSame(s.tables, s.users);
    } else {
      if UpToDate(s.tables, step) {
        assert ExpiredBy(s.tables.tombs, step.expiry) == {};
        KeptSame(s.tables, s.users);
      } else {
        KeptByExpiry(s.tables, s'.tables, step.expiry, s.users);
      }
      FollowSync(s.tables.records, s'.tables.records, step.compute, listing.value);
    }
  }

  lemma MigrationKeeps(s: State, s': State, step: Step)
    requires Proper(s) && step.Migrated? && Stepped(s, s', step)
    ensures StepKeeps(s, s', step)
  {
    if MayMigrate(s, step) {
      var from, to := Key(step.source, step.uuid), Key(step.target, step.uuid);
      var cutoff := Earliest(s.tables.tombs, 0);
      if to in s.tables.records {
        MovedConserves(s.tables, from, to, cutoff, s.users);
      } else {
        RehomedConserves(s.tables, from, to, cutoff, s.users);
      }
      KeptUnexpired(s.tables, s'.tables, cutoff, s.users);
      FollowMove(s.tables.records, s'.tables.records, from, to);
    } else {
      KeptSame(s.tables, s.users);
    }
  }

  lemma RecordKeeps(s: State, s': State, step: Step)
    requires Proper(s) && step.Recorded? && Stepped(s, s', step)
    ensures StepKeeps(s, s', step)
  {
    if MayRecord(s, step) {
      RecordedKept(s.tables, s'.tables, step.key, s.users);
      FollowRow(s.tables.records, s'.tables.records, step.key);
    } else {
      KeptSame(s.tables, s.users);
    }
  }

  lemma DeletionKeeps(s: State, s': State, step: Step)
    requires Proper(s) && step.VmDeleted? && Stepped(s, s', step)
    ensures StepKeeps(s, s', step)
  {
    var t, t', key := s.tables, s'.tables, step.key;
    forall uuid, m | Known(s.users, m) ensures KeptOne(t, t', {}, {}, {key.uuid}, uuid, m) {
      assert !Taken({}, uuid, m);
      if k :| k in t.records && k.uuid == uuid && Bears(t.records[k].marks, m) && uuid != key.uuid {
        assert k in t'.records;
      }
      if k :| k in t'.records && k.uuid == uuid && Bears(t'.records[k].marks, m) { assert k in t.records; }
    }
    FollowGone(t.records, key);
  }

  lemma UserDeletionKeeps(s: State, s': State, step: Step)
    requires Proper(s) && step.UserDeleted? && Stepped(s, s', step)
    ensures StepKeeps(s, s', step)
  {
    var t, t' := s.tables, s'.tables;
    forall uuid, m | Known(s'.users, m) ensures KeptOne(t, t', {}, {}, {}, uuid, m) {
      assert !Taken({}, uuid, m);
      if k :| k in t.records && k.uuid == uuid && Bears(t.records[k].marks, m) { assert k in t'.records; }
      if k :| k in t'.records && k.uuid == uuid && Bears(t'.records[k].marks, m) { assert k in t.records; }
    }
  }

  lemma SteppedKeeps(s: State, s': State, step: Step)
    requires Proper(s) && Stepped(s, s', step)
    ensures StepKeeps(s, s', step)
  {
    match step
    case Refreshed(_, _, _, _, _, _) => RefreshKeeps(s, s', step);
    case Migrated(_, _, _) => MigrationKeeps(s, s', step);
    case Recorded(_, _, _) => RecordKeeps(s, s', step);
    case VmDeleted(_) => DeletionKeeps(s, s', step);
    case ComputeDeleted(compute, _) => FollowSync(s.tables.records, s'.tables.records, compute, map[]);
    case UserDeleted(_) => UserDeletionKeeps(s, s', step);
  }

  // -- runs ----------------------------------------------------------------------------------------

  /** The states before the steps and after each. */
  ghost predicate Trail(trail: seq<State>, steps: seq<Step>) {
    |trail| == |steps| + 1 && forall n | 0 <= n < |steps| :: Stepped(trail[n], trail[n + 1], steps[n])
  }

  /** The tombstones the first n steps expired. */
  function LostIn(trail: seq<State>, steps: seq<Step>, n: nat): set<Tomb>
    requires n <= |steps| < |trail|
  {
    if n == 0 then {} else LostIn(trail, steps, n - 1) + LostBy(trail[n - 1], steps[n - 1])
  }

  /** The VMs they recorded for jobs. */
  function MadeIn(trail: seq<State>, steps: seq<Step>, n: nat): set<nat>
    requires n <= |steps| < |trail|
  {
    if n == 0 then {} else MadeIn(trail, steps, n - 1) + MadeBy(trail[n - 1], steps[n - 1])
  }

  /** The VMs they deleted. */
  function GoneIn(steps: seq<Step>, n: nat): set<nat>
    requires n <= |steps|
  {
    if n == 0 then {} else GoneIn(steps, n - 1) + GoneBy(steps[n - 1])
  }

  /** The listings they committed and the rows jobs changed. */
  function LogIn(trail: seq<State>, steps: seq<Step>, n: nat): seq<Change>
    requires n <= |steps| < |trail|
  {
    if n == 0 then [] else LogIn(trail, steps, n - 1) + LogOf(trail[n - 1], steps[n - 1])
  }

  lemma {:induction false} RunIsProper(trail: seq<State>, steps: seq<Step>, n: nat)
    requires Trail(trail, steps) && Proper(trail[0]) && n <= |steps|
    ensures Proper(trail[n]) && trail[n].users <= trail[0].users
  {
    if n > 0 {
      RunIsProper(trail, steps, n - 1);
      TrailKeeps(trail, steps, n - 1);
    }
  }

  lemma TrailKeeps(trail: seq<State>, steps: seq<Step>, k: nat)
    requires Trail(trail, steps) && k < |steps| && Proper(trail[k])
    ensures StepKeeps(trail[k], trail[k + 1], steps[k])
  {
    assert Stepped(trail[k], trail[k + 1], steps[k]);
    SteppedKeeps(trail[k], trail[k + 1], steps[k]);
  }

  /** Any steps in any order, over any time: a mark of a user still there is
      lost exactly when a tombstone that expired took it, but for the VMs that
      were deleted, and is new only on a VM a job recorded. */
  lemma {:induction false} RunKeepsMarks(trail: seq<State>, steps: seq<Step>, n: nat)
    requires Trail(trail, steps) && Proper(trail[0]) && n <= |steps|
    ensures Kept(trail[0].tables, trail[n].tables, LostIn(trail, steps, n), MadeIn(trail, steps, n), GoneIn(steps, n),
                 trail[n].users)
  {
    if n == 0 {
      KeptSame(trail[0].tables, trail[0].users);
    } else {
      var k := n - 1;
      RunIsProper(trail, steps, k);
      RunKeepsMarks(trail, steps, k);
      TrailKeeps(trail, steps, k);
      KeptChains(trail[0].tables, trail[k].tables, trail[n].tables, LostIn(trail, steps, k), LostBy(trail[k], steps[k]),
                 MadeIn(trail, steps, k), MadeBy(trail[k], steps[k]), GoneIn(steps, k), GoneBy(steps[k]),
                 trail[n].users, trail[k].users);
    }
  }

  lemma StepFollows(trail: seq<State>, steps: seq<Step>, k: nat, c: nat, listing: Option<map<nat, string>>)
    requires Trail(trail, steps) && k < |steps| && Proper(trail[k])
    requires Follows(trail[k].tables.records, c, listing)
    ensures Follows(trail[k + 1].tables.records, c, Replayed(listing, LogOf(trail[k], steps[k]), c))
  {
    TrailKeeps(trail, steps, k);
  }

  /** A compute's rows are the last listing committed for it, with what jobs
      changed since. */
  lemma {:induction false} RunFollows(trail: seq<State>, steps: seq<Step>, n: nat, c: nat)
    requires Trail(trail, steps) && Proper(trail[0]) && n <= |steps|
    ensures Follows(trail[n].tables.records, c, Replayed(None, LogIn(trail, steps, n), c))
  {
    if n > 0 {
      RunIsProper(trail, steps, n - 1);
      RunFollows(trail, steps, n - 1, c);
      StepFollows(trail, steps, n - 1, c, Replayed(None, LogIn(trail, steps, n - 1), c));
      ReplayedOn(None, LogIn(trail, steps, n - 1), LogOf(trail[n - 1], steps[n - 1]), c);
    }
  }

  /** tomb was in the tables when one of the first n steps, a reconcile, found it expired. */
  ghost predicate WasExpired(trail: seq<State>, steps: seq<Step>, n: nat, tomb: Tomb)
    requires n <= |steps| <= |trail|
  {
    exists k :: 0 <= k < n && ExpiredAt(trail[k], steps[k], tomb)
  }

  predicate ExpiredAt(s: State, step: Step, tomb: Tomb) {
    step.Refreshed? && tomb in s.tables.tombs.Values && tomb.removed < step.expiry
  }

  /** What is lost was a tombstone of the tables, removed before the expiry of
      the reconcile that took it. */
  lemma {:induction false} LostWereExpired(trail: seq<State>, steps: seq<Step>, n: nat, tomb: Tomb)
    requires n <= |steps| < |trail| && tomb in LostIn(trail, steps, n)
    ensures WasExpired(trail, steps, n, tomb)
  {
    if tomb in LostBy(trail[n - 1], steps[n - 1]) {
      var s := trail[n - 1].tables;
      var id :| id in s.tombs && s.tombs[id] == tomb;
      assert tomb in s.tombs.Values;
    } else {
      LostWereExpired(trail, steps, n - 1, tomb);
    }
  }
}
