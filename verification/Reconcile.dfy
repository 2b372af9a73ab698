/** The steps of computes/utils.py, computes/models.py and instances/utils.py
    that move a VM's ownership: each one transaction under lock_ownership. */
module Reconciles {
  import opened Wrappers
  import opened Ownership
  import opened OwnershipRuns

  /** The rights of a user while the source's owners in left are not merged yet. */
  predicate Merging(into: map<User, Rights>, from: map<User, Rights>, left: set<User>, owners: map<User, Rights>,
                    u: User)
  {
    if u in from && u !in left then u in owners && owners[u] == MergedRights(into, from, u)
    else if u in into then u in owners && owners[u] == into[u]
    else u !in owners
  }

  /** The loop over the source's owners: a user's rights are merged. */
  method MergeOwners(into: map<User, Rights>, from: map<User, Rights>) returns (owners: map<User, Rights>)
    ensures owners == MergedOwners(into, from)
  {
    owners := into;
    var left := from.Keys;
    while left != {}
      invariant left <= from.Keys && forall u :: Merging(into, from, left, owners, u)
      decreases |left|
    {
      var user :| user in left;
      assert Merging(into, from, left, owners, user);
      var merged := owners[user := if user in owners then Either(owners[user], from[user]) else from[user]];
      forall u ensures Merging(into, from, left - {user}, merged, u) { assert Merging(into, from, left, owners, u); }
      owners, left := merged, left - {user};
    }
    assert owners == MergedOwners(into, from) by {
      forall u ensures u in owners <==> u in into || u in from { assert Merging(into, from, {}, owners, u); }
      forall u | u in owners ensures owners[u] == MergedRights(into, from, u) {
        assert Merging(into, from, {}, owners, u);
      }
    }
  }

  lemma ConservedChains(a: Tables, b: Tables, c: Tables, cutoff: Time, users: set<User>)
    requires Conserved(a, b, cutoff, users) && Conserved(b, c, cutoff, users)
    ensures Conserved(a, c, cutoff, users)
  {
  }

  lemma RenamedConserves(t: Tables, t': Tables, cutoff: Time, users: set<User>)
    requires t'.records.Keys == t.records.Keys && t'.tombs == t.tombs
    requires forall key | key in t.records :: t'.records[key].marks == t.records[key].marks
    ensures Conserved(t, t', cutoff, users)
  {
    forall uuid, m | Known(users, m) ensures Live(t, cutoff, uuid, m) <==> Live(t', cutoff, uuid, m) {
      assert InTombs(t, cutoff, uuid, m) <==> InTombs(t', cutoff, uuid, m);
      if key :| key in t.records && key.uuid == uuid && Bears(t.records[key].marks, m) { assert key in t'.records; }
      if key :| key in t'.records && key.uuid == uuid && Bears(t'.records[key].marks, m) { assert key in t.records; }
    }
  }

  /** Tombstones of now are added, the others stay. */
  predicate Grown(tombs: map<nat, Tomb>, tombs': map<nat, Tomb>, now: Time) {
    NewTombs(tombs, tombs', now) && forall id | id in tombs :: id in tombs' && tombs'[id] == tombs[id]
  }

  predicate Shrunk(tombs: map<nat, Tomb>, tombs': map<nat, Tomb>) {
    forall id | id in tombs' :: id in tombs && tombs'[id] == tombs[id]
  }

  /** Of the compute's rows, those are left that are listed, or in left; the
      rows of others are untouched but for their marks. */
  ghost predicate Trimmed(records: map<Key, Record>, records': map<Key, Record>, compute: nat,
                          listing: map<nat, string>, left: set<Key>)
  {
    && OthersKept(records, records', compute)
    && (forall key: Key | key.compute == compute :: key in records' <==>
          key in records && (key in left || key.uuid in listing))
    && (forall key | key in records' && key.compute == compute :: records'[key] == records[key])
  }

  lemma TrimOne(a: map<Key, Record>, b: map<Key, Record>, c: map<Key, Record>, compute: nat, listing: map<nat, string>,
                left: set<Key>, key: Key)
    requires Trimmed(a, b, compute, listing, left) && key in left && key.compute == compute && key in a
    requires if key.uuid in listing then c == b
             else c.Keys == b.Keys - {key} && OthersKept(b, c, compute)
                  && forall k | k in c && k.compute == compute :: c[k] == b[k]
    ensures Trimmed(a, c, compute, listing, left - {key})
  {
  }

  class Registry {
    var records: map<Key, Record>
    var tombs: map<nat, Tomb>
    var next: nat
    var users: set<User>
    var computes: set<nat>

    function Tables(): Tables
      reads this
    {
      Ownership.Tables(records, tombs, next)
    }

    /** _move_ownership, without the deletion of the source's row. */
    method MoveOwnership(source: Key, target: Key)
      requires source in records && target in records && source != target
      modifies this`records
      ensures records == old(records)[target := old(records)[target].(
                           marks := Merged(old(records)[target].marks, old(records)[source].marks))]
    {
      var owners := MergeOwners(records[target].marks.owners, records[source].marks.owners);
      var template := records[target].marks.template || records[source].marks.template;
      records := records[target := records[target].(marks := Marks(template, owners))];
    }

    /** forget: the owners go to the same UUID elsewhere, or into a tombstone. */
    method Forget(key: Key, now: Time, ghost cutoff: Time)
      requires key in records && Tidy(Tables()) && cutoff <= now
      modifies this`records, this`tombs, this`next
      ensures Forgotten(old(Tables()), Tables(), key, now)
      ensures Tidy(Tables()) && Conserved(old(Tables()), Tables(), cutoff, users)
      ensures records.Keys == old(records).Keys - {key}
      ensures OthersKept(old(records), records, key.compute)
      ensures forall k | k in records && k.compute == key.compute :: records[k] == old(records)[k]
      ensures Grown(old(tombs), tombs, now)
    {
      var elsewhere := set k | k in records && k.uuid == key.uuid && k.compute != key.compute;
      if elsewhere != {} {
        var target :| target in elsewhere;
        MoveOwnership(key, target);
        records := records - {key};
        assert Tables() == Moved(old(Tables()), key, target);
      } else {
        assert forall k | k in records && k.uuid == key.uuid :: k.compute == key.compute by {
          forall k | k in records && k.uuid == key.uuid ensures k.compute == key.compute { assert k !in elsewhere; }
        }
        var marks := records[key].marks;
        if marks != BLANK {
          tombs, next := tombs[next := Tomb(key.uuid, marks, now)], next + 1;
        }
        records := records - {key};
        assert Tables() == Buried(old(Tables()), key, now);
      }
      ForgottenConserves(old(Tables()), Tables(), key, now, cutoff, users);
    }

    /** Step 1 of the reconcile: the names. */
    method Rename(compute: nat, listing: map<nat, string>, rows: set<Key>)
      requires forall key :: key in rows <==> key in records && key.compute == compute
      modifies this`records
      ensures records.Keys == old(records).Keys
      ensures forall key | key in records ::
                records[key] == if key in rows && key.uuid in listing then old(records)[key].(name := listing[key.uuid])
                                else old(records)[key]
    {
      var left := rows;
      while left != {}
        invariant left <= rows && records.Keys == old(records).Keys
        invariant forall key | key in records ::
                    records[key] == if key in rows - left && key.uuid in listing
                                    then old(records)[key].(name := listing[key.uuid])
                                    else old(records)[key]
        decreases |left|
      {
        var key :| key in left;
        if key.uuid in listing && records[key].name != listing[key.uuid] {
          records := records[key := records[key].(name := listing[key.uuid])];
        }
        left := left - {key};
      }
    }

    /** Step 2: the rows libvirt no longer lists. */
    method ForgetUnlisted(compute: nat, listing: map<nat, string>, rows: set<Key>, now: Time, ghost cutoff: Time)
      requires forall key :: key in rows <==> key in records && key.compute == compute
      requires Tidy(Tables()) && cutoff <= now
      modifies this`records, this`tombs, this`next
      ensures Tidy(Tables()) && Conserved(old(Tables()), Tables(), cutoff, users)
      ensures Trimmed(old(records), records, compute, listing, {})
      ensures Grown(old(tombs), tombs, now)
    {
      var left := rows;
      while left != {}
        invariant left <= rows
        invariant Tidy(Tables()) && Conserved(old(Tables()), Tables(), cutoff, users)
        invariant Trimmed(old(records), records, compute, listing, left)
        invariant Grown(old(tombs), tombs, now)
        decreases |left|
      {
        var key :| key in left;
        ghost var before := Tables();
        if key.uuid !in listing {
          Forget(key, now, cutoff);
          ConservedChains(old(Tables()), before, Tables(), cutoff, users);
        }
        TrimOne(old(records), before.records, records, compute, listing, left, key);
        left := left - {key};
      }
    }

    /** Step 3, one VM: get_or_create, and _restore of a row that is no copy. */
    method ListNew(key: Key, name: string, ghost cutoff: Time)
      requires key !in records && Tidy(Tables()) && Unexpired(tombs, cutoff)
      modifies this`records, this`tombs
      ensures Listed(old(Tables()), Tables(), key, name, users)
      ensures Tidy(Tables()) && Conserved(old(Tables()), Tables(), cutoff, users)
      ensures key in records && records == old(records)[key := Record(name, records[key].marks)]
      ensures Shrunk(old(tombs), tombs)
      // a copy of another compute's VM gets no owners, and the tombstones stay
      ensures (exists k :: k in old(records) && k.uuid == key.uuid) ==>
                records[key].marks == Marks(false, map[]) && tombs == old(tombs)
      // else it gets back what its tombstone kept, of users still there
      ensures (forall k | k in old(records) :: k.uuid != key.uuid) ==>
                && (forall i | i in old(tombs) && old(tombs)[i].uuid == key.uuid ::
                      var kept, marks := old(tombs)[i].marks, records[key].marks;
                      && i !in tombs && marks.template == kept.template
                      && (forall u :: u in marks.owners <==> u in kept.owners && u in users)
                      && (forall u <- marks.owners :: marks.owners[u] == kept.owners[u]))
                && ((forall i | i in old(tombs) :: old(tombs)[i].uuid != key.uuid) ==>
                      records[key].marks == Marks(false, map[]))
    {
      if (exists k | k in records :: k.uuid == key.uuid) || forall i | i in tombs :: tombs[i].uuid != key.uuid {
        records := records[key := Record(name, BLANK)];
      } else {
        Restore(key, name);
      }
      ListedConserves(old(Tables()), Tables(), key, name, cutoff, users, users);
    }

    /** A new row and _restore. */
    method Restore(key: Key, name: string)
      requires exists id :: id in tombs && tombs[id].uuid == key.uuid
      modifies this`records, this`tombs
      ensures exists id ::
                && id in old(tombs) && old(tombs)[id].uuid == key.uuid
                && Tables() == Restored(old(Tables()), key, name, id, users)
    {
      var id :| id in tombs && tombs[id].uuid == key.uuid;
      records := records[key := Record(name, Living(tombs[id].marks, users))];
      tombs := map i | i in tombs && tombs[i].uuid != key.uuid :: tombs[i];
      assert Tables() == Restored(old(Tables()), key, name, id, users);
    }

    /** The same among others; records0: the rows before the first. */
    method ListNext(key: Key, name: string, ghost records0: map<Key, Record>, ghost cutoff: Time)
      requires key !in records && Tidy(Tables()) && Unexpired(tombs, cutoff)
      requires OthersKept(records0, records, key.compute) && OwnRowsFair(records0, records, key.compute)
      requires key !in records0
      modifies this`records, this`tombs
      ensures Tidy(Tables()) && Conserved(old(Tables()), Tables(), cutoff, users)
      ensures key in records && records == old(records)[key := Record(name, records[key].marks)]
      ensures Shrunk(old(tombs), tombs)
      ensures OthersKept(records0, records, key.compute) && OwnRowsFair(records0, records, key.compute)
    {
      ListNew(key, name, cutoff);
    }

    /** Step 3: the VMs listed that have no row yet. */
    method ListAll(compute: nat, listing: map<nat, string>, ghost cutoff: Time)
      requires Tidy(Tables()) && Unexpired(tombs, cutoff)
      requires forall key: Key | key in records && key.compute == compute ::
                 key.uuid in listing && records[key].name == listing[key.uuid]
      modifies this`records, this`tombs
      ensures Tidy(Tables()) && Conserved(old(Tables()), Tables(), cutoff, users)
      ensures Matches(records, compute, listing) && OthersKept(old(records), records, compute)
      ensures Shrunk(old(tombs), tombs) && OwnRowsFair(old(records), records, compute)
    {
      var left := listing.Keys;
      while left != {}
        invariant left <= listing.Keys
        invariant Tidy(Tables()) && Conserved(old(Tables()), Tables(), cutoff, users) && Shrunk(old(tombs), tombs)
        invariant forall key: Key | key in records && key.compute == compute ::
                    key.uuid in listing && records[key].name == listing[key.uuid]
        invariant forall uuid | uuid in listing && uuid !in left :: Key(compute, uuid) in records
        invariant OthersKept(old(records), records, compute) && OwnRowsFair(old(records), records, compute)
        invariant old(records).Keys <= records.Keys
        decreases |left|
      {
        var uuid :| uuid in left;
        left := left - {uuid};
        if Key(compute, uuid) !in records {
          ghost var before := Tables();
          ListNext(Key(compute, uuid), listing[uuid], old(records), cutoff);
          ConservedChains(old(Tables()), before, Tables(), cutoff, users);
        }
      }
    }

    /** The transaction of refresh_instance_database, with libvirt's listing
        read under the claim; expiry: the tombstones removed before go. */
    method Reconcile(compute: nat, listing: map<nat, string>, now: Time, expiry: Time)
      requires Tidy(Tables()) && expiry <= now
      modifies this`records, this`tombs, this`next
      ensures Tidy(Tables()) && Conserved(old(Tables()), Tables(), expiry, users)
      ensures Matches(records, compute, listing) && OthersKept(old(records), records, compute)
      ensures Unexpired(tombs, expiry) && NewTombs(old(tombs), tombs, now)
      ensures OwnRowsFair(old(records), records, compute)
    {
      var rows := set key | key in records && key.compute == compute;
      Rename(compute, listing, rows);
      RenamedConserves(old(Tables()), Tables(), expiry, users);
      ghost var renamed := Tables();
      ForgetUnlisted(compute, listing, rows, now, expiry);
      ConservedChains(old(Tables()), renamed, Tables(), expiry, users);
      ghost var forgotten := Tables();
      tombs := map id | id in tombs && tombs[id].removed >= expiry :: tombs[id];
      ExpiredConserves(forgotten, expiry, expiry, users);
      ConservedChains(old(Tables()), forgotten, Tables(), expiry, users);
      ghost var expired := Tables();
      ListAll(compute, listing, expiry);
      ConservedChains(old(Tables()), expired, Tables(), expiry, users);
    }

    // -- the whole -----------------------------------------------------------------

    function State(): State
      reads this
    {
      OwnershipRuns.State(Tables(), users, computes)
    }

    ghost predicate Valid()
      reads this
    {
      Proper(State())
    }

    /** refresh_instance_database: synced is the listing the compute's rows now
        equal, None when nothing was changed. step: what libvirt lists before
        and under the claim, whether that is free, and the clock. */
    method Refresh(step: Step) returns (synced: Option<map<nat, string>>)
      requires Valid() && step.Refreshed? && step.expiry <= step.now
      modifies this`records, this`tombs, this`next
      ensures Valid() && Stepped(old(State()), State(), step)
      ensures synced == SyncedBy(old(State()), step)
      ensures synced.Some? ==> Matches(records, step.compute, synced.value) && Unexpired(tombs, step.expiry)
      ensures synced.None? ==> Tables() == old(Tables())
      // nothing is read, or something is to be done and the claim is taken, or
      // libvirt silent, or the compute gone
      ensures synced.None? <==>
                || step.first.None?
                || (&& (|| (exists key :: key in old(records) && key.compute == step.compute
                                          && !(key.uuid in step.first.value
                                               && step.first.value[key.uuid] == old(records)[key].name))
                        || (exists uuid :: uuid in step.first.value && Key(step.compute, uuid) !in old(records))
                        || (exists id :: id in old(tombs) && old(tombs)[id].removed < step.expiry))
                    && (!step.claimed || step.second.None? || step.compute !in computes))
    {
      if step.first.None? {
        return None;
      }
      if UpToDate(Tables(), step) {
        return step.first;
      }
      if !step.claimed || step.second.None? || step.compute !in computes {
        return None;
      }
      Reconcile(step.compute, step.second.value, step.now, step.expiry);
      synced := step.second;
    }

    /** record_migration: the row moves, or its marks join the row a listing made. */
    method RecordMigration(source: Key, target: Key)
      requires Valid() && source in records && source.uuid == target.uuid && target.compute in computes
               && source != target
      modifies this`records
      ensures Valid() && Tables() == MigratedRow(old(Tables()), source, target)
      ensures records.Keys == old(records).Keys - {source} + {target}
      // the target has the source's marks, with its own where it had a row; no other row changes
      ensures forall m :: Bears(records[target].marks, m) <==>
                          || Bears(old(records)[source].marks, m)
                          || (target in old(records) && Bears(old(records)[target].marks, m))
      ensures forall k | k in records && k != target :: records[k] == old(records)[k]
    {
      forall m ensures target in records ==>
                         (Bears(Merged(records[target].marks, records[source].marks), m) <==>
                          Bears(records[target].marks, m) || Bears(records[source].marks, m))
      {
        if target in records { MergedBears(records[target].marks, records[source].marks, m); }
      }
      if target in records {
        MovedConserves(Tables(), source, target, 0, users);
        MoveOwnership(source, target);
        records := records - {source};
        assert Tables() == Moved(old(Tables()), source, target);
      } else {
        RehomedConserves(Tables(), source, target, 0, users);
        records := (records - {source})[target := records[source]];
        assert Tables() == Rehomed(old(Tables()), source, target);
      }
    }

    /** Compute.delete: every VM of it is forgotten. */
    method DeleteCompute(compute: nat, now: Time)
      requires Valid()
      modifies this`records, this`tombs, this`next, this`computes
      ensures Valid() && Emptied(old(Tables()), Tables(), compute, now, users)
      ensures computes == old(computes) - {compute}
    {
      var rows := set key | key in records && key.compute == compute;
      ghost var cutoff := Earliest(tombs, now);
      ForgetUnlisted(compute, map[], rows, now, cutoff);
      computes := computes - {compute};
      KeptUnexpired(old(Tables()), Tables(), cutoff, users);
    }

    /** A user's deletion takes their rows of UserInstance. */
    method DeleteUser(user: User)
      requires Valid()
      modifies this`records, this`users
      ensures Valid() && users == old(users) - {user} && Tables() == WithoutUser(old(Tables()), user)
      ensures records.Keys == old(records).Keys
      ensures forall k, m | k in records ::
                Bears(records[k].marks, m) <==> Bears(old(records)[k].marks, m) && (m.Template? || m.user != user)
    {
      records := map key | key in records ::
        records[key].(marks := Marks(records[key].marks.template, records[key].marks.owners - {user}));
      users := users - {user};
    }

    /** record_vm: the row of a VM a job made, whose UUID is new, and its owner. */
    method RecordVm(key: Key, name: string, owner: Option<User>)
      requires Valid() && key.compute in computes && forall id | id in tombs :: tombs[id].uuid != key.uuid
      modifies this`records
      ensures Valid()
      ensures records == old(records)[key := RecordedRow(old(Tables()), key, name, owner, users)]
      ensures owner.Some? && owner.value in users
              && (key in old(records) ==> owner.value !in old(records)[key].marks.owners) ==>
                (forall right :: Bears(records[key].marks, Of(owner.value, right)))
      // nobody else's marks change, nor those of an owner the row had
      ensures forall m | key in old(records) && Bears(old(records)[key].marks, m) :: Bears(records[key].marks, m)
      ensures forall m | Bears(records[key].marks, m)
                         && !(key in old(records) && Bears(old(records)[key].marks, m)) ::
                m.Of? && owner == Some(m.user) && (key in old(records) ==> m.user !in old(records)[key].marks.owners)
    {
      if key !in records {
        records := records[key := Record(name, BLANK)];
      }
      var row := records[key];
      if owner.Some? && owner.value in users && owner.value !in row.marks.owners {
        var owners := row.marks.owners[owner.value := Rights(true, true, true)];
        records := records[key := Record(row.name, Marks(row.marks.template, owners))];
      }
    }

    /** The first thing a delete job does once the VM is undefined: the row of
        its compute goes, with its owners and without a tombstone. */
    method RemoveVm(key: Key)
      requires Valid()
      modifies this`records
      ensures Valid() && records == old(records) - {key}
    {
      records := records - {key};
    }

    /** Any steps in any order, over any time; trail: the tables after each.
        What the run lost, made, removed and listed is what its steps did. */
    method Serve(steps: seq<Step>) returns (ghost trail: seq<State>)
      requires Valid()
      requires forall n | 0 <= n < |steps| :: steps[n].Refreshed? ==> steps[n].expiry <= steps[n].now
      modifies this
      ensures Valid() && users <= old(users)
      ensures Trail(trail, steps) && trail[0] == old(State()) && trail[|steps|] == State()
      ensures Kept(old(Tables()), Tables(), LostIn(trail, steps, |steps|), MadeIn(trail, steps, |steps|),
                   GoneIn(steps, |steps|), users)
      ensures forall tomb | tomb in LostIn(trail, steps, |steps|) ::
                WasExpired(trail, steps, |steps|, tomb)
      ensures forall c :: Follows(records, c, Replayed(None, LogIn(trail, steps, |steps|), c))
    {
      trail := [State()];
      for n := 0 to |steps|
        invariant Valid() && |trail| == n + 1 && trail[0] == old(State()) && trail[n] == State()
        invariant forall k | 0 <= k < n :: Stepped(trail[k], trail[k + 1], steps[k])
      {
        Step(steps[n]);
        trail := trail + [State()];
      }
      RunIsProper(trail, steps, |steps|);
      RunKeepsMarks(trail, steps, |steps|);
      forall tomb | tomb in LostIn(trail, steps, |steps|)
        ensures WasExpired(trail, steps, |steps|, tomb)
      {
        LostWereExpired(trail, steps, |steps|, tomb);
      }
      forall c ensures Follows(records, c, Replayed(None, LogIn(trail, steps, |steps|), c)) {
        RunFollows(trail, steps, |steps|, c);
      }
    }

    /** One step; one that may not be taken changes nothing. */
    method Step(step: Step)
      requires Valid() && (step.Refreshed? ==> step.expiry <= step.now)
      modifies this
      ensures Valid() && Stepped(old(State()), State(), step)
    {
      match step
      case Refreshed(_, _, _, _, _, _) =>
        var synced := Refresh(step);
      case Migrated(uuid, source, target) =>
        if MayMigrate(State(), step) {
          RecordMigration(Key(source, uuid), Key(target, uuid));
        }
      case Recorded(key, name, owner) =>
        if MayRecord(State(), step) {
          RecordVm(key, name, owner);
        }
      case VmDeleted(key) =>
        RemoveVm(key);
      case ComputeDeleted(compute, now) =>
        DeleteCompute(compute, now);
      case UserDeleted(user) =>
        DeleteUser(user);
    }
  }
}
