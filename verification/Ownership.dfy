/** Who owns a VM: its owners' rights and its template mark, on its records and
    tombstones, as computes/utils.py and instances/utils.py move them. */
module Ownership {
  import Records

  type User = Records.User
  type Time = Records.Time

  datatype Rights = Rights(change: bool, delete: bool, vnc: bool)

  /** A template flag and the owners. */
  datatype Marks = Marks(template: bool, owners: map<User, Rights>)

  const BLANK := Marks(false, map[])

  /** The key of an Instance row, unique in its table. */
  datatype Key = Key(compute: nat, uuid: nat)

  datatype Record = Record(name: string, marks: Marks)

  datatype Tomb = Tomb(uuid: nat, marks: Marks, removed: Time)

  /** The Instance and InstanceTombstone tables; next: the next tombstone's id. */
  datatype Tables = Tables(records: map<Key, Record>, tombs: map<nat, Tomb>, next: nat)

  // -- marks -------------------------------------------------------------------------

  datatype Right = Owns | Changes | Deletes | Views

  datatype Mark = Template | Of(user: User, right: Right)

  predicate Has(r: Rights, right: Right) {
    match right
    case Owns => true
    case Changes => r.change
    case Deletes => r.delete
    case Views => r.vnc
  }

  predicate Bears(marks: Marks, m: Mark) {
    if m.Template? then marks.template else m.user in marks.owners && Has(marks.owners[m.user], m.right)
  }

  function Either(a: Rights, b: Rights): Rights {
    Rights(a.change || b.change, a.delete || b.delete, a.vnc || b.vnc)
  }

  function MergedRights(a: map<User, Rights>, b: map<User, Rights>, u: User): Rights
    requires u in a || u in b
  {
    if u !in b then a[u] else if u !in a then b[u] else Either(a[u], b[u])
  }

  function MergedOwners(a: map<User, Rights>, b: map<User, Rights>): map<User, Rights> {
    map u | u in a.Keys + b.Keys :: MergedRights(a, b, u)
  }

  function Merged(a: Marks, b: Marks): Marks {
    Marks(a.template || b.template, MergedOwners(a.owners, b.owners))
  }

  /** Marks of users still there. */
  function Living(marks: Marks, users: set<User>): Marks {
    Marks(marks.template, map u | u in marks.owners && u in users :: marks.owners[u])
  }

  predicate Known(users: set<User>, m: Mark) { m.Template? || m.user in users }

  // -- where a VM's marks are -----------------------------------------------------------

  ghost predicate InRecords(t: Tables, uuid: nat, m: Mark) {
    exists key :: key in t.records && key.uuid == uuid && Bears(t.records[key].marks, m)
  }

  predicate InTomb(tomb: Tomb, cutoff: Time, uuid: nat, m: Mark) {
    tomb.uuid == uuid && tomb.removed >= cutoff && Bears(tomb.marks, m)
  }

  /** In a tombstone that cutoff does not expire. */
  ghost predicate InTombs(t: Tables, cutoff: Time, uuid: nat, m: Mark) {
    exists id :: id in t.tombs && InTomb(t.tombs[id], cutoff, uuid, m)
  }

  ghost predicate Live(t: Tables, cutoff: Time, uuid: nat, m: Mark) {
    InRecords(t, uuid, m) || InTombs(t, cutoff, uuid, m)
  }

  /** Every VM has the marks it had, but for those of deleted users and of
      tombstones that cutoff expires. */
  ghost predicate Conserved(t: Tables, t': Tables, cutoff: Time, users: set<User>) {
    forall uuid, m | Known(users, m) :: Live(t, cutoff, uuid, m) <==> Live(t', cutoff, uuid, m)
  }

  /** A tombstone excludes any record of its VM, and a VM has at most one. */
  ghost predicate Tidy(t: Tables) {
    && (forall id, key | id in t.tombs && key in t.records :: t.tombs[id].uuid != key.uuid)
    && (forall i, j | i in t.tombs && j in t.tombs && t.tombs[i].uuid == t.tombs[j].uuid :: i == j)
    && (forall id | id in t.tombs :: id < t.next)
  }

  // -- what the steps do ------------------------------------------------------------------

  /** _move_ownership and the deletion of the source's row. */
  function Moved(t: Tables, source: Key, target: Key): Tables
    requires source in t.records && target in t.records && source != target
  {
    var r := t.records[target];
    t.(records := (t.records - {source})[target := r.(marks := Merged(r.marks, t.records[source].marks))])
  }

  /** _bury and the deletion of the row. */
  function Buried(t: Tables, key: Key, now: Time): Tables
    requires key in t.records
  {
    var marks := t.records[key].marks;
    if marks == BLANK then t.(records := t.records - {key})
    else Tables(t.records - {key}, t.tombs[t.next := Tomb(key.uuid, marks, now)], t.next + 1)
  }

  /** forget. */
  ghost predicate Forgotten(t: Tables, t': Tables, key: Key, now: Time)
    requires key in t.records
  {
    if exists k :: k in t.records && k.uuid == key.uuid && k.compute != key.compute
    then exists k :: k in t.records && k.uuid == key.uuid && k.compute != key.compute && t' == Moved(t, key, k)
    else t' == Buried(t, key, now)
  }

  /** The deletion of the tombstones removed before cutoff. */
  function Expired(t: Tables, cutoff: Time): Tables {
    t.(tombs := map id | id in t.tombs && t.tombs[id].removed >= cutoff :: t.tombs[id])
  }

  /** A new row, given the marks of the VM's tombstone, which goes. */
  function Restored(t: Tables, key: Key, name: string, id: nat, users: set<User>): Tables
    requires id in t.tombs
  {
    Tables(t.records[key := Record(name, Living(t.tombs[id].marks, users))],
           map i | i in t.tombs && t.tombs[i].uuid != key.uuid :: t.tombs[i], t.next)
  }

  /** A row listed for the first time: a copy of a VM on another compute gets
      no marks, another VM those of its tombstone. */
  ghost predicate Listed(t: Tables, t': Tables, key: Key, name: string, users: set<User>) {
    if (exists k :: k in t.records && k.uuid == key.uuid) || (forall i | i in t.tombs :: t.tombs[i].uuid != key.uuid)
    then t' == t.(records := t.records[key := Record(name, BLANK)])
    else exists id :: id in t.tombs && t.tombs[id].uuid == key.uuid && t' == Restored(t, key, name, id, users)
  }

  /** record_migration of a VM the new compute does not list yet. */
  function Rehomed(t: Tables, source: Key, target: Key): Tables
    requires source in t.records
  {
    t.(records := (t.records - {source})[target := t.records[source]])
  }

  // -- each step conserves ------------------------------------------------------------------

  lemma MergedBears(a: Marks, b: Marks, m: Mark)
    ensures Bears(Merged(a, b), m) <==> Bears(a, m) || Bears(b, m)
  {
  }

  lemma MovedConserves(t: Tables, source: Key, target: Key, cutoff: Time, users: set<User>)
    requires source in t.records && target in t.records && source.uuid == target.uuid && source != target && Tidy(t)
    ensures Tidy(Moved(t, source, target)) && Conserved(t, Moved(t, source, target), cutoff, users)
  {
    var t' := Moved(t, source, target);
    forall uuid, m | Known(users, m) ensures Live(t, cutoff, uuid, m) <==> Live(t', cutoff, uuid, m) {
      MergedBears(t.records[target].marks, t.records[source].marks, m);
      if InRecords(t, uuid, m) {
        var key :| key in t.records && key.uuid == uuid && Bears(t.records[key].marks, m);
        var at := if key == source then target else key;
        assert at in t'.records && Bears(t'.records[at].marks, m);
      }
      if InRecords(t', uuid, m) {
        var key :| key in t'.records && key.uuid == uuid && Bears(t'.records[key].marks, m);
        if key == target && !Bears(t.records[target].marks, m) {
          assert source in t.records && Bears(t.records[source].marks, m);
        }
      }
      assert InTombs(t, cutoff, uuid, m) <==> InTombs(t', cutoff, uuid, m);
    }
  }

  lemma BuriedConserves(t: Tables, key: Key, now: Time, cutoff: Time, users: set<User>)
    requires key in t.records && Tidy(t) && cutoff <= now
    requires forall k | k in t.records && k.uuid == key.uuid :: k == key
    ensures Tidy(Buried(t, key, now)) && Conserved(t, Buried(t, key, now), cutoff, users)
  {
    var t', marks := Buried(t, key, now), t.records[key].marks;
    forall uuid, m | Known(users, m) ensures Live(t, cutoff, uuid, m) <==> Live(t', cutoff, uuid, m) {
      if InRecords(t, uuid, m) {
        var k :| k in t.records && k.uuid == uuid && Bears(t.records[k].marks, m);
        if k == key {
          assert t.next in t'.tombs && Bears(t'.tombs[t.next].marks, m);
        } else {
          assert k in t'.records;
        }
      }
      if InTombs(t, cutoff, uuid, m) {
        var id :| id in t.tombs && InTomb(t.tombs[id], cutoff, uuid, m);
        assert id in t'.tombs;
      }
      if InTombs(t', cutoff, uuid, m) {
        var id :| id in t'.tombs && InTomb(t'.tombs[id], cutoff, uuid, m);
        if id == t.next && marks != BLANK { assert key in t.records && Bears(marks, m); } else { assert id in t.tombs; }
      }
    }
  }

  lemma ForgottenConserves(t: Tables, t': Tables, key: Key, now: Time, cutoff: Time, users: set<User>)
    requires key in t.records && Tidy(t) && cutoff <= now && Forgotten(t, t', key, now)
    ensures Tidy(t') && Conserved(t, t', cutoff, users)
  {
    if exists k :: k in t.records && k.uuid == key.uuid && k.compute != key.compute {
      var k :| k in t.records && k.uuid == key.uuid && k.compute != key.compute && t' == Moved(t, key, k);
      MovedConserves(t, key, k, cutoff, users);
    } else {
      forall k | k in t.records && k.uuid == key.uuid ensures k == key { assert k.compute == key.compute; }
      BuriedConserves(t, key, now, cutoff, users);
    }
  }

  lemma ExpiredConserves(t: Tables, expiry: Time, cutoff: Time, users: set<User>)
    requires Tidy(t) && expiry <= cutoff
    ensures Tidy(Expired(t, expiry)) && Conserved(t, Expired(t, expiry), cutoff, users)
  {
    var t' := Expired(t, expiry);
    forall uuid, m | Known(users, m) ensures Live(t, cutoff, uuid, m) <==> Live(t', cutoff, uuid, m) {
      if InTombs(t, cutoff, uuid, m) {
        var id :| id in t.tombs && InTomb(t.tombs[id], cutoff, uuid, m);
        assert id in t'.tombs;
      }
      assert InRecords(t, uuid, m) <==> InRecords(t', uuid, m);
    }
  }

  /** A tombstone that was not expired before gives all its marks back. */
  lemma ListedConserves(t: Tables, t': Tables, key: Key, name: string, cutoff: Time, users: set<User>, all: set<User>)
    requires key !in t.records && Tidy(t) && users <= all && Listed(t, t', key, name, all)
    requires forall id | id in t.tombs :: t.tombs[id].removed >= cutoff
    ensures Tidy(t') && Conserved(t, t', cutoff, users)
  {
    if t' == t.(records := t.records[key := Record(name, BLANK)]) {
      BlankConserves(t, key, name, cutoff, users);
    } else {
      var id :| id in t.tombs && t.tombs[id].uuid == key.uuid && t' == Restored(t, key, name, id, all);
      RestoredConserves(t, key, name, id, cutoff, users, all);
    }
  }

  lemma BlankConserves(t: Tables, key: Key, name: string, cutoff: Time, users: set<User>)
    requires key !in t.records
    ensures Conserved(t, t.(records := t.records[key := Record(name, BLANK)]), cutoff, users)
  {
    var t' := t.(records := t.records[key := Record(name, BLANK)]);
    forall uuid, m | Known(users, m) ensures Live(t, cutoff, uuid, m) <==> Live(t', cutoff, uuid, m) {
      if InRecords(t, uuid, m) {
        var k :| k in t.records && k.uuid == uuid && Bears(t.records[k].marks, m);
        assert k in t'.records;
      }
      assert InTombs(t, cutoff, uuid, m) <==> InTombs(t', cutoff, uuid, m);
    }
  }

  lemma RestoredConserves(t: Tables, key: Key, name: string, id: nat, cutoff: Time, users: set<User>, all: set<User>)
    requires key !in t.records && Tidy(t) && users <= all && id in t.tombs && t.tombs[id].uuid == key.uuid
    requires t.tombs[id].removed >= cutoff
    ensures Tidy(Restored(t, key, name, id, all)) && Conserved(t, Restored(t, key, name, id, all), cutoff, users)
  {
    var t' := Restored(t, key, name, id, all);
    forall uuid, m | Known(users, m) ensures Live(t, cutoff, uuid, m) <==> Live(t', cutoff, uuid, m) {
      assert Bears(t.tombs[id].marks, m) <==> Bears(t'.records[key].marks, m);
      if InRecords(t, uuid, m) {
        var k :| k in t.records && k.uuid == uuid && Bears(t.records[k].marks, m);
        assert k in t'.records;
      }
      if InTombs(t, cutoff, uuid, m) {
        var i :| i in t.tombs && InTomb(t.tombs[i], cutoff, uuid, m);
        if i == id { assert key in t'.records; } else { assert i in t'.tombs; }
      }
      if InTombs(t', cutoff, uuid, m) {
        var i :| i in t'.tombs && InTomb(t'.tombs[i], cutoff, uuid, m);
        assert i in t.tombs;
      }
      if InRecords(t', uuid, m) {
        var k :| k in t'.records && k.uuid == uuid && Bears(t'.records[k].marks, m);
        if k == key { assert id in t.tombs; } else { assert k in t.records; }
      }
    }
  }

  lemma RehomedConserves(t: Tables, source: Key, target: Key, cutoff: Time, users: set<User>)
    requires source in t.records && target !in t.records && source.uuid == target.uuid && Tidy(t)
    ensures Tidy(Rehomed(t, source, target)) && Conserved(t, Rehomed(t, source, target), cutoff, users)
  {
    var t' := Rehomed(t, source, target);
    forall uuid, m | Known(users, m) ensures Live(t, cutoff, uuid, m) <==> Live(t', cutoff, uuid, m) {
      if InRecords(t, uuid, m) {
        var k :| k in t.records && k.uuid == uuid && Bears(t.records[k].marks, m);
        assert (if k == source then target else k) in t'.records;
      }
      if InRecords(t', uuid, m) {
        var k :| k in t'.records && k.uuid == uuid && Bears(t'.records[k].marks, m);
        assert (if k == target then source else k) in t.records;
      }
      assert InTombs(t, cutoff, uuid, m) <==> InTombs(t', cutoff, uuid, m);
    }
  }

  // -- what runs lose ---------------------------------------------------------------------

  predicate Unexpired(tombs: map<nat, Tomb>, cutoff: Time) {
    forall id | id in tombs :: tombs[id].removed >= cutoff
  }

  /** On a record or in a tombstone, however old. */
  ghost predicate Borne(t: Tables, uuid: nat, m: Mark) {
    InRecords(t, uuid, m) || exists id :: id in t.tombs && t.tombs[id].uuid == uuid && Bears(t.tombs[id].marks, m)
  }

  function ExpiredBy(tombs: map<nat, Tomb>, expiry: Time): set<Tomb> {
    set id | id in tombs && tombs[id].removed < expiry :: tombs[id]
  }

  ghost predicate Taken(lost: set<Tomb>, uuid: nat, m: Mark) {
    exists tomb :: tomb in lost && tomb.uuid == uuid && Bears(tomb.marks, m)
  }

  /** The marks of known users: those that the lost tombstones took are gone;
      only the VMs of made have new ones, and only those of gone, deleted by
      a user's job, lost others. */
  ghost predicate Kept(t: Tables, t': Tables, lost: set<Tomb>, made: set<nat>, gone: set<nat>, users: set<User>) {
    forall uuid, m | Known(users, m) :: KeptOne(t, t', lost, made, gone, uuid, m)
  }

  ghost predicate KeptOne(t: Tables, t': Tables, lost: set<Tomb>, made: set<nat>, gone: set<nat>, uuid: nat, m: Mark) {
    && (Borne(t, uuid, m) && !Taken(lost, uuid, m) ==> Borne(t', uuid, m) || uuid in gone)
    && (Borne(t', uuid, m) ==> (Borne(t, uuid, m) && !Taken(lost, uuid, m)) || uuid in made)
  }

  lemma KeptChains(a: Tables, b: Tables, c: Tables, l: set<Tomb>, k: set<Tomb>, m: set<nat>, n: set<nat>,
                   g: set<nat>, h: set<nat>, users: set<User>, all: set<User>)
    requires Kept(a, b, l, m, g, all) && Kept(b, c, k, n, h, users) && users <= all
    ensures Kept(a, c, l + k, m + n, g + h, users)
  {
    forall uuid, mark | Known(users, mark) ensures KeptOne(a, c, l + k, m + n, g + h, uuid, mark) {
      assert KeptOne(a, b, l, m, g, uuid, mark) && KeptOne(b, c, k, n, h, uuid, mark);
      assert Taken(l + k, uuid, mark) <==> Taken(l, uuid, mark) || Taken(k, uuid, mark);
    }
  }

  lemma KeptSame(t: Tables, users: set<User>)
    ensures Kept(t, t, {}, {}, {}, users)
  {
    forall uuid, m ensures KeptOne(t, t, {}, {}, {}, uuid, m) { assert !Taken({}, uuid, m); }
  }

  lemma LiveIsBorne(t: Tables, cutoff: Time, uuid: nat, m: Mark)
    requires Unexpired(t.tombs, cutoff)
    ensures Live(t, cutoff, uuid, m) <==> Borne(t, uuid, m)
  {
    if Borne(t, uuid, m) && !InRecords(t, uuid, m) {
      var id :| id in t.tombs && t.tombs[id].uuid == uuid && Bears(t.tombs[id].marks, m);
      assert t.tombs[id].removed >= cutoff;
    }
  }

  /** With every tombstone kept, what is conserved is kept. */
  lemma KeptUnexpired(t: Tables, t': Tables, cutoff: Time, users: set<User>)
    requires Conserved(t, t', cutoff, users) && Unexpired(t.tombs, cutoff) && Unexpired(t'.tombs, cutoff)
    ensures Kept(t, t', {}, {}, {}, users)
  {
    forall uuid, m | Known(users, m) ensures KeptOne(t, t', {}, {}, {}, uuid, m) {
      LiveIsBorne(t, cutoff, uuid, m);
      LiveIsBorne(t', cutoff, uuid, m);
      assert !Taken({}, uuid, m);
    }
  }

  /** What no expired tombstone took is live: a VM's marks are on its records
      or in its one tombstone, never both. */
  lemma LiveUnlessTaken(t: Tables, expiry: Time, uuid: nat, m: Mark)
    requires Tidy(t)
    ensures Live(t, expiry, uuid, m) <==> Borne(t, uuid, m) && !Taken(ExpiredBy(t.tombs, expiry), uuid, m)
  {
    var lost := ExpiredBy(t.tombs, expiry);
    if Taken(lost, uuid, m) {
      var tomb :| tomb in lost && tomb.uuid == uuid && Bears(tomb.marks, m);
      var id :| id in t.tombs && t.tombs[id].removed < expiry && t.tombs[id] == tomb;
      assert forall key | key in t.records :: key.uuid != uuid;
      assert forall i | i in t.tombs && t.tombs[i].uuid == uuid :: i == id;
    } else if Borne(t, uuid, m) && !InRecords(t, uuid, m) {
      var id :| id in t.tombs && t.tombs[id].uuid == uuid && Bears(t.tombs[id].marks, m);
      assert t.tombs[id] !in lost;
    }
  }

  /** With the tombstones before expiry gone, the rest is kept. */
  lemma KeptByExpiry(t: Tables, t': Tables, expiry: Time, users: set<User>)
    requires Tidy(t) && Conserved(t, t', expiry, users) && Unexpired(t'.tombs, expiry)
    ensures Kept(t, t', ExpiredBy(t.tombs, expiry), {}, {}, users)
  {
    forall uuid, m | Known(users, m) ensures KeptOne(t, t', ExpiredBy(t.tombs, expiry), {}, {}, uuid, m) {
      LiveUnlessTaken(t, expiry, uuid, m);
      LiveIsBorne(t', expiry, uuid, m);
    }
  }

  /** A time no tombstone was removed before. */
  ghost function Earliest(tombs: map<nat, Tomb>, now: Time): (c: Time)
    ensures c <= now && Unexpired(tombs, c)
    decreases |tombs|
  {
    if tombs == map[] then now
    else
      var id :| id in tombs;
      var rest := Earliest(tombs - {id}, now);
      assert forall i | i in tombs && i != id :: i in tombs - {id};
      if tombs[id].removed < rest then tombs[id].removed else rest
  }

  /** A VM's row made or its owner added: nothing else changes. */
  lemma RecordedKept(t: Tables, t': Tables, key: Key, users: set<User>)
    requires t'.tombs == t.tombs && t'.records.Keys == t.records.Keys + {key}
    requires forall k | k in t'.records && k != key :: k in t.records && t'.records[k] == t.records[k]
    requires forall m | key in t.records && Bears(t.records[key].marks, m) :: Bears(t'.records[key].marks, m)
    ensures Kept(t, t', {}, {key.uuid}, {}, users)
  {
    forall uuid, m | Known(users, m) ensures KeptOne(t, t', {}, {key.uuid}, {}, uuid, m) {
      assert !Taken({}, uuid, m);
      if InRecords(t, uuid, m) {
        var k :| k in t.records && k.uuid == uuid && Bears(t.records[k].marks, m);
        assert k in t'.records && Bears(t'.records[k].marks, m);
      }
      if InRecords(t', uuid, m) && uuid != key.uuid {
        var k :| k in t'.records && k.uuid == uuid && Bears(t'.records[k].marks, m);
        assert k in t.records;
      }
    }
  }
}
