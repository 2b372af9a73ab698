/** The delete of a VM with its disks: split_disk_paths_by_use of
    vrtManager/instance.py, _removed and DeleteInstance of instances/jobs.py. */
module DeleteVms {
  import opened Wrappers
  import opened Records
  import opened Faults
  import opened Sets
  import opened BackingChains
  import opened DeletePasses

  // -- which files go, and in which order ---------------------------------------------

  /** The place of a file in a list whose chains get shorter; equal ones stay in order. */
  function Inserted(m: Backing, p: Path, sorted: seq<Path>): seq<Path> {
    if sorted == [] || |Chain(m, p)| >= |Chain(m, sorted[0])| then [p] + sorted
    else [sorted[0]] + Inserted(m, p, sorted[1..])
  }

  /** The paths, those that need the most files first. */
  function SortedByBelow(m: Backing, paths: seq<Path>): seq<Path> {
    if paths == [] then [] else Inserted(m, paths[0], SortedByBelow(m, paths[1..]))
  }

  predicate Descending(m: Backing, s: seq<Path>) {
    s != [] ==> (forall p | p in s[1..] :: |Chain(m, s[0])| >= |Chain(m, p)|) && Descending(m, s[1..])
  }

  lemma {:induction false} DescendingAt(m: Backing, s: seq<Path>, i: nat, j: nat)
    requires Descending(m, s) && i < j < |s|
    ensures |Chain(m, s[i])| >= |Chain(m, s[j])|
  {
    if i == 0 {
      assert s[j] == s[1..][j - 1];
    } else {
      DescendingAt(m, s[1..], i - 1, j - 1);
    }
  }

  lemma {:induction false} InsertedIs(m: Backing, p: Path, s: seq<Path>)
    requires Descending(m, s)
    ensures var r := Inserted(m, p, s);
            Descending(m, r) && multiset(r) == multiset(s) + multiset{p}
  {
    var r := Inserted(m, p, s);
    if s == [] {
    } else if |Chain(m, p)| >= |Chain(m, s[0])| {
      assert r[1..] == s == [s[0]] + s[1..];
    } else {
      InsertedIs(m, p, s[1..]);
      assert s == [s[0]] + s[1..];
      assert r[1..] == Inserted(m, p, s[1..]);
      forall q | q in r[1..] ensures |Chain(m, s[0])| >= |Chain(m, q)| {
        assert q in multiset(r[1..]);
      }
    }
  }

  lemma {:induction false} SortedIs(m: Backing, paths: seq<Path>)
    ensures var r := SortedByBelow(m, paths);
            Descending(m, r) && multiset(r) == multiset(paths)
  {
    if paths != [] {
      var rest := SortedByBelow(m, paths[1..]);
      SortedIs(m, paths[1..]);
      InsertedIs(m, paths[0], rest);
      FirstAndRest(paths);
    }
  }

  lemma FirstAndRest(s: seq<Path>)
    requires s != []
    ensures multiset(s) == multiset(s[1..]) + multiset{s[0]}
  {
    assert s == [s[0]] + s[1..];
  }

  /** Sorted by how many files each needs, an overlay precedes the files it
      needs, unless a chain is a cycle. */
  lemma SortedIsOrdered(m: Backing, paths: seq<Path>)
    requires forall p | p in paths :: p !in Chain(m, p)
    ensures Ordered(m, SortedByBelow(m, paths))
  {
    var r := SortedByBelow(m, paths);
    SortedIs(m, paths);
    forall i, j | 0 <= i < |r| && 0 <= j < |r| && r[j] in Chain(m, r[i]) ensures i < j {
      assert r[j] in multiset(r);
      NeededNeedsFewer(m, r[i], r[j]);
      if j < i { DescendingAt(m, r, j, i); }
    }
  }

  /** split_disk_paths_by_use, from the VM's own files and the paths in use
      elsewhere; paths_in_use holds the backing file of every other volume. */
  method Split(m: Backing, own: seq<Path>, used0: set<Path>) returns (toDelete: seq<Path>, shared: seq<Path>)
    requires forall v | v in m && v !in own :: m[v] in used0
    ensures forall p :: p in own <==> p in toDelete || p in shared
    ensures forall p | p in shared :: p !in toDelete
    // a file is shared for a reason, and a used one always is
    ensures forall p | p in shared :: p in used0 || exists q | q in own && q in used0 :: p in Chain(m, q)
    ensures forall p | p in own && p in used0 :: p in shared
    // what stays needs no file that goes
    ensures Apart(m, toDelete)
    ensures (forall p | p in own :: p !in Chain(m, p)) ==> Ordered(m, toDelete)
  {
    var used := CloseUsed(m, own, used0);
    var mine := Unused(own, used, false);
    shared := Unused(own, used, true);
    toDelete := SortedByBelow(m, mine);
    SortedIs(m, mine);
    assert forall p :: p in toDelete <==> p in mine by {
      forall p ensures p in toDelete <==> p in mine { assert p in toDelete <==> p in multiset(mine); }
    }
    if forall p | p in own :: p !in Chain(m, p) {
      SortedIsOrdered(m, mine);
    }
  }

  /** own, filtered by use. */
  function Unused(own: seq<Path>, used: set<Path>, keep: bool): (r: seq<Path>)
    ensures forall p :: p in r <==> p in own && (p in used) == keep
  {
    if own == [] then []
    else (if (own[0] in used) == keep then [own[0]] else []) + Unused(own[1..], used, keep)
  }

  /** The walk down a chain, as far as the first file seen before. */
  method Walk(m: Backing, path: Path, seen: set<Path>) returns (r: set<Path>)
    ensures r == Walked(m, path, seen)
  {
    r := seen;
    var at := path;
    while at in m && m[at] !in r
      invariant Walked(m, at, r) == Walked(m, path, seen)
      decreases |m.Values - r|
    {
      assert m[at] in m.Values - r;
      ProperSubsetIsSmaller(m.Values - (r + {m[at]}), m.Values - r);
      at, r := m[at], r + {m[at]};
    }
  }

  /** The paths in use, and the files below the VM's own among them. */
  method CloseUsed(m: Backing, own: seq<Path>, used0: set<Path>) returns (used: set<Path>)
    requires forall v | v in m && v !in own :: m[v] in used0
    ensures used0 <= used && Closed(m, used)
    ensures forall p | p in used && p !in used0 :: exists q | q in own && q in used0 :: p in Chain(m, q)
  {
    used := used0;
    for i := 0 to |own|
      invariant used0 <= used
      invariant forall p | p in used - SetOf(own[i..]) * used0 && p in m :: m[p] in used
      invariant forall p | p in used && p !in used0 :: exists q | q in own && q in used0 :: p in Chain(m, q)
    {
      assert own[i..] == [own[i]] + own[i + 1..];
      if own[i] in used0 {
        ghost var before := used;
        WalkCloses(m, own[i], used, SetOf(own[i + 1..]) * used0);
        used := Walk(m, own[i], used);
        ChainClosed(m, own[i]);
        assert own[i] in own;
        WalkIsLeast(m, own[i], before, Chain(m, own[i]));
      }
    }
  }

  /** The whole of run up to the undefine: what the split lists makes a delete
      job whose chains stay whole, unless a chain is a cycle. */
  method Plan(needs: Backing, pooled: set<Path>, own: seq<Path>, used0: set<Path>, files: set<Path>)
    returns (job: DeleteJob, shared: seq<Path>)
    requires needs.Keys <= files
    requires forall v | v in Visible(needs, pooled) && v !in own :: needs[v] in used0
    requires forall p | p in own :: p !in Chain(Visible(needs, pooled), p)
    ensures fresh(job) && job.Valid() && job.files == files && job.state == Running && !job.intent && job.defined
    ensures job.disk.needs == needs && job.disk.pooled == pooled
    ensures forall p :: p in own <==> p in job.disk.listed || p in shared
    ensures forall p | p in own && p in used0 :: p in shared && p !in job.disk.listed
  {
    var toDelete;
    toDelete, shared := Split(Visible(needs, pooled), own, used0);
    job := new DeleteJob(Disk(needs, pooled, toDelete), files);
  }

  // -- the job ---------------------------------------------------------------------

  class DeleteJob {
    const disk: Disk
    ghost const files0: set<Path>

    var state: State
    var intent: bool            // to_delete is recorded
    var defined: bool           // the domain
    var recorded: bool          // the VM's row
    var files: set<Path>

    /** No file that remains lost one it needs, and files go only once the
        domain is undefined, and the row before them. */
    ghost predicate Valid()
      reads this
    {
      && Listable(disk, files0)
      && files0 - SetOf(disk.listed) * disk.pooled <= files <= files0
      && Whole(disk.Below(), files0, files)
      && (defined || !intent ==> files == files0 && recorded)
      && (files != files0 ==> !recorded)
      && state in {Running, Cancelling, Failed, Succeeded}
      && (state == Failed ==> files == files0 && recorded)
      && (state == Succeeded ==> !defined && !recorded)
    }

    constructor (disk: Disk, files: set<Path>)
      requires Listable(disk, files)
      ensures Valid() && state == Running && !intent && defined && this.disk == disk && this.files == files
              && files0 == files
    {
      this.disk, this.files, files0 := disk, files, files;
      state, intent, defined, recorded := Running, false, true, true;
    }

    /** _removed, given what each call does. */
    method Removed(tries: seq<Attempt>, recovering: bool) returns (stop: Stop)
      requires Valid() && Active(state) && !defined && intent && |tries| == |disk.listed|
      modifies this`files, this`recorded
      ensures Valid()
      ensures (files, stop) == Pass(disk, 0, old(files), {}, tries, recovering)
      ensures exists made :: Accounted(disk, old(files), tries, recovering, made, files, stop)
      ensures stop == Through ==> LeftForReason(disk, old(files), tries, recovering, files)
      ensures !recorded
    {
      recorded := false;
      AnyPassKeepsChains(disk, files0, files, tries, recovering);
      PassExplained(disk, files, tries, recovering);
      stop := RemoveEach(tries, recovering);
    }

    /** The loop over the listed files. */
    method RemoveEach(tries: seq<Attempt>, recovering: bool) returns (stop: Stop)
      requires |tries| == |disk.listed|
      modifies this`files
      ensures (files, stop) == Pass(disk, 0, old(files), {}, tries, recovering)
    {
      var kept := {};
      for n := 0 to |disk.listed|
        invariant Pass(disk, n, files, kept, tries, recovering) == Pass(disk, 0, old(files), {}, tries, recovering)
      {
        var path, call := disk.listed[n], tries[n].call;
        if path in kept {
          continue;
        }
        var there := path in files && path in disk.pooled;
        files := Tried(disk, path, files, call);
        if Fails(call) && tries[n].lost {
          return Retry;
        }
        if Dies(call) {
          return Dead;
        }
        if there && call.Works? {
          continue;
        }
        if !there && recovering {
          continue;
        }
        kept := KeepBelow(path, kept, tries[n].until);
      }
      stop := Through;
    }

    /** The walk down the chain of a file that stays. */
    method KeepBelow(path: Path, kept: set<Path>, until: Option<nat>) returns (r: set<Path>)
      ensures r == Keeping(Within(disk.Below(), files), path, kept, until, disk.listed)
    {
      var m := Within(disk.Below(), files);
      var at, left := path, until;
      r := kept;
      while left != Some(0) && at in m && m[at] !in r
        invariant Keeping(m, at, r, left, disk.listed) == Keeping(m, path, kept, until, disk.listed)
        decreases |m.Values - r|
      {
        assert m[at] in m.Values - r;
        ProperSubsetIsSmaller(m.Values - (r + {m[at]}), m.Values - r);
        at, r, left := m[at], r + {m[at]}, if left.Some? then Some(left.value - 1) else None;
      }
      if left == Some(0) {
        r := r + SetOf(disk.listed);
      }
    }

    /** run: the intent, the undefine, then _removed; record and undefine tell
        what those two steps do: any may fail or be the last, before or after its effect. */
    method Run(record: Fate, undefine: Fate, tries: seq<Attempt>) returns (done: bool)
      requires Valid() && Active(state) && !intent && defined && |tries| == |disk.listed|
      modifies this
      ensures Valid() && state == old(state)
      ensures done ==> !defined && !recorded
      ensures intent == Effective(record) && defined == !(record.Works? && Effective(undefine))
      ensures record.Works? && undefine.Works? ==>
                !defined && !recorded && intent
                && files == Pass(disk, 0, old(files), {}, tries, false).0
                && (done <==> Pass(disk, 0, old(files), {}, tries, false).1 == Through)
      ensures record.Works? && undefine.Works? ==>
                exists made, stop :: && Accounted(disk, old(files), tries, false, made, files, stop)
                                     && (done <==> stop == Through)
      // where nothing fails, every listed file in a pool goes
      ensures record.Works? && undefine.Works?
              && (forall k | 0 <= k < |tries| :: tries[k] == Attempt(Works, false, None)) ==>
                done && files == old(files) - SetOf(disk.listed) * disk.pooled
      ensures done ==> LeftForReason(disk, old(files), tries, false, files)
      ensures !record.Works? || !undefine.Works? ==> !done && files == old(files)
    {
      intent := Effective(record);
      if !record.Works? {
        return false;
      }
      defined := !Effective(undefine);
      if !undefine.Works? {
        return false;
      }
      if forall k | 0 <= k < |tries| :: tries[k] == Attempt(Works, false, None) {
        CleanPassDeletesAll(disk, 0, files, tries, false);
        assert disk.listed[0..] == disk.listed;
      }
      var stop := Removed(tries, false);
      done := stop == Through;
    }

    /** reconcile: a domain still defined kept everything; else _removed again. */
    method Reconcile(reached: bool, tries: seq<Attempt>) returns (end: Option<State>)
      requires Valid() && Active(state) && intent && |tries| == |disk.listed|
      modifies this`files, this`recorded
      ensures Valid() && (defined ==> files == old(files))
      ensures end == Some(Failed) ==> files == files0 && recorded
      ensures end == Some(Succeeded) ==> !defined && !recorded
      ensures end == if !reached then None else if defined then Some(Failed)
                     else if Pass(disk, 0, old(files), {}, tries, true).1 == Through then Some(Succeeded) else None
      // with the domain gone, the job ends once a pass came through, and not before
      ensures reached && !defined ==>
                exists made, stop :: && Accounted(disk, old(files), tries, true, made, files, stop)
                                     && (end == Some(Succeeded) <==> stop == Through)
      ensures end == Some(Succeeded) ==> LeftForReason(disk, old(files), tries, true, files)
      ensures files == if reached && !defined then Pass(disk, 0, old(files), {}, tries, true).0 else old(files)
    {
      if !reached {
        return None;
      }
      if defined {
        return Some(Failed);
      }
      var stop := Removed(tries, true);
      end := if stop == Through then Some(Succeeded) else None;
    }

    /** The job and any number of recoveries, each stopped anywhere; ends: where
        the job's end is committed; reached: where the recovery reads the domain. */
    method Live(record: Fate, undefine: Fate, passes: seq<seq<Attempt>>, ends: seq<bool>, reached: seq<bool>)
      requires Valid() && Active(state) && !intent && defined
      requires |passes| > 0 && forall n | 0 <= n < |passes| :: |passes[n]| == |disk.listed|
      requires |ends| == |reached| == |passes|
      modifies this
      ensures Valid()
      ensures Whole(disk.Below(), files0, files)
      ensures state == Failed ==> files == files0 && recorded
      ensures state == Succeeded ==> !defined && !recorded
      // where nothing fails, it succeeds and every listed file in a pool is gone
      ensures record.Works? && undefine.Works? && ends[0]
              && (forall k | 0 <= k < |passes[0]| :: passes[0][k] == Attempt(Works, false, None)) ==>
                state == Succeeded && files == old(files) - SetOf(disk.listed) * disk.pooled
      // a recovery that reads the domain and commits its end ends a job that undefined nothing
      ensures !Effective(record) && |passes| > 1 && ends[|passes| - 1] ==> state == Failed
      ensures Effective(record) && !Effective(undefine)
              && |passes| > 1 && ends[|passes| - 1] && reached[|passes| - 1] ==>
                state == Failed
    {
      var done := Run(record, undefine, passes[0]);
      if done && ends[0] {
        state := Succeeded;
      }
      for n := 1 to |passes|
        invariant Valid()
        invariant record.Works? && undefine.Works? && ends[0]
                  && (forall k | 0 <= k < |passes[0]| :: passes[0][k] == Attempt(Works, false, None)) ==>
                    state == Succeeded && files == old(files) - SetOf(disk.listed) * disk.pooled
        invariant intent == Effective(record) && defined == !(record.Works? && Effective(undefine))
        invariant defined && !Active(state) ==> state == Failed
        invariant !Effective(record) && n > 1 && ends[n - 1] ==> state == Failed
        invariant Effective(record) && !Effective(undefine) && n > 1 && ends[n - 1] && reached[n - 1] ==>
                    state == Failed
      {
        if Active(state) && !intent && ends[n] {
          state := Failed;
        } else if Active(state) && intent {
          var end := Reconcile(reached[n], passes[n]);
          if end.Some? && ends[n] {
            state := end.value;
          }
        }
      }
    }
  }
}
