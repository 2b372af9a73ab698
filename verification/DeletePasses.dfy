/** The deletion of a removed VM's disk files, _removed of instances/jobs.py,
    as a function of what each call does, and what a pass leaves. */
module DeletePasses {
  import opened Wrappers
  import opened Faults
  import opened Sets
  import opened BackingChains

  /** The deletion of one file: how the call ends, whether an error is a lost
      connection, and how many reads of the backing chain work before one fails. */
  datatype Attempt = Attempt(call: Fate, lost: bool, until: Option<nat>)

  datatype Stop = Through | Retry | Dead

  /** The backing files libvirt can tell: those of files in a pool. */
  function Visible(needs: Backing, pooled: set<Path>): Backing {
    map p | p in needs && p in pooled :: needs[p]
  }

  function Within(m: Backing, files: set<Path>): Backing {
    map p | p in m && p in files :: m[p]
  }

  function SetOf(s: seq<Path>): set<Path> { set p | p in s }

  /** The files kept for one that stays; all of them when its chain cannot be read. */
  function Keeping(m: Backing, path: Path, kept: set<Path>, until: Option<nat>, listed: seq<Path>): (r: set<Path>)
    ensures kept <= r
    decreases |m.Values - kept|
  {
    if until == Some(0) then kept + SetOf(listed)
    else if path !in m || m[path] in kept then kept
    else
      assert m[path] in m.Values - kept;
      ProperSubsetIsSmaller(m.Values - (kept + {m[path]}), m.Values - kept);
      Keeping(m, m[path], kept + {m[path]}, Fewer(until), listed)
  }

  lemma {:induction false} KeepingIsWalkOrAll(m: Backing, path: Path, kept: set<Path>, until: Option<nat>,
                                              listed: seq<Path>)
    ensures var k := Keeping(m, path, kept, until, listed);
            (k == Walked(m, path, kept)) || (until.Some? && SetOf(listed) <= k)
    decreases |m.Values - kept|
  {
    if until == Some(0) {
      assert Keeping(m, path, kept, until, listed) == kept + SetOf(listed);
    } else if path in m && m[path] !in kept {
      KeepingStep(m, path, kept, until, listed);
      KeepingIsWalkOrAll(m, m[path], kept + {m[path]}, Fewer(until), listed);
    }
  }

  function Fewer(until: Option<nat>): Option<nat>
    requires until != Some(0)
  {
    if until.Some? then Some(until.value - 1) else None
  }

  lemma KeepingStep(m: Backing, path: Path, kept: set<Path>, until: Option<nat>, listed: seq<Path>)
    requires until != Some(0) && path in m && m[path] !in kept
    ensures Keeping(m, path, kept, until, listed) == Keeping(m, m[path], kept + {m[path]}, Fewer(until), listed)
    ensures Walked(m, path, kept) == Walked(m, m[path], kept + {m[path]})
    ensures |m.Values - (kept + {m[path]})| < |m.Values - kept|
  {
    assert m[path] in m.Values - kept;
    ProperSubsetIsSmaller(m.Values - (kept + {m[path]}), m.Values - kept);
  }

  /** A VM's disk: every file's backing file, the files in pools, and the files
      to delete, in order. */
  datatype Disk = Disk(needs: Backing, pooled: set<Path>, listed: seq<Path>) {
    function Below(): Backing { Visible(needs, pooled) }
  }

  /** The files after one deletion. */
  function Tried(d: Disk, p: Path, files: set<Path>, call: Fate): set<Path> {
    if p in d.pooled && Effective(call) then files - {p} else files
  }

  /** _removed from the n-th listed file on. */
  function Pass(d: Disk, n: nat, files: set<Path>, kept: set<Path>, tries: seq<Attempt>,
                recovering: bool): (set<Path>, Stop)
    requires n <= |d.listed| == |tries|
    decreases |d.listed| - n
  {
    if n == |d.listed| then (files, Through)
    else
      var p, call := d.listed[n], tries[n].call;
      if p in kept then Pass(d, n + 1, files, kept, tries, recovering)
      else
        var left := Tried(d, p, files, call);
        var there := p in files && p in d.pooled;
        if Fails(call) && tries[n].lost then (left, Retry)
        else if Dies(call) then (left, Dead)
        else if (if there then call.Works? else recovering) then Pass(d, n + 1, left, kept, tries, recovering)
        else Pass(d, n + 1, left, Keeping(Within(d.Below(), left), p, kept, tries[n].until, d.listed),
                  tries, recovering)
  }

  // -- what a pass keeps --------------------------------------------------------------

  /** No file that remains lost a file of its chain. */
  ghost predicate Whole(m: Backing, files0: set<Path>, files: set<Path>) {
    forall f, g | f in files && g in Chain(m, f) && g in files0 :: g in files
  }

  /** Each listed file comes before those it needs. */
  ghost predicate Ordered(m: Backing, listed: seq<Path>) {
    forall i, j | 0 <= i < |listed| && 0 <= j < |listed| && listed[j] in Chain(m, listed[i]) :: i < j
  }

  /** Nothing outside the list grows from a listed file. */
  predicate Apart(m: Backing, listed: seq<Path>) {
    forall p | p in m && p !in listed :: m[p] !in listed
  }

  /** kept covers the files below the k-th listed file, if that remains. */
  predicate Spared(d: Disk, k: nat, files: set<Path>, kept: set<Path>)
    requires k < |d.listed|
  {
    d.listed[k] in files ==> forall g | g in Chain(d.Below(), d.listed[k]) && g in d.listed :: g in kept
  }

  ghost predicate PassInv(d: Disk, n: nat, files0: set<Path>, files: set<Path>, kept: set<Path>)
    requires n <= |d.listed|
  {
    && files0 - SetOf(d.listed) * d.pooled <= files <= files0
    && Whole(d.Below(), files0, files)
    && (SetOf(d.listed) <= kept || Closed(d.Below(), kept))
    && (forall k | 0 <= k < n :: Spared(d, k, files, kept))
  }

  /** What the disk must be for the list: it is ordered, and apart from the rest. */
  ghost predicate Listable(d: Disk, files0: set<Path>) {
    && d.needs.Keys <= files0 && Ordered(d.Below(), d.listed) && Apart(d.Below(), d.listed)
  }

  lemma SparedBy(d: Disk, k: nat, files: set<Path>, kept: set<Path>)
    requires k < |d.listed|
    requires SetOf(d.listed) <= kept || Closed(d.Below(), kept)
    requires d.listed[k] in kept || (d.listed[k] in d.Below() ==> d.Below()[d.listed[k]] in kept)
    ensures Spared(d, k, files, kept)
  {
    if Closed(d.Below(), kept) {
      WalkIsLeast(d.Below(), d.listed[k], {}, kept);
    }
    forall g | g in Chain(d.Below(), d.listed[k]) && g in d.listed ensures g in kept {
      assert g in SetOf(d.listed);
    }
  }

  /** What nothing kept needs, no file that remains needs. */
  lemma Unneeded(d: Disk, n: nat, files0: set<Path>, files: set<Path>, kept: set<Path>, f: Path)
    requires n < |d.listed| && Listable(d, files0) && PassInv(d, n, files0, files, kept)
    requires d.listed[n] !in kept && f in files && f != d.listed[n]
    ensures d.listed[n] !in Chain(d.Below(), f)
  {
    if f !in d.listed {
      ApartChain(d.Below(), d.listed, f);
    } else {
      var i :| 0 <= i < |d.listed| && d.listed[i] == f;
      if i < n {
        assert Spared(d, i, files, kept);
      }
    }
  }

  /** So it may go. */
  lemma DeletionKeepsWhole(d: Disk, n: nat, files0: set<Path>, files: set<Path>, kept: set<Path>)
    requires n < |d.listed| && Listable(d, files0) && PassInv(d, n, files0, files, kept)
    requires d.listed[n] !in kept
    ensures Whole(d.Below(), files0, files - {d.listed[n]})
  {
    var p := d.listed[n];
    forall f, g | f in files - {p} && g in Chain(d.Below(), f) && g in files0 ensures g in files - {p} {
      Unneeded(d, n, files0, files, kept, f);
    }
  }

  /** A file that stays keeps its chain, which is still there to be read. */
  lemma KeepingKeepsInv(d: Disk, n: nat, files0: set<Path>, files: set<Path>, kept: set<Path>, until: Option<nat>)
    requires n < |d.listed| && Listable(d, files0) && PassInv(d, n, files0, files, kept)
    ensures PassInv(d, n + 1, files0, files, Keeping(Within(d.Below(), files), d.listed[n], kept, until, d.listed))
  {
    var m, p := d.Below(), d.listed[n];
    var now := Within(m, files);
    var more := Keeping(now, p, kept, until, d.listed);
    KeepingIsWalkOrAll(now, p, kept, until, d.listed);
    if p in files && !(SetOf(d.listed) <= more) {
      ChainClosed(m, p);
      var s := Chain(m, p) + {p};
      assert Closed(m, s);
      forall q | q in s && q in m ensures q in now {
        assert q in files0;
        assert q in files;
      }
      WalkAgrees(m, now, p, kept, s);
      WalkCloses(m, p, kept, {});
      SparedBy(d, n, files, more);
    } else if p !in files && !(SetOf(d.listed) <= more) {
      assert more == kept;
    } else {
      SparedBy(d, n, files, more);
    }
    forall k | 0 <= k < n ensures Spared(d, k, files, more) { assert Spared(d, k, files, kept); }
  }

  /** A pass, wherever it stops, leaves no file without its chain. */
  lemma {:induction false} PassKeepsChains(d: Disk, n: nat, files0: set<Path>, files: set<Path>, kept: set<Path>,
                                           tries: seq<Attempt>, recovering: bool)
    requires n <= |d.listed| == |tries| && Listable(d, files0) && PassInv(d, n, files0, files, kept)
    ensures var left := Pass(d, n, files, kept, tries, recovering).0;
            Whole(d.Below(), files0, left) && files0 - SetOf(d.listed) * d.pooled <= left <= files
    decreases |d.listed| - n
  {
    if n < |d.listed| {
      var p, call := d.listed[n], tries[n].call;
      if p in kept {
        SparedBy(d, n, files, kept);
        PassKeepsChains(d, n + 1, files0, files, kept, tries, recovering);
      } else {
        var left := Tried(d, p, files, call);
        DeletionKeepsWhole(d, n, files0, files, kept);
        forall k | 0 <= k < n ensures Spared(d, k, left, kept) { assert Spared(d, k, files, kept); }
        assert PassInv(d, n, files0, left, kept);
        var there := p in files && p in d.pooled;
        if !(Fails(call) && tries[n].lost) && !Dies(call) {
          if if there then call.Works? else recovering {
            assert p !in left || p !in d.Below();
            assert Spared(d, n, left, kept) by {
              if p in left { assert Chain(d.Below(), p) == {}; }
            }
            PassKeepsChains(d, n + 1, files0, left, kept, tries, recovering);
          } else {
            KeepingKeepsInv(d, n, files0, left, kept, tries[n].until);
            PassKeepsChains(d, n + 1, files0, left, Keeping(Within(d.Below(), left), p, kept, tries[n].until, d.listed),
                            tries, recovering);
          }
        }
      }
    }
  }

  /** A pass that starts afresh, over what earlier ones left. */
  lemma AnyPassKeepsChains(d: Disk, files0: set<Path>, files: set<Path>, tries: seq<Attempt>, recovering: bool)
    requires |tries| == |d.listed| && Listable(d, files0)
    requires files0 - SetOf(d.listed) * d.pooled <= files <= files0 && Whole(d.Below(), files0, files)
    ensures var left := Pass(d, 0, files, {}, tries, recovering).0;
            Whole(d.Below(), files0, left) && files0 - SetOf(d.listed) * d.pooled <= left <= files
  {
    PassKeepsChains(d, 0, files0, files, {}, tries, recovering);
  }

  /** A pass that meets no error deletes every listed file libvirt can find. */
  lemma {:induction false} CleanPassDeletesAll(d: Disk, n: nat, files: set<Path>, tries: seq<Attempt>, recovering: bool)
    requires n <= |d.listed| == |tries| && forall k | 0 <= k < |tries| :: tries[k] == Attempt(Works, false, None)
    ensures Pass(d, n, files, {}, tries, recovering) == (files - SetOf(d.listed[n..]) * d.pooled, Through)
    decreases |d.listed| - n
  {
    if n == |d.listed| {
      assert files - SetOf(d.listed[n..]) * d.pooled == files;
    } else {
      var p := d.listed[n];
      assert d.listed[n..] == [p] + d.listed[n + 1..];
      var left := Tried(d, p, files, Works);
      CleanPassDeletesAll(d, n + 1, left, tries, recovering);
      assert left - SetOf(d.listed[n + 1..]) * d.pooled == files - SetOf(d.listed[n..]) * d.pooled;
    }
  }

  // -- where a pass stops, and what it leaves --------------------------------------------

  /** The attempt ends the pass: its process dies, or the connection is lost. */
  predicate Lost(t: Attempt) { (t.call.FailsBefore? || t.call.FailsAfter?) && t.lost }

  predicate Dying(t: Attempt) { t.call.DiesBefore? || t.call.DiesAfter? }

  /** The files whose deletion took effect, of the attempts made. */
  function Deleted(d: Disk, tries: seq<Attempt>, made: set<nat>): set<Path>
    requires |tries| == |d.listed|
  {
    set k | k in made && k < |tries| && d.listed[k] in d.pooled
            && (tries[k].call.Works? || tries[k].call.FailsAfter? || tries[k].call.DiesAfter?) :: d.listed[k]
  }

  /** p is kept for the i-th listed file, which could not be deleted: it is
      below that one, or nobody could tell what is. */
  predicate KeptFor(d: Disk, p: Path, i: nat, files0: set<Path>, tries: seq<Attempt>, recovering: bool)
    requires i < |d.listed| == |tries|
  {
    && (|| tries[i].call.FailsBefore? || tries[i].call.FailsAfter?
        || (!recovering && (d.listed[i] !in files0 || d.listed[i] !in d.pooled || d.listed[i] in d.listed[..i])))
    && (p in Chain(d.Below(), d.listed[i]) || tries[i].until.Some?)
  }

  /** Why no attempt was made at a path: an attempt before, at a file it is kept for. */
  ghost predicate Spares(d: Disk, p: Path, k: nat, files0: set<Path>, tries: seq<Attempt>, recovering: bool,
                         made: set<nat>)
    requires |d.listed| == |tries|
  {
    exists i :: i in made && i < k && i < |tries| && KeptFor(d, p, i, files0, tries, recovering)
  }

  /** What a pass over files0 comes to, by the attempts it made. */
  ghost predicate Accounted(d: Disk, files0: set<Path>, tries: seq<Attempt>, recovering: bool, made: set<nat>,
                            left: set<Path>, stop: Stop)
    requires |d.listed| == |tries|
  {
    && (forall k | k in made :: k < |tries|)
    && left == files0 - Deleted(d, tries, made)
    // it stops at the attempt that dies or loses its connection, and only there
    && (stop == Dead <==> exists k | k in made :: Dying(tries[k]))
    && (stop == Retry <==> exists k | k in made :: Lost(tries[k]))
    && (forall j, k | j in made && k in made && (Dying(tries[j]) || Lost(tries[j])) :: k <= j)
    // until then every file is tried that is not kept for one that stayed
    && (forall k | 0 <= k < |tries| && k !in made
                   && (forall j | j in made && j < k :: !Dying(tries[j]) && !Lost(tries[j])) ::
          Spares(d, d.listed[k], k, files0, tries, recovering, made))
  }

  /** The same before the n-th file, of a pass that goes on with kept. */
  ghost predicate SoFar(d: Disk, n: nat, files0: set<Path>, files: set<Path>, kept: set<Path>, tries: seq<Attempt>,
                        recovering: bool, made: set<nat>)
    requires n <= |d.listed| == |tries|
  {
    && (forall k | k in made :: k < n && !Dying(tries[k]) && !Lost(tries[k]))
    && files == files0 - Deleted(d, tries, made)
    && (forall k | 0 <= k < n && k !in made :: Spares(d, d.listed[k], k, files0, tries, recovering, made))
    && (forall p | p in kept && p in d.listed :: Spares(d, p, n, files0, tries, recovering, made))
  }

  lemma SparesMore(d: Disk, p: Path, k: nat, l: nat, files0: set<Path>, tries: seq<Attempt>, recovering: bool,
                   made: set<nat>, more: set<nat>)
    requires |d.listed| == |tries| && made <= more && k <= l
    requires Spares(d, p, k, files0, tries, recovering, made)
    ensures Spares(d, p, l, files0, tries, recovering, more)
  {
    var i :| i in made && i < k && i < |tries| && KeptFor(d, p, i, files0, tries, recovering);
    assert i in more;
  }

  /** An attempt at the n-th file, which does not end the pass. */
  lemma AttemptAccounted(d: Disk, n: nat, files0: set<Path>, files: set<Path>, kept: set<Path>, tries: seq<Attempt>,
                         recovering: bool, made: set<nat>)
    requires n < |d.listed| == |tries| && SoFar(d, n, files0, files, kept, tries, recovering, made)
    requires !Dying(tries[n]) && !Lost(tries[n])
    ensures var left := Tried(d, d.listed[n], files, tries[n].call);
            && SoFar(d, n + 1, files0, left, kept, tries, recovering, made + {n})
            && ((if d.listed[n] in files && d.listed[n] in d.pooled then !tries[n].call.Works? else !recovering) ==>
                  var more := Keeping(Within(d.Below(), left), d.listed[n], kept, tries[n].until, d.listed);
                  SoFar(d, n + 1, files0, left, more, tries, recovering, made + {n}))
  {
    var p := d.listed[n];
    var left := Tried(d, p, files, tries[n].call);
    var after := made + {n};
    assert left == files0 - Deleted(d, tries, after);
    forall k | 0 <= k < n + 1 && k !in after ensures Spares(d, d.listed[k], k, files0, tries, recovering, after) {
      SparesMore(d, d.listed[k], k, k, files0, tries, recovering, made, after);
    }
    forall q | q in kept && q in d.listed ensures Spares(d, q, n + 1, files0, tries, recovering, after) {
      SparesMore(d, q, n, n + 1, files0, tries, recovering, made, after);
    }
    if if p in files && p in d.pooled then !tries[n].call.Works? else !recovering {
      var m := Within(d.Below(), left);
      var more := Keeping(m, p, kept, tries[n].until, d.listed);
      if p in d.pooled && p !in files && p in files0 {
        var i :| i in made && i < |tries| && d.listed[i] == p;
        assert p in d.listed[..n];
      }
      forall q | q in more && q in d.listed ensures Spares(d, q, n + 1, files0, tries, recovering, after) {
        if q !in kept {
          KeepingWithin(d, m, p, kept, tries[n].until);
          assert KeptFor(d, q, n, files0, tries, recovering);
        }
      }
    }
  }

  /** What is kept for a file that stays is below it, unless a read fails. */
  lemma KeepingWithin(d: Disk, m: Backing, p: Path, kept: set<Path>, until: Option<nat>)
    requires forall q | q in m :: q in d.Below() && m[q] == d.Below()[q]
    ensures until.None? ==> Keeping(m, p, kept, until, d.listed) <= kept + Chain(d.Below(), p)
  {
    ChainClosed(d.Below(), p);
    KeepingIsWalkOrAll(m, p, kept, until, d.listed);
    WalkIsLeast(m, p, kept, Chain(d.Below(), p));
  }

  /** Every pass is accounted for by the attempts it made. */
  lemma {:induction false} PassAccounted(d: Disk, n: nat, files0: set<Path>, files: set<Path>, kept: set<Path>,
                                         tries: seq<Attempt>, recovering: bool, made0: set<nat>)
    returns (made: set<nat>)
    requires n <= |d.listed| == |tries| && SoFar(d, n, files0, files, kept, tries, recovering, made0)
    ensures var (left, stop) := Pass(d, n, files, kept, tries, recovering);
            Accounted(d, files0, tries, recovering, made, left, stop)
    decreases |d.listed| - n
  {
    if n == |d.listed| {
      EndAccounted(d, files0, files, kept, tries, recovering, made0);
      return made0;
    }
    if d.listed[n] !in kept && (Dying(tries[n]) || Lost(tries[n])) {
      StopAccounted(d, n, files0, files, kept, tries, recovering, made0);
      return made0 + {n};
    }
    var left, more, made1 := OneAccounted(d, n, files0, files, kept, tries, recovering, made0);
    made := PassAccounted(d, n + 1, files0, left, more, tries, recovering, made1);
  }

  /** A listed file the pass comes past, tried or kept. */
  lemma OneAccounted(d: Disk, n: nat, files0: set<Path>, files: set<Path>, kept: set<Path>, tries: seq<Attempt>,
                     recovering: bool, made: set<nat>)
    returns (left: set<Path>, more: set<Path>, after: set<nat>)
    requires n < |d.listed| == |tries| && SoFar(d, n, files0, files, kept, tries, recovering, made)
    requires d.listed[n] in kept || (!Dying(tries[n]) && !Lost(tries[n]))
    ensures SoFar(d, n + 1, files0, left, more, tries, recovering, after)
    ensures Pass(d, n, files, kept, tries, recovering) == Pass(d, n + 1, left, more, tries, recovering)
  {
    var p := d.listed[n];
    if p in kept {
      SkipAccounted(d, n, files0, files, kept, tries, recovering, made);
      return files, kept, made;
    }
    AttemptAccounted(d, n, files0, files, kept, tries, recovering, made);
    left, after := Tried(d, p, files, tries[n].call), made + {n};
    more := if if p in files && p in d.pooled then tries[n].call.Works? else recovering then kept
            else Keeping(Within(d.Below(), left), p, kept, tries[n].until, d.listed);
  }

  /** The pass came through. */
  lemma EndAccounted(d: Disk, files0: set<Path>, files: set<Path>, kept: set<Path>, tries: seq<Attempt>,
                     recovering: bool, made: set<nat>)
    requires |d.listed| == |tries| && SoFar(d, |tries|, files0, files, kept, tries, recovering, made)
    ensures Accounted(d, files0, tries, recovering, made, files, Through)
  {
  }

  /** A file that is kept is not tried. */
  lemma SkipAccounted(d: Disk, n: nat, files0: set<Path>, files: set<Path>, kept: set<Path>, tries: seq<Attempt>,
                      recovering: bool, made: set<nat>)
    requires n < |d.listed| == |tries| && SoFar(d, n, files0, files, kept, tries, recovering, made)
    requires d.listed[n] in kept
    ensures SoFar(d, n + 1, files0, files, kept, tries, recovering, made)
  {
    forall p | p in kept && p in d.listed ensures Spares(d, p, n + 1, files0, tries, recovering, made) {
      SparesMore(d, p, n, n + 1, files0, tries, recovering, made, made);
    }
  }

  /** An attempt that ends the pass. */
  lemma StopAccounted(d: Disk, n: nat, files0: set<Path>, files: set<Path>, kept: set<Path>, tries: seq<Attempt>,
                      recovering: bool, made: set<nat>)
    requires n < |d.listed| == |tries| && SoFar(d, n, files0, files, kept, tries, recovering, made)
    requires Dying(tries[n]) || Lost(tries[n])
    ensures Accounted(d, files0, tries, recovering, made + {n}, Tried(d, d.listed[n], files, tries[n].call),
                      if Dying(tries[n]) then Dead else Retry)
    ensures d.listed[n] !in kept ==>
              Pass(d, n, files, kept, tries, recovering) ==
              (Tried(d, d.listed[n], files, tries[n].call), if Dying(tries[n]) then Dead else Retry)
  {
    var after := made + {n};
    assert n in after;
    assert Tried(d, d.listed[n], files, tries[n].call) == files0 - Deleted(d, tries, after);
    forall k | 0 <= k < n && k !in after ensures Spares(d, d.listed[k], k, files0, tries, recovering, after) {
      SparesMore(d, d.listed[k], k, k, files0, tries, recovering, made, after);
    }
  }

  /** No listed file in a pool is left but for a reason: its own deletion
      failed, without losing the connection, or it is kept for one that stayed. */
  ghost predicate LeftForReason(d: Disk, files0: set<Path>, tries: seq<Attempt>, recovering: bool, left: set<Path>)
    requires |d.listed| == |tries|
  {
    forall k | 0 <= k < |d.listed| && d.listed[k] in left && d.listed[k] in d.pooled ::
      || (tries[k].call.FailsBefore? && !tries[k].lost)
      || exists i :: 0 <= i < k && KeptFor(d, d.listed[k], i, files0, tries, recovering)
  }

  /** So it is after a pass that came through. */
  lemma ThroughLeaves(d: Disk, files0: set<Path>, tries: seq<Attempt>, recovering: bool, made: set<nat>,
                      left: set<Path>)
    requires |d.listed| == |tries| && Accounted(d, files0, tries, recovering, made, left, Through)
    ensures LeftForReason(d, files0, tries, recovering, left)
  {
    forall k | 0 <= k < |d.listed| && d.listed[k] in left && d.listed[k] in d.pooled
      ensures || (tries[k].call.FailsBefore? && !tries[k].lost)
              || exists i :: 0 <= i < k && KeptFor(d, d.listed[k], i, files0, tries, recovering)
    {
      ThroughLeavesOne(d, files0, tries, recovering, made, left, k);
    }
  }

  lemma ThroughLeavesOne(d: Disk, files0: set<Path>, tries: seq<Attempt>, recovering: bool, made: set<nat>,
                         left: set<Path>, k: nat)
    requires k < |d.listed| == |tries| && Accounted(d, files0, tries, recovering, made, left, Through)
    requires d.listed[k] in left && d.listed[k] in d.pooled
    ensures || (tries[k].call.FailsBefore? && !tries[k].lost)
            || exists i :: 0 <= i < k && KeptFor(d, d.listed[k], i, files0, tries, recovering)
  {
    if k in made {
      assert !Dying(tries[k]) && !Lost(tries[k]);
      assert d.listed[k] !in Deleted(d, tries, made);
    } else {
      forall j | j in made ensures !Dying(tries[j]) && !Lost(tries[j]) {
      }
      assert Spares(d, d.listed[k], k, files0, tries, recovering, made);
    }
  }

  /** A whole pass. */
  lemma PassExplained(d: Disk, files: set<Path>, tries: seq<Attempt>, recovering: bool)
    requires |d.listed| == |tries|
    ensures var (left, stop) := Pass(d, 0, files, {}, tries, recovering);
            && (exists made :: Accounted(d, files, tries, recovering, made, left, stop))
            && (stop == Through ==> LeftForReason(d, files, tries, recovering, left))
  {
    var made := PassAccounted(d, 0, files, files, {}, tries, recovering, {});
    var (left, stop) := Pass(d, 0, files, {}, tries, recovering);
    if stop == Through {
      ThroughLeaves(d, files, tries, recovering, made, left);
    }
  }

  // -- the chains that libvirt does not see -----------------------------------------------

  /** Every file's way down to a listed file is seen. */
  ghost predicate ChainsSeen(d: Disk, files0: set<Path>) {
    forall f, g | f in files0 && f != g && g in Chain(d.needs, f) && g in files0 && g in d.listed && g in d.pooled ::
      g in Chain(d.Below(), f)
  }

  /** The attempts in which one file cannot be deleted, and all others can. */
  function Sparing(d: Disk, f: Path): seq<Attempt> {
    seq(|d.listed|, i requires 0 <= i < |d.listed| => Attempt(if d.listed[i] == f then FailsBefore else Works, false,
                                                              None))
  }

  /** Spared, a file keeps only what is seen of its chain. */
  lemma {:induction false} HiddenFileGoes(d: Disk, n: nat, f: Path, g: Path, files: set<Path>, kept: set<Path>)
    requires n <= |d.listed| && f in files && f != g && g in d.pooled && (g in files ==> g in d.listed[n..])
    requires kept <= Chain(d.Below(), f) && g !in Chain(d.Below(), f)
    ensures var left := Pass(d, n, files, kept, Sparing(d, f), false).0; f in left && g !in left
    decreases |d.listed| - n
  {
    if n < |d.listed| {
      var p, m := d.listed[n], d.Below();
      assert d.listed[n..] == [p] + d.listed[n + 1..];
      if p in kept {
        HiddenFileGoes(d, n + 1, f, g, files, kept);
      } else if p == f {
        var now := Within(m, files);
        ChainClosed(m, f);
        KeepingIsWalkOrAll(now, f, kept, None, d.listed);
        WalkIsLeast(now, f, kept, Chain(m, f));
        HiddenFileGoes(d, n + 1, f, g, files, Keeping(now, f, kept, None, d.listed));
      } else {
        HiddenFileGoes(d, n + 1, f, g, Tried(d, p, files, Works), kept);
      }
    }
  }

  /** Whatever fails, a pass leaves the real chains whole, exactly when their
      ways to listed files run through pools. */
  lemma ChainsWholeIff(d: Disk, files0: set<Path>)
    requires Listable(d, files0)
    ensures ChainsSeen(d, files0) <==>
            forall tries: seq<Attempt> | |tries| == |d.listed| ::
                  Whole(d.needs, files0, Pass(d, 0, files0, {}, tries, false).0)
  {
    if ChainsSeen(d, files0) {
      forall tries: seq<Attempt> | |tries| == |d.listed|
        ensures Whole(d.needs, files0, Pass(d, 0, files0, {}, tries, false).0)
      {
        AnyPassKeepsChains(d, files0, files0, tries, false);
      }
    } else {
      var f, g :| f in files0 && f != g && g in Chain(d.needs, f) && g in files0 && g in d.listed && g in d.pooled
                  && g !in Chain(d.Below(), f);
      HiddenFileGoes(d, 0, f, g, files0, {});
      assert !Whole(d.needs, files0, Pass(d, 0, files0, {}, Sparing(d, f), false).0);
    }
  }
}
