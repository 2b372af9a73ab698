/** Backing chains: a file and the files it grows from, as backing_path of
    vrtManager/connection.py reads them. */
module BackingChains {
  import opened Sets

  type Path = string

  /** Each file that has a backing file, and which. */
  type Backing = map<Path, Path>

  /** The walk down a chain, as far as the first file seen before: it ends on a
      cyclic chain too. */
  function Walked(m: Backing, path: Path, seen: set<Path>): set<Path>
    decreases |m.Values - seen|
  {
    if path !in m || m[path] in seen then seen
    else
      assert m.Values - seen > m.Values - (seen + {m[path]}) by { assert m[path] in m.Values - seen; }
      ProperSubsetIsSmaller(m.Values - (seen + {m[path]}), m.Values - seen);
      Walked(m, m[path], seen + {m[path]})
  }

  /** Every file a path needs. */
  function Chain(m: Backing, path: Path): set<Path> {
    Walked(m, path, {})
  }

  predicate Closed(m: Backing, s: set<Path>) {
    forall p | p in s && p in m :: m[p] in s
  }

  /** A walk leaves no file it adds without the one below it; but: files
      whose backing file is not in the set yet. */
  lemma {:induction false} WalkCloses(m: Backing, path: Path, seen: set<Path>, but: set<Path>)
    requires forall p | p in seen - but && p in m && p != path :: m[p] in seen
    ensures var w := Walked(m, path, seen);
            && seen <= w && (path in m ==> m[path] in w)
            && (forall p | p in w - but && p in m :: m[p] in w)
    decreases |m.Values - seen|
  {
    if path in m && m[path] !in seen {
      assert m[path] in m.Values - seen;
      ProperSubsetIsSmaller(m.Values - (seen + {m[path]}), m.Values - seen);
      WalkCloses(m, m[path], seen + {m[path]}, but);
    }
  }

  /** And adds nothing that is not needed. */
  lemma {:induction false} WalkIsLeast(m: Backing, path: Path, seen: set<Path>, s: set<Path>)
    requires Closed(m, s) && (path in m ==> m[path] in s)
    ensures Walked(m, path, seen) <= seen + s
    decreases |m.Values - seen|
  {
    if path in m && m[path] !in seen {
      assert m[path] in m.Values - seen;
      ProperSubsetIsSmaller(m.Values - (seen + {m[path]}), m.Values - seen);
      WalkIsLeast(m, m[path], seen + {m[path]}, s);
    }
  }

  /** A walk does not notice files that went, none of them on its way. */
  lemma {:induction false} WalkAgrees(m: Backing, n: Backing, path: Path, seen: set<Path>, s: set<Path>)
    requires Closed(m, s) && path in s
    requires forall p | p in s :: (p in m <==> p in n) && (p in m ==> m[p] == n[p])
    ensures Walked(n, path, seen) == Walked(m, path, seen)
    decreases |m.Values - seen|
  {
    if path in m && m[path] !in seen {
      assert m[path] in m.Values - seen;
      ProperSubsetIsSmaller(m.Values - (seen + {m[path]}), m.Values - seen);
      WalkAgrees(m, n, m[path], seen + {m[path]}, s);
    }
  }

  /** The chain is closed; a needed file's own chain is part of it. */
  lemma ChainClosed(m: Backing, path: Path)
    ensures Closed(m, Chain(m, path)) && (path in m ==> m[path] in Chain(m, path))
    ensures forall q | q in Chain(m, path) :: Chain(m, q) <= Chain(m, path)
  {
    WalkCloses(m, path, {}, {});
    forall q | q in Chain(m, path) ensures Chain(m, q) <= Chain(m, path) {
      WalkIsLeast(m, q, {}, Chain(m, path));
    }
  }

  /** A file needed by another, and not by itself, needs fewer files. */
  lemma NeededNeedsFewer(m: Backing, path: Path, q: Path)
    requires q in Chain(m, path) && q !in Chain(m, q)
    ensures |Chain(m, q)| < |Chain(m, path)|
  {
    ChainClosed(m, path);
    assert Chain(m, q) <= Chain(m, path);
    ProperSubsetIsSmaller(Chain(m, q), Chain(m, path));
  }

  /** Files that nothing outside them grows from have no chain from outside. */
  lemma ApartChain(m: Backing, files: seq<Path>, path: Path)
    requires path !in files && forall p | p in m && p !in files :: m[p] !in files
    ensures forall q | q in Chain(m, path) :: q !in files
  {
    var others := set p | p in m.Values && p !in files;
    assert Closed(m, others) by {
      forall p | p in others && p in m ensures m[p] in others { assert m[p] in m.Values; }
    }
    if path in m {
      assert m[path] in m.Values;
    }
    WalkIsLeast(m, path, {}, others);
  }
}
