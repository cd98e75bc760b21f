/**
 * The directory tree the shot builder works on, abstracted to the finite set
 * of directory paths that exist. A path is the sequence of its name segments
 * from some fixed root; each segment is atomic.
 */
module Filesystem {

  type Path = seq<string>

  /** The non-empty prefixes of `p`: the directories `os.makedirs(p)` ensures. */
  function Prefixes(p: Path): set<Path>
    decreases |p|
  {
    if p == [] then {} else Prefixes(p[..|p| - 1]) + {p}
  }

  /** The prefixes of `p` are exactly its non-empty initial segments. */
  lemma {:induction false} PrefixesMember(p: Path, q: Path)
    ensures q in Prefixes(p) <==> 1 <= |q| <= |p| && q == p[..|q|]
    decreases |p|
  {
    if p != [] {
      var parent := p[..|p| - 1];
      PrefixesMember(parent, q);
      if |q| < |p| {
        assert parent[..|q|] == p[..|q|];
      } else if |q| == |p| {
        assert p[..|q|] == p;
      }
    }
  }

  /** Every directory's parents are directories too. */
  ghost predicate PrefixClosed(dirs: set<Path>) {
    forall p, q | p in dirs && q in Prefixes(p) :: q in dirs
  }

  /** Every directory that creating each of `targets`, in order, with its parents yields. */
  function Closure(targets: seq<Path>): set<Path>
    decreases |targets|
  {
    if targets == [] then {}
    else Closure(targets[..|targets| - 1]) + Prefixes(targets[|targets| - 1])
  }

  lemma {:induction false} ClosureMember(targets: seq<Path>, q: Path)
    ensures q in Closure(targets) <==> exists t | t in targets :: q in Prefixes(t)
    decreases |targets|
  {
    if targets != [] {
      var init := targets[..|targets| - 1];
      var last := targets[|targets| - 1];
      ClosureMember(init, q);
      assert targets == init + [last];
      if q in Prefixes(last) {
        assert last in targets;
      }
      if exists t | t in targets :: q in Prefixes(t) {
        var t :| t in targets && q in Prefixes(t);
        assert t in init || t == last;
      }
    }
  }

  lemma {:induction false} PrefixesClosed(p: Path)
    ensures PrefixClosed(Prefixes(p))
  {
    forall q, u | q in Prefixes(p) && u in Prefixes(q)
      ensures u in Prefixes(p)
    {
      PrefixesMember(p, q);
      PrefixesMember(q, u);
      assert u == q[..|u|] == p[..|q|][..|u|];
      PrefixesMember(p, u);
    }
  }

  lemma {:induction false} ClosureAppend(a: seq<Path>, b: seq<Path>)
    ensures Closure(a + b) == Closure(a) + Closure(b)
    decreases |b|
  {
    if b == [] {
      assert a + b == a;
    } else {
      var init := b[..|b| - 1];
      assert (a + b)[..|a + b| - 1] == a + init;
      ClosureAppend(a, init);
    }
  }

  /** `[name] + p` for every `p` of `paths`, in order. */
  function UnderAll(name: string, paths: seq<Path>): (r: seq<Path>)
    ensures |r| == |paths| && forall i | 0 <= i < |paths| :: r[i] == [name] + paths[i]
  {
    seq(|paths|, i requires 0 <= i < |paths| => [name] + paths[i])
  }

  /** `[name] + p` for every `p` of `paths`. */
  function UnderSet(name: string, paths: set<Path>): set<Path> {
    set p | p in paths :: [name] + p
  }

  /** The prefixes of a path below `name`: `[name]`, then `name` before each prefix of the rest. */
  lemma {:induction false} PrefixesCons(name: string, p: Path)
    ensures Prefixes([name] + p) == {[name]} + UnderSet(name, Prefixes(p))
    decreases |p|
  {
    if p == [] {
      assert [name] + p == [name];
      assert [name][..0] == [];
    } else {
      var parent := p[..|p| - 1];
      assert ([name] + p)[..|p|] == [name] + parent;
      PrefixesCons(name, parent);
      assert UnderSet(name, Prefixes(parent) + {p}) == UnderSet(name, Prefixes(parent)) + {[name] + p};
    }
  }

  /** Creating paths below `name` creates `name`, then `name` before each directory of the paths. */
  lemma {:induction false} ClosureUnder(name: string, paths: seq<Path>)
    requires paths != []
    ensures Closure(UnderAll(name, paths)) == {[name]} + UnderSet(name, Closure(paths))
    decreases |paths|
  {
    var init := paths[..|paths| - 1];
    var last := paths[|paths| - 1];
    var under := UnderAll(name, paths);
    assert under[..|under| - 1] == UnderAll(name, init);
    assert under[|under| - 1] == [name] + last;
    PrefixesCons(name, last);
    if init == [] {
      assert UnderAll(name, init) == [];
    } else {
      ClosureUnder(name, init);
      assert UnderSet(name, Closure(init) + Prefixes(last))
        == UnderSet(name, Closure(init)) + UnderSet(name, Prefixes(last));
    }
  }

  /** A path's parent directories are among its child's. */
  lemma PrefixesExtend(p: Path, name: string)
    ensures Prefixes(p) <= Prefixes(p + [name])
  {
    assert (p + [name])[..|p|] == p;
  }

  /** Creating `p`, then `rest`. */
  lemma ClosureCons(p: Path, rest: seq<Path>)
    ensures Closure([p] + rest) == Prefixes(p) + Closure(rest)
  {
    ClosureAppend([p], rest);
    assert [p][..0] == [];
  }

  /**
   * The directories of the machine. `os.path.exists` is membership and
   * `os.makedirs(p, exist_ok=True)` adds `p` and all its parents.
   */
  class FileSystem {
    var dirs: set<Path>

    ghost predicate Valid()
      reads this
    {
      PrefixClosed(dirs)
    }

    constructor (initial: set<Path>)
      requires PrefixClosed(initial)
      ensures Valid() && dirs == initial
    {
      dirs := initial;
    }

    /** `os.path.exists(p)`. */
    predicate Exists(p: Path)
      reads this
    {
      p in dirs
    }

    /** `os.makedirs(p, exist_ok=True)`: create `p` and any missing parent; nothing is removed. */
    method MakeDirs(p: Path)
      requires Valid()
      modifies this
      ensures Valid()
      ensures dirs == old(dirs) + Prefixes(p)
    {
      PrefixesClosed(p);
      dirs := dirs + Prefixes(p);
    }
  }

  /** In a prefix-closed set, a missing directory has no children. */
  lemma MissingParentNoChild(dirs: set<Path>, p: Path, name: string)
    requires PrefixClosed(dirs)
    requires p != [] && p !in dirs
    ensures p + [name] !in dirs
  {
    PrefixesMember(p + [name], p);
    assert (p + [name])[..|p|] == p;
  }
}
