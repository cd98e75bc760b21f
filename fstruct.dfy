/**
 * The shot folder skeleton builder: the version resolver (`get_next_version`)
 * and the tree materialiser (`create_shot_tree`), over the set-of-paths model
 * of the filesystem.
 */
module FStruct {
  import opened Naming
  import opened Filesystem

  /** `base/show/shot`. */
  function ShotRoot(base: Path, show: string, shot: string): Path {
    base + [show, shot]
  }

  /** `base/show/shot/out`. */
  function OutRoot(base: Path, show: string, shot: string): Path {
    ShotRoot(base, show, shot) + ["out"]
  }

  /** `out/<shot>_roto_vNNN`. */
  function VersionDir(outRoot: Path, shot: string, v: nat): Path {
    outRoot + [VersionName(shot, v)]
  }

  /** The `in/` and `mid/<artist>/` leaves, in the order they are created. */
  function WorkDirs(shotRoot: Path, artist: string): seq<Path> {
    [ shotRoot + ["in", "feedback"],
      shotRoot + ["in", "plate"],
      shotRoot + ["in", "ref"],
      shotRoot + ["mid", artist, "sfx"],
      shotRoot + ["mid", artist, "nuke", "shapes"],
      shotRoot + ["mid", artist, "nuke", "scripts"],
      shotRoot + ["mid", artist, "silhouette", "shapes"],
      shotRoot + ["mid", artist, "pre_render"] ]
  }

  /** The version folder and its four version-stamped subfolders, in creation order. */
  function VersionDirs(outRoot: Path, shot: string, v: nat): seq<Path> {
    var root := VersionDir(outRoot, shot, v);
    [ root,
      root + [SubfolderName(shot, "matte_01", v)],
      root + [SubfolderName(shot, "matte_02", v)],
      root + [SubfolderName(shot, "sfx", v)],
      root + [SubfolderName(shot, "nuke_script", v)] ]
  }

  /** Every path `create_shot_tree` hands to `os.makedirs` when it settles on version `v`. */
  function ShotTreeTargets(base: Path, show: string, shot: string, artist: string, v: nat): seq<Path> {
    WorkDirs(ShotRoot(base, show, shot), artist)
      + [OutRoot(base, show, shot)]
      + VersionDirs(OutRoot(base, show, shot), shot, v)
  }

  /**
   * `v` is the first version whose folder is missing from `outRoot`: every
   * version from 1 below it is taken and `v` itself is free.
   */
  predicate IsNextVersion(dirs: set<Path>, outRoot: Path, shot: string, v: nat) {
    && 1 <= v
    && VersionDir(outRoot, shot, v) !in dirs
    && forall k | 1 <= k < v :: VersionDir(outRoot, shot, k) in dirs
  }

  lemma NextVersionUnique(dirs: set<Path>, outRoot: Path, shot: string, v: nat, w: nat)
    requires IsNextVersion(dirs, outRoot, shot, v) && IsNextVersion(dirs, outRoot, shot, w)
    ensures v == w
  {
  }

  lemma VersionDirInjective(outRoot: Path, shot: string, v: nat, w: nat)
    ensures VersionDir(outRoot, shot, v) == VersionDir(outRoot, shot, w) ==> v == w
  {
    assert VersionDir(outRoot, shot, v)[|outRoot|] == VersionName(shot, v);
    assert VersionDir(outRoot, shot, w)[|outRoot|] == VersionName(shot, w);
    VersionNameInjective(shot, v, w);
  }

  /** The folders of versions 1 to `v`. */
  function VersionDirsUpTo(outRoot: Path, shot: string, v: nat): set<Path> {
    set k | 1 <= k <= v :: VersionDir(outRoot, shot, k)
  }

  lemma {:induction false} VersionDirsUpToSize(outRoot: Path, shot: string, v: nat)
    ensures |VersionDirsUpTo(outRoot, shot, v)| == v
  {
    if v == 0 {
      assert VersionDirsUpTo(outRoot, shot, 0) == {};
    } else {
      VersionDirsUpToSize(outRoot, shot, v - 1);
      var below := VersionDirsUpTo(outRoot, shot, v - 1);
      var top := VersionDir(outRoot, shot, v);
      assert VersionDirsUpTo(outRoot, shot, v) == below + {top};
      forall k | 1 <= k <= v - 1
        ensures VersionDir(outRoot, shot, k) != top
      {
        VersionDirInjective(outRoot, shot, k, v);
      }
      assert top !in below;
    }
  }

  /**
   * The probe cannot run past the number of directories: `v` taken versions
   * are `v` distinct paths.
   */
  lemma TakenVersionsBound(dirs: set<Path>, outRoot: Path, shot: string, v: nat)
    requires forall k | 1 <= k <= v :: VersionDir(outRoot, shot, k) in dirs
    ensures v <= |dirs|
  {
    VersionDirsUpToSize(outRoot, shot, v);
    SubsetSize(VersionDirsUpTo(outRoot, shot, v), dirs);
  }

  lemma SubsetSize<T>(a: set<T>, b: set<T>)
    requires a <= b
    ensures |a| <= |b|
  {
    assert b == a + (b - a);
  }

  /** A missing `out/` holds no version folder, so the probe stops at 1. */
  lemma MissingOutRootGivesOne(dirs: set<Path>, outRoot: Path, shot: string)
    requires PrefixClosed(dirs)
    requires outRoot != [] && outRoot !in dirs
    ensures IsNextVersion(dirs, outRoot, shot, 1)
  {
    MissingParentNoChild(dirs, outRoot, VersionName(shot, 1));
  }

  /** A shot folder that does not exist yet starts at version 1. */
  lemma FreshShotStartsAtOne(dirs: set<Path>, base: Path, show: string, shot: string)
    requires PrefixClosed(dirs)
    requires ShotRoot(base, show, shot) !in dirs
    ensures IsNextVersion(dirs, OutRoot(base, show, shot), shot, 1)
  {
    MissingParentNoChild(dirs, ShotRoot(base, show, shot), "out");
    MissingOutRootGivesOne(dirs, OutRoot(base, show, shot), shot);
  }

  /**
   * `get_next_version(out_path, shot)`: probe `<shot>_roto_v001`,
   * `<shot>_roto_v002`, ... under `outRoot` and return the first version whose
   * folder does not exist. Only reads the filesystem.
   */
  method NextVersion(fs: FileSystem, outRoot: Path, shot: string) returns (v: nat)
    ensures IsNextVersion(fs.dirs, outRoot, shot, v)
    ensures fs.Valid() && outRoot != [] && !fs.Exists(outRoot) ==> v == 1
  {
    v := 1;
    while true
      invariant 1 <= v
      invariant forall k | 1 <= k < v :: VersionDir(outRoot, shot, k) in fs.dirs
      decreases |fs.dirs| - v
    {
      var candidate := VersionName(shot, v);
      if !fs.Exists(outRoot + [candidate]) {
        if fs.Valid() && outRoot != [] && !fs.Exists(outRoot) {
          MissingOutRootGivesOne(fs.dirs, outRoot, shot);
          NextVersionUnique(fs.dirs, outRoot, shot, v, 1);
        }
        return v;
      }
      TakenVersionsBound(fs.dirs, outRoot, shot, v);
      v := v + 1;
    }
  }

  /** No folder created by the `in/`, `mid/` and `out/` calls is a version folder. */
  lemma WorkTreeHasNoVersion(base: Path, show: string, shot: string, artist: string, k: nat)
    ensures var outRoot := OutRoot(base, show, shot);
      VersionDir(outRoot, shot, k) !in Closure(WorkDirs(ShotRoot(base, show, shot), artist) + [outRoot])
  {
    var outRoot := OutRoot(base, show, shot);
    var q := VersionDir(outRoot, shot, k);
    var n := |base| + 2;
    assert |q| == n + 2 && q[n] == "out";
    forall t | t in WorkDirs(ShotRoot(base, show, shot), artist) + [outRoot]
      ensures q !in Prefixes(t)
    {
      PrefixesMember(t, q);
      if |t| >= |q| {
        assert t[n] == "in" || t[n] == "mid";
        assert t[n][0] == 'i' || t[n][0] == 'm';
        assert t[..|q|][n] == t[n];
      }
    }
    ClosureMember(WorkDirs(ShotRoot(base, show, shot), artist) + [outRoot], q);
  }

  /** The folders under a version folder all lie inside it. */
  lemma {:induction false} VersionTreeHasOneVersion(outRoot: Path, shot: string, v: nat, k: nat)
    ensures VersionDir(outRoot, shot, k) in Closure(VersionDirs(outRoot, shot, v)) <==> k == v
  {
    var q := VersionDir(outRoot, shot, k);
    var stamped := VersionDirs(outRoot, shot, v);
    ClosureMember(stamped, q);
    forall t | t in stamped && q in Prefixes(t)
      ensures k == v
    {
      PrefixesMember(t, q);
      assert t[..|outRoot| + 1] == VersionDir(outRoot, shot, v);
      VersionDirInjective(outRoot, shot, k, v);
    }
    if k == v {
      PrefixesMember(stamped[0], q);
      assert stamped[0] in stamped;
    }
  }

  /**
   * The only version folder a run of the materialiser creates is the one of
   * the version it settled on.
   */
  lemma ShotTreeHasOneVersion(base: Path, show: string, shot: string, artist: string, v: nat, k: nat)
    ensures var outRoot := OutRoot(base, show, shot);
      VersionDir(outRoot, shot, k) in Closure(ShotTreeTargets(base, show, shot, artist, v)) <==> k == v
  {
    var outRoot := OutRoot(base, show, shot);
    ClosureAppend(WorkDirs(ShotRoot(base, show, shot), artist) + [outRoot], VersionDirs(outRoot, shot, v));
    WorkTreeHasNoVersion(base, show, shot, artist, k);
    VersionTreeHasOneVersion(outRoot, shot, v, k);
  }

  /**
   * Creating the `in/`, `mid/` and `out/` directories adds no version folder,
   * so resolving the version after them is the same as resolving it before.
   */
  lemma WorkTreeKeepsNextVersion(dirs: set<Path>, base: Path, show: string, shot: string, artist: string, v: nat)
    ensures var outRoot := OutRoot(base, show, shot);
      IsNextVersion(dirs + Closure(WorkDirs(ShotRoot(base, show, shot), artist) + [outRoot]), outRoot, shot, v)
      <==> IsNextVersion(dirs, outRoot, shot, v)
  {
    forall k: nat {
      WorkTreeHasNoVersion(base, show, shot, artist, k);
    }
  }

  /**
   * Running the materialiser twice with the same arguments: the second run
   * settles on a later version, the first one still free after the first
   * run's, and adds nothing outside its own version folder.
   */
  lemma RepeatedCreate(d0: set<Path>, base: Path, show: string, shot: string, artist: string, v1: nat, v2: nat)
    requires IsNextVersion(d0, OutRoot(base, show, shot), shot, v1)
    requires IsNextVersion(d0 + Closure(ShotTreeTargets(base, show, shot, artist, v1)), OutRoot(base, show, shot), shot, v2)
    ensures v1 < v2
    ensures forall k | v1 < k < v2 :: VersionDir(OutRoot(base, show, shot), shot, k) in d0
    ensures VersionDir(OutRoot(base, show, shot), shot, v1 + 1) !in d0 ==> v2 == v1 + 1
    ensures var d1 := d0 + Closure(ShotTreeTargets(base, show, shot, artist, v1));
      d1 + Closure(ShotTreeTargets(base, show, shot, artist, v2))
      == d1 + Closure(VersionDirs(OutRoot(base, show, shot), shot, v2))
  {
    var outRoot := OutRoot(base, show, shot);
    var work := WorkDirs(ShotRoot(base, show, shot), artist) + [outRoot];
    var d1 := d0 + Closure(ShotTreeTargets(base, show, shot, artist, v1));
    forall k: nat
      ensures VersionDir(outRoot, shot, k) in d1 <==> VersionDir(outRoot, shot, k) in d0 || k == v1
    {
      ShotTreeHasOneVersion(base, show, shot, artist, v1, k);
    }
    ClosureAppend(work, VersionDirs(outRoot, shot, v1));
    ClosureAppend(work, VersionDirs(outRoot, shot, v2));
  }

  /**
   * A run of `os.makedirs(t, exist_ok=True)` calls, one per target in order:
   * afterwards every target and all its parents exist, and nothing else was
   * added or removed.
   */
  method MakeAllDirs(fs: FileSystem, targets: seq<Path>)
    requires fs.Valid()
    modifies fs
    ensures fs.Valid()
    ensures fs.dirs == old(fs.dirs) + Closure(targets)
    ensures forall t | t in targets && t != [] :: fs.Exists(t)
  {
    var i := 0;
    while i < |targets|
      invariant 0 <= i <= |targets|
      invariant fs.Valid()
      invariant fs.dirs == old(fs.dirs) + Closure(targets[..i])
    {
      fs.MakeDirs(targets[i]);
      assert targets[..i + 1][..i] == targets[..i];
      i := i + 1;
    }
    assert targets[..i] == targets;
    forall t | t in targets && t != []
      ensures fs.Exists(t)
    {
      PrefixesMember(t, t);
      ClosureMember(targets, t);
    }
  }

  /**
   * `create_shot_tree(base_path, show, shot, artist)`: ensure the `in/` and
   * `mid/` leaves and `out/`, resolve the next free version against `out/`,
   * then create the version folder and its four subfolders. Returns the
   * version folder's path; `version` is the version it settled on.
   */
  method CreateShotTree(fs: FileSystem, base: Path, show: string, shot: string, artist: string)
      returns (rootPath: Path, ghost version: nat)
    requires fs.Valid()
    requires base != [] && show != "" && shot != "" && artist != ""
    modifies fs
    ensures fs.Valid()
    ensures IsNextVersion(old(fs.dirs), OutRoot(base, show, shot), shot, version)
    ensures rootPath == VersionDir(OutRoot(base, show, shot), shot, version)
    ensures rootPath !in old(fs.dirs) && fs.Exists(rootPath)
    ensures fs.dirs == old(fs.dirs) + Closure(ShotTreeTargets(base, show, shot, artist, version))
    ensures forall t | t in ShotTreeTargets(base, show, shot, artist, version) :: fs.Exists(t)
  {
    var shotPath := base + [show, shot];
    var outRoot := shotPath + ["out"];
    // in/ and mid/, then out/
    MakeAllDirs(fs, WorkDirs(shotPath, artist) + [outRoot]);
    ghost var afterWork := fs.dirs;

    var v := NextVersion(fs, outRoot, shot);
    WorkTreeKeepsNextVersion(old(fs.dirs), base, show, shot, artist, v);
    version := v;
    var rootName := VersionName(shot, v);
    rootPath := outRoot + [rootName];
    // the version folder and its version-stamped subfolders
    MakeAllDirs(fs, VersionDirs(outRoot, shot, v));

    ClosureAppend(WorkDirs(shotPath, artist) + [outRoot], VersionDirs(outRoot, shot, v));
    assert ShotTreeTargets(base, show, shot, artist, v)
      == WorkDirs(shotPath, artist) + [outRoot] + VersionDirs(outRoot, shot, v);
    assert rootPath in VersionDirs(outRoot, shot, v);
  }
}
