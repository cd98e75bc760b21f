# FStruct shot skeleton builder, modelled in Dafny

FStruct is a small desktop tool for VFX roto artists. Given a base path, a
show, a shot and an artist, it creates the standard folder skeleton of the
shot:

- `in/feedback`, `in/plate` and `in/ref`;
- `mid/<artist>/` with `sfx`, `nuke/shapes`, `nuke/scripts`,
  `silhouette/shapes` and `pre_render`;
- under `out/`, a fresh versioned folder `<shot>_roto_vNNN` holding four
  subfolders stamped with the same version.

The version is the first `NNN`, counted from 001, whose folder does not exist
yet. While the user types, a preview tree shows the skeleton by name, with
version v001.

This project models the three parts of `fstruct.py` that carry this logic:

- `naming.dfy` (module `Naming`) covers Python's `{v:03}` formatting and the
  version-stamped folder names. It proves that the padding reads back as the
  version, so distinct versions never share a name.
- `filesystem.dfy` (module `Filesystem`) models the filesystem as the set of
  directory paths that exist. A path is a sequence of atomic name segments.
  - `os.path.exists` is membership.
  - `os.makedirs(p, exist_ok=True)` adds `p` and all its parents.
  - The class `FileSystem` holds that set and keeps it closed under taking
    parents.
- `fstruct.dfy` (module `FStruct`) covers the two main operations.
  - `get_next_version` is the probing loop `NextVersion`. It is proved
    against `IsNextVersion`: every version from 1 below the result is taken,
    and the result itself is free.
  - `create_shot_tree` is the method `CreateShotTree`. Its new state is the
    old directories plus the parent closure of exactly the paths the source
    hands to `os.makedirs`. The lemmas beside it show:
    - the version it settles on is the one free before the call;
    - it creates exactly one version folder;
    - a second run settles on a later version and adds nothing outside its
      own version folder.
- `preview.dfy` (module `Preview`) models the tree that `preview_update_live`
  builds as a pure function returning a tree of named rows. It proves that
  the rows are exactly the folders a run of `create_shot_tree` at version 1
  creates, relative to the base path.

## Model

| member | source | states |
|---|---|---|
| `Naming.ZeroPad3` | fstruct.py:18 | `{v:03}`: as many zeros as it takes to reach three characters, then the whole decimal of `v`; what this means is proved in `ZeroPad3Shape`, `ZeroPad3RoundTrip` and `ZeroPad3Width` |
| `Naming.VersionName` | fstruct.py:45 | `<shot>_roto_v{v:03}`, the version folder name probed on line 18 and built on line 45; different versions get different names (`VersionNameInjective`) |
| `Naming.SubfolderName` | fstruct.py:50-53 | `<shot>_roto_<kind>_v{v:03}`, the four stamped subfolder names, with the same version as their parent folder |
| `Naming.Decimal` | fstruct.py:18 | the decimal spelling of a natural number is non-empty, all digits, and starts with `0` only for zero |
| `Naming.DecimalRoundTrip` | fstruct.py:18 | reading the decimal spelling of `n` back gives `n` |
| `Naming.ZeroPad3Shape` | fstruct.py:18 | `{v:03}` is all digits: zeros, then the full decimal of `v`; its length is three, or the decimal's length when that is longer (no truncation) |
| `Naming.ZeroPad3RoundTrip` | fstruct.py:18 | reading the padded version back as a decimal gives the version |
| `Naming.ZeroPad3Injective` | fstruct.py:18 | two versions with the same padded spelling are equal |
| `Naming.ZeroPad3Width` | fstruct.py:18 | the padded spelling has exactly three characters if and only if the version is below 1000; from 100 on, it is the plain decimal |
| `Naming.ZeroPad3Examples` | fstruct.py:45 | version 1 is spelt `001`, 42 is `042`, and 1000 is `1000` |
| `Naming.VersionNameInjective` | fstruct.py:18 | `<shot>_roto_vNNN` names of different versions of one shot differ |
| `Filesystem.FileSystem.Exists` | fstruct.py:19 | `os.path.exists(p)`: `p` is one of the directories of the filesystem |
| `Filesystem.PrefixesMember` | fstruct.py:30 | the directories `os.makedirs(p)` ensures are exactly the non-empty initial segments of `p` |
| `Filesystem.ClosureMember` | fstruct.py:30-53 | after a run of `os.makedirs` calls, a path exists because of them if and only if it is an initial segment of one of the targets |
| `Filesystem.PrefixesClosed` | fstruct.py:30 | the parents of any directory `os.makedirs(p)` ensures are among them too |
| `Filesystem.ClosureAppend` | fstruct.py:30-53 | the directories of two runs of `os.makedirs` calls, one after the other, are the union of each run's directories |
| `Filesystem.FileSystem.constructor` | fstruct.py:23 | the directory tree on disk before a run, which `create_shot_tree` finds under `base_path`; it is any set of directories in which every directory's parents exist (not an operation of the source) |
| `Filesystem.FileSystem.MakeDirs` | fstruct.py:30 | `os.makedirs(p, exist_ok=True)` adds `p` and every missing parent, removes nothing, and keeps every directory's parents present |
| `Filesystem.MissingParentNoChild` | fstruct.py:19 | when a directory is missing, no path beneath it exists |
| `FStruct.ShotRoot` | fstruct.py:28 | `os.path.join(base_path, show, shot)`: the base path followed by the show and the shot |
| `FStruct.OutRoot` | fstruct.py:41 | `os.path.join(shot_path, "out")` |
| `FStruct.VersionDir` | fstruct.py:45-46 | `os.path.join(out_root, root_name)`: the folder of version `v` under `out/`, as probed on line 19 and created on line 47 |
| `FStruct.WorkDirs` | fstruct.py:30-38 | the eight `in/` and `mid/<artist>/` paths handed to `os.makedirs`, in the source's order |
| `FStruct.VersionDirs` | fstruct.py:46-53 | the version folder, then its four stamped subfolders, in the source's order |
| `FStruct.ShotTreeTargets` | fstruct.py:30-53 | all fourteen paths `create_shot_tree` hands to `os.makedirs` once it settles on version `v`, in order |
| `FStruct.IsNextVersion` | fstruct.py:12-21 | the answer `get_next_version` is after: a version of at least 1 whose folder is missing while every lower version's folder exists |
| `FStruct.NextVersionUnique` | fstruct.py:12-21 | at most one version is the first free version of a shot |
| `FStruct.VersionDirInjective` | fstruct.py:45-46 | different versions of one shot have different folders under the same `out/` |
| `FStruct.VersionDirsUpToSize` | fstruct.py:17-21 | the folders of versions 1 to `v` are `v` distinct paths |
| `FStruct.TakenVersionsBound` | fstruct.py:16-21 | when versions 1 to `v` are all taken there are at least `v` directories, so the probe stops |
| `FStruct.MissingOutRootGivesOne` | fstruct.py:16-20 | when `out/` does not exist, the probe stops at version 1 |
| `FStruct.FreshShotStartsAtOne` | fstruct.py:41-44 | a shot whose folder does not exist yet gets version 1 |
| `FStruct.NextVersion` | fstruct.py:12-21 | `get_next_version` returns a version at least 1 whose folder is missing, with every lower version's folder present; it returns 1 when `out/` is missing |
| `FStruct.WorkTreeHasNoVersion` | fstruct.py:30-42 | no directory created by the `in/`, `mid/` and `out/` calls is a version folder |
| `FStruct.VersionTreeHasOneVersion` | fstruct.py:46-53 | the only version folder created by the version calls is the one of the chosen version |
| `FStruct.ShotTreeHasOneVersion` | fstruct.py:23-55 | a run creates the version folder of the version it settles on, and no other |
| `FStruct.WorkTreeKeepsNextVersion` | fstruct.py:41-44 | resolving the version after creating `in/`, `mid/` and `out/` gives the same answer as resolving it before |
| `FStruct.RepeatedCreate` | fstruct.py:23-55 | on a second run with the same arguments, the version is later than the first run's, every version in between already existed, and it is the next one when that was free; the second run adds only its own version folder and subfolders |
| `FStruct.MakeAllDirs` | fstruct.py:30-53 | a run of `os.makedirs` calls in order: afterwards every target exists, and the directories are the old ones plus every target's parents |
| `FStruct.CreateShotTree` | fstruct.py:23-55 | `create_shot_tree` settles on the first version free before the call, creates every target with its parents and nothing else, and returns the new version folder, which did not exist before |
| `Preview.OrPlaceholder` | fstruct.py:314-329 | `value if value else placeholder`, as used for the show, shot and artist rows |
| `Preview.InPreview` | fstruct.py:320-325 | the `in` row with `feedback`, `plate` and `ref` below it |
| `Preview.MidPreview` | fstruct.py:327-339 | the `mid` row, the artist row below it, and the artist's `sfx`, `nuke` (`shapes`, `scripts`), `silhouette` (`shapes`) and `pre_render` rows |
| `Preview.OutPreview` | fstruct.py:342-349 | the `out` row, the `<shot>_roto_v001` row below it, and its four `v001` subfolder rows |
| `Preview.ShotPreview` | fstruct.py:314-349 | the show row, the shot row below it, and the `in`, `mid` and `out` rows below that, in that order |
| `Preview.PreviewTree` | fstruct.py:297-351 | the preview has one top-level row; it is the hint row exactly when show and shot are both empty |
| `Preview.RowPathsAreLeafClosure` | fstruct.py:314-349 | the rows of a preview tree are exactly the initial segments of the paths to its childless rows |
| `Preview.ForestRowPathsAreLeafClosure` | fstruct.py:314-349 | the same, for a sequence of sibling rows |
| `Preview.ShotPreviewLeaves` | fstruct.py:314-349 | the childless rows of the preview, top to bottom, are the eight `in/` and `mid/` targets of `create_shot_tree` followed by the four version-1 subfolders |
| `Preview.PreviewNames` | fstruct.py:344-349 | the preview's fixed `v001` names are the folder names of version 1 |
| `Preview.ShotPreviewMirrors` | fstruct.py:314-349 | every row of the preview is a folder `create_shot_tree` creates at version 1, and every such folder is a row |
| `Preview.PreviewMirrorsShotTree` | fstruct.py:308-349 | once show or shot is filled in, the single top-level row is the folder tree of version 1, with `<SHOW>`, `<SHOT>` and `<ARTIST>` standing in for empty fields |

## Left out

- The Qt window is not modelled: layout, theming, the status bar, the folder
  picker (`on_browse`) and the message boxes of `on_create`.
- The client combo box is not modelled; nothing in the folder logic reads it.
- `on_create`'s check for empty fields is not modelled as a branch. It
  becomes the precondition of `CreateShotTree`: base, show, shot and artist
  are non-empty.
- Whitespace stripping of the input fields is not modelled. The model's
  inputs are the stripped texts.
- The `hasattr` fallbacks in `preview_update_live` are not modelled. They
  apply only before the widgets exist; one of them gives the artist the
  default `Artist`.
- The preview's in-place updates of the tree widget (`clear`, `addChild`,
  `expandAll`) are not modelled. The model returns the finished tree as a
  value.
- Errors from the operating system are not modelled. This covers a
  permission error, a full disk, and a path component that exists as a
  file. A failed `os.makedirs` in the source stops the run part-way; the
  model has no failure path and no partial tree.
- Real path semantics are not modelled: separators, absolute versus
  relative paths, `..`, case-insensitive filesystems, and names containing
  a separator. Each path segment is atomic.
- Only directories are modelled. `os.path.exists` is also true for a
  regular file named like a version folder; the model cannot represent that
  file.
- Concurrent changes to the filesystem between the probe and the creation
  are not modelled.
- `CreateShotTree`: the eight `in/` and `mid/` calls and the `out/` call are
  one ordered loop over their targets (`MakeAllDirs`), and so are the five
  version calls, rather than fourteen separate statements. The order of
  creation is kept.
- The build script and the icon generator are not part of this model.
