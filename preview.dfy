/**
 * The live preview of the shot skeleton: the rows of the preview tree widget
 * as a pure function of the show, shot and artist fields. It never looks at
 * the filesystem and always shows version v001.
 */
module Preview {
  import opened Naming
  import opened Filesystem
  import opened FStruct

  /** A row of the preview tree: its text and the rows nested under it. */
  datatype Node = Node(name: string, children: seq<Node>)

  function Leaf(name: string): Node {
    Node(name, [])
  }

  /** The single row shown while both show and shot are empty. */
  const Hint: string := "Enter Show & Shot to preview"

  /** `value if value else placeholder`. */
  function OrPlaceholder(value: string, placeholder: string): string {
    if value == "" then placeholder else value
  }

  /** The `in/` row and its leaves. */
  function InPreview(): Node {
    Node("in", [Leaf("feedback"), Leaf("plate"), Leaf("ref")])
  }

  /** The `mid/` row, the artist row under it and the artist's folders. */
  function MidPreview(artist: string): Node {
    Node("mid", [
      Node(artist, [
        Leaf("sfx"),
        Node("nuke", [Leaf("shapes"), Leaf("scripts")]),
        Node("silhouette", [Leaf("shapes")]),
        Leaf("pre_render")])])
  }

  /** The `out/` row with the version v001 folder and its four stamped subfolders. */
  function OutPreview(shot: string): Node {
    Node("out", [
      Node(shot + "_roto_v001", [
        Leaf(shot + "_roto_matte_01_v001"),
        Leaf(shot + "_roto_matte_02_v001"),
        Leaf(shot + "_roto_sfx_v001"),
        Leaf(shot + "_roto_nuke_script_v001")])])
  }

  /** The show row and everything under it, for row texts already chosen. */
  function ShotPreview(show: string, shot: string, artist: string): Node {
    Node(show, [Node(shot, [InPreview(), MidPreview(artist), OutPreview(shot)])])
  }

  /**
   * The top-level rows `preview_update_live` puts in the tree widget: the hint
   * alone while show and shot are both empty, otherwise the show row, with
   * `<SHOW>`, `<SHOT>` and `<ARTIST>` standing in for empty fields.
   */
  function PreviewTree(show: string, shot: string, artist: string): (rows: seq<Node>)
    ensures |rows| == 1
    ensures rows == [Leaf(Hint)] <==> show == "" && shot == ""
  {
    if show == "" && shot == "" then [Leaf(Hint)]
    else [ShotPreview(OrPlaceholder(show, "<SHOW>"), OrPlaceholder(shot, "<SHOT>"), OrPlaceholder(artist, "<ARTIST>"))]
  }

  /** The name paths from a row down to each row without children, top to bottom. */
  function LeafPaths(n: Node): seq<Path>
    decreases n, 1
  {
    if n.children == [] then [[n.name]] else UnderAll(n.name, ForestLeafPaths(n.children))
  }

  function ForestLeafPaths(ns: seq<Node>): seq<Path>
    decreases ns, 0
  {
    if ns == [] then [] else LeafPaths(ns[0]) + ForestLeafPaths(ns[1..])
  }

  /** The name path of every row at or under `n`. */
  function RowPaths(n: Node): set<Path>
    decreases n, 1
  {
    {[n.name]} + UnderSet(n.name, ForestRowPaths(n.children))
  }

  function ForestRowPaths(ns: seq<Node>): set<Path>
    decreases ns, 0
  {
    if ns == [] then {} else RowPaths(ns[0]) + ForestRowPaths(ns[1..])
  }

  lemma {:induction false} LeafPathsNonEmpty(n: Node)
    ensures LeafPaths(n) != []
    decreases n
  {
    if n.children != [] {
      LeafPathsNonEmpty(n.children[0]);
    }
  }

  /** Every row lies on the way to a row without children, and every such way is made of rows. */
  lemma {:induction false} RowPathsAreLeafClosure(n: Node)
    ensures RowPaths(n) == Closure(LeafPaths(n))
    decreases n, 1
  {
    if n.children == [] {
      assert Closure([[n.name]]) == Prefixes([n.name]);
      assert [n.name][..0] == [];
    } else {
      ForestRowPathsAreLeafClosure(n.children);
      LeafPathsNonEmpty(n.children[0]);
      ClosureUnder(n.name, ForestLeafPaths(n.children));
    }
  }

  lemma {:induction false} ForestRowPathsAreLeafClosure(ns: seq<Node>)
    ensures ForestRowPaths(ns) == Closure(ForestLeafPaths(ns))
    decreases ns, 0
  {
    if ns != [] {
      RowPathsAreLeafClosure(ns[0]);
      ForestRowPathsAreLeafClosure(ns[1..]);
      ClosureAppend(LeafPaths(ns[0]), ForestLeafPaths(ns[1..]));
    }
  }

  /** The leaves of a run of sibling rows are those of its first part, then those of the rest. */
  lemma {:induction false} ForestLeafPathsAppend(a: seq<Node>, b: seq<Node>)
    ensures ForestLeafPaths(a + b) == ForestLeafPaths(a) + ForestLeafPaths(b)
    decreases |a|
  {
    if a == [] {
      assert a + b == b;
    } else {
      assert (a + b)[0] == a[0];
      assert (a + b)[1..] == a[1..] + b;
      ForestLeafPathsAppend(a[1..], b);
    }
  }

  lemma InLeaves()
    ensures LeafPaths(InPreview()) == [["in", "feedback"], ["in", "plate"], ["in", "ref"]]
  {
    ForestLeafPathsAppend([Leaf("feedback")], [Leaf("plate"), Leaf("ref")]);
    ForestLeafPathsAppend([Leaf("plate")], [Leaf("ref")]);
    assert ["in"] + ["feedback"] == ["in", "feedback"];
    assert ["in"] + ["plate"] == ["in", "plate"];
    assert ["in"] + ["ref"] == ["in", "ref"];
  }

  lemma MidLeaves(artist: string)
    ensures LeafPaths(MidPreview(artist)) == [
      ["mid", artist, "sfx"],
      ["mid", artist, "nuke", "shapes"],
      ["mid", artist, "nuke", "scripts"],
      ["mid", artist, "silhouette", "shapes"],
      ["mid", artist, "pre_render"]]
  {
    var nuke := Node("nuke", [Leaf("shapes"), Leaf("scripts")]);
    var sil := Node("silhouette", [Leaf("shapes")]);
    var artistNode := MidPreview(artist).children[0];
    ForestLeafPathsAppend([Leaf("shapes")], [Leaf("scripts")]);
    assert ["nuke"] + ["shapes"] == ["nuke", "shapes"];
    assert ["nuke"] + ["scripts"] == ["nuke", "scripts"];
    assert LeafPaths(nuke) == [["nuke", "shapes"], ["nuke", "scripts"]];
    assert ["silhouette"] + ["shapes"] == ["silhouette", "shapes"];
    assert LeafPaths(sil) == [["silhouette", "shapes"]];
    ForestLeafPathsAppend([Leaf("sfx")], [nuke, sil, Leaf("pre_render")]);
    ForestLeafPathsAppend([nuke], [sil, Leaf("pre_render")]);
    ForestLeafPathsAppend([sil], [Leaf("pre_render")]);
    var below := [["sfx"], ["nuke", "shapes"], ["nuke", "scripts"], ["silhouette", "shapes"], ["pre_render"]];
    assert ForestLeafPaths(artistNode.children) == below;
    var underArtist := [[artist, "sfx"], [artist, "nuke", "shapes"], [artist, "nuke", "scripts"],
      [artist, "silhouette", "shapes"], [artist, "pre_render"]];
    forall i | 0 <= i < 5
      ensures [artist] + below[i] == underArtist[i]
    {
    }
    assert LeafPaths(artistNode) == underArtist;
    var underMid := [["mid", artist, "sfx"], ["mid", artist, "nuke", "shapes"], ["mid", artist, "nuke", "scripts"],
      ["mid", artist, "silhouette", "shapes"], ["mid", artist, "pre_render"]];
    forall i | 0 <= i < 5
      ensures ["mid"] + underArtist[i] == underMid[i]
    {
    }
    assert ForestLeafPaths([artistNode]) == LeafPaths(artistNode);
    assert LeafPaths(MidPreview(artist)) == UnderAll("mid", underArtist) == underMid;
  }

  lemma OutLeaves(shot: string)
    ensures LeafPaths(OutPreview(shot)) == [
      ["out", shot + "_roto_v001", shot + "_roto_matte_01_v001"],
      ["out", shot + "_roto_v001", shot + "_roto_matte_02_v001"],
      ["out", shot + "_roto_v001", shot + "_roto_sfx_v001"],
      ["out", shot + "_roto_v001", shot + "_roto_nuke_script_v001"]]
  {
    var v := shot + "_roto_v001";
    var vNode := OutPreview(shot).children[0];
    assert ForestLeafPaths([vNode]) == LeafPaths(vNode);
    var m1 := Leaf(shot + "_roto_matte_01_v001");
    var m2 := Leaf(shot + "_roto_matte_02_v001");
    var sfx := Leaf(shot + "_roto_sfx_v001");
    var script := Leaf(shot + "_roto_nuke_script_v001");
    ForestLeafPathsAppend([m1], [m2, sfx, script]);
    ForestLeafPathsAppend([m2], [sfx, script]);
    ForestLeafPathsAppend([sfx], [script]);
    assert [v] + [shot + "_roto_matte_01_v001"] == [v, shot + "_roto_matte_01_v001"];
    assert [v] + [shot + "_roto_matte_02_v001"] == [v, shot + "_roto_matte_02_v001"];
    assert [v] + [shot + "_roto_sfx_v001"] == [v, shot + "_roto_sfx_v001"];
    assert [v] + [shot + "_roto_nuke_script_v001"] == [v, shot + "_roto_nuke_script_v001"];
    assert LeafPaths(vNode) == [
      [v, shot + "_roto_matte_01_v001"],
      [v, shot + "_roto_matte_02_v001"],
      [v, shot + "_roto_sfx_v001"],
      [v, shot + "_roto_nuke_script_v001"]];
    assert ["out"] + [v, shot + "_roto_matte_01_v001"] == ["out", v, shot + "_roto_matte_01_v001"];
    assert ["out"] + [v, shot + "_roto_matte_02_v001"] == ["out", v, shot + "_roto_matte_02_v001"];
    assert ["out"] + [v, shot + "_roto_sfx_v001"] == ["out", v, shot + "_roto_sfx_v001"];
    assert ["out"] + [v, shot + "_roto_nuke_script_v001"] == ["out", v, shot + "_roto_nuke_script_v001"];
  }

  /** The rows without children of the preview, as name paths, in display order. */
  lemma ShotPreviewLeaves(show: string, shot: string, artist: string)
    ensures LeafPaths(ShotPreview(show, shot, artist))
      == WorkDirs([show, shot], artist) + VersionDirs([show, shot, "out"], shot, 1)[1..]
  {
    var shotNode := Node(shot, [InPreview(), MidPreview(artist), OutPreview(shot)]);
    InLeaves();
    MidLeaves(artist);
    OutLeaves(shot);
    ForestLeafPathsAppend([InPreview()], [MidPreview(artist), OutPreview(shot)]);
    ForestLeafPathsAppend([MidPreview(artist)], [OutPreview(shot)]);
    var below := LeafPaths(InPreview()) + LeafPaths(MidPreview(artist)) + LeafPaths(OutPreview(shot));
    var expected := WorkDirs([show, shot], artist) + VersionDirs([show, shot, "out"], shot, 1)[1..];
    PreviewNames(shot);
    forall i | 0 <= i < 12
      ensures [show] + ([shot] + below[i]) == expected[i]
    {
    }
    assert ForestLeafPaths([shotNode]) == LeafPaths(shotNode);
    assert LeafPaths(ShotPreview(show, shot, artist)) == UnderAll(show, UnderAll(shot, below));
  }

  /** The preview's version-stamped names are those of version 1. */
  lemma PreviewNames(shot: string)
    ensures VersionName(shot, 1) == shot + "_roto_v001"
    ensures SubfolderName(shot, "matte_01", 1) == shot + "_roto_matte_01_v001"
    ensures SubfolderName(shot, "matte_02", 1) == shot + "_roto_matte_02_v001"
    ensures SubfolderName(shot, "sfx", 1) == shot + "_roto_sfx_v001"
    ensures SubfolderName(shot, "nuke_script", 1) == shot + "_roto_nuke_script_v001"
  {
    ZeroPad3Examples();
    assert "_roto_v" + "001" == "_roto_v001";
    assert "_roto_" + "matte_01" + "_v" + "001" == "_roto_matte_01_v001";
    assert "_roto_" + "matte_02" + "_v" + "001" == "_roto_matte_02_v001";
    assert "_roto_" + "sfx" + "_v" + "001" == "_roto_sfx_v001";
    assert "_roto_" + "nuke_script" + "_v" + "001" == "_roto_nuke_script_v001";
  }

  /**
   * The preview shows, row for row, the folders a run of the materialiser
   * creates under the base path when it settles on version 1: every row's
   * name path is one of those folders and every one of those folders is a row.
   */
  lemma ShotPreviewMirrors(show: string, shot: string, artist: string)
    ensures RowPaths(ShotPreview(show, shot, artist)) == Closure(ShotTreeTargets([], show, shot, artist, 1))
  {
    // The rows are the prefix closure of the leaves: the eight `in/` and `mid/`
    // targets and the four stamped subfolders. The targets add `out/` and the
    // version folder, which are nothing new: `out/` is a prefix of the version
    // folder, and the version folder a prefix of its first subfolder.
    var work := WorkDirs([show, shot], artist);
    var outRoot := OutRoot([], show, shot);
    var stamped := VersionDirs(outRoot, shot, 1);
    RowPathsAreLeafClosure(ShotPreview(show, shot, artist));
    ShotPreviewLeaves(show, shot, artist);
    assert ShotRoot([], show, shot) == [show, shot];
    assert outRoot == [show, shot, "out"];
    ClosureAppend(work, stamped[1..]);
    ClosureAppend(work + [outRoot], stamped);
    ClosureAppend(work, [outRoot]);
    ClosureCons(outRoot, []);
    assert [outRoot] == [outRoot] + [];
    ClosureCons(stamped[0], stamped[1..]);
    assert stamped == [stamped[0]] + stamped[1..];
    ClosureCons(stamped[1], stamped[2..]);
    assert stamped[1..] == [stamped[1]] + stamped[2..];
    PrefixesExtend(outRoot, VersionName(shot, 1));
    PrefixesExtend(stamped[0], SubfolderName(shot, "matte_01", 1));
  }

  /**
   * Once show or shot is filled in, the preview's single top-level row is the
   * tree of folders the materialiser creates at version 1 for the displayed
   * names, placeholders standing in for the empty fields.
   */
  lemma PreviewMirrorsShotTree(show: string, shot: string, artist: string)
    requires show != "" || shot != ""
    ensures var rows := PreviewTree(show, shot, artist);
      RowPaths(rows[0]) == Closure(ShotTreeTargets([],
        OrPlaceholder(show, "<SHOW>"), OrPlaceholder(shot, "<SHOT>"), OrPlaceholder(artist, "<ARTIST>"), 1))
  {
    ShotPreviewMirrors(OrPlaceholder(show, "<SHOW>"), OrPlaceholder(shot, "<SHOT>"), OrPlaceholder(artist, "<ARTIST>"));
  }
}
