/**
 What a layer does, from the names and paths of its entries alone: which paths it brings
 and which it drops, what an opaque directory and a named whiteout leave, and what all
 layers together leave.
 */
module LayerNames {
  import opened Wrappers
  import opened Extraction
  import opened FileTrees
  import opened NewestLayerWins

  function Last(p: Path): string
    requires p != []
  {
    p[|p| - 1]
  }

  function Front(p: Path): Path
    requires p != []
  {
    p[..|p| - 1]
  }

  /** An entry whose last name begins so is never put; it takes something away. */
  predicate Marker(e: Entry) {
    e.path != [] && ".wh." <= Last(e.path)
  }

  /** Everything below the directory of an opaque marker, what a whiteout names and all below it, all below a file. */
  predicate DropsBy(e: Entry, p: Path) {
    if !Marker(e) then !e.directory && e.path < p
    else if Last(e.path) == ".wh..wh..opq" then Front(e.path) < p
    else Front(e.path) + [Last(e.path)[4..]] <= p
  }

  predicate Drops(layer: seq<Entry>, p: Path) {
    exists e :: e in layer && DropsBy(e, p)
  }

  predicate BringsBy(e: Entry, p: Path) {
    !Marker(e) && p <= e.path
  }

  /** The layer lists the path or something below it. */
  predicate Brings(layer: seq<Entry>, p: Path) {
    p != [] && exists e :: e in layer && BringsBy(e, p)
  }

  predicate IsListed(layer: seq<Entry>, p: Path, e: Entry) {
    e in layer && !Marker(e) && e.path == p
  }

  /// The same as what extraction goes by

  lemma MarkerIsWhiteout(layer: seq<Entry>, e: Entry)
    requires LayerOk(layer) && e in layer
    ensures e.path != [] && (Marker(e) <==> Whiteout(e))
  {
  }

  lemma DropsByNames(layer: seq<Entry>, e: Entry, p: Path)
    requires LayerOk(layer) && e in layer
    ensures DropsBy(e, p) <==> HidesBy(e, p) || CoversBy(SetOf(layer), p, e)
  {
    MarkerIsWhiteout(layer, e);
  }

  lemma DropsIsHidesOrCovers(layer: seq<Entry>, p: Path)
    requires LayerOk(layer)
    ensures Drops(layer, p) <==> Hides(SetOf(layer), p) || Covers(SetOf(layer), p)
  {
    forall e | e in layer ensures DropsBy(e, p) <==> HidesBy(e, p) || CoversBy(SetOf(layer), p, e) {
      DropsByNames(layer, e, p);
    }
    if Drops(layer, p) {
      var e :| e in layer && DropsBy(e, p);
      assert e in SetOf(layer);
    }
    if Hides(SetOf(layer), p) {
      var e :| e in SetOf(layer) && HidesBy(e, p);
      assert e in layer && DropsBy(e, p);
    }
    if Covers(SetOf(layer), p) {
      var e :| CoversBy(SetOf(layer), p, e);
      assert e in layer && DropsBy(e, p);
    }
  }

  lemma BringsIsMentions(layer: seq<Entry>, p: Path)
    requires LayerOk(layer)
    ensures Brings(layer, p) <==> Mentions(layer, p)
  {
    forall e | e in layer ensures e.path != [] && (Marker(e) <==> Whiteout(e)) {
      MarkerIsWhiteout(layer, e);
    }
    if Brings(layer, p) {
      var e :| e in layer && BringsBy(e, p);
      if e.path == p {
        assert ListedAs(SetOf(layer), p, e);
      } else {
        assert ImpliedBy(SetOf(layer), p, e);
      }
    }
    if Lists(SetOf(layer), p) {
      var e :| ListedAs(SetOf(layer), p, e);
      assert e in layer && BringsBy(e, p);
    }
    if Implies(SetOf(layer), p) {
      var e :| ImpliedBy(SetOf(layer), p, e);
      assert e in layer && BringsBy(e, p);
    }
  }

  /// One layer

  /** The layer lists the path itself. */
  ghost predicate ListsPath(layer: seq<Entry>, p: Path) {
    exists e :: IsListed(layer, p, e)
  }

  lemma ListsIsListed(layer: seq<Entry>, p: Path)
    requires LayerOk(layer)
    ensures ListsPath(layer, p) <==> Lists(SetOf(layer), p)
    ensures forall e :: IsListed(layer, p, e) <==> ListedAs(SetOf(layer), p, e)
  {
    forall e ensures IsListed(layer, p, e) <==> ListedAs(SetOf(layer), p, e) {
      if e in layer {
        MarkerIsWhiteout(layer, e);
      }
    }
    if ListsPath(layer, p) {
      var e :| IsListed(layer, p, e);
      assert ListedAs(SetOf(layer), p, e);
    }
    if Lists(SetOf(layer), p) {
      var e :| ListedAs(SetOf(layer), p, e);
      assert IsListed(layer, p, e);
    }
  }

  /**
   A layer that applies, path by path: what it lists is there as listed; what it brings
   without listing it stays, or is made a directory with mode 0755; the rest stays exactly
   if the layer does not drop it.
   */
  lemma LayerByNames(before: Nodes, layer: seq<Entry>, after: Nodes, p: Path)
    requires LayerOk(layer) && After(before, SetOf(layer), after)
    ensures forall e :: IsListed(layer, p, e) ==>
              Get(after, p) == Some(if e.directory then Dir(e.mode) else File(e.data, e.mode))
    ensures !ListsPath(layer, p) ==>
              Get(after, p) == if p in before && !Drops(layer, p) then Some(before[p])
                               else if Brings(layer, p) then Some(Dir(493))
                               else None
    ensures p in after <==> Brings(layer, p) || (p in before && !Drops(layer, p))
  {
    DropsIsHidesOrCovers(layer, p);
    BringsIsMentions(layer, p);
    ListsIsListed(layer, p);
    ThereStep(before, layer, after, p);
    if ListsPath(layer, p) {
      forall e | IsListed(layer, p, e)
        ensures Get(after, p) == Some(if e.directory then Dir(e.mode) else File(e.data, e.mode))
      {
        OwnEntriesStand(before, SetOf(layer), after, e);
      }
    } else {
      UnlistedByNames(before, layer, after, p);
    }
  }

  lemma UnlistedByNames(before: Nodes, layer: seq<Entry>, after: Nodes, p: Path)
    requires LayerOk(layer) && After(before, SetOf(layer), after) && !Lists(SetOf(layer), p)
    ensures Get(after, p) == if p in before && !Drops(layer, p) then Some(before[p])
                             else if Brings(layer, p) then Some(Dir(493))
                             else None
  {
    var s := SetOf(layer);
    DropsIsHidesOrCovers(layer, p);
    BringsIsMentions(layer, p);
    ThereStep(before, layer, after, p);
    assert Get(after, p) == PutAt(Unhidden(before, s), s, p);
  }

  /** Below a directory that a layer makes opaque only what the layer itself brings is left. */
  lemma OpaqueEmpties(before: Nodes, layer: seq<Entry>, after: Nodes, dir: Path, marker: Entry, p: Path)
    requires LayerOk(layer) && After(before, SetOf(layer), after)
    requires marker in layer && marker.path == dir + [".wh..wh..opq"] && dir < p
    ensures p in after <==> exists e :: e in layer && !Marker(e) && p <= e.path
  {
    OpaqueDrops(layer, dir, marker, p);
    LayerByNames(before, layer, after, p);
    BroughtIs(layer, p);
  }

  /** At or below what a whiteout names only what the layer itself brings is left. */
  lemma WhiteoutRemoves(before: Nodes, layer: seq<Entry>, after: Nodes, dir: Path, name: string, marker: Entry, p: Path)
    requires LayerOk(layer) && After(before, SetOf(layer), after)
    requires marker in layer && marker.path == dir + [".wh." + name] && name != ".wh..opq" && dir + [name] <= p
    ensures p in after <==> exists e :: e in layer && !Marker(e) && p <= e.path
  {
    WhiteoutDrops(layer, dir, name, marker, p);
    LayerByNames(before, layer, after, p);
    BroughtIs(layer, p);
  }

  lemma BroughtIs(layer: seq<Entry>, p: Path)
    requires p != []
    ensures Brings(layer, p) <==> exists e :: e in layer && !Marker(e) && p <= e.path
  {
    if exists e :: e in layer && !Marker(e) && p <= e.path {
      var e :| e in layer && !Marker(e) && p <= e.path;
      assert BringsBy(e, p);
    }
  }

  lemma OpaqueDrops(layer: seq<Entry>, dir: Path, marker: Entry, p: Path)
    requires marker in layer && marker.path == dir + [".wh..wh..opq"] && dir < p
    ensures Drops(layer, p)
  {
    var name := ".wh..wh..opq";
    assert name[..4] == ".wh." && Last(marker.path) == name && Front(marker.path) == dir;
    assert ".wh." <= name;
    assert DropsBy(marker, p);
  }

  lemma WhiteoutDrops(layer: seq<Entry>, dir: Path, name: string, marker: Entry, p: Path)
    requires marker in layer && marker.path == dir + [".wh." + name] && name != ".wh..opq" && dir + [name] <= p
    ensures Drops(layer, p)
  {
    var whole := ".wh." + name;
    assert Last(marker.path) == whole && Front(marker.path) == dir && whole[4..] == name;
    assert ".wh..wh..opq"[4..] == ".wh..opq";
    assert DropsBy(marker, p);
  }

  /** Where no name of a layer begins with the whiteout prefix nothing is lost, except below its files. */
  lemma NothingElseIsLost(before: Nodes, layer: seq<Entry>, after: Nodes, p: Path)
    requires LayerOk(layer) && After(before, SetOf(layer), after)
    requires forall e :: e in layer ==> !(".wh." <= e.path[|e.path| - 1])
    requires p in before && forall e :: e in layer && !e.directory ==> !(e.path < p)
    ensures p in after
  {
    LayerByNames(before, layer, after, p);
  }

  /** A marker that names nothing, or the directory itself, or the one above it, stops the extraction. */
  lemma EmptyWhiteoutStops(before: Nodes, layer: seq<Entry>, dir: Path, name: string, marker: Entry)
    requires marker in layer && marker.path == dir + [".wh." + name] && name in {"", ".", ".."}
    ensures !Applies(before, layer)
  {
    var whole := ".wh." + name;
    var i :| 0 <= i < |layer| && layer[i] == marker;
    assert Base(marker.path) == whole && whole[4..] == name && |whole| < 12;
    assert Whiteout(marker) && Base(Target(marker)) == name;
    assert !WhiteoutApplies(before, layer, i);
  }

  /// All layers

  predicate DroppedFrom(layers: seq<seq<Entry>>, from: nat, p: Path) {
    exists j :: from <= j < |layers| && Drops(layers[j], p)
  }

  lemma KeptIsNotDropped(layers: seq<seq<Entry>>, from: nat, p: Path)
    requires forall i :: 0 <= i < |layers| ==> LayerOk(layers[i])
    ensures KeptFrom(layers, from, p) <==> !DroppedFrom(layers, from, p)
  {
    forall j | from <= j < |layers|
      ensures Drops(layers[j], p) <==> Hides(SetOf(layers[j]), p) || Covers(SetOf(layers[j]), p)
    {
      DropsIsHidesOrCovers(layers[j], p);
    }
  }

  /** Some layer brings the path, or the tree beneath had it, and no later one drops it. */
  ghost predicate Remains(base: Nodes, layers: seq<seq<Entry>>, p: Path) {
    || (p in base && !DroppedFrom(layers, 0, p))
    || BroughtFrom(layers, 0, p)
  }

  ghost predicate BroughtFrom(layers: seq<seq<Entry>>, from: nat, p: Path) {
    exists i :: from <= i < |layers| && Brings(layers[i], p) && !DroppedFrom(layers, i + 1, p)
  }

  /** Over a whole image, from names alone: which paths are there in the end. */
  lemma ImageByNames(base: Nodes, layers: seq<seq<Entry>>, trees: seq<Nodes>, p: Path)
    requires forall i :: 0 <= i < |layers| ==> LayerOk(layers[i])
    requires Chain(base, layers, trees) && |trees| == |layers| + 1
    ensures p in trees[|layers|] <==> Remains(base, layers, p)
  {
    NewestMentionWins(base, layers, trees, p);
    KeptIsNotDropped(layers, 0, p);
    forall i | 0 <= i < |layers|
      ensures Mentions(layers[i], p) && KeptFrom(layers, i + 1, p) <==>
              Brings(layers[i], p) && !DroppedFrom(layers, i + 1, p)
    {
      BringsIsMentions(layers[i], p);
      KeptIsNotDropped(layers, i + 1, p);
    }
    if BroughtFrom(layers, 0, p) {
      var i :| 0 <= i < |layers| && Brings(layers[i], p) && !DroppedFrom(layers, i + 1, p);
      assert Mentions(layers[i], p) && KeptFrom(layers, i + 1, p);
    }
  }

  lemma DroppedIsForgotten(base: Nodes, layers: seq<seq<Entry>>, k: nat, p: Path)
    requires k < |layers| && Drops(layers[k], p)
    ensures Remains(base, layers, p) <==> BroughtFrom(layers, k, p)
  {
    assert DroppedFrom(layers, 0, p);
    if BroughtFrom(layers, 0, p) {
      var i :| 0 <= i < |layers| && Brings(layers[i], p) && !DroppedFrom(layers, i + 1, p);
      assert k <= i;
    }
  }

  /** Nothing of the lower layers comes through an opaque directory. */
  lemma OpaqueOverImage(base: Nodes, layers: seq<seq<Entry>>, trees: seq<Nodes>, k: nat, dir: Path, marker: Entry,
                        p: Path)
    requires forall i :: 0 <= i < |layers| ==> LayerOk(layers[i])
    requires Chain(base, layers, trees) && |trees| == |layers| + 1
    requires k < |layers| && marker in layers[k] && marker.path == dir + [".wh..wh..opq"] && dir < p
    ensures p in trees[|layers|] <==> BroughtFrom(layers, k, p)
  {
    ImageByNames(base, layers, trees, p);
    OpaqueDrops(layers[k], dir, marker, p);
    DroppedIsForgotten(base, layers, k, p);
  }

  /** Nothing of the lower layers comes through a whiteout. */
  lemma WhiteoutOverImage(base: Nodes, layers: seq<seq<Entry>>, trees: seq<Nodes>, k: nat, dir: Path, name: string,
                          marker: Entry, p: Path)
    requires forall i :: 0 <= i < |layers| ==> LayerOk(layers[i])
    requires Chain(base, layers, trees) && |trees| == |layers| + 1
    requires k < |layers| && marker in layers[k] && marker.path == dir + [".wh." + name]
    requires name != ".wh..opq" && dir + [name] <= p
    ensures p in trees[|layers|] <==> BroughtFrom(layers, k, p)
  {
    ImageByNames(base, layers, trees, p);
    WhiteoutDrops(layers[k], dir, name, marker, p);
    DroppedIsForgotten(base, layers, k, p);
  }

  /** Later layers say something about the path. */
  ghost predicate ChangedFrom(layers: seq<seq<Entry>>, from: nat, p: Path) {
    exists j :: from <= j < |layers| && (Drops(layers[j], p) || ListsPath(layers[j], p))
  }

  predicate FileListed(layer: seq<Entry>, p: Path, data: string, mode: nat, e: Entry) {
    IsListed(layer, p, e) && !e.directory && e.data == data && e.mode == mode
  }

  ghost predicate ListsAsFile(layer: seq<Entry>, p: Path, data: string, mode: nat) {
    exists e :: FileListed(layer, p, data, mode, e)
  }

  lemma UntouchedIsUnchanged(layers: seq<seq<Entry>>, from: nat, p: Path)
    requires forall i :: 0 <= i < |layers| ==> LayerOk(layers[i])
    ensures UntouchedFrom(layers, from, p) <==> !ChangedFrom(layers, from, p)
  {
    forall j | from <= j < |layers|
      ensures Untouched(SetOf(layers[j]), p) <==> !Drops(layers[j], p) && !ListsPath(layers[j], p)
    {
      DropsIsHidesOrCovers(layers[j], p);
      ListsIsListed(layers[j], p);
    }
  }

  lemma ListsFileByNames(layer: seq<Entry>, p: Path, data: string, mode: nat)
    requires LayerOk(layer)
    ensures ListsFile(layer, p, data, mode) <==> ListsAsFile(layer, p, data, mode)
  {
    ListsIsListed(layer, p);
    if ListsFile(layer, p, data, mode) {
      var e :| ListedAs(SetOf(layer), p, e) && !e.directory && e.data == data && e.mode == mode;
      assert FileListed(layer, p, data, mode, e);
    }
    if ListsAsFile(layer, p, data, mode) {
      var e :| FileListed(layer, p, data, mode, e);
      assert ListedAs(SetOf(layer), p, e);
    }
  }

  /** Some layer lists the path as this file, or the tree beneath had it so, and no later layer changed it. */
  ghost predicate FileRemains(base: Nodes, layers: seq<seq<Entry>>, p: Path, data: string, mode: nat) {
    || (Get(base, p) == Some(File(data, mode)) && !ChangedFrom(layers, 0, p))
    || exists i :: 0 <= i < |layers| && ListsAsFile(layers[i], p, data, mode) && !ChangedFrom(layers, i + 1, p)
  }

  /** Over a whole image, from names alone: which file is where, with which contents and mode. */
  lemma FilesByNames(base: Nodes, layers: seq<seq<Entry>>, trees: seq<Nodes>, p: Path, data: string, mode: nat)
    requires forall i :: 0 <= i < |layers| ==> LayerOk(layers[i])
    requires Chain(base, layers, trees) && |trees| == |layers| + 1
    ensures Get(trees[|layers|], p) == Some(File(data, mode)) <==> FileRemains(base, layers, p, data, mode)
  {
    NewestFileWins(base, layers, trees, p, data, mode);
    UntouchedIsUnchanged(layers, 0, p);
    forall i | 0 <= i < |layers|
      ensures ListsFile(layers[i], p, data, mode) && UntouchedFrom(layers, i + 1, p) <==>
              ListsAsFile(layers[i], p, data, mode) && !ChangedFrom(layers, i + 1, p)
    {
      ListsFileByNames(layers[i], p, data, mode);
      UntouchedIsUnchanged(layers, i + 1, p);
    }
  }

  /// When a layer applies

  /** Each marker names something that can be taken away. */
  predicate MarkersOk(layer: seq<Entry>) {
    forall e :: e in layer && Marker(e) ==> Last(e.path) !in {".wh.", ".wh..", ".wh..."}
  }

  /** No entry of the layer stands below a file of the layer. */
  predicate FilesAreLeaves(layer: seq<Entry>) {
    forall e, f :: e in layer && f in layer && !Marker(e) && !Marker(f) && !f.directory ==> !(f.path < e.path)
  }

  predicate DroppedByMarker(layer: seq<Entry>, i: nat, p: Path) {
    exists j :: 0 <= j < i && j < |layer| && Marker(layer[j]) && DropsBy(layer[j], p)
  }

  /** A lower file above a marker is dropped by an earlier marker. */
  ghost predicate MarkersReach(before: Nodes, layer: seq<Entry>) {
    forall i, a {:trigger Above(a, layer[i].path)} ::
      0 <= i < |layer| && Marker(layer[i]) && Above(a, layer[i].path) && a in before && before[a].File? ==>
      DroppedByMarker(layer, i, a)
  }

  predicate MadeDirectory(layer: seq<Entry>, i: nat, p: Path) {
    exists j :: 0 <= j < i && j < |layer| && !Marker(layer[j]) && layer[j].directory && layer[j].path == p
  }

  /** A lower file above an entry is dropped by some marker, or listed as a directory before that entry. */
  ghost predicate EntriesReach(before: Nodes, layer: seq<Entry>) {
    forall i, a {:trigger Above(a, layer[i].path)} ::
      0 <= i < |layer| && !Marker(layer[i]) && Above(a, layer[i].path) && a in before && before[a].File? ==>
      DroppedByMarker(layer, |layer|, a) || MadeDirectory(layer, i, a)
  }

  lemma MarkerAt(layer: seq<Entry>, i: nat, p: Path)
    requires LayerOk(layer) && i < |layer|
    ensures Marker(layer[i]) <==> Whiteout(layer[i])
    ensures Marker(layer[i]) ==> (DropsBy(layer[i], p) <==> HidesBy(layer[i], p))
  {
    MarkerIsWhiteout(layer, layer[i]);
    DropsByNames(layer, layer[i], p);
  }

  lemma DroppedIsHidden(layer: seq<Entry>, i: nat, p: Path)
    requires LayerOk(layer) && i <= |layer|
    ensures DroppedByMarker(layer, i, p) <==> exists j :: 0 <= j < i && HidesBy(layer[j], p)
  {
    forall j | 0 <= j < i ensures Marker(layer[j]) && DropsBy(layer[j], p) <==> HidesBy(layer[j], p) {
      MarkerAt(layer, j, p);
    }
  }

  lemma MarkersOkIsTargetsOk(layer: seq<Entry>)
    requires LayerOk(layer)
    ensures MarkersOk(layer) <==> TargetsOk(layer)
  {
    forall i | 0 <= i < |layer| && Marker(layer[i])
      ensures Whiteout(layer[i])
      ensures TargetOk(layer[i]) <==>
              Last(layer[i].path) != ".wh." && Last(layer[i].path) != ".wh.." && Last(layer[i].path) != ".wh..."
    {
      MarkerIsWhiteout(layer, layer[i]);
      NamesSomething(layer[i]);
    }
    forall i | 0 <= i < |layer| ensures Marker(layer[i]) <==> Whiteout(layer[i]) {
      MarkerIsWhiteout(layer, layer[i]);
    }
  }

  lemma NamesSomething(e: Entry)
    requires Marker(e)
    ensures TargetOk(e) <==> Last(e.path) != ".wh." && Last(e.path) != ".wh.." && Last(e.path) != ".wh..."
  {
    var name := Last(e.path);
    assert name == ".wh." + name[4..];
    assert Base(Target(e)) == name[4..];
    assert ".wh." + "" == ".wh." && ".wh." + "." == ".wh.." && ".wh." + ".." == ".wh...";
    assert ".wh."[4..] == "" && ".wh.."[4..] == "." && ".wh..."[4..] == "..";
  }

  lemma LeavesIsNoneCovered(layer: seq<Entry>)
    requires LayerOk(layer)
    ensures FilesAreLeaves(layer) <==> NoneCovered(SetOf(layer))
  {
    forall e | e in layer ensures Marker(e) <==> Whiteout(e) {
      MarkerIsWhiteout(layer, e);
    }
    if NoneCovered(SetOf(layer)) {
      forall e, f | e in layer && f in layer && !Marker(e) && !Marker(f) && !f.directory ensures !(f.path < e.path) {
        assert e in SetOf(layer) && !CoversBy(SetOf(layer), e.path, f);
      }
    }
    if FilesAreLeaves(layer) {
      forall e | e in SetOf(layer) && !Whiteout(e) ensures !Covers(SetOf(layer), e.path) {
        assert e in layer;
      }
    }
  }

  lemma MarkersReachExactly(before: Nodes, layer: seq<Entry>)
    requires LayerOk(layer)
    ensures MarkersReach(before, layer) <==> WhiteoutWaysCleared(before, layer)
  {
    forall i, a {:trigger Above(a, layer[i].path)} | 0 <= i < |layer| && Above(a, layer[i].path)
      ensures Marker(layer[i]) <==> Whiteout(layer[i])
      ensures DroppedByMarker(layer, i, a) <==> HiddenEarlier(layer, i, a)
    {
      MarkerAt(layer, i, a);
      DroppedIsHidden(layer, i, a);
    }
  }

  lemma HiddenIsDropped(layer: seq<Entry>, p: Path)
    requires LayerOk(layer)
    ensures DroppedByMarker(layer, |layer|, p) <==> Hides(SetOf(layer), p)
  {
    DroppedIsHidden(layer, |layer|, p);
    if Hides(SetOf(layer), p) {
      var e :| e in SetOf(layer) && HidesBy(e, p);
      var j :| 0 <= j < |layer| && layer[j] == e;
    }
    if exists j :: 0 <= j < |layer| && HidesBy(layer[j], p) {
      var j :| 0 <= j < |layer| && HidesBy(layer[j], p);
      assert layer[j] in SetOf(layer);
    }
  }

  lemma EntriesReachExactly(before: Nodes, layer: seq<Entry>)
    requires LayerOk(layer)
    ensures EntriesReach(before, layer) <==> WaysCleared(Unhidden(before, SetOf(layer)), layer)
  {
    var left := Unhidden(before, SetOf(layer));
    forall i, a {:trigger Above(a, layer[i].path)} | 0 <= i < |layer| && Above(a, layer[i].path)
      ensures Marker(layer[i]) <==> Whiteout(layer[i])
      ensures a in left && left[a].File? <==> a in before && before[a].File? && !DroppedByMarker(layer, |layer|, a)
      ensures MadeDirectory(layer, i, a) <==> MadeDirectoryEarlier(layer, i, a)
    {
      MarkerAt(layer, i, a);
      HiddenIsDropped(layer, a);
      MadeIsMade(layer, i, a);
    }
  }

  lemma MadeIsMade(layer: seq<Entry>, i: nat, a: Path)
    requires LayerOk(layer) && i < |layer|
    ensures MadeDirectory(layer, i, a) <==> MadeDirectoryEarlier(layer, i, a)
  {
    forall j | 0 <= j < i ensures Marker(layer[j]) <==> Whiteout(layer[j]) {
      MarkerAt(layer, j, a);
    }
  }

  /**
   A layer can be extracted over a tree exactly if each of its markers names something, none
   of its entries stands below one of its files, and every lower file in the way of a marker
   or an entry is out of the way in time.
   */
  lemma AppliesByNames(before: Nodes, layer: seq<Entry>)
    requires LayerOk(layer)
    ensures Applies(before, layer) <==>
            && MarkersOk(layer) && FilesAreLeaves(layer)
            && MarkersReach(before, layer) && EntriesReach(before, layer)
  {
    AppliesExactly(before, layer);
    MarkersOkIsTargetsOk(layer);
    LeavesIsNoneCovered(layer);
    MarkersReachExactly(before, layer);
    EntriesReachExactly(before, layer);
  }
}
