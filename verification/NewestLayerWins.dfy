/**
 What extraction means over a whole image: the newest layer that says anything about a
 path decides it, whiteouts act on lower layers alone, and the order of entries inside a
 layer can decide whether it applies but never what it leaves.
 */
module NewestLayerWins {
  import opened Wrappers
  import opened Extraction
  import opened FileTrees

  /** The layer says nothing about what is at `p`: it does not hide, replace or re-list it. */
  ghost predicate Untouched(layer: set<Entry>, p: Path) {
    !Hides(layer, p) && !Covers(layer, p) && !Lists(layer, p)
  }

  ghost predicate ListsFile(layer: seq<Entry>, p: Path, data: string, mode: nat) {
    exists e :: ListedAs(SetOf(layer), p, e) && !e.directory && e.data == data && e.mode == mode
  }

  ghost predicate Mentions(layer: seq<Entry>, p: Path) {
    Lists(SetOf(layer), p) || Implies(SetOf(layer), p)
  }

  ghost predicate UntouchedFrom(layers: seq<seq<Entry>>, i: nat, p: Path) {
    forall j {:trigger layers[j]} :: i <= j < |layers| ==> Untouched(SetOf(layers[j]), p)
  }

  /** Some layer, or the tree beneath, has `p` as this file and no later layer touches it. */
  ghost predicate IsFile(base: Nodes, layers: seq<seq<Entry>>, p: Path, data: string, mode: nat) {
    || (Get(base, p) == Some(File(data, mode)) && UntouchedFrom(layers, 0, p))
    || (exists i :: 0 <= i < |layers| && ListsFile(layers[i], p, data, mode) && UntouchedFrom(layers, i + 1, p))
  }

  ghost predicate KeptFrom(layers: seq<seq<Entry>>, i: nat, p: Path) {
    forall j {:trigger layers[j]} :: i <= j < |layers| ==> !Hides(SetOf(layers[j]), p) && !Covers(SetOf(layers[j]), p)
  }

  /** Some layer lists `p` or something below it, or the tree beneath has it, and no later layer removes it. */
  ghost predicate IsThere(base: Nodes, layers: seq<seq<Entry>>, p: Path) {
    || (p in base && KeptFrom(layers, 0, p))
    || (exists i :: 0 <= i < |layers| && Mentions(layers[i], p) && KeptFrom(layers, i + 1, p))
  }

  /// One layer

  /** The outcome depends on which entries a layer has, never on their order. */
  lemma OrderDoesNotChangeTheTree(before: Nodes, layer: seq<Entry>, other: seq<Entry>, x: Nodes, y: Nodes)
    requires SetOf(layer) == SetOf(other)
    requires After(before, SetOf(layer), x) && After(before, SetOf(other), y)
    ensures x == y
  {
    forall p
      ensures Get(x, p) == Get(y, p)
    {
    }
    assert forall p :: p in x <==> Get(x, p).Some?;
    assert forall p :: p in y <==> Get(y, p).Some?;
  }

  /** A layer's own whiteouts and implied directories leave its entries alone. */
  lemma OwnEntriesStand(before: Nodes, layer: set<Entry>, after: Nodes, e: Entry)
    requires Distinct(layer) && After(before, layer, after)
    requires e in layer && !Whiteout(e)
    ensures Get(after, e.path) == Some(NodeOf(e))
  {
    ListingIs(layer, e);
  }

  lemma FileStep(before: Nodes, layer: seq<Entry>, after: Nodes, p: Path, data: string, mode: nat)
    requires LayerOk(layer) && After(before, SetOf(layer), after)
    ensures Get(after, p) == Some(File(data, mode)) <==>
            ListsFile(layer, p, data, mode)
            || (Get(before, p) == Some(File(data, mode)) && Untouched(SetOf(layer), p))
  {
    var s := SetOf(layer);
    assert Get(after, p) == PutAt(Unhidden(before, s), s, p);
    if Lists(s, p) {
      var e := Listing(s, p);
      assert ListedAs(s, p, e);
      assert e in s && !Whiteout(e) && !Covers(s, e.path);
    }
  }

  lemma ThereStep(before: Nodes, layer: seq<Entry>, after: Nodes, p: Path)
    requires LayerOk(layer) && After(before, SetOf(layer), after)
    ensures p in after <==>
            Mentions(layer, p) || (p in before && !Hides(SetOf(layer), p) && !Covers(SetOf(layer), p))
  {
    var s := SetOf(layer);
    assert Get(after, p) == PutAt(Unhidden(before, s), s, p);
    if Lists(s, p) {
      var e := Listing(s, p);
      assert e in s && !Whiteout(e) && !Covers(s, e.path);
    } else if Implies(s, p) && Covers(s, p) {
      var e :| ImpliedBy(s, p, e);
      var f :| CoversBy(s, p, f);
      assert CoversBy(s, e.path, f);
    }
  }

  /// All layers

  lemma ChainPrefix(base: Nodes, layers: seq<seq<Entry>>, trees: seq<Nodes>)
    requires layers != [] && |trees| == |layers| + 1 && Chain(base, layers, trees)
    ensures Chain(base, layers[..|layers| - 1], trees[..|layers|])
    ensures After(trees[|layers| - 1], SetOf(layers[|layers| - 1]), trees[|layers|])
  {
    var n := |layers| - 1;
    assert Link(layers, trees, n);
    forall i | 0 <= i < n
      ensures Link(layers[..n], trees[..|layers|], i)
    {
      assert Link(layers, trees, i);
    }
  }

  /**
   A path is a file with given contents and mode exactly when its newest mention says
   so and nothing later touches it.
   */
  lemma {:induction false} NewestFileWins(base: Nodes, layers: seq<seq<Entry>>, trees: seq<Nodes>, p: Path,
                                          data: string, mode: nat)
    requires forall i :: 0 <= i < |layers| ==> LayerOk(layers[i])
    requires Chain(base, layers, trees) && |trees| == |layers| + 1
    ensures Get(trees[|layers|], p) == Some(File(data, mode)) <==> IsFile(base, layers, p, data, mode)
    decreases |layers|
  {
    if layers != [] {
      var n := |layers| - 1;
      var lower := layers[..n];
      ChainPrefix(base, layers, trees);
      NewestFileWins(base, lower, trees[..n + 1], p, data, mode);
      FileStep(trees[n], layers[n], trees[n + 1], p, data, mode);
      IsFileSnoc(base, layers, p, data, mode);
    }
  }

  lemma UntouchedSnoc(layers: seq<seq<Entry>>, i: nat, p: Path)
    requires i < |layers|
    ensures UntouchedFrom(layers, i, p) <==>
            UntouchedFrom(layers[..|layers| - 1], i, p) && Untouched(SetOf(layers[|layers| - 1]), p)
  {
    var n := |layers| - 1;
    assert forall j :: 0 <= j < n ==> layers[..n][j] == layers[j];
    if UntouchedFrom(layers, i, p) {
      assert Untouched(SetOf(layers[n]), p);
      forall j {:trigger layers[..n][j]} | i <= j < n ensures Untouched(SetOf(layers[..n][j]), p) {
        assert Untouched(SetOf(layers[j]), p);
      }
    }
    if UntouchedFrom(layers[..n], i, p) && Untouched(SetOf(layers[n]), p) {
      forall j {:trigger layers[j]} | i <= j <= n ensures Untouched(SetOf(layers[j]), p) {
        if j < n { assert Untouched(SetOf(layers[..n][j]), p); }
      }
    }
  }

  lemma IsFileSnoc(base: Nodes, layers: seq<seq<Entry>>, p: Path, data: string, mode: nat)
    requires layers != []
    ensures IsFile(base, layers, p, data, mode) <==>
            ListsFile(layers[|layers| - 1], p, data, mode)
            || (IsFile(base, layers[..|layers| - 1], p, data, mode) && Untouched(SetOf(layers[|layers| - 1]), p))
  {
    var n := |layers| - 1;
    var lower := layers[..n];
    UntouchedSnoc(layers, 0, p);
    forall i | 0 <= i < n
      ensures ListsFile(layers[i], p, data, mode) && UntouchedFrom(layers, i + 1, p) <==>
              ListsFile(lower[i], p, data, mode) && UntouchedFrom(lower, i + 1, p) && Untouched(SetOf(layers[n]), p)
    {
      UntouchedSnoc(layers, i + 1, p);
    }
    assert UntouchedFrom(layers, n + 1, p);
    var beneath := Get(base, p) == Some(File(data, mode)) && UntouchedFrom(lower, 0, p);
    if IsFile(base, lower, p, data, mode) && Untouched(SetOf(layers[n]), p) && !beneath {
      var i :| 0 <= i < |lower| && ListsFile(lower[i], p, data, mode) && UntouchedFrom(lower, i + 1, p);
      assert ListsFile(layers[i], p, data, mode) && UntouchedFrom(layers, i + 1, p);
    }
    if ListsFile(layers[n], p, data, mode) {
      assert 0 <= n < |layers| && UntouchedFrom(layers, n + 1, p);
    }
  }

  /** A path is present exactly when its newest mention is not removed later. */
  lemma {:induction false} NewestMentionWins(base: Nodes, layers: seq<seq<Entry>>, trees: seq<Nodes>, p: Path)
    requires forall i :: 0 <= i < |layers| ==> LayerOk(layers[i])
    requires Chain(base, layers, trees) && |trees| == |layers| + 1
    ensures p in trees[|layers|] <==> IsThere(base, layers, p)
    decreases |layers|
  {
    if layers != [] {
      var n := |layers| - 1;
      ChainPrefix(base, layers, trees);
      NewestMentionWins(base, layers[..n], trees[..n + 1], p);
      ThereStep(trees[n], layers[n], trees[n + 1], p);
      IsThereSnoc(base, layers, p);
    }
  }

  lemma KeptSnoc(layers: seq<seq<Entry>>, i: nat, p: Path)
    requires i < |layers|
    ensures KeptFrom(layers, i, p) <==>
            KeptFrom(layers[..|layers| - 1], i, p)
            && !Hides(SetOf(layers[|layers| - 1]), p) && !Covers(SetOf(layers[|layers| - 1]), p)
  {
    var n := |layers| - 1;
    assert forall j :: 0 <= j < n ==> layers[..n][j] == layers[j];
    if KeptFrom(layers, i, p) {
      assert layers[n] == layers[n];
      forall j {:trigger layers[..n][j]} | i <= j < n
        ensures !Hides(SetOf(layers[..n][j]), p) && !Covers(SetOf(layers[..n][j]), p)
      {
        assert layers[j] == layers[..n][j];
      }
    }
    if KeptFrom(layers[..n], i, p) && !Hides(SetOf(layers[n]), p) && !Covers(SetOf(layers[n]), p) {
      forall j {:trigger layers[j]} | i <= j <= n ensures !Hides(SetOf(layers[j]), p) && !Covers(SetOf(layers[j]), p) {
        if j < n { assert layers[..n][j] == layers[j]; }
      }
    }
  }

  /** `p` is kept by the newest layer. */
  ghost predicate KeptByLast(layers: seq<seq<Entry>>, p: Path)
    requires layers != []
  {
    !Hides(SetOf(layers[|layers| - 1]), p) && !Covers(SetOf(layers[|layers| - 1]), p)
  }

  lemma IsThereSnoc(base: Nodes, layers: seq<seq<Entry>>, p: Path)
    requires layers != []
    ensures IsThere(base, layers, p) <==>
            Mentions(layers[|layers| - 1], p) || (IsThere(base, layers[..|layers| - 1], p) && KeptByLast(layers, p))
  {
    if IsThere(base, layers, p) {
      WasThere(base, layers, p);
    }
    if Mentions(layers[|layers| - 1], p) {
      assert KeptFrom(layers, |layers|, p);
    }
    if IsThere(base, layers[..|layers| - 1], p) && KeptByLast(layers, p) {
      IsStillThere(base, layers, p);
    }
  }

  lemma WasThere(base: Nodes, layers: seq<seq<Entry>>, p: Path)
    requires layers != [] && IsThere(base, layers, p)
    ensures Mentions(layers[|layers| - 1], p) || (IsThere(base, layers[..|layers| - 1], p) && KeptByLast(layers, p))
  {
    var n := |layers| - 1;
    if p in base && KeptFrom(layers, 0, p) {
      KeptSnoc(layers, 0, p);
    } else {
      var i :| 0 <= i < |layers| && Mentions(layers[i], p) && KeptFrom(layers, i + 1, p);
      if i < n {
        KeptSnoc(layers, i + 1, p);
        assert layers[..n][i] == layers[i];
      }
    }
  }

  lemma IsStillThere(base: Nodes, layers: seq<seq<Entry>>, p: Path)
    requires layers != [] && IsThere(base, layers[..|layers| - 1], p) && KeptByLast(layers, p)
    ensures IsThere(base, layers, p)
  {
    var lower := layers[..|layers| - 1];
    if p in base && KeptFrom(lower, 0, p) {
      KeptSnoc(layers, 0, p);
    } else {
      var i :| 0 <= i < |lower| && Mentions(lower[i], p) && KeptFrom(lower, i + 1, p);
      KeptSnoc(layers, i + 1, p);
      assert Mentions(layers[i], p) && KeptFrom(layers, i + 1, p);
    }
  }

  /** A whole image unpacked over an empty filesystem. */
  ghost predicate Unpacked(layers: seq<seq<Entry>>, tree: Nodes) {
    exists trees :: UnpackedBy(layers, trees, tree)
  }

  ghost predicate UnpackedBy(layers: seq<seq<Entry>>, trees: seq<Nodes>, tree: Nodes) {
    Chain(map[], layers, trees) && |trees| == |layers| + 1 && trees[|layers|] == tree
  }

  /** Chains over the same layers agree as far as both go. */
  lemma {:induction false} ChainsAgree(base: Nodes, layers: seq<seq<Entry>>, x: seq<Nodes>, y: seq<Nodes>, i: nat)
    requires Chain(base, layers, x) && Chain(base, layers, y)
    requires i < |x| && i < |y|
    ensures x[i] == y[i]
  {
    if i > 0 {
      var j := i - 1;
      ChainsAgree(base, layers, x, y, j);
      assert Link(layers, x, j) && Link(layers, y, j);
      OrderDoesNotChangeTheTree(x[j], layers[j], layers[j], x[i], y[i]);
    }
  }

  /** An image unpacks to one tree only. */
  lemma UnpacksToOneTree(layers: seq<seq<Entry>>, x: Nodes, y: Nodes)
    requires Unpacked(layers, x) && Unpacked(layers, y)
    ensures x == y
  {
    var xs :| UnpackedBy(layers, xs, x);
    var ys :| UnpackedBy(layers, ys, y);
    ChainsAgree(map[], layers, xs, ys, |layers|);
  }

  lemma ChainApplies(base: Nodes, layers: seq<seq<Entry>>, trees: seq<Nodes>, i: nat)
    requires Chain(base, layers, trees) && i + 1 < |trees|
    ensures Applies(trees[i], layers[i])
  {
    assert Link(layers, trees, i);
  }

  /** Once the extraction got stuck, the image unpacks to nothing. */
  lemma StuckNeverUnpacks(layers: seq<seq<Entry>>, trees: seq<Nodes>, tree: Nodes)
    requires Chain(map[], layers, trees) && |trees| <= |layers|
    requires !Applies(trees[|trees| - 1], layers[|trees| - 1])
    ensures !Unpacked(layers, tree)
  {
    if Unpacked(layers, tree) {
      var ys :| UnpackedBy(layers, ys, tree);
      ChainApplies(map[], layers, ys, |trees| - 1);
      ChainsAgree(map[], layers, trees, ys, |trees| - 1);
    }
  }

  /// When a layer applies

  ghost predicate MadeDirectoryEarlier(layer: seq<Entry>, i: nat, a: Path) {
    exists j :: 0 <= j < i < |layer| && !Whiteout(layer[j]) && layer[j].directory && layer[j].path == a
  }

  /** Every lower file that an entry must stand below is turned into a directory before that entry. */
  ghost predicate WaysCleared(left: Nodes, layer: seq<Entry>) {
    forall i, a {:trigger Above(a, layer[i].path)} ::
      0 <= i < |layer| && !Whiteout(layer[i]) && Above(a, layer[i].path) && a in left && left[a].File? ==>
      MadeDirectoryEarlier(layer, i, a)
  }

  /**
   Where order matters: an entry applies exactly when each lower file above it was
   re-listed as a directory earlier.
   */
  lemma EntriesApplyExactly(left: Nodes, layer: seq<Entry>)
    requires LayerOk(layer) && NoneCovered(SetOf(layer))
    ensures EntriesApply(left, layer) <==> WaysCleared(left, layer)
  {
    forall i, a {:trigger Above(a, layer[i].path)} | 0 <= i < |layer| && !Whiteout(layer[i]) && Above(a, layer[i].path)
      ensures FileAt(PutAt(left, SetOf(layer[..i]), a)) <==>
                a in left && left[a].File? && !MadeDirectoryEarlier(layer, i, a)
    {
      WayCleared(left, layer, i, a);
    }
    if WaysCleared(left, layer) {
      forall i | 0 <= i < |layer|
        ensures EntryApplies(left, layer, i)
      {
      }
    }
    if EntriesApply(left, layer) {
      forall i, a {:trigger Above(a, layer[i].path)} |
        0 <= i < |layer| && !Whiteout(layer[i]) && Above(a, layer[i].path) && a in left && left[a].File?
        ensures MadeDirectoryEarlier(layer, i, a)
      {
        assert EntryApplies(left, layer, i);
      }
    }
  }

  lemma WayCleared(left: Nodes, layer: seq<Entry>, i: nat, a: Path)
    requires LayerOk(layer) && NoneCovered(SetOf(layer))
    requires i < |layer| && !Whiteout(layer[i]) && Above(a, layer[i].path)
    ensures FileAt(PutAt(left, SetOf(layer[..i]), a)) <==>
              a in left && left[a].File? && !MadeDirectoryEarlier(layer, i, a)
  {
    var s := SetOf(layer[..i]);
    assert layer[i] in SetOf(layer) && !Covers(SetOf(layer), layer[i].path);
    if Covers(s, a) {
      var f :| CoversBy(s, a, f);
      assert CoversBy(SetOf(layer), layer[i].path, f);
    }
    PrefixIsDistinct(layer, i);
    if Lists(s, a) {
      var e := Listing(s, a);
      assert ListedAs(s, a, e);
      if !e.directory {
        assert CoversBy(SetOf(layer), layer[i].path, e);
      }
      var j :| 0 <= j < i && layer[..i][j] == e;
      assert layer[j] == e;
    }
    if MadeDirectoryEarlier(layer, i, a) {
      var j :| 0 <= j < i && !Whiteout(layer[j]) && layer[j].directory && layer[j].path == a;
      assert layer[..i][j] == layer[j];
      ListingIs(s, layer[j]);
    }
  }

  /// The whole layer

  predicate HiddenEarlier(layer: seq<Entry>, i: nat, a: Path) {
    exists j :: 0 <= j < i < |layer| && HidesBy(layer[j], a)
  }

  predicate TargetsOk(layer: seq<Entry>) {
    forall i :: 0 <= i < |layer| && Whiteout(layer[i]) ==> TargetOk(layer[i])
  }

  /** Every lower file above a whiteout is hidden by an earlier whiteout. */
  ghost predicate WhiteoutWaysCleared(before: Nodes, layer: seq<Entry>) {
    forall i, a {:trigger Above(a, layer[i].path)} ::
      0 <= i < |layer| && Whiteout(layer[i]) && Above(a, layer[i].path) && a in before && before[a].File? ==>
      HiddenEarlier(layer, i, a)
  }

  lemma HiddenByPrefix(layer: seq<Entry>, i: nat, a: Path)
    requires i < |layer|
    ensures Hides(SetOf(layer[..i]), a) <==> HiddenEarlier(layer, i, a)
  {
    if Hides(SetOf(layer[..i]), a) {
      var e :| e in SetOf(layer[..i]) && HidesBy(e, a);
      var j :| 0 <= j < i && layer[..i][j] == e;
      assert layer[j] == e;
    }
    if HiddenEarlier(layer, i, a) {
      var j :| 0 <= j < i && HidesBy(layer[j], a);
      assert layer[..i][j] == layer[j];
    }
  }

  lemma WhiteoutsApplyExactly(before: Nodes, layer: seq<Entry>)
    ensures WhiteoutsApply(before, layer) <==> TargetsOk(layer) && WhiteoutWaysCleared(before, layer)
  {
    if WhiteoutsApply(before, layer) {
      forall i | 0 <= i < |layer| && Whiteout(layer[i]) ensures TargetOk(layer[i]) {
        assert WhiteoutApplies(before, layer, i);
      }
      forall i, a {:trigger Above(a, layer[i].path)} |
        0 <= i < |layer| && Whiteout(layer[i]) && Above(a, layer[i].path) && a in before && before[a].File?
        ensures HiddenEarlier(layer, i, a)
      {
        assert WhiteoutApplies(before, layer, i);
        HiddenByPrefix(layer, i, a);
      }
    }
    if TargetsOk(layer) && WhiteoutWaysCleared(before, layer) {
      forall i | 0 <= i < |layer| ensures WhiteoutApplies(before, layer, i) {
        var left := Unhidden(before, SetOf(layer[..i]));
        forall a | a in left && left[a].File? && Above(a, layer[i].path) ensures !Whiteout(layer[i]) {
          HiddenByPrefix(layer, i, a);
        }
      }
    }
  }

  /**
   When a layer applies: its whiteouts name something, no entry stands below another
   that is a file, each lower file above a whiteout is hidden before it, and each one
   left above an entry is re-listed as a directory before it.
   */
  lemma AppliesExactly(before: Nodes, layer: seq<Entry>)
    requires LayerOk(layer)
    ensures Applies(before, layer) <==>
            && TargetsOk(layer) && NoneCovered(SetOf(layer))
            && WhiteoutWaysCleared(before, layer) && WaysCleared(Unhidden(before, SetOf(layer)), layer)
  {
    WhiteoutsApplyExactly(before, layer);
    if NoneCovered(SetOf(layer)) {
      EntriesApplyExactly(Unhidden(before, SetOf(layer)), layer);
    }
  }

  /** Shorter paths first. */
  predicate ShallowFirst(layer: seq<Entry>) {
    forall i, j {:trigger layer[i], layer[j]} ::
      0 <= i < |layer| && 0 <= j < |layer| && |layer[i].path| < |layer[j].path| ==> i < j
  }

  /** Whatever hides a path lies no deeper than it. */
  lemma HidersAreShallow(e: Entry, a: Path)
    requires e.path != [] && HidesBy(e, a)
    ensures |e.path| <= |a|
  {
  }

  predicate RelistedAs(layer: set<Entry>, a: Path, e: Entry) {
    e in layer && !Whiteout(e) && e.directory && e.path == a
  }

  /** What a layer needs in whatever order: its set of entries clears every way that one of them has to take. */
  ghost predicate Clearable(before: Nodes, layer: set<Entry>) {
    && NoneCovered(layer)
    && (forall e :: e in layer && Whiteout(e) ==> TargetOk(e))
    && (forall e, a {:trigger Above(a, e.path)} ::
          e in layer && Above(a, e.path) && a in before && before[a].File? ==>
          Hides(layer, a) || (!Whiteout(e) && exists d :: RelistedAs(layer, a, d)))
  }

  lemma AppliesOnlyIfClearable(before: Nodes, layer: seq<Entry>)
    requires LayerOk(layer) && Applies(before, layer)
    ensures Clearable(before, SetOf(layer))
  {
    var s := SetOf(layer);
    AppliesExactly(before, layer);
    forall e | e in s && Whiteout(e) ensures TargetOk(e) {
      var i :| 0 <= i < |layer| && layer[i] == e;
    }
    forall e, a {:trigger Above(a, e.path)} | e in s && Above(a, e.path) && a in before && before[a].File?
      ensures Hides(s, a) || (!Whiteout(e) && exists d :: RelistedAs(s, a, d))
    {
      var i :| 0 <= i < |layer| && layer[i] == e;
      if Whiteout(e) {
        assert HiddenEarlier(layer, i, a);
        var j :| 0 <= j < i && HidesBy(layer[j], a);
        assert layer[j] in s;
      } else if !Hides(s, a) {
        assert a in Unhidden(before, s) && MadeDirectoryEarlier(layer, i, a);
        var j :| 0 <= j < i && !Whiteout(layer[j]) && layer[j].directory && layer[j].path == a;
        assert RelistedAs(s, a, layer[j]);
      }
    }
  }

  lemma ClearableAppliesShallowFirst(before: Nodes, layer: seq<Entry>)
    requires LayerOk(layer) && ShallowFirst(layer) && Clearable(before, SetOf(layer))
    ensures Applies(before, layer)
  {
    var s := SetOf(layer);
    forall i, a {:trigger Above(a, layer[i].path)} |
      0 <= i < |layer| && Whiteout(layer[i]) && Above(a, layer[i].path) && a in before && before[a].File?
      ensures HiddenEarlier(layer, i, a)
    {
      assert layer[i] in s;
      var e :| e in s && HidesBy(e, a);
      var j :| 0 <= j < |layer| && layer[j] == e;
      HidersAreShallow(e, a);
    }
    forall i, a {:trigger Above(a, layer[i].path)} |
      && 0 <= i < |layer| && !Whiteout(layer[i]) && Above(a, layer[i].path)
      && a in Unhidden(before, s) && Unhidden(before, s)[a].File?
      ensures MadeDirectoryEarlier(layer, i, a)
    {
      assert layer[i] in s && a in before;
      var d :| RelistedAs(s, a, d);
      var j :| 0 <= j < |layer| && layer[j] == d;
    }
    assert TargetsOk(layer) by {
      forall i | 0 <= i < |layer| && Whiteout(layer[i]) ensures TargetOk(layer[i]) { assert layer[i] in s; }
    }
    AppliesExactly(before, layer);
  }

  /**
   With its shorter paths first a layer applies exactly when it is clearable, and so
   whenever it applies in any order.
   */
  lemma ShallowFirstApplies(before: Nodes, layer: seq<Entry>, sorted: seq<Entry>)
    requires LayerOk(layer) && LayerOk(sorted) && SetOf(layer) == SetOf(sorted) && ShallowFirst(sorted)
    ensures Applies(before, sorted) <==> Clearable(before, SetOf(sorted))
    ensures Applies(before, layer) ==> Applies(before, sorted)
  {
    if Applies(before, layer) {
      AppliesOnlyIfClearable(before, layer);
    }
    if Applies(before, sorted) {
      AppliesOnlyIfClearable(before, sorted);
    }
    if Clearable(before, SetOf(sorted)) {
      ClearableAppliesShallowFirst(before, sorted);
    }
  }

  /// Inputs whose order decides

  const LOWER_FILE: Nodes := map[["a"] := File("", 0)]
  const DIRECTORY: Entry := Entry(["a"], true, 0, "")
  const CHILD: Entry := Entry(["a", "b"], false, 0, "")

  /** Over a lower file `a`, listing `a/b` before the directory `a` fails; the other order succeeds. */
  lemma OrderDecidesSuccess()
    ensures WellFormed(LOWER_FILE) && LayerOk([DIRECTORY, CHILD])
    ensures Applies(LOWER_FILE, [DIRECTORY, CHILD])
    ensures !Applies(LOWER_FILE, [CHILD, DIRECTORY])
  {
    assert forall x: Path :: Above(x, ["a"]) ==> x == [];
    assert !Whiteout(DIRECTORY) && !Whiteout(CHILD);
    ChildLast([DIRECTORY, CHILD]);
    ChildFirst([CHILD, DIRECTORY]);
  }

  lemma NothingElse(layer: seq<Entry>)
    requires SetOf(layer) == {DIRECTORY, CHILD}
    ensures NoneCovered(SetOf(layer)) && Unhidden(LOWER_FILE, SetOf(layer)) == LOWER_FILE
  {
    assert !Whiteout(DIRECTORY) && !Whiteout(CHILD);
    assert !Covers({DIRECTORY, CHILD}, DIRECTORY.path) && !Covers({DIRECTORY, CHILD}, CHILD.path);
  }

  lemma ChildLast(layer: seq<Entry>)
    requires layer == [DIRECTORY, CHILD]
    ensures Applies(LOWER_FILE, layer)
  {
    assert !Whiteout(DIRECTORY) && !Whiteout(CHILD);
    assert SetOf(layer) == {DIRECTORY, CHILD};
    NothingElse(layer);
    EntriesApplyExactly(LOWER_FILE, layer);
    assert MadeDirectoryEarlier(layer, 1, ["a"]);
    assert !Above(["a"], DIRECTORY.path);
  }

  lemma ChildFirst(layer: seq<Entry>)
    requires layer == [CHILD, DIRECTORY]
    ensures !Applies(LOWER_FILE, layer)
  {
    assert !Whiteout(DIRECTORY) && !Whiteout(CHILD);
    assert SetOf(layer) == {DIRECTORY, CHILD};
    NothingElse(layer);
    EntriesApplyExactly(LOWER_FILE, layer);
    assert Above(["a"], layer[0].path) && !MadeDirectoryEarlier(layer, 0, ["a"]);
    assert !WaysCleared(LOWER_FILE, layer);
  }

  const WHITEOUT: Entry := Entry([".wh.a"], false, 0, "")
  const BELOW: Entry := Entry(["a", ".wh.b"], false, 0, "")

  /** Nor is the order of whiteouts free: over a lower file `a`, `a/.wh.b` fails unless `.wh.a` came before it. */
  lemma WhiteoutOrderDecidesSuccess()
    ensures LayerOk([WHITEOUT, BELOW]) && LayerOk([BELOW, WHITEOUT])
    ensures Applies(LOWER_FILE, [WHITEOUT, BELOW])
    ensures !Applies(LOWER_FILE, [BELOW, WHITEOUT])
  {
    WhiteoutsOfExample();
    OnlyWhiteouts([WHITEOUT, BELOW]);
    OnlyWhiteouts([BELOW, WHITEOUT]);
    AppliesExactly(LOWER_FILE, [WHITEOUT, BELOW]);
    AppliesExactly(LOWER_FILE, [BELOW, WHITEOUT]);
    HiddenFirst([WHITEOUT, BELOW]);
    HiddenTooLate([BELOW, WHITEOUT]);
  }

  lemma WhiteoutsOfExample()
    ensures Whiteout(WHITEOUT) && !Opaque(WHITEOUT) && Target(WHITEOUT) == ["a"] && TargetOk(WHITEOUT)
    ensures Whiteout(BELOW) && !Opaque(BELOW) && Target(BELOW) == ["a", "b"] && TargetOk(BELOW)
  {
    assert Target(WHITEOUT) == [] + ["a"];
    assert Target(BELOW) == ["a"] + ["b"];
  }

  lemma OnlyWhiteouts(layer: seq<Entry>)
    requires forall i :: 0 <= i < |layer| ==> layer[i] in {WHITEOUT, BELOW}
    ensures TargetsOk(layer) && NoneCovered(SetOf(layer))
    ensures forall left :: WaysCleared(left, layer)
  {
    WhiteoutsOfExample();
  }

  lemma HiddenFirst(layer: seq<Entry>)
    requires layer == [WHITEOUT, BELOW]
    ensures WhiteoutWaysCleared(LOWER_FILE, layer)
  {
    WhiteoutsOfExample();
    assert HidesBy(layer[0], ["a"]);
    assert HiddenEarlier(layer, 1, ["a"]);
    assert !Above(["a"], WHITEOUT.path);
  }

  lemma HiddenTooLate(layer: seq<Entry>)
    requires layer == [BELOW, WHITEOUT]
    ensures !WhiteoutWaysCleared(LOWER_FILE, layer)
  {
    WhiteoutsOfExample();
    assert Above(["a"], layer[0].path) && !HiddenEarlier(layer, 0, ["a"]);
  }
}
