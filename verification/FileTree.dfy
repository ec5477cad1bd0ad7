/**
 The extraction itself: nested loops that remove, create and overwrite the nodes of a
 tree, and the specification they meet.
 */
module FileTrees {
  import opened Wrappers
  import opened Extraction

  function Without(nodes: Nodes, target: Path): Nodes {
    map p | p in nodes && !AtOrAbove(target, p) :: nodes[p]
  }

  function Emptied(nodes: Nodes, dir: Path): Nodes {
    map p | p in nodes && !Above(dir, p) :: nodes[p]
  }

  predicate NewDirectory(nodes: Nodes, dir: Path, p: Path) {
    p != [] && AtOrAbove(p, dir) && p !in nodes
  }

  /** The tree with all directories down to `dir`. */
  ghost predicate Made(before: Nodes, dir: Path, after: Nodes) {
    forall p {:trigger Get(after, p)} ::
      Get(after, p) == if NewDirectory(before, dir, p) then Some(Dir(IMPLIED_MODE)) else Get(before, p)
  }

  predicate NoDirectory(nodes: Nodes, dir: Path) {
    Blocked(nodes, dir) || (dir in nodes && nodes[dir].File?)
  }

  lemma MadeSnoc(before: Nodes, dir: Path, name: string, mid: Nodes)
    requires Made(before, dir, mid)
    ensures Made(before, dir + [name],
                 if dir + [name] in mid then mid else mid[dir + [name] := Dir(IMPLIED_MODE)])
  {
    var next := dir + [name];
    var after := if next in mid then mid else mid[next := Dir(IMPLIED_MODE)];
    forall p
      ensures Get(after, p) == if NewDirectory(before, next, p) then Some(Dir(IMPLIED_MODE)) else Get(before, p)
    {
      assert AtOrAbove(p, next) <==> p == next || AtOrAbove(p, dir) by {
        if AtOrAbove(p, next) && p != next { assert p == next[..|p|] == dir[..|p|]; }
      }
      assert !AtOrAbove(next, dir);
      assert Get(mid, p) == if NewDirectory(before, dir, p) then Some(Dir(IMPLIED_MODE)) else Get(before, p);
    }
  }

  /** What putting one entry leaves at `p`; a node of the same kind keeps its mode. */
  function PutOne(before: Nodes, e: Entry, p: Path): Option<Node> {
    if p == e.path && e.directory then
      Some(if p in before && before[p].Dir? then before[p] else Dir(IMPLIED_MODE))
    else if p == e.path then
      Some(File(e.data, if p in before && before[p].File? then before[p].mode else NEW_FILE_MODE))
    else if !e.directory && Above(e.path, p) then None
    else if NewDirectory(before, Parent(e.path), p) then Some(Dir(IMPLIED_MODE))
    else Get(before, p)
  }

  ghost predicate Put(before: Nodes, e: Entry, after: Nodes) {
    forall p {:trigger Get(after, p)} :: Get(after, p) == PutOne(before, e, p)
  }

  /** Equal, except that the mode of a listed node is still open. */
  predicate Agrees(x: Option<Node>, y: Option<Node>, listed: bool) {
    || x == y
    || (listed && x.Some? && y.Some? && x.value.Dir? == y.value.Dir?
        && (x.value.File? ==> x.value.data == y.value.data))
  }

  ghost predicate Built(left: Nodes, layer: set<Entry>, after: Nodes) {
    forall p {:trigger Get(after, p)} :: Agrees(Get(after, p), PutAt(left, layer, p), Lists(layer, p))
  }

  function WithMode(node: Node, mode: nat): Node {
    if node.Dir? then Dir(mode) else File(node.data, mode)
  }

  ghost predicate Moded(before: Nodes, layer: set<Entry>, after: Nodes) {
    forall p {:trigger Get(after, p)} ::
      Get(after, p) == if Lists(layer, p) && p in before then Some(WithMode(before[p], Listing(layer, p).mode))
                       else Get(before, p)
  }

  ghost predicate AllThere(layer: set<Entry>, nodes: Nodes) {
    forall e :: e in layer && !Whiteout(e) ==> e.path in nodes
  }

  predicate Distinct(layer: set<Entry>) {
    && (forall e :: e in layer ==> e.path != [])
    && (forall e, g :: e in layer && g in layer && e.path == g.path ==> e == g)
  }

  class FileTree {
    var nodes: Nodes

    constructor (nodes: Nodes)
      ensures this.nodes == nodes
    {
      this.nodes := nodes;
    }

    /** Removing what does not exist is no error; a file on the way there is. */
    method RemoveAll(target: Path) returns (ok: bool)
      requires WellFormed(nodes)
      modifies this
      ensures WellFormed(nodes)
      ensures ok <==> !Blocked(old(nodes), target)
      ensures nodes == if ok then Without(old(nodes), target) else old(nodes)
    {
      if Blocked(nodes, target) {
        return false;
      }
      nodes := Without(nodes, target);
      return true;
    }

    method MkdirAll(dir: Path) returns (ok: bool)
      requires WellFormed(nodes)
      modifies this
      ensures WellFormed(nodes)
      ensures ok <==> !NoDirectory(old(nodes), dir)
      ensures if ok then Made(old(nodes), dir, nodes) else nodes == old(nodes)
    {
      if NoDirectory(nodes, dir) {
        return false;
      }
      for k := 1 to |dir| + 1
        invariant Made(old(nodes), dir[..k - 1], nodes)
        invariant [] !in nodes
      {
        MadeSnoc(old(nodes), dir[..k - 1], dir[k - 1], nodes);
        assert dir[..k] == dir[..k - 1] + [dir[k - 1]];
        if dir[..k] !in nodes {
          nodes := nodes[dir[..k] := Dir(IMPLIED_MODE)];
        }
      }
      assert dir[..|dir|] == dir;
      MadeIsWellFormed(old(nodes), dir, nodes);
      return true;
    }

    /** Removes the children of a directory one by one, in whatever order they are listed. */
    method Empty(dir: Path) returns (ok: bool)
      requires WellFormed(nodes)
      modifies this
      ensures WellFormed(nodes)
      ensures ok <==> !NoDirectory(old(nodes), dir)
      ensures nodes == if ok then Emptied(old(nodes), dir) else old(nodes)
    {
      if NoDirectory(nodes, dir) {
        return false;
      }
      var children := set p | p in nodes && |p| == |dir| + 1 && Above(dir, p);
      ghost var all := children;
      while children != {}
        invariant WellFormed(nodes)
        invariant children <= all
        invariant nodes == Removed(old(nodes), all - children)
      {
        var c :| c in children;
        NotBlockedBelow(old(nodes), nodes, dir, c);
        var removed := RemoveAll(c);
        RemovedOneMore(old(nodes), all - children, c);
        children := children - {c};
        assert all - children == all - (children + {c}) + {c};
      }
      RemovedAllChildren(old(nodes), dir, all);
      return true;
    }

    /** The first pass over a layer. */
    method RemoveHidden(layer: seq<Entry>) returns (ok: bool)
      requires WellFormed(nodes) && LayerOk(layer)
      modifies this
      ensures WellFormed(nodes)
      ensures ok <==> WhiteoutsApply(old(nodes), layer)
      ensures ok ==> nodes == Unhidden(old(nodes), SetOf(layer))
    {
      assert layer[..|layer|] == layer;
      for i := 0 to |layer|
        invariant WellFormed(nodes)
        invariant nodes == Unhidden(old(nodes), SetOf(layer[..i]))
        invariant forall j {:trigger WhiteoutApplies(old(nodes), layer, j)} :: 0 <= j < i ==>
                    WhiteoutApplies(old(nodes), layer, j)
      {
        var e := layer[i];
        SetOfSnoc(layer, i);
        UnhiddenSnoc(old(nodes), SetOf(layer[..i]), e);
        BlockedBesideOrAt(nodes, e);
        assert WhiteoutApplies(old(nodes), layer, i) <==> Whiteout(e) ==> TargetOk(e) && !Blocked(nodes, e.path);
        var done := true;
        if Opaque(e) {
          done := Empty(Parent(e.path));
        } else if Whiteout(e) {
          if !TargetOk(e) {
            return false;
          }
          done := RemoveAll(Target(e));
        }
        if !done {
          return false;
        }
      }
      return true;
    }

    method PutEntry(e: Entry) returns (ok: bool)
      requires WellFormed(nodes) && e.path != []
      modifies this
      ensures WellFormed(nodes)
      ensures ok <==> !Blocked(old(nodes), e.path)
      ensures ok ==> Put(old(nodes), e, nodes)
    {
      BlockedAtParent(nodes, e.path);
      ok := MkdirAll(Parent(e.path));
      if !ok {
        return;
      }
      ghost var made := nodes;
      NotBlockedOnceMade(old(nodes), e.path, made);
      if e.path in nodes && nodes[e.path].Dir? != e.directory {
        ok := RemoveAll(e.path);
      }
      ghost var cleared := nodes;
      assert forall p :: !AtOrAbove(e.path, p) ==> Get(cleared, p) == Get(made, p);
      NotBlockedOnceCleared(made, e.path, cleared);
      if e.directory {
        ok := MkdirAll(e.path);
      } else {
        nodes := nodes[e.path := File(e.data, if e.path in nodes then nodes[e.path].mode else NEW_FILE_MODE)];
      }
      PutTogether(old(nodes), e, made, cleared, nodes);
    }

    /** The second pass. */
    method PutEntries(layer: seq<Entry>) returns (ok: bool)
      requires WellFormed(nodes) && LayerOk(layer)
      modifies this
      ensures WellFormed(nodes)
      ensures ok <==> EntriesApply(old(nodes), layer)
      ensures ok ==> Built(old(nodes), SetOf(layer), nodes)
    {
      assert layer[..|layer|] == layer;
      NothingBuilt(old(nodes));
      assert SetOf(layer[..0]) == {};
      for i := 0 to |layer|
        invariant WellFormed(nodes)
        invariant Built(old(nodes), SetOf(layer[..i]), nodes)
        invariant forall j {:trigger EntryApplies(old(nodes), layer, j)} :: 0 <= j < i ==>
                    EntryApplies(old(nodes), layer, j)
      {
        var e := layer[i];
        if Whiteout(e) {
          WhiteoutIsSkipped(old(nodes), layer, i, nodes);
        } else {
          BlockedIsInTheWay(old(nodes), SetOf(layer[..i]), nodes, e.path);
          assert EntryApplies(old(nodes), layer, i) <==> !Blocked(nodes, e.path);
          ghost var before := nodes;
          var done := PutEntry(e);
          if !done {
            return false;
          }
          EntryIsPut(old(nodes), layer, i, before, nodes);
        }
      }
      return true;
    }

    /** The third pass, children before parents when the layer lists parents first. */
    method SetModes(layer: seq<Entry>) returns (ok: bool)
      requires WellFormed(nodes) && LayerOk(layer)
      modifies this
      ensures WellFormed(nodes)
      ensures ok <==> AllThere(SetOf(layer), old(nodes))
      ensures ok ==> Moded(old(nodes), SetOf(layer), nodes)
    {
      for i := |layer| downto 0
        invariant WellFormed(nodes)
        invariant nodes.Keys == old(nodes).Keys
        invariant AllThere(SetOf(layer[i..]), nodes)
        invariant Moded(old(nodes), SetOf(layer[i..]), nodes)
      {
        var e := layer[i];
        assert layer[i..] == [e] + layer[i + 1..];
        assert SetOf(layer[i..]) == SetOf(layer[i + 1..]) + {e};
        assert e in SetOf(layer);
        SuffixIsDistinct(layer, i);
        if !Whiteout(e) {
          if e.path !in nodes {
            return false;
          }
          ModedGrows(old(nodes), SetOf(layer[i + 1..]), e, nodes);
          nodes := nodes[e.path := WithMode(nodes[e.path], e.mode)];
        } else {
          ModedSkips(old(nodes), SetOf(layer[i + 1..]), e, nodes);
        }
      }
      assert layer[0..] == layer;
      return true;
    }

    /** Succeeds exactly when the layer applies, and then leaves what the layer means. */
    method ApplyLayer(layer: seq<Entry>) returns (ok: bool)
      requires WellFormed(nodes) && LayerOk(layer)
      modifies this
      ensures WellFormed(nodes)
      ensures ok <==> Applies(old(nodes), layer)
      ensures ok ==> After(old(nodes), SetOf(layer), nodes)
    {
      ok := RemoveHidden(layer);
      if !ok {
        return;
      }
      ghost var left := nodes;
      ok := PutEntries(layer);
      if !ok {
        return;
      }
      ghost var built := nodes;
      assert layer[..|layer|] == layer;
      PrefixIsDistinct(layer, |layer|);
      ThereIsUncovered(left, SetOf(layer), built);
      ok := SetModes(layer);
      if ok {
        FinishedLayer(left, SetOf(layer), built, nodes);
      }
    }

    /** Applies the layers bottom up; `trees` are the trees between them. */
    method ApplyLayers(layers: seq<seq<Entry>>) returns (ok: bool, ghost trees: seq<Nodes>)
      requires WellFormed(nodes) && forall i :: 0 <= i < |layers| ==> LayerOk(layers[i])
      modifies this
      ensures Chain(old(nodes), layers, trees)
      ensures ok <==> |trees| == |layers| + 1
      ensures ok ==> nodes == trees[|layers|]
      ensures !ok ==> !Applies(trees[|trees| - 1], layers[|trees| - 1])
    {
      trees := [nodes];
      for i := 0 to |layers|
        invariant WellFormed(nodes)
        invariant |trees| == i + 1 && trees[i] == nodes
        invariant Chain(old(nodes), layers, trees)
      {
        ok := ApplyLayer(layers[i]);
        if !ok {
          return;
        }
        ChainSnoc(old(nodes), layers, trees, nodes);
        trees := trees + [nodes];
      }
      return true, trees;
    }
  }

  /** Each tree comes from the one before by its layer. */
  ghost predicate Chain(base: Nodes, layers: seq<seq<Entry>>, trees: seq<Nodes>) {
    && 0 < |trees| <= |layers| + 1 && trees[0] == base
    && forall i {:trigger Link(layers, trees, i)} :: 0 <= i < |trees| - 1 ==> Link(layers, trees, i)
  }

  ghost predicate Link(layers: seq<seq<Entry>>, trees: seq<Nodes>, i: nat)
    requires i < |layers| && i + 1 < |trees|
  {
    Applies(trees[i], layers[i]) && After(trees[i], SetOf(layers[i]), trees[i + 1])
  }

  lemma ChainSnoc(base: Nodes, layers: seq<seq<Entry>>, trees: seq<Nodes>, next: Nodes)
    requires Chain(base, layers, trees) && |trees| <= |layers|
    requires Applies(trees[|trees| - 1], layers[|trees| - 1])
    requires After(trees[|trees| - 1], SetOf(layers[|trees| - 1]), next)
    ensures Chain(base, layers, trees + [next])
  {
    var longer := trees + [next];
    forall i | 0 <= i < |longer| - 1
      ensures Link(layers, longer, i)
    {
      assert i < |trees| - 1 ==> Link(layers, trees, i);
    }
  }

  /// Facts about single operations

  function Removed(nodes: Nodes, removed: set<Path>): Nodes {
    map p | p in nodes && !(exists c :: c in removed && AtOrAbove(c, p)) :: nodes[p]
  }

  lemma NotBlockedBelow(before: Nodes, nodes: Nodes, dir: Path, child: Path)
    requires forall p :: p in nodes ==> p in before && before[p] == nodes[p]
    requires |child| == |dir| + 1 && Above(dir, child)
    ensures Blocked(nodes, child) ==> NoDirectory(before, dir)
  {
    if Blocked(nodes, child) {
      var a :| a in nodes && nodes[a].File? && Above(a, child);
      assert a == child[..|a|] == dir[..|a|];
      assert a == dir || Above(a, dir);
    }
  }

  lemma RemovedOneMore(before: Nodes, removed: set<Path>, c: Path)
    ensures Without(Removed(before, removed), c) == Removed(before, removed + {c})
  {
  }

  lemma RemovedAllChildren(before: Nodes, dir: Path, all: set<Path>)
    requires WellFormed(before)
    requires all == set p | p in before && |p| == |dir| + 1 && Above(dir, p)
    ensures Removed(before, all) == Emptied(before, dir)
  {
    forall p | p in before
      ensures (exists c :: c in all && AtOrAbove(c, p)) <==> Above(dir, p)
    {
      if Above(dir, p) {
        var c := p[..|dir| + 1];
        assert c == p || Above(c, p);
        assert Above(dir, c) by { assert c[..|dir|] == dir; }
        assert c in all && AtOrAbove(c, p);
      }
    }
  }

  lemma UnhiddenSnoc(before: Nodes, layer: set<Entry>, e: Entry)
    ensures Unhidden(before, layer + {e}) ==
            if !Whiteout(e) then Unhidden(before, layer)
            else if Opaque(e) then Emptied(Unhidden(before, layer), Parent(e.path))
            else Without(Unhidden(before, layer), Target(e))
  {
    forall p
      ensures Hides(layer + {e}, p) <==> Hides(layer, p) || HidesBy(e, p)
    {
      if HidesBy(e, p) { assert e in layer + {e}; }
      if Hides(layer, p) {
        var f :| f in layer && HidesBy(f, p);
        assert f in layer + {e};
      }
    }
  }

  lemma BlockedAtParent(nodes: Nodes, p: Path)
    requires p != []
    ensures Blocked(nodes, p) <==> NoDirectory(nodes, Parent(p))
  {
    if Blocked(nodes, p) {
      var a :| a in nodes && nodes[a].File? && Above(a, p);
      assert a == Parent(p)[..|a|];
      assert a == Parent(p) || Above(a, Parent(p));
    }
    if Blocked(nodes, Parent(p)) {
      var a :| a in nodes && nodes[a].File? && Above(a, Parent(p));
      assert Above(a, p) by { assert a == p[..|a|]; }
    }
    assert Above(Parent(p), p);
  }

  /** What is in the way of a whiteout is in the way of what it names. */
  lemma BlockedBesideOrAt(nodes: Nodes, e: Entry)
    requires e.path != []
    ensures Blocked(nodes, e.path) <==> NoDirectory(nodes, Parent(e.path))
    ensures Whiteout(e) ==> (Blocked(nodes, Target(e)) <==> Blocked(nodes, e.path))
  {
    BlockedAtParent(nodes, e.path);
    if Whiteout(e) {
      BlockedAtParent(nodes, Target(e));
      assert Parent(Target(e)) == Parent(e.path);
    }
  }

  lemma NotBlockedOnceMade(before: Nodes, p: Path, made: Nodes)
    requires Made(before, Parent(p), made)
    ensures Blocked(made, p) ==> Blocked(before, p)
  {
    if Blocked(made, p) {
      var a :| a in made && made[a].File? && Above(a, p);
      assert Get(made, a).Some?;
      assert a in before && before[a].File?;
    }
  }

  lemma NotBlockedOnceCleared(made: Nodes, p: Path, cleared: Nodes)
    requires forall q :: !AtOrAbove(p, q) ==> Get(cleared, q) == Get(made, q)
    ensures Blocked(cleared, p) ==> Blocked(made, p)
  {
    if Blocked(cleared, p) {
      var a :| a in cleared && cleared[a].File? && Above(a, p);
      assert !AtOrAbove(p, a);
      assert Get(made, a) == Get(cleared, a);
    }
  }

  lemma MadeIsWellFormed(before: Nodes, dir: Path, after: Nodes)
    requires WellFormed(before) && !NoDirectory(before, dir)
    requires Made(before, dir, after)
    ensures WellFormed(after)
  {
    assert Get(after, []) == Get(before, []);
    forall a, p | p in after && Above(a, p) && a != []
      ensures a in after && after[a].Dir?
    {
      assert Get(after, p).Some? && Get(after, a) == Get(after, a);
      if p !in before {
        assert AtOrAbove(a, dir);
      }
    }
  }

  /** A file written over one keeps its mode. */
  function Written(nodes: Nodes, e: Entry): Node {
    File(e.data, if e.path in nodes && nodes[e.path].File? then nodes[e.path].mode else NEW_FILE_MODE)
  }

  lemma PutTogether(before: Nodes, e: Entry, made: Nodes, cleared: Nodes, after: Nodes)
    requires e.path != [] && !Blocked(before, e.path) && !Blocked(cleared, e.path)
    requires WellFormed(before) && WellFormed(made) && WellFormed(cleared)
    requires Made(before, Parent(e.path), made)
    requires cleared == if e.path in made && made[e.path].Dir? != e.directory then Without(made, e.path) else made
    requires if e.directory then Made(cleared, e.path, after) else after == cleared[e.path := Written(cleared, e)]
    ensures Put(before, e, after)
    ensures WellFormed(after)
  {
    forall p
      ensures Get(after, p) == PutOne(before, e, p)
    {
      PutTogetherAt(before, e, made, cleared, after, p);
    }
    if e.directory {
      MadeIsWellFormed(cleared, e.path, after);
    } else {
      forall a, p | p in after && Above(a, p) && a != []
        ensures a in after && after[a].Dir?
      {
        if p == e.path {
          assert AtOrAbove(a, Parent(e.path));
          assert Get(made, a).Some?;
        }
      }
    }
  }

  lemma PutTogetherAt(before: Nodes, e: Entry, made: Nodes, cleared: Nodes, after: Nodes, p: Path)
    requires e.path != [] && !Blocked(before, e.path) && !Blocked(cleared, e.path)
    requires WellFormed(before) && WellFormed(made) && WellFormed(cleared)
    requires Made(before, Parent(e.path), made)
    requires cleared == if e.path in made && made[e.path].Dir? != e.directory then Without(made, e.path) else made
    requires if e.directory then Made(cleared, e.path, after) else after == cleared[e.path := Written(cleared, e)]
    ensures Get(after, p) == PutOne(before, e, p)
  {
    var q := e.path;
    assert Get(made, p) == if NewDirectory(before, Parent(q), p) then Some(Dir(IMPLIED_MODE)) else Get(before, p);
    assert Get(made, q) == Get(before, q);
    if e.directory {
      assert Get(after, p) == if NewDirectory(cleared, q, p) then Some(Dir(IMPLIED_MODE)) else Get(cleared, p);
    }
    assert AtOrAbove(p, Parent(q)) ==> p == q[..|p|];
    if AtOrAbove(p, q) && p != q {
      assert p == Parent(q)[..|p|];
      assert !AtOrAbove(q, p);
    } else if p != q {
      if Above(q, p) {
        assert p in made ==> q in made && made[q].Dir?;
        assert p in before ==> q in before && before[q].Dir?;
      } else {
        assert !AtOrAbove(q, p);
      }
    }
  }

  /// Facts about whole passes

  lemma PrefixIsDistinct(layer: seq<Entry>, i: nat)
    requires LayerOk(layer) && i <= |layer|
    ensures Distinct(SetOf(layer[..i]))
    ensures i < |layer| ==> Distinct(SetOf(layer[..i]) + {layer[i]}) && layer[i] !in SetOf(layer[..i])
  {
  }

  lemma SuffixIsDistinct(layer: seq<Entry>, i: nat)
    requires LayerOk(layer) && i < |layer|
    ensures Distinct(SetOf(layer[i + 1..]) + {layer[i]}) && layer[i] !in SetOf(layer[i + 1..])
  {
  }

  lemma NothingBuilt(left: Nodes)
    ensures Built(left, {}, left)
  {
  }

  lemma MembersOfUnion(layer: set<Entry>, e: Entry, p: Path)
    ensures Covers(layer + {e}, p) <==> Covers(layer, p) || CoversBy(layer + {e}, p, e)
    ensures Lists(layer + {e}, p) <==> Lists(layer, p) || ListedAs(layer + {e}, p, e)
    ensures Implies(layer + {e}, p) <==> Implies(layer, p) || ImpliedBy(layer + {e}, p, e)
  {
    if Covers(layer, p) { var f :| CoversBy(layer, p, f); assert CoversBy(layer + {e}, p, f); }
    if Lists(layer, p) { var f :| ListedAs(layer, p, f); assert ListedAs(layer + {e}, p, f); }
    if Implies(layer, p) { var f :| ImpliedBy(layer, p, f); assert ImpliedBy(layer + {e}, p, f); }
    if Covers(layer + {e}, p) { var f :| CoversBy(layer + {e}, p, f); assert f == e || CoversBy(layer, p, f); }
    if Lists(layer + {e}, p) { var f :| ListedAs(layer + {e}, p, f); assert f == e || ListedAs(layer, p, f); }
    if Implies(layer + {e}, p) { var f :| ImpliedBy(layer + {e}, p, f); assert f == e || ImpliedBy(layer, p, f); }
  }

  lemma ListingOfUnion(layer: set<Entry>, e: Entry, p: Path)
    requires Distinct(layer + {e}) && Lists(layer, p)
    ensures Lists(layer + {e}, p) && Listing(layer + {e}, p) == Listing(layer, p)
  {
    assert ListedAs(layer + {e}, p, Listing(layer, p));
  }

  lemma BuiltSkips(left: Nodes, layer: set<Entry>, e: Entry, nodes: Nodes)
    requires Distinct(layer + {e}) && Whiteout(e) && Built(left, layer, nodes)
    ensures Built(left, layer + {e}, nodes)
  {
    forall p
      ensures Agrees(Get(nodes, p), PutAt(left, layer + {e}, p), Lists(layer + {e}, p))
    {
      MembersOfUnion(layer, e, p);
      if Lists(layer, p) { ListingOfUnion(layer, e, p); }
      assert Agrees(Get(nodes, p), PutAt(left, layer, p), Lists(layer, p));
    }
  }

  /** A file blocks the way in the tree exactly when one does in the meaning. */
  lemma BlockedIsInTheWay(left: Nodes, layer: set<Entry>, nodes: Nodes, q: Path)
    requires Built(left, layer, nodes)
    ensures Blocked(nodes, q) <==> InTheWay(left, layer, q)
  {
    if Blocked(nodes, q) {
      var a :| a in nodes && nodes[a].File? && Above(a, q);
      assert Agrees(Get(nodes, a), PutAt(left, layer, a), Lists(layer, a));
      assert FileAt(PutAt(left, layer, a));
    }
    if InTheWay(left, layer, q) {
      var a :| Above(a, q) && FileAt(PutAt(left, layer, a));
      assert Agrees(Get(nodes, a), PutAt(left, layer, a), Lists(layer, a));
    }
  }

  lemma UnblockedIsUncovered(left: Nodes, layer: set<Entry>, q: Path)
    requires Distinct(layer)
    ensures Covers(layer, q) ==> InTheWay(left, layer, q)
  {
    if Covers(layer, q) {
      var f :| CoversBy(layer, q, f);
      var a := ShortestCover(left, layer, q, f);
    }
  }

  lemma BuiltGrows(left: Nodes, layer: set<Entry>, e: Entry, before: Nodes, after: Nodes)
    requires Distinct(layer + {e}) && !Whiteout(e) && e !in layer
    requires WellFormed(before) && !Blocked(before, e.path)
    requires Built(left, layer, before) && Put(before, e, after)
    ensures Built(left, layer + {e}, after)
  {
    assert Distinct(layer);
    BlockedIsInTheWay(left, layer, before, e.path);
    UnblockedIsUncovered(left, layer, e.path);
    forall p
      ensures Agrees(Get(after, p), PutAt(left, layer + {e}, p), Lists(layer + {e}, p))
    {
      BuiltGrowsAt(left, layer, e, before, after, p);
    }
  }

  lemma BuiltGrowsAt(left: Nodes, layer: set<Entry>, e: Entry, before: Nodes, after: Nodes, p: Path)
    requires Distinct(layer + {e}) && !Whiteout(e) && e !in layer
    requires WellFormed(before) && !Covers(layer, e.path)
    requires Built(left, layer, before) && Put(before, e, after)
    ensures Agrees(Get(after, p), PutAt(left, layer + {e}, p), Lists(layer + {e}, p))
  {
    MembersOfUnion(layer, e, p);
    if Lists(layer, p) { ListingOfUnion(layer, e, p); }
    assert Agrees(Get(before, p), PutAt(left, layer, p), Lists(layer, p));
    assert Get(after, p) == PutOne(before, e, p);
    if p == e.path {
      ListingIs(layer + {e}, e);
    } else if Above(p, e.path) {
      if Covers(layer, p) {
        var f :| CoversBy(layer, p, f);
        assert CoversBy(layer, e.path, f);
      }
    }
  }

  lemma WhiteoutIsSkipped(left: Nodes, layer: seq<Entry>, i: nat, nodes: Nodes)
    requires LayerOk(layer) && i < |layer| && Whiteout(layer[i])
    requires Built(left, SetOf(layer[..i]), nodes)
    ensures Built(left, SetOf(layer[..i + 1]), nodes)
  {
    SetOfSnoc(layer, i);
    PrefixIsDistinct(layer, i);
    BuiltSkips(left, SetOf(layer[..i]), layer[i], nodes);
  }

  lemma EntryIsPut(left: Nodes, layer: seq<Entry>, i: nat, before: Nodes, after: Nodes)
    requires LayerOk(layer) && i < |layer| && !Whiteout(layer[i])
    requires WellFormed(before) && !Blocked(before, layer[i].path)
    requires Built(left, SetOf(layer[..i]), before) && Put(before, layer[i], after)
    ensures Built(left, SetOf(layer[..i + 1]), after)
  {
    SetOfSnoc(layer, i);
    PrefixIsDistinct(layer, i);
    BuiltGrows(left, SetOf(layer[..i]), layer[i], before, after);
  }

  lemma ModedSkips(before: Nodes, layer: set<Entry>, e: Entry, after: Nodes)
    requires Whiteout(e) && Distinct(layer + {e})
    requires Moded(before, layer, after)
    ensures Moded(before, layer + {e}, after)
  {
    forall p
      ensures Get(after, p) == if Lists(layer + {e}, p) && p in before
                               then Some(WithMode(before[p], Listing(layer + {e}, p).mode)) else Get(before, p)
    {
      MembersOfUnion(layer, e, p);
      if Lists(layer, p) { ListingOfUnion(layer, e, p); }
    }
  }

  lemma ModedGrows(before: Nodes, layer: set<Entry>, e: Entry, mid: Nodes)
    requires !Whiteout(e) && Distinct(layer + {e}) && e !in layer
    requires Moded(before, layer, mid) && e.path in mid && e.path in before
    ensures Moded(before, layer + {e}, mid[e.path := WithMode(mid[e.path], e.mode)])
  {
    var after := mid[e.path := WithMode(mid[e.path], e.mode)];
    forall p
      ensures Get(after, p) == if Lists(layer + {e}, p) && p in before
                               then Some(WithMode(before[p], Listing(layer + {e}, p).mode)) else Get(before, p)
    {
      MembersOfUnion(layer, e, p);
      if Lists(layer, p) { ListingOfUnion(layer, e, p); }
      assert Get(mid, p) == if Lists(layer, p) && p in before
                            then Some(WithMode(before[p], Listing(layer, p).mode)) else Get(before, p);
      if p == e.path {
        ListingIs(layer + {e}, e);
      }
    }
  }

  /** Something listed is missing after the second pass exactly when it is covered. */
  lemma ThereIsUncovered(left: Nodes, layer: set<Entry>, built: Nodes)
    requires Distinct(layer) && Built(left, layer, built)
    ensures AllThere(layer, built) <==> NoneCovered(layer)
  {
    forall e | e in layer && !Whiteout(e)
      ensures e.path in built <==> !Covers(layer, e.path)
    {
      ListingIs(layer, e);
      assert Agrees(Get(built, e.path), PutAt(left, layer, e.path), Lists(layer, e.path));
    }
  }

  lemma FinishedLayer(left: Nodes, layer: set<Entry>, built: Nodes, after: Nodes)
    requires NoneCovered(layer) && Built(left, layer, built) && Moded(built, layer, after)
    ensures forall p {:trigger Get(after, p)} :: Get(after, p) == PutAt(left, layer, p)
  {
    forall p
      ensures Get(after, p) == PutAt(left, layer, p)
    {
      assert Agrees(Get(built, p), PutAt(left, layer, p), Lists(layer, p));
    }
  }
}
