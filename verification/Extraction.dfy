/**
 Extraction of image layers into a file tree. A layer first removes what its
 whiteouts name, then puts its entries, then sets their modes. Here is what a layer
 means by membership alone, in the words of the OCI Image Layer Filesystem Changeset
 specification (sections "Whiteouts" and "Opaque Whiteout"), and when it applies.
 */
module Extraction {
  import opened Wrappers

  /** Components below the root; the root itself is [] and always a directory. */
  type Path = seq<string>

  datatype Node = Dir(mode: nat) | File(data: string, mode: nat)

  type Nodes = map<Path, Node>

  datatype Entry = Entry(path: Path, directory: bool, mode: nat, data: string)

  const IMPLIED_MODE: nat := 0x1ED   // rwxr-xr-x
  const NEW_FILE_MODE: nat := 0x180  // rw-------

  function Get(nodes: Nodes, p: Path): Option<Node> {
    if p in nodes then Some(nodes[p]) else None
  }

  predicate Above(a: Path, p: Path) {
    a < p
  }

  predicate AtOrAbove(a: Path, p: Path) {
    a <= p
  }

  /** Everything has a directory above it. */
  ghost predicate WellFormed(nodes: Nodes) {
    && [] !in nodes
    && forall a, p {:trigger p in nodes, Above(a, p)} ::
         p in nodes && Above(a, p) && a != [] ==> a in nodes && nodes[a].Dir?
  }

  /** A file stands above the path, so that it cannot even be looked up. */
  predicate Blocked(nodes: Nodes, p: Path) {
    exists a :: a in nodes && nodes[a].File? && Above(a, p)
  }

  /// Entries

  function Base(p: Path): string {
    if p == [] then "" else p[|p| - 1]
  }

  function Parent(p: Path): Path {
    if p == [] then [] else p[..|p| - 1]
  }

  predicate Whiteout(e: Entry) {
    ".wh." <= Base(e.path)
  }

  predicate Opaque(e: Entry) {
    Base(e.path) == ".wh..wh..opq"
  }

  /** The path that a whiteout names. */
  function Target(e: Entry): Path
    requires Whiteout(e)
  {
    Parent(e.path) + [Base(e.path)[4..]]
  }

  predicate TargetOk(e: Entry)
    requires Whiteout(e)
  {
    Opaque(e) || Base(Target(e)) !in {"", ".", ".."}
  }

  /** What reading a layer guarantees: no entry is the root and none is listed twice. */
  predicate LayerOk(layer: seq<Entry>) {
    && (forall i :: 0 <= i < |layer| ==> layer[i].path != [])
    && (forall i, j :: 0 <= i < j < |layer| ==> layer[i].path != layer[j].path)
  }

  function SetOf(layer: seq<Entry>): set<Entry> {
    set e | e in layer
  }

  /// What a layer means

  predicate HidesBy(e: Entry, p: Path) {
    Whiteout(e) && if Opaque(e) then Above(Parent(e.path), p) else AtOrAbove(Target(e), p)
  }

  predicate Hides(layer: set<Entry>, p: Path) {
    exists e :: e in layer && HidesBy(e, p)
  }

  predicate ListedAs(layer: set<Entry>, p: Path, e: Entry) {
    e in layer && !Whiteout(e) && e.path == p
  }

  ghost predicate Lists(layer: set<Entry>, p: Path) {
    exists e :: ListedAs(layer, p, e)
  }

  predicate CoversBy(layer: set<Entry>, p: Path, e: Entry) {
    e in layer && !Whiteout(e) && !e.directory && Above(e.path, p)
  }

  /** A file of the layer stands where `p` would need a directory. */
  ghost predicate Covers(layer: set<Entry>, p: Path) {
    exists e :: CoversBy(layer, p, e)
  }

  predicate ImpliedBy(layer: set<Entry>, p: Path, e: Entry) {
    p != [] && e in layer && !Whiteout(e) && Above(p, e.path)
  }

  /** `p` is a directory above an entry. */
  ghost predicate Implies(layer: set<Entry>, p: Path) {
    exists e :: ImpliedBy(layer, p, e)
  }

  function NodeOf(e: Entry): Node {
    if e.directory then Dir(e.mode) else File(e.data, e.mode)
  }

  function Unhidden(before: Nodes, layer: set<Entry>): Nodes {
    map p | p in before && !Hides(layer, p) :: before[p]
  }

  ghost function Listing(layer: set<Entry>, p: Path): Entry
    requires Lists(layer, p)
  {
    var e :| ListedAs(layer, p, e);
    e
  }

  /** What the entries put at one path over what the whiteouts left. */
  ghost function PutAt(left: Nodes, layer: set<Entry>, p: Path): Option<Node> {
    if Covers(layer, p) then None
    else if Lists(layer, p) then Some(NodeOf(Listing(layer, p)))
    else if Implies(layer, p) && p !in left then Some(Dir(IMPLIED_MODE))
    else Get(left, p)
  }

  /** The tree after a layer: at every path, what its whiteouts left and its entries put. */
  ghost predicate After(before: Nodes, layer: set<Entry>, after: Nodes) {
    && WellFormed(after)
    && (forall e :: e in layer && !Whiteout(e) ==> !Covers(layer, e.path))
    && (forall p {:trigger Get(after, p)} :: Get(after, p) == PutAt(Unhidden(before, layer), layer, p))
  }

  /// When a layer applies

  /** Entry `i`, if a whiteout, names something and finds no file in its way when its turn comes. */
  ghost predicate WhiteoutApplies(before: Nodes, layer: seq<Entry>, i: nat)
    requires i < |layer|
  {
    Whiteout(layer[i]) ==> TargetOk(layer[i]) && !Blocked(Unhidden(before, SetOf(layer[..i])), layer[i].path)
  }

  ghost predicate WhiteoutsApply(before: Nodes, layer: seq<Entry>) {
    forall i {:trigger WhiteoutApplies(before, layer, i)} :: 0 <= i < |layer| ==> WhiteoutApplies(before, layer, i)
  }

  /** No file is in the way of entry `i`, if not a whiteout, when its turn comes. */
  ghost predicate EntryApplies(left: Nodes, layer: seq<Entry>, i: nat)
    requires i < |layer|
  {
    !Whiteout(layer[i]) ==> !InTheWay(left, SetOf(layer[..i]), layer[i].path)
  }

  ghost predicate EntriesApply(left: Nodes, layer: seq<Entry>) {
    forall i {:trigger EntryApplies(left, layer, i)} :: 0 <= i < |layer| ==> EntryApplies(left, layer, i)
  }

  ghost predicate InTheWay(left: Nodes, layer: set<Entry>, q: Path) {
    exists a :: Above(a, q) && FileAt(PutAt(left, layer, a))
  }

  predicate FileAt(node: Option<Node>) {
    node.Some? && node.value.File?
  }

  ghost predicate NoneCovered(layer: set<Entry>) {
    forall e :: e in layer && !Whiteout(e) ==> !Covers(layer, e.path)
  }

  ghost predicate Applies(before: Nodes, layer: seq<Entry>) {
    && WhiteoutsApply(before, layer)
    && EntriesApply(Unhidden(before, SetOf(layer)), layer)
    && NoneCovered(SetOf(layer))
  }

  /// Small facts

  lemma SetOfSnoc(layer: seq<Entry>, i: nat)
    requires i < |layer|
    ensures SetOf(layer[..i + 1]) == SetOf(layer[..i]) + {layer[i]}
  {
    assert layer[..i + 1] == layer[..i] + [layer[i]];
  }

  lemma ListingIs(layer: set<Entry>, e: Entry)
    requires e in layer && !Whiteout(e)
    requires forall f :: f in layer && f.path == e.path ==> f == e
    ensures Lists(layer, e.path) && Listing(layer, e.path) == e
  {
    assert ListedAs(layer, e.path, e);
  }

  /** The shortest file above a path is itself uncovered, so it stands in the tree. */
  lemma {:induction false} ShortestCover(left: Nodes, layer: set<Entry>, q: Path, f: Entry) returns (a: Path)
    requires forall e, g :: e in layer && g in layer && e.path == g.path ==> e == g
    requires CoversBy(layer, q, f)
    ensures Above(a, q) && FileAt(PutAt(left, layer, a))
    decreases |f.path|
  {
    if Covers(layer, f.path) {
      var g :| CoversBy(layer, f.path, g);
      a := ShortestCover(left, layer, q, g);
    } else {
      a := f.path;
      ListingIs(layer, f);
    }
  }
}
