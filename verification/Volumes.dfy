/**
 What survives of the worker's image pipeline: thin volumes, mounts and the operation
 rows; what is true of them at every instant, and how they may move.
 */
module Volumes {
  import opened Wrappers
  import opened Extraction
  import opened NewestLayerWins

  /** Names keep only the first digits of a digest, so two may collide; tags keep all of it. */
  datatype Name = Origin(prefix: string) | Snapshot(prefix: string)

  datatype Tag = ImageTag(image: string) | OperationTag(id: string)

  /** Written last, after the whole tree: the image, and the digest of the tree (its preimage here). */
  datatype Marker = Marker(image: string, tree: Nodes)

  datatype Content = Blank | Filesystem(tree: Nodes, marker: Option<Marker>)

  datatype Volume = Volume(
    uuid: nat,
    tag: Tag,
    origin: Option<Name>,
    readonly: bool,
    active: bool,
    content: Content)

  datatype Phase = Requested | Verified | Sealed | Registered

  datatype Row = Row(image: string, size: nat, phase: Phase, snapshot: Name, uuid: Option<nat>)

  datatype World = World(
    volumes: map<Name, Volume>,
    mounts: set<Name>,
    nextUuid: nat,
    rows: map<string, Row>)

  datatype Manifest = Manifest(size: nat, layers: seq<seq<Entry>>)

  /** The images by digest, which fix their layers, and the first digits of an operation's digest. */
  datatype Setup = Setup(library: map<string, Manifest>, short: string -> string) {
    ghost predicate Ok() {
      forall image :: image in library ==> LayersOk(library[image].layers)
    }

    function OriginName(image: string): Name {
      Origin(if |image| < 24 then image else image[..24])
    }

    function SnapshotName(id: string): Name {
      Snapshot(short(id))
    }
  }

  ghost predicate LayersOk(layers: seq<seq<Entry>>) {
    forall i :: 0 <= i < |layers| ==> LayerOk(layers[i])
  }

  /// At every instant

  ghost predicate Extracted(s: Setup, image: string, tree: Nodes) {
    image in s.library && Unpacked(s.library[image].layers, tree)
  }

  /** Holds the fully extracted tree of the image, and says so. */
  ghost predicate Holds(s: Setup, image: string, content: Content) {
    && content.Filesystem?
    && content.marker == Some(Marker(image, content.tree))
    && Extracted(s, image, content.tree)
  }

  /** A marker never lies about which tree belongs to its image. */
  ghost predicate MarkerIsTrue(s: Setup, image: string, content: Content) {
    content.Filesystem? && content.marker.Some? && content.marker.value.image == image ==>
      Extracted(s, image, content.marker.value.tree)
  }

  ghost predicate OriginOk(s: Setup, n: Name, v: Volume) {
    && v.tag.ImageTag? && n == s.OriginName(v.tag.image) && v.origin == None
    && MarkerIsTrue(s, v.tag.image, v.content)
    && (v.readonly ==> Holds(s, v.tag.image, v.content))
  }

  /** The image's origin exists, is sealed and holds the extracted tree. */
  ghost predicate SealedOrigin(s: Setup, volumes: map<Name, Volume>, image: string) {
    var n := s.OriginName(image);
    n in volumes && volumes[n].tag == ImageTag(image) && volumes[n].readonly && Holds(s, image, volumes[n].content)
  }

  ghost predicate SnapshotOk(s: Setup, volumes: map<Name, Volume>, rows: map<string, Row>, n: Name)
    requires n in volumes
  {
    var v := volumes[n];
    && v.tag.OperationTag? && n == s.SnapshotName(v.tag.id) && v.tag.id in rows
    && v.origin == Some(s.OriginName(rows[v.tag.id].image))
    && SealedOrigin(s, volumes, rows[v.tag.id].image)
  }

  /** Once registered, a row names one existing, writable snapshot by its uuid. */
  ghost predicate RowOk(s: Setup, volumes: map<Name, Volume>, id: string, row: Row) {
    && row.snapshot == s.SnapshotName(id)
    && (row.phase == Registered ==> row.uuid.Some?)
    && (row.uuid.Some? ==> Names(volumes, row.snapshot, id, row.uuid.value))
  }

  predicate Names(volumes: map<Name, Volume>, n: Name, id: string, uuid: nat) {
    n in volumes && volumes[n].tag == OperationTag(id) && volumes[n].uuid == uuid && !volumes[n].readonly
  }

  ghost predicate OriginsOk(s: Setup, volumes: map<Name, Volume>) {
    forall n {:trigger OriginOk(s, n, volumes[n])} :: n in volumes && n.Origin? ==> OriginOk(s, n, volumes[n])
  }

  ghost predicate SnapshotsOk(s: Setup, volumes: map<Name, Volume>, rows: map<string, Row>) {
    forall n {:trigger SnapshotOk(s, volumes, rows, n)} :: n in volumes && n.Snapshot? ==>
        SnapshotOk(s, volumes, rows, n)
  }

  ghost predicate UuidsOk(volumes: map<Name, Volume>, next: nat) {
    && (forall n :: n in volumes ==> volumes[n].uuid < next)
    && (forall m, n :: m in volumes && n in volumes && volumes[m].uuid == volumes[n].uuid ==> m == n)
  }

  ghost predicate MountsOk(volumes: map<Name, Volume>, mounts: set<Name>) {
    forall n :: n in mounts ==> n.Origin? && n in volumes && volumes[n].content.Filesystem?
  }

  ghost predicate RowsOk(s: Setup, volumes: map<Name, Volume>, rows: map<string, Row>) {
    && |rows| <= 128
    && forall id {:trigger RowOk(s, volumes, id, rows[id])} :: id in rows ==> RowOk(s, volumes, id, rows[id])
  }

  ghost predicate Inv(s: Setup, w: World) {
    && OriginsOk(s, w.volumes)
    && SnapshotsOk(s, w.volumes, w.rows)
    && UuidsOk(w.volumes, w.nextUuid)
    && MountsOk(w.volumes, w.mounts)
    && RowsOk(s, w.volumes, w.rows)
  }

  /** Every registered snapshot is active; processes dying keep this, a power loss does not. */
  ghost predicate AllActive(s: Setup, volumes: map<Name, Volume>, rows: map<string, Row>) {
    forall id {:trigger ActiveIfRegistered(s, volumes, id, rows[id])} :: id in rows ==>
      ActiveIfRegistered(s, volumes, id, rows[id])
  }

  predicate ActiveIfRegistered(s: Setup, volumes: map<Name, Volume>, id: string, row: Row) {
    row.uuid.Some? ==> s.SnapshotName(id) in volumes && volumes[s.SnapshotName(id)].active
  }

  /// How things may move

  predicate VolumeLater(n: Name, v: Volume, w: Volume) {
    && w.uuid == v.uuid && w.tag == v.tag && w.origin == v.origin
    && (n.Origin? && v.readonly ==> w == v)
  }

  predicate RowLater(r: Row, t: Row) {
    && t.image == r.image && t.size == r.size && t.snapshot == r.snapshot
    && (r.uuid.Some? ==> t.uuid == r.uuid)
  }

  ghost predicate VolumesLater(a: map<Name, Volume>, b: map<Name, Volume>) {
    forall n {:trigger n in b} :: n in a ==> n in b && VolumeLater(n, a[n], b[n])
  }

  ghost predicate RowsLater(a: map<string, Row>, b: map<string, Row>) {
    forall id {:trigger id in b} :: id in a ==> id in b && RowLater(a[id], b[id])
  }

  /** Volumes stay what they are, sealed origins do not change at all, and a uuid once registered stays. */
  ghost predicate Later(a: World, b: World) {
    a.nextUuid <= b.nextUuid && VolumesLater(a.volumes, b.volumes) && RowsLater(a.rows, b.rows)
  }

  /** What every effect of the pipeline does, so that the process may die after any of them. */
  ghost predicate Step(s: Setup, a: World, b: World) {
    Inv(s, b) && Later(a, b) && (AllActive(s, a.volumes, a.rows) ==> AllActive(s, b.volumes, b.rows))
  }

  lemma StepIsTransitive(s: Setup, a: World, b: World, c: World)
    requires Step(s, a, b) && Step(s, b, c)
    ensures Step(s, a, c)
  {
    LaterIsTransitive(a, b, c);
  }

  lemma LaterIsTransitive(a: World, b: World, c: World)
    requires Later(a, b) && Later(b, c)
    ensures Later(a, c)
  {
    forall n {:trigger n in c.volumes} | n in a.volumes
      ensures n in c.volumes && VolumeLater(n, a.volumes[n], c.volumes[n])
    {
      assert n in b.volumes;
    }
    forall id {:trigger id in c.rows} | id in a.rows ensures id in c.rows && RowLater(a.rows[id], c.rows[id]) {
      assert id in b.rows;
    }
  }

  /** Two images share the name of their origin exactly if the first 24 digits of their digests agree. */
  lemma OriginNamesCollide(s: Setup, a: string, b: string)
    requires 24 <= |a| && 24 <= |b|
    ensures s.OriginName(a) == s.OriginName(b) <==> forall k :: 0 <= k < 24 ==> a[k] == b[k]
  {
    assert a[..24] == b[..24] <==> forall k :: 0 <= k < 24 ==> a[..24][k] == b[..24][k];
  }

  /** Whatever the run, two snapshots bearing one operation's tag are one volume. */
  lemma OneSnapshotPerOperation(s: Setup, a: World, b: World, m: Name, n: Name)
    requires Inv(s, a) && Inv(s, b) && Later(a, b)
    requires m in a.volumes && n in b.volumes
    requires a.volumes[m].tag.OperationTag? && a.volumes[m].tag == b.volumes[n].tag
    ensures m == n && a.volumes[m].uuid == b.volumes[n].uuid
  {
    assert if m.Origin? then OriginOk(s, m, a.volumes[m]) else SnapshotOk(s, a.volumes, a.rows, m);
    assert if n.Origin? then OriginOk(s, n, b.volumes[n]) else SnapshotOk(s, b.volumes, b.rows, n);
  }

  /** What registration promises, at every instant of every run after it. */
  lemma RegisteredNamesAnIntactSnapshot(s: Setup, w: World, id: string)
    requires Inv(s, w) && id in w.rows && w.rows[id].phase == Registered
    ensures var n := w.rows[id].snapshot;
            && n in w.volumes && Some(w.volumes[n].uuid) == w.rows[id].uuid
            && !w.volumes[n].readonly && w.volumes[n].tag == OperationTag(id)
            && w.volumes[n].origin == Some(s.OriginName(w.rows[id].image))
    ensures SealedOrigin(s, w.volumes, w.rows[id].image)
    ensures AllActive(s, w.volumes, w.rows) ==> w.volumes[w.rows[id].snapshot].active
  {
    assert RowOk(s, w.volumes, id, w.rows[id]);
    assert AllActive(s, w.volumes, w.rows) ==> ActiveIfRegistered(s, w.volumes, id, w.rows[id]);
    assert SnapshotOk(s, w.volumes, w.rows, w.rows[id].snapshot);
  }
}
