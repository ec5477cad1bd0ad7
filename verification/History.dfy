/**
 Instance records, the snapshots a worker publishes, and the one order on their
 histories that worker, routers, recovery and proxies keep between them.
 */
module History {
  import opened Net

  datatype Record = Record(id: string, app: string, endpoint: Endpoint, revision: U64, deleted: bool)

  type Records = map<string, Record>

  datatype Snapshot = Snapshot(schema: nat, owner: string, incarnation: U64, revision: U64, records: Records)

  predicate SameIdentity(x: Record, y: Record) {
    x.app == y.app && x.endpoint == y.endpoint
  }

  /** What may become of one accepted record. */
  predicate RecordExtends(old_: Record, new_: Record) {
    && new_.id == old_.id
    && SameIdentity(old_, new_)
    && old_.revision <= new_.revision
    && (old_.deleted ==> new_.deleted)
    && (new_.revision == old_.revision ==> new_ == old_)
  }

  /** The history order: nothing omitted, every record extended. */
  predicate Extends(old_: Records, new_: Records) {
    forall id :: id in old_ ==> id in new_ && RecordExtends(old_[id], new_[id])
  }

  /**
   The same without its last clause: an equal revision need not mean an equal
   record. This is what a restored worker's merge can promise of any two histories.
   */
  predicate RecordCovers(old_: Record, new_: Record) {
    && new_.id == old_.id
    && SameIdentity(old_, new_)
    && old_.revision <= new_.revision
    && (old_.deleted ==> new_.deleted)
  }

  predicate Covers(old_: Records, new_: Records) {
    forall id :: id in old_ ==> id in new_ && RecordCovers(old_[id], new_[id])
  }

  lemma ExtendsIsReflexive(r: Records)
    ensures Extends(r, r)
  {
  }

  lemma ExtendsIsTransitive(a: Records, b: Records, c: Records)
    requires Extends(a, b) && Extends(b, c)
    ensures Extends(a, c)
  {
  }

  lemma ExtendsIsAntisymmetric(a: Records, b: Records)
    requires Extends(a, b) && Extends(b, a)
    ensures a == b
  {
    assert a.Keys == b.Keys;
    forall id | id in a ensures a[id] == b[id] {
      assert RecordExtends(a[id], b[id]) && RecordExtends(b[id], a[id]);
    }
  }

  /** The order on whole snapshots of one owner: a revision names one snapshot of an incarnation. */
  predicate SnapshotExtends(old_: Snapshot, new_: Snapshot) {
    && old_.owner == new_.owner
    && old_.incarnation <= new_.incarnation
    && old_.revision <= new_.revision
    && Extends(old_.records, new_.records)
    && (old_.incarnation == new_.incarnation && old_.revision == new_.revision ==> old_ == new_)
  }

  lemma SnapshotExtendsIsTransitive(a: Snapshot, b: Snapshot, c: Snapshot)
    requires SnapshotExtends(a, b) && SnapshotExtends(b, c)
    ensures SnapshotExtends(a, c)
  {
    ExtendsIsTransitive(a.records, b.records, c.records);
  }

  /** Within a snapshot: keyed by id, and no revision beyond the snapshot's own. */
  predicate Keyed(records: Records) {
    forall id :: id in records ==> records[id].id == id
  }

  predicate Bounded(s: Snapshot) {
    forall id :: id in s.records ==> 1 <= s.records[id].revision <= s.revision
  }

  predicate EndpointsDistinct(records: Records) {
    forall i, j :: i in records && j in records && records[i].endpoint == records[j].endpoint ==> i == j
  }
}
