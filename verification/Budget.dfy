/** The byte budget: what is admitted bounds everything deletions can lead to. */
module Budget {
  import opened Wrappers
  import opened Net
  import opened History
  import opened Ordered
  import opened Routing

  /** What a state reserves: the length of its largest representation. */
  function Reserve(s: State): nat {
    StateSize(Inflated(s))
  }

  lemma FitsIsReserve(s: State, limit: nat)
    ensures Fits(s, limit) <==> Reserve(s) <= limit
  {
    assert Reserve(s) in Reserved(s);
  }

  function TableFields(sizes: map<string, nat>): map<string, nat> {
    map k | k in sizes :: Field(k, sizes[k]) + 1
  }

  lemma TableIsMonotone(m: map<string, nat>, n: map<string, nat>)
    requires m.Keys <= n.Keys
    requires forall k :: k in m ==> m[k] <= n[k]
    ensures Table(m) <= Table(n)
  {
    SumIsMonotone(TableFields(m), TableFields(n));
    if m == map[] && n != map[] {
      var k :| k in n;
      SumSplits(TableFields(n), k);
    }
  }

  predicate SameSlot(r: Record, q: Record) {
    r.id == q.id && SameIdentity(r, q)
  }

  /** Every record of one is, up to revision and deletion, a record of the other. */
  predicate RecordsWithin(a: Records, b: Records) {
    forall id :: id in a ==> id in b && SameSlot(a[id], b[id])
  }

  predicate SnapshotWithin(a: Snapshot, b: Snapshot) {
    a.schema == b.schema && a.owner == b.owner && RecordsWithin(a.records, b.records)
  }

  predicate Within(a: State, b: State) {
    forall o :: o in a.owners ==> o in b.owners && SnapshotWithin(a.owners[o].snapshot, b.owners[o].snapshot)
  }

  function RecordSizes(r: Records): map<string, nat> {
    map id | id in r :: RecordSize(r[id])
  }

  function OwnerSizes(owners: map<string, Owner>): map<string, nat> {
    map id | id in owners :: OwnerSize(owners[id])
  }

  lemma InflatedSnapshotsGrow(a: Snapshot, b: Snapshot)
    requires SnapshotWithin(a, b)
    ensures SnapshotSize(InflatedSnapshot(a)) <= SnapshotSize(InflatedSnapshot(b))
  {
    var m, n := RecordSizes(InflatedSnapshot(a).records), RecordSizes(InflatedSnapshot(b).records);
    forall id | id in m ensures id in n && m[id] <= n[id] {
      assert SameSlot(a.records[id], b.records[id]);
    }
    TableIsMonotone(m, n);
  }

  /** Revisions, deletions and fences do not change what a state reserves; records and owners only add to it. */
  lemma ReserveIsMonotone(a: State, b: State)
    requires Within(a, b)
    ensures Reserve(a) <= Reserve(b)
  {
    var m, n := OwnerSizes(Inflated(a).owners), OwnerSizes(Inflated(b).owners);
    forall o | o in m ensures o in n && m[o] <= n[o] {
      InflatedSnapshotsGrow(a.owners[o].snapshot, b.owners[o].snapshot);
    }
    TableIsMonotone(m, n);
  }

  lemma SnapshotFitsInflated(n: Snapshot)
    ensures SnapshotSize(n) <= SnapshotSize(InflatedSnapshot(n))
  {
    var a, b := RecordSizes(n.records), RecordSizes(InflatedSnapshot(n).records);
    forall id | id in a ensures id in b && a[id] <= b[id] {
      DecimalIsMonotone(n.records[id].revision, U64_MAX);
    }
    TableIsMonotone(a, b);
    DecimalIsMonotone(n.revision, U64_MAX);
    DecimalIsMonotone(n.incarnation, U64_MAX);
  }

  lemma FencesFit(frozenBy: Option<string>, credentialHash: Option<string>, recovery: Option<Recovery>)
    requires frozenBy.Some? ==> |frozenBy.value| <= 128
    requires credentialHash.Some? ==> |credentialHash.value| == 64
    requires recovery.Some? ==> |recovery.value.operation| <= 128 && DigestLength(recovery.value.digest) == 64
    ensures Optional(frozenBy) <= Optional(Some(Letters(128)))
    ensures Optional(credentialHash) <= Optional(Some(Letters(64)))
    ensures RecoverySize(recovery) <= RecoverySize(Some(Recovery(Letters(128), Text(Letters(64)))))
  {
  }

  lemma OwnerFitsInflated(id: string, o: Owner)
    requires OwnerMetadataOk(id, o)
    ensures OwnerSize(o) <= OwnerSize(InflatedOwner(o))
  {
    SnapshotFitsInflated(o.snapshot);
    DecimalIsMonotone(o.reconciledMs, U64_MAX);
    FencesFit(o.frozenBy, o.credentialHash, o.recovery);
  }

  /** A state with valid metadata encodes within what it reserves. */
  lemma EncodingWithinReserve(s: State)
    requires forall id {:trigger OwnerMetadataOk(id, s.owners[id])} :: id in s.owners ==>
               OwnerMetadataOk(id, s.owners[id])
    ensures StateSize(s) <= Reserve(s)
  {
    var m, n := OwnerSizes(s.owners), OwnerSizes(Inflated(s).owners);
    forall id | id in m ensures id in n && m[id] <= n[id] {
      OwnerFitsInflated(id, s.owners[id]);
    }
    TableIsMonotone(m, n);
    DecimalIsMonotone(s.generation, U64_MAX);
  }

  /**
   What admission is for: whatever revisions, deletions and fences make of a state that
   fitted, and whatever records or owners are missing from it, it still encodes within the limit.
   */
  lemma AdmittedStaysEncodable(s: State, t: State, limit: nat)
    requires Fits(s, limit) && Within(t, s)
    requires forall id {:trigger OwnerMetadataOk(id, t.owners[id])} :: id in t.owners ==>
               OwnerMetadataOk(id, t.owners[id])
    ensures StateSize(t) <= limit
  {
    EncodingWithinReserve(t);
    ReserveIsMonotone(t, s);
    FitsIsReserve(s, limit);
  }

  /// Admission refuses no more than it must

  function Hexes(): (s: string)
    ensures |s| == 64 && HexDigest(s)
  {
    seq(64, i => 'a')
  }

  /** An owner in its largest form that still has valid metadata. */
  function LargestOwner(o: Owner): Owner {
    InflatedOwner(o).(
      credentialHash := Some(Hexes()),
      recovery := Some(Recovery(Letters(128), Text(Hexes()))))
  }

  function Largest(s: State): State {
    State(U64_MAX, LargestOwners(s.owners))
  }

  lemma LettersAreAName()
    ensures Name(Letters(128))
  {
  }

  lemma LargestOwnerIsInflated(o: Owner)
    ensures OwnerSize(LargestOwner(o)) == OwnerSize(InflatedOwner(o))
  {
  }

  function LargestOwners(owners: map<string, Owner>): map<string, Owner> {
    map id | id in owners :: LargestOwner(owners[id])
  }

  function InflatedOwners(owners: map<string, Owner>): map<string, Owner> {
    map id | id in owners :: InflatedOwner(owners[id])
  }

  lemma LargestSizeAt(owners: map<string, Owner>, id: string)
    requires id in owners
    ensures OwnerSizes(LargestOwners(owners))[id] == OwnerSizes(InflatedOwners(owners))[id]
  {
    LargestOwnerIsInflated(owners[id]);
  }

  lemma EqualMaps(m: map<string, nat>, n: map<string, nat>)
    requires m.Keys == n.Keys && forall k :: k in m ==> m[k] == n[k]
    ensures m == n
  {
  }

  lemma LargestSizes(owners: map<string, Owner>)
    ensures OwnerSizes(LargestOwners(owners)) == OwnerSizes(InflatedOwners(owners))
  {
    forall id | id in owners
      ensures OwnerSizes(LargestOwners(owners))[id] == OwnerSizes(InflatedOwners(owners))[id]
    {
      LargestSizeAt(owners, id);
    }
    EqualMaps(OwnerSizes(LargestOwners(owners)), OwnerSizes(InflatedOwners(owners)));
  }

  lemma SameSizes(a: State, b: State)
    requires a.generation == b.generation && OwnerSizes(a.owners) == OwnerSizes(b.owners)
    ensures StateSize(a) == StateSize(b)
  {
  }

  lemma LargestIsReserve(s: State)
    ensures StateSize(Largest(s)) == Reserve(s)
  {
    LargestSizes(s.owners);
    assert Inflated(s).owners == InflatedOwners(s.owners);
    SameSizes(Largest(s), Inflated(s));
  }

  lemma LargestIsWithin(s: State)
    requires forall id :: id in s.owners ==> s.owners[id].snapshot.owner == id
    ensures Within(Largest(s), s)
    ensures forall id :: id in Largest(s).owners ==> OwnerMetadataOk(id, Largest(s).owners[id])
  {
    LettersAreAName();
  }

  predicate OwnersMetadataOk(s: State) {
    forall id {:trigger OwnerMetadataOk(id, s.owners[id])} :: id in s.owners ==> OwnerMetadataOk(id, s.owners[id])
  }

  /**
   Admission is exact: a state fits exactly if everything that revisions, deletions and
   fences can make of it encodes within the limit.
   */
  lemma FitsIsExact(s: State, limit: nat)
    requires forall id :: id in s.owners ==> s.owners[id].snapshot.owner == id
    ensures Fits(s, limit) <==> forall t :: Within(t, s) && OwnersMetadataOk(t) ==> StateSize(t) <= limit
  {
    if Fits(s, limit) {
      forall t | Within(t, s) && OwnersMetadataOk(t) ensures StateSize(t) <= limit {
        AdmittedStaysEncodable(s, t, limit);
      }
    } else {
      LargestIsWithin(s);
      LargestIsReserve(s);
      FitsIsReserve(s, limit);
    }
  }
}
