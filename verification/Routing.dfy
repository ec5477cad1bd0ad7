/**
 A router's state and the three functions that propose its successor:
 `accept`, `freeze` and `recover` of routing/src/lib.rs.
 */
module Routing {
  import opened Wrappers
  import opened Net
  import opened History
  import opened Ordered

  const RECORD_LIMIT: nat := 4096
  const VIEW_LIMIT: nat := 16 * 1024 * 1024
  const OWNER_LIMIT: nat := 16

  /** SHA-256 is taken to be injective: a digest made here is its preimage. A loaded file may hold any text. */
  datatype Digest =
    | Sha256(operation: string, result: Snapshot, credentialHash: string)
    | Text(text: string)

  datatype Recovery = Recovery(operation: string, digest: Digest)

  datatype Owner = Owner(
    snapshot: Snapshot, reconciledMs: U64, stale: bool, frozenBy: Option<string>,
    credentialHash: Option<string>, recovery: Option<Recovery>)

  datatype State = State(generation: U64, owners: map<string, Owner>)

  datatype Policy = Policy(applications: set<string>, recordLimit: nat, viewLimit: nat)

  /** Why a candidate was refused. The refusals of single records share one reason each. */
  datatype Error =
    | Unauthorized | NotInitial
    | Authority | RecordCapacity | Frozen | Incarnation | Regressed | RevisionConflict | HistoryConflict
    | RecordRejected | GenerationExhausted | ViewCapacity
    | OperationInvalid | UnknownOwner | FenceOwned | RecoveryIdentity | RecoveryConflict | FenceMissing

  const EMPTY := State(0, map[])

  predicate Name(value: string) {
    && 1 <= |value| <= 128
    && forall c :: c in value ==>
         'a' <= c <= 'z' || 'A' <= c <= 'Z' || '0' <= c <= '9' || c == '-' || c == '_' || c == '.'
  }

  predicate HexDigest(value: string) {
    && |value| == 64
    && forall c :: c in value ==> 'a' <= c <= 'f' || 'A' <= c <= 'F' || '0' <= c <= '9'
  }

  predicate DigestOk(d: Digest) {
    d.Sha256? || HexDigest(d.text)
  }

  predicate OwnerMetadataOk(id: string, owner: Owner) {
    && id == owner.snapshot.owner
    && (owner.frozenBy.Some? ==> Name(owner.frozenBy.value))
    && (owner.credentialHash.Some? ==> HexDigest(owner.credentialHash.value))
    && (owner.recovery.Some? ==> Name(owner.recovery.value.operation) && DigestOk(owner.recovery.value.digest))
    && (1 < owner.snapshot.incarnation ==> owner.credentialHash.Some? && owner.recovery.Some?)
  }

  /** The verdict of `validate_metadata`. */
  predicate MetadataOk(s: State) {
    && |s.owners| <= OWNER_LIMIT
    && forall id {:trigger OwnerMetadataOk(id, s.owners[id])} :: id in s.owners ==> OwnerMetadataOk(id, s.owners[id])
  }

  function Freeze(s: State, owner: string, operation: string): Result<State, Error> {
    var named := Name(operation);
    :- Need(named, OperationInvalid);
    :- Need(owner in s.owners, UnknownOwner);
    var entry := s.owners[owner];
    if entry.recovery.Some? && entry.recovery.value.operation == operation then Ok(s)
    else if entry.frozenBy.Some? then
      if entry.frozenBy.value != operation then Err(FenceOwned) else Ok(s)
    else
      :- Need(s.generation < U64_MAX, GenerationExhausted);
      Ok(State(s.generation + 1, s.owners[owner := entry.(frozenBy := Some(operation), stale := true)]))
  }

  function AfterRestart(s: State): State {
    s.(owners := map id | id in s.owners :: s.owners[id].(stale := true))
  }

  /** What a new snapshot owes to the one it replaces. */
  function CheckHistory(previous: Owner, next: Snapshot): Outcome<Error> {
    if previous.frozenBy.Some? then Fail(Frozen)
    else if next.incarnation != previous.snapshot.incarnation then Fail(Incarnation)
    else if next.revision < previous.snapshot.revision then Fail(Regressed)
    else if next.revision == previous.snapshot.revision && next != previous.snapshot then Fail(RevisionConflict)
    else Need(Extends(previous.snapshot.records, next.records), HistoryConflict)
  }

  predicate Holds(s: State, e: Endpoint, owner: string, id: string) {
    owner in s.owners && id in s.owners[owner].snapshot.records && s.owners[owner].snapshot.records[id].endpoint == e
  }

  /** The reservation table is filled in key order; where two records share an endpoint the later one stays. */
  predicate LastHolder(s: State, e: Endpoint, owner: string, id: string) {
    && Holds(s, e, owner, id)
    && forall o | o in s.owners :: forall i | i in s.owners[o].snapshot.records ::
         Holds(s, e, o, i) ==> !(Less(owner, o) || (owner == o && Less(id, i)))
  }

  predicate Reservable(s: State, owner: string, record: Record) {
    forall o | o in s.owners :: forall i | i in s.owners[o].snapshot.records ::
      LastHolder(s, record.endpoint, o, i) ==> o == owner && s.owners[o].snapshot.records[i].id == record.id
  }

  predicate RecordOk(id: string, record: Record, next: Snapshot, policy: Policy) {
    && record.endpoint.Routable()
    && id == record.id
    && Name(id) && Name(record.app)
    && record.app in policy.applications
    && 1 <= record.revision <= next.revision
  }

  predicate RecordsOk(next: Snapshot, policy: Policy) {
    forall id {:trigger RecordOk(id, next.records[id], next, policy)} | id in next.records ::
        RecordOk(id, next.records[id], next, policy)
  }

  predicate Reservations(s: State, next: Snapshot) {
    && EndpointsDistinct(next.records)
    && forall id | id in next.records :: Reservable(s, next.owner, next.records[id])
  }

  predicate AuthorityOk(authenticated: string, next: Snapshot) {
    && next.schema == 1
    && next.owner == authenticated
    && Name(next.owner)
    && next.incarnation != 0
    && next.revision != 0
  }

  /** The candidate an accepted snapshot makes. */
  function Commit(s: State, next: Snapshot, now: U64): State
    requires s.generation < U64_MAX
  {
    var previous := if next.owner in s.owners then Some(s.owners[next.owner]) else None;
    State(
      s.generation + 1,
      s.owners[next.owner := Owner(
        next, now, false, None,
        if previous.Some? then previous.value.credentialHash else None,
        if previous.Some? then previous.value.recovery else None)])
  }

  function Accept(s: State, authenticated: string, next: Snapshot, policy: Policy, now: U64): Result<State, Error> {
    var authorised := AuthorityOk(authenticated, next);
    :- Need(authorised, Authority);
    :- Need(|next.records| <= policy.recordLimit, RecordCapacity);
    :- if next.owner in s.owners then CheckHistory(s.owners[next.owner], next) else Pass;
    :- Need(RecordsOk(next, policy) && Reservations(s, next), RecordRejected);
    :- Need(s.generation < U64_MAX, GenerationExhausted);
    var candidate := Commit(s, next, now);
    :- Need(Fits(candidate, policy.viewLimit), ViewCapacity);
    Ok(candidate)
  }

  /** The fence lifted and the incarnation moved on, so that `Accept` judges the history alone. */
  function Unfenced(s: State, next: Snapshot): State
    requires next.owner in s.owners
  {
    var previous := s.owners[next.owner];
    s.(owners := s.owners[next.owner :=
      previous.(snapshot := previous.snapshot.(incarnation := next.incarnation), frozenBy := None)])
  }

  function Fenced(s: State, operation: string, next: Snapshot, credentialHash: string): State
    requires next.owner in s.owners
  {
    s.(owners := s.owners[next.owner := s.owners[next.owner].(
      stale := true,
      credentialHash := Some(credentialHash),
      recovery := Some(Recovery(operation, Sha256(operation, next, credentialHash))))])
  }

  function Recover(s: State, operation: string, next: Snapshot, credentialHash: string, policy: Policy)
    : Result<State, Error>
  {
    var identified := Name(operation) && HexDigest(credentialHash);
    :- Need(identified, RecoveryIdentity);
    :- Need(next.owner in s.owners, UnknownOwner);
    var previous := s.owners[next.owner];
    if previous.recovery.Some? && previous.recovery.value.operation == operation then
      if previous.recovery.value.digest == Sha256(operation, next, credentialHash) then Ok(s)
      else Err(RecoveryConflict)
    else
      :- Need(
        previous.frozenBy == Some(operation) && previous.snapshot.incarnation < next.incarnation, FenceMissing);
      var candidate :- Accept(Unfenced(s, next), next.owner, next, policy, previous.reconciledMs);
      Ok(Fenced(candidate, operation, next, credentialHash))
  }

  /// The length of the JSON encoding. Every string that reaches a state is a name, a
  /// hexadecimal digest or an address, none of which needs an escape.

  function Quoted(s: string): nat { |s| + 2 }
  function Flag(b: bool): nat { if b then 4 else 5 }
  function Field(name: string, value: nat): nat { |name| + 3 + value }
  function Optional(o: Option<string>): nat { if o.Some? then Quoted(o.value) else 4 }

  function DigestLength(d: Digest): nat { if d.Sha256? then 64 else |d.text| }

  /** An object whose keys are data: braces, and commas between the entries. */
  function Table(sizes: map<string, nat>): nat {
    if sizes == map[] then 2 else 1 + Sum(map k | k in sizes :: Field(k, sizes[k]) + 1)
  }

  function RecordSize(r: Record): nat {
    2 + 4 + Field("id", Quoted(r.id)) + Field("app", Quoted(r.app))
    + Field("endpoint", r.endpoint.TextLength() + 2)
    + Field("revision", Decimal(r.revision)) + Field("deleted", Flag(r.deleted))
  }

  function SnapshotSize(n: Snapshot): nat {
    2 + 4 + Field("schema", Decimal(n.schema)) + Field("owner", Quoted(n.owner))
    + Field("incarnation", Decimal(n.incarnation)) + Field("revision", Decimal(n.revision))
    + Field("records", Table(map id | id in n.records :: RecordSize(n.records[id])))
  }

  function RecoverySize(r: Option<Recovery>): nat {
    if r.None? then 4
    else 2 + 1 + Field("operation", Quoted(r.value.operation)) + Field("digest", DigestLength(r.value.digest) + 2)
  }

  function OwnerSize(o: Owner): nat {
    2 + 5 + Field("snapshot", SnapshotSize(o.snapshot)) + Field("reconciled_ms", Decimal(o.reconciledMs))
    + Field("stale", Flag(o.stale)) + Field("frozen_by", Optional(o.frozenBy))
    + Field("credential_hash", Optional(o.credentialHash)) + Field("recovery", RecoverySize(o.recovery))
  }

  function StateSize(s: State): nat {
    2 + 1 + Field("generation", Decimal(s.generation))
    + Field("owners", Table(map id | id in s.owners :: OwnerSize(s.owners[id])))
  }

  /// The largest state that deletions and revisions alone can lead to.

  function Letters(n: nat): (s: string)
    ensures |s| == n
  {
    seq(n, i => 'x')
  }

  function InflatedRecord(r: Record): Record {
    r.(revision := U64_MAX, deleted := false)
  }

  function InflatedSnapshot(n: Snapshot): Snapshot {
    n.(incarnation := U64_MAX, revision := U64_MAX,
       records := map id | id in n.records :: InflatedRecord(n.records[id]))
  }

  function InflatedOwner(o: Owner): Owner {
    Owner(InflatedSnapshot(o.snapshot), U64_MAX, false, Some(Letters(128)), Some(Letters(64)),
          Some(Recovery(Letters(128), Text(Letters(64)))))
  }

  function Inflated(s: State): State {
    State(U64_MAX, map id | id in s.owners :: InflatedOwner(s.owners[id]))
  }

  /** What a state reserves; a set, so that a proof meets the length only where it asks for it. */
  function Reserved(s: State): set<nat> {
    {StateSize(Inflated(s))}
  }

  predicate Fits(s: State, limit: nat) {
    forall n | n in Reserved(s) :: n <= limit
  }
}
