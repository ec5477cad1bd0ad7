/**
 The worker's intent log: `register` appends to one durable snapshot by idempotent
 operations, and keeps room for the deletion of everything it ever registered.
 */
module Worker {
  import opened Wrappers
  import opened Sets
  import opened Net
  import opened History

  const OPERATION_LIMIT: nat := 16384
  const LIFETIME_LIMIT: nat := 4096

  datatype Registration = Registration(operation: string, id: string, app: string, endpoint: Endpoint, deleted: bool)

  /** A row of the operations table. The request stands for its hash, SHA-256 being taken to be injective. */
  datatype Stored = Stored(request: Registration, revision: U64)

  datatype Refusal =
    | OperationConflict | OperationCapacity | IdentityConflict | UnknownOrFull | EndpointReserved | RevisionExhausted

  datatype Log = Log(state: Snapshot, operations: map<string, Stored>)

  function Initial(owner: string): Log {
    Log(Snapshot(1, owner, 1, 1, map[]), map[])
  }

  predicate Taken(records: Records, request: Registration) {
    exists id | id in records :: records[id].endpoint == request.endpoint && id != request.id
  }

  /** The log after an appended operation. */
  function Appended(log: Log, request: Registration): Log
    requires log.state.revision < U64_MAX
  {
    var revision := log.state.revision + 1;
    var record := Record(request.id, request.app, request.endpoint, revision, request.deleted);
    Log(log.state.(revision := revision, records := log.state.records[request.id := record]),
        log.operations[request.operation := Stored(request, revision)])
  }

  function Refuse(log: Log, request: Registration): Outcome<Refusal> {
    var known := request.id in log.state.records;
    if |log.operations| >= OPERATION_LIMIT
       && !(known && !log.state.records[request.id].deleted && request.deleted) then Fail(OperationCapacity)
    else if known && (var old_ := log.state.records[request.id];
                      || old_.app != request.app || old_.endpoint != request.endpoint
                      || (old_.deleted && !request.deleted))
      then Fail(IdentityConflict)
    else if !known && (request.deleted || |log.state.records| >= LIFETIME_LIMIT) then Fail(UnknownOrFull)
    else if Taken(log.state.records, request) then Fail(EndpointReserved)
    else Need(log.state.revision < I63_MAX, RevisionExhausted)
  }

  /** What one registration returns, and the log it leaves. */
  function Registered(log: Log, request: Registration): (Log, Result<U64, Refusal>) {
    if request.operation in log.operations then
      var stored := log.operations[request.operation];
      (log, if stored.request != request then Err(OperationConflict) else Ok(stored.revision))
    else
      var refusal := Refuse(log, request);
      if refusal.Fail? then (log, Err(refusal.error))
      else (Appended(log, request), Ok(log.state.revision + 1))
  }

  function RegisterAll(log: Log, requests: seq<Registration>): Log
    decreases |requests|
  {
    if requests == [] then log else RegisterAll(Registered(log, requests[0]).0, requests[1..])
  }

  class Daemon {
    var state: Snapshot
    var operations: map<string, Stored>

    ghost function Contents(): Log
      reads this
    {
      Log(state, operations)
    }

    constructor (owner: string)
      ensures Contents() == Initial(owner)
    {
      state := Snapshot(1, owner, 1, 1, map[]);
      operations := map[];
    }

    /** Whether another record holds the endpoint; the records come in any order. */
    method EndpointTaken(request: Registration) returns (taken: bool)
      ensures taken == Taken(state.records, request)
    {
      var remaining := state.records.Keys;
      while remaining != {}
        invariant remaining <= state.records.Keys
        invariant forall id :: id in state.records.Keys - remaining ==>
                    !(state.records[id].endpoint == request.endpoint && id != request.id)
        decreases remaining
      {
        var id :| id in remaining;
        if state.records[id].endpoint == request.endpoint && id != request.id {
          return true;
        }
        remaining := remaining - {id};
      }
      return false;
    }

    method Register(request: Registration) returns (r: Result<U64, Refusal>)
      modifies this
      ensures (Contents(), r) == Registered(old(Contents()), request)
    {
      if request.operation in operations {
        var stored := operations[request.operation];
        if stored.request != request {
          return Err(OperationConflict);
        }
        return Ok(stored.revision);
      }
      var exists_ := request.id in state.records;
      if |operations| >= OPERATION_LIMIT && !(exists_ && !state.records[request.id].deleted && request.deleted) {
        return Err(OperationCapacity);
      }
      if exists_ {
        var old_ := state.records[request.id];
        if old_.app != request.app || old_.endpoint != request.endpoint || (old_.deleted && !request.deleted) {
          return Err(IdentityConflict);
        }
      }
      if !exists_ && (request.deleted || |state.records| >= LIFETIME_LIMIT) {
        return Err(UnknownOrFull);
      }
      var taken := EndpointTaken(request);
      if taken {
        return Err(EndpointReserved);
      }
      if state.revision >= I63_MAX {
        return Err(RevisionExhausted);
      }
      var revision := state.revision + 1;
      var record := Record(request.id, request.app, request.endpoint, revision, request.deleted);
      state := state.(revision := revision, records := state.records[request.id := record]);
      operations := operations[request.operation := Stored(request, revision)];
      return Ok(revision);
    }
  }

  /// What the log keeps, as long as no recovery rewrites it

  ghost function Tombstones(records: Records): set<string> {
    set id | id in records && records[id].deleted
  }

  ghost predicate LogInv(log: Log) {
    && log.state.schema == 1 && log.state.incarnation == 1
    && log.state.revision == 1 + |log.operations|
    && |log.operations| <= OPERATION_LIMIT + |Tombstones(log.state.records)|
    && |log.state.records| <= LIFETIME_LIMIT
    && Keyed(log.state.records) && Bounded(log.state) && EndpointsDistinct(log.state.records)
  }

  lemma TombstonesAreFew(records: Records)
    ensures |Tombstones(records)| <= |records|
  {
    SubsetIsSmaller(Tombstones(records), records.Keys);
    assert |records| == |records.Keys|;
  }

  /** Revisions and operations advance in step, far from the end of the revision space. */
  lemma LogIsBounded(log: Log)
    requires LogInv(log)
    ensures |log.operations| <= OPERATION_LIMIT + LIFETIME_LIMIT
    ensures log.state.revision <= 1 + OPERATION_LIMIT + LIFETIME_LIMIT < I63_MAX
  {
    TombstonesAreFew(log.state.records);
  }

  lemma AppendedCountsTombstones(log: Log, request: Registration)
    requires LogInv(log) && log.state.revision < U64_MAX && Refuse(log, request).Pass?
    ensures |Tombstones(Appended(log, request).state.records)| >= |Tombstones(log.state.records)|
    ensures |log.operations| >= OPERATION_LIMIT ==>
              |Tombstones(Appended(log, request).state.records)| == |Tombstones(log.state.records)| + 1
  {
    var before, after := Tombstones(log.state.records), Tombstones(Appended(log, request).state.records);
    if request.deleted {
      assert after == before + {request.id};
      assert request.id in before ==> after == before;
    } else {
      assert after == before;
    }
  }

  /** Every registration keeps the log's invariant and extends the published history. */
  lemma RegisteredKeeps(log: Log, request: Registration)
    requires LogInv(log)
    ensures LogInv(Registered(log, request).0)
    ensures SnapshotExtends(log.state, Registered(log, request).0.state)
    ensures Registered(log, request).1 != Err(RevisionExhausted)
  {
    LogIsBounded(log);
    ExtendsIsReflexive(log.state.records);
    if request.operation !in log.operations && Refuse(log, request).Pass? {
      AppendedCountsTombstones(log, request);
      AppendedKeepsRecords(log, request);
    }
  }

  lemma AppendedIsDistinct(records: Records, record: Record)
    requires EndpointsDistinct(records)
    requires forall id :: id in records && records[id].endpoint == record.endpoint ==> id == record.id
    ensures EndpointsDistinct(records[record.id := record])
  {
  }

  lemma AppendedIsWithinLifetime(records: Records, request: Registration, record: Record)
    requires request.id in records || |records| < LIFETIME_LIMIT
    requires |records| <= LIFETIME_LIMIT
    ensures |records[request.id := record]| <= LIFETIME_LIMIT
  {
    var after := records[request.id := record];
    assert after.Keys == records.Keys + {request.id};
    assert |after| == |after.Keys| && |records| == |records.Keys|;
  }

  lemma AppendedExtends(log: Log, request: Registration)
    requires Keyed(log.state.records) && Bounded(log.state)
    requires log.state.revision < U64_MAX && Refuse(log, request).Pass?
    ensures var t := Appended(log, request).state;
            SnapshotExtends(log.state, t) && Keyed(t.records) && Bounded(t)
  {
  }

  lemma AppendedKeepsRecords(log: Log, request: Registration)
    requires LogInv(log) && log.state.revision < U64_MAX && Refuse(log, request).Pass?
    ensures var t := Appended(log, request);
            && SnapshotExtends(log.state, t.state) && |t.state.records| <= LIFETIME_LIMIT
            && Keyed(t.state.records) && Bounded(t.state) && EndpointsDistinct(t.state.records)
  {
    var record := Appended(log, request).state.records[request.id];
    AppendedExtends(log, request);
    AppendedIsWithinLifetime(log.state.records, request, record);
    AppendedIsDistinct(log.state.records, record);
  }

  lemma InitialIsInv(owner: string)
    ensures LogInv(Initial(owner))
  {
    assert Tombstones(map[]) == {};
  }

  lemma {:induction false} RegisterAllKeeps(log: Log, requests: seq<Registration>)
    requires LogInv(log)
    ensures LogInv(RegisterAll(log, requests))
    ensures SnapshotExtends(log.state, RegisterAll(log, requests).state)
    ensures forall op :: op in log.operations ==>
              && op in RegisterAll(log, requests).operations
              && RegisterAll(log, requests).operations[op] == log.operations[op]
    decreases |requests|
  {
    ExtendsIsReflexive(log.state.records);
    if requests != [] {
      var t := Registered(log, requests[0]).0;
      RegisteredKeeps(log, requests[0]);
      RegisterAllKeeps(t, requests[1..]);
      SnapshotExtendsIsTransitive(log.state, t.state, RegisterAll(t, requests[1..]).state);
    }
  }

  /** Whatever was registered, in whatever order: the bounds, and one revision per stored operation. */
  lemma LogBound(owner: string, requests: seq<Registration>)
    ensures var log := RegisterAll(Initial(owner), requests);
            && log.state.revision == 1 + |log.operations|
            && |log.operations| <= OPERATION_LIMIT + |Tombstones(log.state.records)|
            && |log.operations| <= 20480
  {
    InitialIsInv(owner);
    RegisterAllKeeps(Initial(owner), requests);
    LogIsBounded(RegisterAll(Initial(owner), requests));
  }

  /** A repeated operation answers with its first revision for ever, and never acts twice. */
  lemma ReplayAnswersOnce(log: Log, request: Registration, later: seq<Registration>, replay: Registration)
    requires LogInv(log) && Registered(log, request).1.Ok? && replay.operation == request.operation
    ensures var t := RegisterAll(Registered(log, request).0, later);
            Registered(t, replay)
            == (t, if replay == request then Registered(log, request).1 else Err(OperationConflict))
  {
    RegisteredKeeps(log, request);
    RegisterAllKeeps(Registered(log, request).0, later);
  }

  /** Every live record can be deleted, however full the log is. */
  lemma DeletionIsAlwaysRegistered(log: Log, operation: string, id: string)
    requires LogInv(log) && operation !in log.operations
    requires id in log.state.records && !log.state.records[id].deleted
    ensures var record := log.state.records[id];
            var (t, r) := Registered(log, Registration(operation, id, record.app, record.endpoint, true));
            && r == Ok(log.state.revision + 1)
            && t.state.records == log.state.records[id := record.(revision := log.state.revision + 1, deleted := true)]
  {
    LogIsBounded(log);
    assert Keyed(log.state.records) && EndpointsDistinct(log.state.records);
  }

  /// What is taken, in plain terms

  /** Room for another operation: below the limit, or in the reserve kept for deleting what is live. */
  predicate HasRoom(log: Log, request: Registration) {
    || |log.operations| < 16384
    || (request.id in log.state.records && !log.state.records[request.id].deleted && request.deleted)
  }

  /** A known id keeps its application and endpoint, and a deleted record stays deleted. */
  predicate SameRecord(log: Log, request: Registration)
    requires request.id in log.state.records
  {
    var record := log.state.records[request.id];
    && request.app == record.app && request.endpoint == record.endpoint
    && (record.deleted ==> request.deleted)
  }

  predicate EndpointHeld(log: Log, endpoint: Endpoint) {
    exists id :: id in log.state.records && log.state.records[id].endpoint == endpoint
  }

  /**
   A new operation is taken exactly so: on an id not known before if it is live, its endpoint
   is held by no record, and fewer than 4096 records and 16384 operations are there; on a
   known id if the record stays the same and there is room. It then puts that one record,
   under the next revision.
   */
  lemma RegistrationIsExact(log: Log, request: Registration)
    requires LogInv(log) && request.operation !in log.operations
    ensures var (t, r) := Registered(log, request);
            && (r.Ok? <==>
                if request.id in log.state.records then SameRecord(log, request) && HasRoom(log, request)
                else
                  && !request.deleted && !EndpointHeld(log, request.endpoint)
                  && |log.state.records| < 4096 && |log.operations| < 16384)
            && (r.Err? ==> t == log)
            && (r.Ok? ==>
                  && r.value == log.state.revision + 1
                  && t.state == log.state.(
                       revision := r.value,
                       records := log.state.records[request.id :=
                         Record(request.id, request.app, request.endpoint, r.value, request.deleted)])
                  && t.operations == log.operations[request.operation := Stored(request, r.value)])
  {
    LogIsBounded(log);
    HeldIsTaken(log, request);
  }

  lemma HeldIsTaken(log: Log, request: Registration)
    requires LogInv(log)
    ensures request.id !in log.state.records ==>
              (Taken(log.state.records, request) <==> EndpointHeld(log, request.endpoint))
    ensures request.id in log.state.records && SameRecord(log, request) ==> !Taken(log.state.records, request)
  {
    assert EndpointsDistinct(log.state.records);
  }

  /** Why a new operation is refused; the first of these reasons that applies is the one given. */
  lemma RefusalsAreExact(log: Log, request: Registration)
    requires LogInv(log) && request.operation !in log.operations
    ensures var r := Registered(log, request).1;
            var known := request.id in log.state.records;
            && (r == Err(OperationCapacity) <==> !HasRoom(log, request))
            && (r == Err(IdentityConflict) <==> HasRoom(log, request) && known && !SameRecord(log, request))
            && (r == Err(UnknownOrFull) <==>
                HasRoom(log, request) && !known && (request.deleted || 4096 <= |log.state.records|))
            && (r == Err(EndpointReserved) <==>
                HasRoom(log, request) && !known && !request.deleted && |log.state.records| < 4096
                && EndpointHeld(log, request.endpoint))
            && r != Err(OperationConflict) && r != Err(RevisionExhausted)
  {
    LogIsBounded(log);
    HeldIsTaken(log, request);
  }
}
