/**
 The states a router can be in, and what every transition keeps of them:
 well-formed records, endpoints reserved once, the byte budget, the recovery
 fence, and the order on histories.
 */
module Soundness {
  import opened Wrappers
  import opened Net
  import opened History
  import opened Ordered
  import opened Routing
  import opened Budget

  /** The configuration of a router or proxy: which applications each owner may register, and the limits. */
  datatype Rules = Rules(applications: map<string, set<string>>, recordLimit: nat, viewLimit: nat)

  function PolicyOf(rules: Rules, owner: string): Policy
    requires owner in rules.applications
  {
    Policy(rules.applications[owner], rules.recordLimit, rules.viewLimit)
  }

  predicate SnapshotOk(owner: string, n: Snapshot, policy: Policy) {
    AuthorityOk(owner, n) && |n.records| <= policy.recordLimit && RecordsOk(n, policy)
  }

  /** No endpoint is held twice, by whichever owner or record. */
  ghost predicate Distinct(s: State) {
    forall e, o, i, p, j :: Holds(s, e, o, i) && Holds(s, e, p, j) ==> o == p && i == j
  }

  predicate OwnerOk(s: State, rules: Rules, o: string)
    requires o in s.owners && o in rules.applications
  {
    SnapshotOk(o, s.owners[o].snapshot, PolicyOf(rules, o))
  }

  ghost predicate OwnersOk(s: State, rules: Rules) {
    && s.owners.Keys <= rules.applications.Keys
    && forall o {:trigger OwnerOk(s, rules, o)} :: o in s.owners ==> OwnerOk(s, rules, o)
  }

  lemma SmallerFits(a: State, b: State, limit: nat)
    requires Within(a, b) && Fits(b, limit)
    ensures Fits(a, limit)
  {
    ReserveIsMonotone(a, b);
    FitsIsReserve(a, limit);
    FitsIsReserve(b, limit);
  }

  ghost predicate Sound(s: State, rules: Rules) {
    OwnersOk(s, rules) && Distinct(s) && (s.owners == map[] || Fits(s, rules.viewLimit))
  }

  predicate Follows(previous: Owner, next: Snapshot) {
    && previous.frozenBy.None?
    && next.incarnation == previous.snapshot.incarnation
    && SnapshotExtends(previous.snapshot, next)
  }

  /// Reservations

  lemma OnlyHolderIsLast(s: State, e: Endpoint, o: string, i: string)
    requires Distinct(s) && Holds(s, e, o, i)
    ensures LastHolder(s, e, o, i)
  {
    forall p, j | p in s.owners && j in s.owners[p].snapshot.records && Holds(s, e, p, j)
      ensures !(Less(o, p) || (o == p && Less(i, j)))
    {
      LessIsStrict(o, p);
      LessIsStrict(i, j);
    }
  }

  ghost predicate Free(s: State, next: Snapshot) {
    forall e, o, i, j ::
      Holds(s, e, o, i) && j in next.records && next.records[j].endpoint == e ==> o == next.owner && i == j
  }

  /** On a sound state the reservation table answers for every holder. */
  lemma ReservationsAreExact(s: State, next: Snapshot, rules: Rules)
    requires OwnersOk(s, rules) && Distinct(s)
    requires forall id :: id in next.records ==> next.records[id].id == id
    ensures Reservations(s, next) <==> EndpointsDistinct(next.records) && Free(s, next)
  {
    if Reservations(s, next) {
      forall e, o, i, j | Holds(s, e, o, i) && j in next.records && next.records[j].endpoint == e
        ensures o == next.owner && i == j
      {
        OnlyHolderIsLast(s, e, o, i);
        assert Reservable(s, next.owner, next.records[j]);
        assert OwnerOk(s, rules, o);
        assert RecordOk(i, s.owners[o].snapshot.records[i], s.owners[o].snapshot, PolicyOf(rules, o));
      }
    }
    if EndpointsDistinct(next.records) && Free(s, next) {
      forall id | id in next.records ensures Reservable(s, next.owner, next.records[id]) {
        forall o, i | o in s.owners && i in s.owners[o].snapshot.records
          && LastHolder(s, next.records[id].endpoint, o, i)
          ensures o == next.owner && s.owners[o].snapshot.records[i].id == id
        {
          assert Holds(s, next.records[id].endpoint, o, i);
          assert OwnerOk(s, rules, o);
          assert RecordOk(i, s.owners[o].snapshot.records[i], s.owners[o].snapshot, PolicyOf(rules, o));
        }
      }
    }
  }

  lemma CommitIsDistinct(s: State, next: Snapshot, now: U64)
    requires Distinct(s) && s.generation < U64_MAX
    requires next.owner in s.owners ==> Extends(s.owners[next.owner].snapshot.records, next.records)
    ensures Distinct(Commit(s, next, now)) <==> EndpointsDistinct(next.records) && Free(s, next)
  {
    var t := Commit(s, next, now);
    if Distinct(t) {
      forall i, j | i in next.records && j in next.records && next.records[i].endpoint == next.records[j].endpoint
        ensures i == j
      {
        assert Holds(t, next.records[i].endpoint, next.owner, i) && Holds(t, next.records[i].endpoint, next.owner, j);
      }
      forall e, o, i, j | Holds(s, e, o, i) && j in next.records && next.records[j].endpoint == e
        ensures o == next.owner && i == j
      {
        assert Holds(t, e, next.owner, j);
        assert Holds(t, e, o, i);
      }
    }
    if EndpointsDistinct(next.records) && Free(s, next) {
      forall e, o, i, p, j | Holds(t, e, o, i) && Holds(t, e, p, j) ensures o == p && i == j {
        if o != next.owner { assert Holds(s, e, o, i); }
        if p != next.owner { assert Holds(s, e, p, j); }
      }
    }
  }

  /// Accept

  lemma HistoryCheckIsFollows(previous: Owner, next: Snapshot)
    requires previous.snapshot.owner == next.owner
    ensures CheckHistory(previous, next).Pass? <==> Follows(previous, next)
  {
  }

  predicate Admits(s: State, next: Snapshot, policy: Policy, now: U64) {
    && SnapshotOk(next.owner, next, policy)
    && (next.owner in s.owners ==> CheckHistory(s.owners[next.owner], next).Pass?)
    && Reservations(s, next)
    && s.generation < U64_MAX
    && Fits(Commit(s, next, now), policy.viewLimit)
  }

  lemma AcceptIsAdmits(s: State, authenticated: string, next: Snapshot, policy: Policy, now: U64)
    ensures var r := Accept(s, authenticated, next, policy, now);
            && (r.Ok? <==> next.owner == authenticated && Admits(s, next, policy, now))
            && (r.Ok? ==> r.value == Commit(s, next, now))
  {
  }

  /** Committing replaces one snapshot and touches no other. */
  lemma CommitOwnersOk(s: State, next: Snapshot, rules: Rules, now: U64)
    requires OwnersOk(s, rules) && next.owner in rules.applications && s.generation < U64_MAX
    ensures OwnersOk(Commit(s, next, now), rules) <==> SnapshotOk(next.owner, next, PolicyOf(rules, next.owner))
  {
    var t := Commit(s, next, now);
    assert t.owners[next.owner].snapshot == next;
    forall o | o in t.owners && o != next.owner
      ensures o in rules.applications && OwnerOk(t, rules, o)
    {
      assert OwnerOk(s, rules, o) && t.owners[o] == s.owners[o];
    }
    assert OwnersOk(t, rules) ==> OwnerOk(t, rules, next.owner);
  }

  lemma KeyedByRecordsOk(next: Snapshot, policy: Policy)
    requires RecordsOk(next, policy)
    ensures Keyed(next.records) && Bounded(next)
  {
    forall id | id in next.records
      ensures next.records[id].id == id && 1 <= next.records[id].revision <= next.revision
    {
      assert RecordOk(id, next.records[id], next, policy);
    }
  }

  lemma AdmitsIsExact(s: State, next: Snapshot, rules: Rules, now: U64)
    requires Sound(s, rules) && next.owner in rules.applications
    ensures Admits(s, next, PolicyOf(rules, next.owner), now) <==>
            && s.generation < U64_MAX
            && (next.owner in s.owners ==> Follows(s.owners[next.owner], next))
            && Sound(Commit(s, next, now), rules)
  {
    var policy := PolicyOf(rules, next.owner);
    if next.owner in s.owners {
      assert OwnerOk(s, rules, next.owner);
      HistoryCheckIsFollows(s.owners[next.owner], next);
    }
    if s.generation < U64_MAX {
      CommitOwnersOk(s, next, rules, now);
      assert next.owner in Commit(s, next, now).owners;
      if SnapshotOk(next.owner, next, policy) && (next.owner in s.owners ==> Follows(s.owners[next.owner], next)) {
        KeyedByRecordsOk(next, policy);
        ReservationsAreExact(s, next, rules);
        CommitIsDistinct(s, next, now);
      }
    }
  }

  /**
   `Accept` is exact: from a sound state it commits precisely the snapshots that
   follow the owner's history and leave the state sound.
   */
  lemma AcceptIsExact(s: State, authenticated: string, next: Snapshot, rules: Rules, now: U64)
    requires Sound(s, rules) && authenticated in rules.applications
    ensures var r := Accept(s, authenticated, next, PolicyOf(rules, authenticated), now);
            && (r.Ok? <==>
                && next.owner == authenticated
                && s.generation < U64_MAX
                && (next.owner in s.owners ==> Follows(s.owners[next.owner], next))
                && Sound(Commit(s, next, now), rules))
            && (r.Ok? ==> r.value == Commit(s, next, now))
  {
    AcceptIsAdmits(s, authenticated, next, PolicyOf(rules, authenticated), now);
    if next.owner == authenticated {
      AdmitsIsExact(s, next, rules, now);
    }
  }

  /// The order on states

  predicate OwnerExtends(a: Owner, b: Owner) {
    && SnapshotExtends(a.snapshot, b.snapshot)
    && (a.credentialHash.Some? ==> b.credentialHash.Some?)
    && (a.recovery.Some? ==> b.recovery.Some?)
  }

  predicate StateExtends(a: State, b: State) {
    && a.generation <= b.generation
    && a.owners.Keys <= b.owners.Keys
    && forall o {:trigger OwnerExtends(a.owners[o], b.owners[o])} :: o in a.owners ==>
         OwnerExtends(a.owners[o], b.owners[o])
  }

  lemma StateExtendsIsReflexive(s: State)
    ensures StateExtends(s, s)
  {
    forall o | o in s.owners ensures OwnerExtends(s.owners[o], s.owners[o]) {
      ExtendsIsReflexive(s.owners[o].snapshot.records);
    }
  }

  lemma StateExtendsIsTransitive(a: State, b: State, c: State)
    requires StateExtends(a, b) && StateExtends(b, c)
    ensures StateExtends(a, c)
  {
    forall o | o in a.owners ensures o in c.owners && OwnerExtends(a.owners[o], c.owners[o]) {
      assert OwnerExtends(a.owners[o], b.owners[o]) && OwnerExtends(b.owners[o], c.owners[o]);
      SnapshotExtendsIsTransitive(a.owners[o].snapshot, b.owners[o].snapshot, c.owners[o].snapshot);
    }
  }

  /// What each transition keeps

  /** Soundness looks at the records only: fences, times and staleness are free, and so is a positive incarnation. */
  predicate SameRecords(a: State, b: State) {
    && a.owners.Keys == b.owners.Keys
    && forall o :: o in a.owners ==>
         && b.owners[o].snapshot == a.owners[o].snapshot.(incarnation := b.owners[o].snapshot.incarnation)
         && 1 <= b.owners[o].snapshot.incarnation
  }

  lemma SoundnessIsOfRecords(a: State, b: State, rules: Rules)
    requires Sound(a, rules) && SameRecords(a, b)
    ensures Sound(b, rules)
  {
    forall o | o in b.owners
      ensures o in rules.applications && OwnerOk(b, rules, o)
    {
      var n := a.owners[o].snapshot;
      assert OwnerOk(a, rules, o);
      forall id | id in n.records ensures RecordOk(id, n.records[id], b.owners[o].snapshot, PolicyOf(rules, o)) {
        assert RecordOk(id, n.records[id], n, PolicyOf(rules, o));
      }
    }
    forall e, o, i, p, j | Holds(b, e, o, i) && Holds(b, e, p, j) ensures o == p && i == j {
      assert Holds(a, e, o, i) && Holds(a, e, p, j);
    }
    if a.owners != map[] {
      SmallerFits(b, a, rules.viewLimit);
    }
  }

  lemma PositiveIncarnations(s: State, rules: Rules)
    requires Sound(s, rules)
    ensures OwnNames(s)
  {
    forall o | o in s.owners ensures 1 <= s.owners[o].snapshot.incarnation && s.owners[o].snapshot.owner == o {
      assert OwnerOk(s, rules, o);
    }
  }

  lemma CommitExtends(s: State, next: Snapshot, now: U64)
    requires s.generation < U64_MAX
    requires next.owner in s.owners ==> SnapshotExtends(s.owners[next.owner].snapshot, next)
    ensures StateExtends(s, Commit(s, next, now))
  {
    StateExtendsIsReflexive(s);
  }

  predicate OwnNames(s: State) {
    forall o :: o in s.owners ==> s.owners[o].snapshot.owner == o && 1 <= s.owners[o].snapshot.incarnation
  }

  /** A fence changes no record. */
  lemma FreezeChangesNoRecord(s: State, owner: string, operation: string)
    requires OwnNames(s) && Freeze(s, owner, operation).Ok?
    ensures SameRecords(s, Freeze(s, owner, operation).value)
    ensures StateExtends(s, Freeze(s, owner, operation).value)
  {
    StateExtendsIsReflexive(s);
  }

  lemma FreezeKeepsMetadata(s: State, owner: string, operation: string)
    requires MetadataOk(s) && Freeze(s, owner, operation).Ok?
    ensures MetadataOk(Freeze(s, owner, operation).value)
  {
    var t := Freeze(s, owner, operation).value;
    assert t.owners.Keys == s.owners.Keys;
    assert |t.owners| == |t.owners.Keys|;
    forall id | id in t.owners ensures OwnerMetadataOk(id, t.owners[id]) {
      assert OwnerMetadataOk(id, s.owners[id]);
    }
  }

  lemma FreezeKeeps(s: State, owner: string, operation: string, rules: Rules)
    requires Sound(s, rules) && Freeze(s, owner, operation).Ok?
    ensures Sound(Freeze(s, owner, operation).value, rules)
    ensures StateExtends(s, Freeze(s, owner, operation).value)
  {
    PositiveIncarnations(s, rules);
    FreezeChangesNoRecord(s, owner, operation);
    SoundnessIsOfRecords(s, Freeze(s, owner, operation).value, rules);
  }

  lemma RestartChangesNoRecord(s: State)
    requires OwnNames(s)
    ensures SameRecords(s, AfterRestart(s)) && StateExtends(s, AfterRestart(s))
  {
    StateExtendsIsReflexive(s);
  }

  lemma RestartKeepsMetadata(s: State)
    requires MetadataOk(s)
    ensures MetadataOk(AfterRestart(s))
  {
    var t := AfterRestart(s);
    assert t.owners.Keys == s.owners.Keys;
    assert |t.owners| == |t.owners.Keys|;
    forall id | id in t.owners ensures OwnerMetadataOk(id, t.owners[id]) {
      assert OwnerMetadataOk(id, s.owners[id]);
    }
  }

  lemma RestartKeeps(s: State, rules: Rules)
    requires Sound(s, rules)
    ensures Sound(AfterRestart(s), rules)
    ensures StateExtends(s, AfterRestart(s))
  {
    PositiveIncarnations(s, rules);
    RestartChangesNoRecord(s);
    SoundnessIsOfRecords(s, AfterRestart(s), rules);
  }

  /// Recover

  predicate Recorded(s: State, owner: string, operation: string) {
    owner in s.owners && s.owners[owner].recovery.Some? && s.owners[owner].recovery.value.operation == operation
  }

  /** What a recovery result owes to the frozen owner it replaces. */
  predicate Resumes(previous: Owner, operation: string, next: Snapshot) {
    && previous.frozenBy == Some(operation)
    && previous.snapshot.incarnation < next.incarnation
    && SnapshotExtends(previous.snapshot.(incarnation := next.incarnation), next)
  }

  function Recovered(s: State, operation: string, next: Snapshot, credentialHash: string): State
    requires next.owner in s.owners && s.generation < U64_MAX
  {
    Fenced(Commit(Unfenced(s, next), next, s.owners[next.owner].reconciledMs), operation, next, credentialHash)
  }

  lemma RecoverUnfolds(s: State, operation: string, next: Snapshot, credentialHash: string, policy: Policy)
    requires next.owner in s.owners && !Recorded(s, next.owner, operation)
    ensures var previous := s.owners[next.owner];
            var r := Recover(s, operation, next, credentialHash, policy);
            var accepted := Accept(Unfenced(s, next), next.owner, next, policy, previous.reconciledMs);
            && (r.Ok? <==>
                && Name(operation) && HexDigest(credentialHash)
                && previous.frozenBy == Some(operation)
                && previous.snapshot.incarnation < next.incarnation
                && accepted.Ok?)
            && (r.Ok? ==>
                  && next.owner in accepted.value.owners
                  && r.value == Fenced(accepted.value, operation, next, credentialHash))
  {
    AcceptIsAdmits(Unfenced(s, next), next.owner, next, policy, s.owners[next.owner].reconciledMs);
  }

  lemma UnfencedHasSameRecords(s: State, next: Snapshot)
    requires OwnNames(s) && next.owner in s.owners && 1 <= next.incarnation
    ensures SameRecords(s, Unfenced(s, next))
  {
  }

  lemma FencedHasSameRecords(s: State, operation: string, next: Snapshot, credentialHash: string)
    requires OwnNames(s) && next.owner in s.owners
    ensures SameRecords(s, Fenced(s, operation, next, credentialHash))
    ensures SameRecords(Fenced(s, operation, next, credentialHash), s)
  {
  }

  lemma RecoveredIsSound(s: State, operation: string, next: Snapshot, credentialHash: string, rules: Rules)
    requires next.owner in s.owners && s.generation < U64_MAX
    ensures Sound(Recovered(s, operation, next, credentialHash), rules)
       <==> Sound(Commit(Unfenced(s, next), next, s.owners[next.owner].reconciledMs), rules)
  {
    var c := Commit(Unfenced(s, next), next, s.owners[next.owner].reconciledMs);
    var f := Fenced(c, operation, next, credentialHash);
    if Sound(c, rules) {
      PositiveIncarnations(c, rules);
      FencedHasSameRecords(c, operation, next, credentialHash);
      SoundnessIsOfRecords(c, f, rules);
    }
    if Sound(f, rules) {
      PositiveIncarnations(f, rules);
      assert OwnNames(c) by {
        forall o | o in c.owners ensures c.owners[o].snapshot.owner == o && 1 <= c.owners[o].snapshot.incarnation {
          assert f.owners[o].snapshot == c.owners[o].snapshot;
        }
      }
      FencedHasSameRecords(c, operation, next, credentialHash);
      SoundnessIsOfRecords(f, c, rules);
    }
  }

  /** `Recover` is exact in the same sense, for an operation the owner has not recorded yet. */
  lemma RecoverIsExact(s: State, operation: string, next: Snapshot, credentialHash: string, rules: Rules)
    requires Sound(s, rules) && next.owner in s.owners && !Recorded(s, next.owner, operation)
    requires next.owner in rules.applications
    ensures var r := Recover(s, operation, next, credentialHash, PolicyOf(rules, next.owner));
            && (r.Ok? <==>
                && Name(operation) && HexDigest(credentialHash)
                && s.generation < U64_MAX
                && Resumes(s.owners[next.owner], operation, next)
                && Sound(Recovered(s, operation, next, credentialHash), rules))
            && (r.Ok? ==> r.value == Recovered(s, operation, next, credentialHash))
  {
    var previous := s.owners[next.owner];
    PositiveIncarnations(s, rules);
    RecoverUnfolds(s, operation, next, credentialHash, PolicyOf(rules, next.owner));
    if previous.snapshot.incarnation < next.incarnation {
      UnfencedHasSameRecords(s, next);
      SoundnessIsOfRecords(s, Unfenced(s, next), rules);
      AcceptIsExact(Unfenced(s, next), next.owner, next, rules, previous.reconciledMs);
      if s.generation < U64_MAX {
        RecoveredIsSound(s, operation, next, credentialHash, rules);
      }
    }
  }

  lemma RecoveredExtends(s: State, operation: string, next: Snapshot, credentialHash: string)
    requires next.owner in s.owners && s.generation < U64_MAX
    requires s.owners[next.owner].snapshot.owner == next.owner && Resumes(s.owners[next.owner], operation, next)
    ensures StateExtends(s, Recovered(s, operation, next, credentialHash))
  {
    StateExtendsIsReflexive(s);
  }

  /// Deletion reserve

  /** The next snapshot only deletes live records, each under a new revision. */
  predicate OnlyDeletes(previous: Snapshot, next: Snapshot) {
    && next == previous.(revision := next.revision, records := next.records)
    && previous.revision < next.revision
    && previous.records.Keys == next.records.Keys
    && forall id :: id in previous.records ==>
         var (old_, new_) := (previous.records[id], next.records[id]);
         || new_ == old_
         || (!old_.deleted && old_.revision < new_.revision <= next.revision
             && new_ == old_.(revision := new_.revision, deleted := true))
  }

  lemma DeletionsStayOk(previous: Snapshot, next: Snapshot, policy: Policy)
    requires OnlyDeletes(previous, next) && SnapshotOk(previous.owner, previous, policy)
    ensures SnapshotOk(next.owner, next, policy)
    ensures SnapshotExtends(previous, next)
  {
    forall id | id in next.records ensures RecordOk(id, next.records[id], next, policy) {
      assert RecordOk(id, previous.records[id], previous, policy);
    }
    assert |next.records| == |next.records.Keys| == |previous.records.Keys| == |previous.records|;
  }

  lemma DeletionsStayDistinct(s: State, next: Snapshot, now: U64)
    requires Distinct(s) && s.generation < U64_MAX
    requires next.owner in s.owners && OnlyDeletes(s.owners[next.owner].snapshot, next)
    ensures Distinct(Commit(s, next, now)) && Within(Commit(s, next, now), s)
  {
    var t := Commit(s, next, now);
    forall e, o, i, p, j | Holds(t, e, o, i) && Holds(t, e, p, j) ensures o == p && i == j {
      assert Holds(s, e, o, i) && Holds(s, e, p, j);
    }
  }

  /**
   Deletion is always possible: no record, byte or reservation limit refuses a
   snapshot that only deletes, however full the router is.
   */
  lemma DeletionIsAlwaysAccepted(s: State, next: Snapshot, rules: Rules, now: U64)
    requires Sound(s, rules) && s.generation < U64_MAX
    requires next.owner in s.owners && s.owners[next.owner].frozenBy.None?
    requires OnlyDeletes(s.owners[next.owner].snapshot, next)
    ensures Accept(s, next.owner, next, PolicyOf(rules, next.owner), now) == Ok(Commit(s, next, now))
  {
    var previous := s.owners[next.owner].snapshot;
    var policy := PolicyOf(rules, next.owner);
    assert OwnerOk(s, rules, next.owner);
    DeletionsStayOk(previous, next, policy);
    CommitOwnersOk(s, next, rules, now);
    DeletionsStayDistinct(s, next, now);
    SmallerFits(Commit(s, next, now), s, rules.viewLimit);
    AcceptIsExact(s, next.owner, next, rules, now);
  }
}
