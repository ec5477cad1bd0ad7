/**
 What a router promises in plain terms: when each of its three requests is taken, what
 the records it holds look like, how a recovery answers when it is repeated, what a
 fence keeps out, and when an owner counts as fresh. Nothing here speaks through the
 predicates that the transitions are built from.
 */
module RouterLaws {
  import opened Wrappers
  import opened Net
  import opened History
  import opened Routing
  import opened Budget
  import opened Soundness
  import opened Router

  /// Publications

  /** An address other machines can be reached at, in one spelling only. */
  predicate Reachable(e: Endpoint) {
    && e.port != 0
    && match e
       case V4(a, b, c, d, _) => (a, b, c, d) != (0, 0, 0, 0) && (a < 224 || 239 < a)
       case V6(g, scope, _) =>
         && scope == 0
         && g != [0, 0, 0, 0, 0, 0, 0, 0]
         && g[0] < 0xff00
         && !(g[..5] == [0, 0, 0, 0, 0] && g[5] == 0xffff)
  }

  lemma ReachableIsRoutable(e: Endpoint)
    ensures Reachable(e) <==> e.Routable()
  {
    match e
    case V4(_, _, _, _, _) =>
    case V6(g, _, _) =>
      assert g[..5] == [g[0], g[1], g[2], g[3], g[4]];
      assert (forall i :: 0 <= i < 8 ==> g[i] == 0) ==> g == [0, 0, 0, 0, 0, 0, 0, 0];
  }

  /** A record of an owner that may have these applications, in a snapshot of that revision. */
  predicate GoodRecord(applications: set<string>, revision: U64, id: string, r: Record) {
    && r.id == id && Name(id) && Name(r.app) && r.app in applications
    && Reachable(r.endpoint) && 1 <= r.revision <= revision
  }

  /** A snapshot in itself. */
  predicate GoodSnapshot(applications: set<string>, owner: string, n: Snapshot) {
    && n.schema == 1 && n.owner == owner && Name(owner) && 1 <= n.incarnation && 1 <= n.revision
    && |n.records| <= 4096
    && forall id :: id in n.records ==> GoodRecord(applications, n.revision, id, n.records[id])
  }

  lemma GoodIsOkFor(applications: set<string>, owner: string, n: Snapshot, viewLimit: nat)
    ensures GoodSnapshot(applications, owner, n) <==>
            SnapshotOk(owner, n, Policy(applications, RECORD_LIMIT, viewLimit))
  {
    var policy := Policy(applications, RECORD_LIMIT, viewLimit);
    forall id | id in n.records
      ensures GoodRecord(applications, n.revision, id, n.records[id]) <==> RecordOk(id, n.records[id], n, policy)
    {
      ReachableIsRoutable(n.records[id].endpoint);
    }
  }

  lemma GoodIsOk(config: Config, owner: string, n: Snapshot)
    requires owner in config
    ensures GoodSnapshot(config[owner].applications, owner, n) <==>
            SnapshotOk(owner, n, PolicyOf(RulesOf(config), owner))
  {
    GoodIsOkFor(config[owner].applications, owner, n, VIEW_LIMIT);
  }

  /// States as a whole

  predicate HexText(s: string) {
    |s| == 64 && forall c :: c in s ==> '0' <= c <= '9' || 'a' <= c <= 'f' || 'A' <= c <= 'F'
  }

  predicate NameText(s: string) {
    1 <= |s| <= 128
    && forall c :: c in s ==>
         '0' <= c <= '9' || 'a' <= c <= 'z' || 'A' <= c <= 'Z' || c in "-_."
  }

  /** An owner under its own name, with well-formed fences, and recovered if beyond the first incarnation. */
  predicate GoodFences(id: string, o: Owner) {
    && o.snapshot.owner == id
    && (o.frozenBy.Some? ==> NameText(o.frozenBy.value))
    && (o.credentialHash.Some? ==> HexText(o.credentialHash.value))
    && (o.recovery.Some? ==>
          && NameText(o.recovery.value.operation)
          && (o.recovery.value.digest.Text? ==> HexText(o.recovery.value.digest.text)))
    && (o.snapshot.incarnation != 0 && o.snapshot.incarnation != 1 ==> o.credentialHash.Some? && o.recovery.Some?)
  }

  lemma FencesAreMetadata(id: string, o: Owner)
    ensures GoodFences(id, o) <==> OwnerMetadataOk(id, o)
    ensures forall s :: NameText(s) <==> Name(s)
    ensures forall s :: HexText(s) <==> HexDigest(s)
  {
  }

  /** No endpoint of the state is held twice. */
  ghost predicate EndpointsOnce(s: State) {
    forall o, i, p, j {:trigger s.owners[o].snapshot.records[i], s.owners[p].snapshot.records[j]} ::
      (o in s.owners && i in s.owners[o].snapshot.records && p in s.owners && j in s.owners[p].snapshot.records
       && s.owners[o].snapshot.records[i].endpoint == s.owners[p].snapshot.records[j].endpoint) ==>
        o == p && i == j
  }

  lemma OnceIsDistinct(s: State)
    ensures EndpointsOnce(s) <==> Distinct(s)
  {
    if Distinct(s) {
      forall o, i, p, j | o in s.owners && i in s.owners[o].snapshot.records
        && p in s.owners && j in s.owners[p].snapshot.records
        && s.owners[o].snapshot.records[i].endpoint == s.owners[p].snapshot.records[j].endpoint
        ensures o == p && i == j
      {
        var e := s.owners[o].snapshot.records[i].endpoint;
        assert Holds(s, e, o, i) && Holds(s, e, p, j);
      }
    }
  }

  predicate GoodOwner(applications: map<string, set<string>>, id: string, o: Owner) {
    id in applications && GoodFences(id, o) && GoodSnapshot(applications[id], id, o.snapshot)
  }

  /** Good fences, good snapshots, endpoints held once, and room for everything deletions can lead to. */
  ghost predicate GoodState(applications: map<string, set<string>>, s: State) {
    && |s.owners| <= 16
    && (forall o {:trigger GoodOwner(applications, o, s.owners[o])} :: o in s.owners ==>
          GoodOwner(applications, o, s.owners[o]))
    && EndpointsOnce(s)
    && (s.owners == map[] || Reserve(s) <= 16777216)
  }

  lemma GoodOwnerIsOk(applications: map<string, set<string>>, s: State, o: string)
    requires o in s.owners
    ensures var rules := Rules(applications, RECORD_LIMIT, VIEW_LIMIT);
            GoodOwner(applications, o, s.owners[o]) <==>
              OwnerMetadataOk(o, s.owners[o]) && o in applications && OwnerOk(s, rules, o)
  {
    FencesAreMetadata(o, s.owners[o]);
    if o in applications {
      GoodIsOkFor(applications[o], o, s.owners[o].snapshot, VIEW_LIMIT);
    }
  }

  lemma GoodOwnersAreOk(applications: map<string, set<string>>, s: State)
    ensures (forall o {:trigger GoodOwner(applications, o, s.owners[o])} :: o in s.owners ==>
               GoodOwner(applications, o, s.owners[o]))
       <==> OwnersMetadataOk(s) && OwnersOk(s, Rules(applications, RECORD_LIMIT, VIEW_LIMIT))
  {
    var rules := Rules(applications, RECORD_LIMIT, VIEW_LIMIT);
    forall o | o in s.owners
      ensures GoodOwner(applications, o, s.owners[o]) <==>
              OwnerMetadataOk(o, s.owners[o]) && o in applications && OwnerOk(s, rules, o)
    {
      GoodOwnerIsOk(applications, s, o);
    }
    if OwnersMetadataOk(s) && OwnersOk(s, rules) {
      forall o | o in s.owners ensures GoodOwner(applications, o, s.owners[o]) {
        assert OwnerMetadataOk(o, s.owners[o]) && OwnerOk(s, rules, o);
      }
    }
    if forall o {:trigger GoodOwner(applications, o, s.owners[o])} :: o in s.owners ==>
         GoodOwner(applications, o, s.owners[o]) {
      forall o | o in s.owners
        ensures OwnerMetadataOk(o, s.owners[o]) && o in applications && OwnerOk(s, rules, o)
      {
        assert GoodOwner(applications, o, s.owners[o]);
      }
    }
  }

  /** What is demanded of a whole state, by a router of its file and by a proxy of a view. */
  lemma GoodStateIsSound(applications: map<string, set<string>>, s: State)
    ensures GoodState(applications, s) <==>
            MetadataOk(s) && Sound(s, Rules(applications, RECORD_LIMIT, VIEW_LIMIT))
  {
    GoodOwnersAreOk(applications, s);
    OnceIsDistinct(s);
    FitsIsReserve(s, VIEW_LIMIT);
    assert MetadataOk(s) <==> |s.owners| <= 16 && OwnersMetadataOk(s);
  }

  /** Every owner a run comes to hold is configured, and every record is one that owner may have. */
  lemma RecordsAreConfigured(config: Config, steps: seq<Step>, owner: string)
    requires owner in Run(config, EMPTY, steps).owners
    ensures owner in config
    ensures var n := Run(config, EMPTY, steps).owners[owner].snapshot;
            && GoodSnapshot(config[owner].applications, owner, n)
            && forall id :: id in n.records ==> n.records[id].app in config[owner].applications
  {
    var s := Run(config, EMPTY, steps);
    EmptyIsInv(config);
    RunKeeps(config, EMPTY, steps);
    HeldIsGood(config, s, owner);
  }

  lemma HeldIsGood(config: Config, s: State, owner: string)
    requires Sound(s, RulesOf(config)) && owner in s.owners
    ensures owner in config && GoodSnapshot(config[owner].applications, owner, s.owners[owner].snapshot)
    ensures forall id :: id in s.owners[owner].snapshot.records ==>
              s.owners[owner].snapshot.records[id].app in config[owner].applications
  {
    var n := s.owners[owner].snapshot;
    assert OwnerOk(s, RulesOf(config), owner);
    GoodIsOk(config, owner, n);
    forall id | id in n.records ensures n.records[id].app in config[owner].applications {
      assert GoodRecord(config[owner].applications, n.revision, id, n.records[id]);
    }
  }

  /** What a new snapshot owes to the one it replaces, incarnations aside. */
  predicate Continues(previous: Snapshot, n: Snapshot) {
    && previous.revision <= n.revision
    && (previous.revision == n.revision ==> previous.(incarnation := n.incarnation) == n)
    && forall id :: id in previous.records ==>
         && id in n.records
         && var (old_, new_) := (previous.records[id], n.records[id]);
            && new_.app == old_.app && new_.endpoint == old_.endpoint
            && old_.revision <= new_.revision && (old_.deleted ==> new_.deleted)
            && (old_.revision == new_.revision ==> old_ == new_)
  }

  /** A first snapshot, or the next one of an unfenced owner. */
  predicate Succeeds(s: State, n: Snapshot) {
    if n.owner !in s.owners then n.incarnation == 1
    else
      && s.owners[n.owner].frozenBy == None
      && n.incarnation == s.owners[n.owner].snapshot.incarnation
      && Continues(s.owners[n.owner].snapshot, n)
  }

  /** Each endpoint once in the snapshot, and nowhere else unless it is that record's already. */
  ghost predicate OwnEndpoints(s: State, n: Snapshot) {
    && (forall i, j :: i in n.records && j in n.records && i != j ==> n.records[i].endpoint != n.records[j].endpoint)
    && forall o, i, j {:trigger s.owners[o].snapshot.records[i], n.records[j]} ::
         (o in s.owners && i in s.owners[o].snapshot.records && j in n.records
          && s.owners[o].snapshot.records[i].endpoint == n.records[j].endpoint) ==>
           o == n.owner && i == j
  }

  /** The state with the snapshot in it, as long as it can become, leaves it within 16 MiB. */
  predicate Affordable(s: State, n: Snapshot, now: U64)
    requires s.generation < U64_MAX
  {
    Reserve(Routing.Commit(s, n, now)) <= 16777216
  }

  /** The hash a publisher of the owner must present. */
  function Expected(config: Config, s: State, owner: string): string
    requires owner in config
  {
    if owner !in s.owners then config[owner].tokenHash
    else match s.owners[owner].credentialHash
      case None => config[owner].tokenHash
      case Some(hash) => hash
  }

  lemma SucceedsIsFollows(config: Config, s: State, n: Snapshot)
    requires Sound(s, RulesOf(config)) && n.owner in config && GoodSnapshot(config[n.owner].applications, n.owner, n)
    requires n.owner in s.owners
    ensures Succeeds(s, n) <==> Follows(s.owners[n.owner], n)
  {
    HeldIsGood(config, s, n.owner);
    var before := s.owners[n.owner].snapshot.records;
    forall id | id in before && id in n.records ensures n.records[id].id == before[id].id {
      assert GoodRecord(config[n.owner].applications, s.owners[n.owner].snapshot.revision, id, before[id]);
    }
  }

  lemma OwnEndpointsIsFree(s: State, n: Snapshot)
    ensures OwnEndpoints(s, n) <==> EndpointsDistinct(n.records) && Free(s, n)
  {
    if EndpointsDistinct(n.records) && Free(s, n) {
      forall o, i, j | o in s.owners && i in s.owners[o].snapshot.records && j in n.records
        && s.owners[o].snapshot.records[i].endpoint == n.records[j].endpoint
        ensures o == n.owner && i == j
      {
        assert Holds(s, n.records[j].endpoint, o, i);
      }
    }
  }

  lemma AcceptIsPlain(config: Config, s: State, n: Snapshot, now: U64)
    requires Sound(s, RulesOf(config)) && n.owner in config
    requires n.owner in s.owners || n.incarnation == 1
    ensures Admits(s, n, PolicyOf(RulesOf(config), n.owner), now) <==>
            && GoodSnapshot(config[n.owner].applications, n.owner, n)
            && Succeeds(s, n) && OwnEndpoints(s, n)
            && s.generation < U64_MAX && Affordable(s, n, now)
  {
    var policy := PolicyOf(RulesOf(config), n.owner);
    GoodIsOk(config, n.owner, n);
    if SnapshotOk(n.owner, n, policy) {
      KeyedByRecordsOk(n, policy);
      ReservationsAreExact(s, n, RulesOf(config));
      OwnEndpointsIsFree(s, n);
      if n.owner in s.owners {
        OwnersAreOwn(config, s, n.owner);
        HistoryCheckIsFollows(s.owners[n.owner], n);
        SucceedsIsFollows(config, s, n);
      }
      if s.generation < U64_MAX {
        FitsIsReserve(Routing.Commit(s, n, now), VIEW_LIMIT);
      }
    }
  }

  lemma ExpectedIsCurrent(config: Config, s: State, owner: string)
    requires owner in config
    ensures Expected(config, s, owner) == CurrentHash(config, s, owner)
  {
  }

  lemma PublishIsAdmits(config: Config, s: State, n: Snapshot, presented: string, now: U64)
    ensures Candidate(config, s, Publish(n, presented, now)).Ok? <==>
            && n.owner in config && presented == CurrentHash(config, s, n.owner)
            && (n.owner in s.owners || n.incarnation == 1)
            && Admits(s, n, PolicyOf(RulesOf(config), n.owner), now)
  {
    if n.owner in config {
      AcceptIsAdmits(s, n.owner, n, PolicyOf(RulesOf(config), n.owner), now);
    }
  }

  lemma CommitIsPlain(s: State, n: Snapshot, now: U64)
    requires s.generation < U64_MAX
    ensures var t := Routing.Commit(s, n, now);
            && t.generation == s.generation + 1
            && t.owners.Keys == s.owners.Keys + {n.owner}
            && t.owners[n.owner].snapshot == n && !t.owners[n.owner].stale && t.owners[n.owner].reconciledMs == now
            && forall o :: o in s.owners && o != n.owner ==> t.owners[o] == s.owners[o]
  {
  }

  /**
   On every state the server can reach a publication is taken exactly when its owner is
   configured and presents the expected credential, the snapshot is good in itself and
   succeeds the one before, its endpoints are its own, and there is a generation and
   room in bytes left. It then replaces the owner's snapshot, and nothing else.
   */
  lemma PublishIsExact(config: Config, s: State, n: Snapshot, presented: string, now: U64)
    requires Inv(config, s)
    ensures Candidate(config, s, Publish(n, presented, now)).Ok? <==>
            && n.owner in config && presented == Expected(config, s, n.owner)
            && GoodSnapshot(config[n.owner].applications, n.owner, n)
            && Succeeds(s, n) && OwnEndpoints(s, n)
            && s.generation < U64_MAX && Affordable(s, n, now)
    ensures Candidate(config, s, Publish(n, presented, now)).Ok? ==>
              var t := Candidate(config, s, Publish(n, presented, now)).value;
              && t.generation == s.generation + 1
              && t.owners.Keys == s.owners.Keys + {n.owner}
              && t.owners[n.owner].snapshot == n && !t.owners[n.owner].stale && t.owners[n.owner].reconciledMs == now
              && forall o :: o in s.owners && o != n.owner ==> t.owners[o] == s.owners[o]
  {
    PublishIsAdmits(config, s, n, presented, now);
    if n.owner in config {
      ExpectedIsCurrent(config, s, n.owner);
      if n.owner in s.owners || n.incarnation == 1 {
        AcceptIsPlain(config, s, n, now);
      }
    }
    if Candidate(config, s, Publish(n, presented, now)).Ok? {
      CandidateOfPublish(config, s, Publish(n, presented, now));
      CommitIsPlain(s, n, now);
    }
  }

  lemma OwnersAreOwn(config: Config, s: State, owner: string)
    requires Sound(s, RulesOf(config)) && owner in s.owners
    ensures s.owners[owner].snapshot.owner == owner
  {
    assert OwnerOk(s, RulesOf(config), owner);
  }
}
