/**
 A router as one atomic machine: each request either commits a candidate or
 changes nothing, and a restart may come at any time. What holds of every run.
 */
module Router {
  import opened Wrappers
  import opened Sets
  import opened Net
  import opened History
  import opened Routing
  import opened Budget
  import opened Soundness

  /** The configured owners: a token hash and the applications of each. */
  datatype Identity = Identity(tokenHash: string, applications: set<string>)

  type Config = owners: map<string, Identity> | |owners| <= OWNER_LIMIT

  function RulesOf(config: Config): Rules {
    Rules(map o | o in config :: config[o].applications, RECORD_LIMIT, VIEW_LIMIT)
  }

  datatype Request =
    | Publish(snapshot: Snapshot, presented: string, now: U64)
    | FreezeOwner(owner: string, operation: string)
    | RecoverOwner(operation: string, result: Snapshot, credentialHash: string)

  /** The credential in force: a recovery's, or else the configured one. */
  function CurrentHash(config: Config, s: State, owner: string): string
    requires owner in config
  {
    if owner in s.owners && s.owners[owner].credentialHash.Some? then s.owners[owner].credentialHash.value
    else config[owner].tokenHash
  }

  /** Authentication, authority and the proposal of a candidate, as if in one instant. */
  function Candidate(config: Config, s: State, request: Request): Result<State, Error> {
    match request
    case Publish(snapshot, presented, now) =>
      :- Need(snapshot.owner in config, Unauthorized);
      :- Need(presented == CurrentHash(config, s, snapshot.owner), Unauthorized);
      :- Need(snapshot.owner in s.owners || snapshot.incarnation == 1, NotInitial);
      Accept(s, snapshot.owner, snapshot, PolicyOf(RulesOf(config), snapshot.owner), now)
    case FreezeOwner(owner, operation) =>
      :- Need(owner in config, UnknownOwner);
      Freeze(s, owner, operation)
    case RecoverOwner(operation, result, credentialHash) =>
      :- Need(result.owner in config, UnknownOwner);
      Recover(s, operation, result, credentialHash, PolicyOf(RulesOf(config), result.owner))
  }

  ghost predicate Inv(config: Config, s: State) {
    Sound(s, RulesOf(config)) && MetadataOk(s) && s.owners.Keys <= config.Keys
  }

  datatype Step = Commit(request: Request) | Restart

  function Apply(config: Config, s: State, step: Step): State {
    match step
    case Commit(request) =>
      var r := Candidate(config, s, request);
      if r.Ok? then r.value else s
    case Restart => AfterRestart(s)
  }

  function Run(config: Config, s: State, steps: seq<Step>): State
    decreases |steps|
  {
    if steps == [] then s else Run(config, Apply(config, s, steps[0]), steps[1..])
  }

  lemma FewOwners(config: Config, s: State)
    requires s.owners.Keys <= config.Keys
    ensures |s.owners| <= OWNER_LIMIT
  {
    SubsetIsSmaller(s.owners.Keys, config.Keys);
    assert |s.owners| == |s.owners.Keys| && |config| == |config.Keys|;
  }

  lemma CommitKeepsMetadata(s: State, next: Snapshot, now: U64)
    requires MetadataOk(s) && s.generation < U64_MAX
    requires next.owner in s.owners ==> next.incarnation == s.owners[next.owner].snapshot.incarnation
    requires next.owner in s.owners || next.incarnation == 1
    ensures forall id :: id in Routing.Commit(s, next, now).owners ==>
              OwnerMetadataOk(id, Routing.Commit(s, next, now).owners[id])
  {
    var t := Routing.Commit(s, next, now);
    forall id | id in t.owners ensures OwnerMetadataOk(id, t.owners[id]) {
      if id in s.owners {
        assert OwnerMetadataOk(id, s.owners[id]);
      }
    }
  }

  lemma PublishKeeps(config: Config, s: State, request: Request)
    requires Inv(config, s) && request.Publish? && Candidate(config, s, request).Ok?
    ensures Inv(config, Candidate(config, s, request).value)
    ensures StateExtends(s, Candidate(config, s, request).value)
  {
    var next := request.snapshot;
    AcceptIsExact(s, next.owner, next, RulesOf(config), request.now);
    CommitKeepsMetadata(s, next, request.now);
    CommitExtends(s, next, request.now);
    FewOwners(config, Routing.Commit(s, next, request.now));
  }

  lemma RecoveredKeepsMetadata(s: State, operation: string, next: Snapshot, credentialHash: string)
    requires MetadataOk(s) && s.generation < U64_MAX && next.owner in s.owners
    requires Name(operation) && HexDigest(credentialHash)
    ensures MetadataOk(Recovered(s, operation, next, credentialHash))
  {
    var t := Recovered(s, operation, next, credentialHash);
    assert t.owners.Keys == s.owners.Keys;
    assert |t.owners| == |t.owners.Keys|;
    forall id | id in t.owners ensures OwnerMetadataOk(id, t.owners[id]) {
      assert OwnerMetadataOk(id, s.owners[id]);
    }
  }

  lemma CandidateOfRecover(config: Config, s: State, request: Request)
    requires request.RecoverOwner?
    ensures Candidate(config, s, request) ==
            if request.result.owner in config then
              Recover(s, request.operation, request.result, request.credentialHash,
                      PolicyOf(RulesOf(config), request.result.owner))
            else Err(UnknownOwner)
    ensures Candidate(config, s, request).Ok? ==> request.result.owner in config
  {
  }

  lemma FreshRecoverKeeps(s: State, operation: string, next: Snapshot, credentialHash: string, rules: Rules)
    requires Sound(s, rules) && MetadataOk(s)
    requires next.owner in rules.applications && next.owner in s.owners && !Recorded(s, next.owner, operation)
    requires Recover(s, operation, next, credentialHash, PolicyOf(rules, next.owner)).Ok?
    ensures var t := Recover(s, operation, next, credentialHash, PolicyOf(rules, next.owner)).value;
            Sound(t, rules) && MetadataOk(t) && t.owners.Keys == s.owners.Keys && StateExtends(s, t)
  {
    RecoverIsExact(s, operation, next, credentialHash, rules);
    PositiveIncarnations(s, rules);
    RecoveredKeepsMetadata(s, operation, next, credentialHash);
    RecoveredExtends(s, operation, next, credentialHash);
  }

  lemma RecordedRecoverChangesNothing(s: State, operation: string, next: Snapshot, credentialHash: string,
                                      policy: Policy)
    requires Recorded(s, next.owner, operation)
    ensures var r := Recover(s, operation, next, credentialHash, policy); r.Ok? ==> r.value == s
  {
  }

  lemma RecoverKeeps(config: Config, s: State, request: Request)
    requires Inv(config, s) && request.RecoverOwner? && Candidate(config, s, request).Ok?
    ensures Inv(config, Candidate(config, s, request).value)
    ensures StateExtends(s, Candidate(config, s, request).value)
  {
    var next := request.result;
    CandidateOfRecover(config, s, request);
    if Recorded(s, next.owner, request.operation) {
      RecordedRecoverChangesNothing(
        s, request.operation, next, request.credentialHash, PolicyOf(RulesOf(config), next.owner));
      StateExtendsIsReflexive(s);
    } else {
      assert next.owner in s.owners;
      FreshRecoverKeeps(s, request.operation, next, request.credentialHash, RulesOf(config));
    }
  }

  lemma FreezeOwnerKeeps(config: Config, s: State, request: Request)
    requires Inv(config, s) && request.FreezeOwner? && Candidate(config, s, request).Ok?
    ensures Inv(config, Candidate(config, s, request).value)
    ensures StateExtends(s, Candidate(config, s, request).value)
  {
    FreezeKeeps(s, request.owner, request.operation, RulesOf(config));
    FreezeKeepsMetadata(s, request.owner, request.operation);
    FreezeKeepsOwners(s, request.owner, request.operation);
  }

  lemma CandidateKeeps(config: Config, s: State, request: Request)
    requires Inv(config, s) && Candidate(config, s, request).Ok?
    ensures Inv(config, Candidate(config, s, request).value)
    ensures StateExtends(s, Candidate(config, s, request).value)
  {
    match request
    case Publish(_, _, _) => PublishKeeps(config, s, request);
    case RecoverOwner(_, _, _) => RecoverKeeps(config, s, request);
    case FreezeOwner(_, _) => FreezeOwnerKeeps(config, s, request);
  }

  /** A request that is taken without a commit: the fence or the result is already there. */
  predicate NothingNew(s: State, request: Request) {
    match request
    case Publish(_, _, _) => false
    case FreezeOwner(owner, operation) =>
      owner in s.owners && (s.owners[owner].frozenBy.Some? || Recorded(s, owner, operation))
    case RecoverOwner(operation, result, _) => Recorded(s, result.owner, operation)
  }

  lemma RecoverAdvances(s: State, operation: string, next: Snapshot, credentialHash: string, policy: Policy)
    requires Recover(s, operation, next, credentialHash, policy).Ok?
    ensures var t := Recover(s, operation, next, credentialHash, policy).value;
            if Recorded(s, next.owner, operation) then t == s else t.generation == s.generation + 1
  {
    if Recorded(s, next.owner, operation) {
      RecordedRecoverChangesNothing(s, operation, next, credentialHash, policy);
    } else {
      RecoverUnfolds(s, operation, next, credentialHash, policy);
      AcceptIsAdmits(Unfenced(s, next), next.owner, next, policy, s.owners[next.owner].reconciledMs);
    }
  }

  lemma FreezeAdvances(s: State, owner: string, operation: string)
    requires Freeze(s, owner, operation).Ok?
    ensures var t := Freeze(s, owner, operation).value;
            owner in s.owners
            && if s.owners[owner].frozenBy.Some? || Recorded(s, owner, operation) then t == s
               else t.generation == s.generation + 1
  {
  }

  lemma CandidateOfPublish(config: Config, s: State, request: Request)
    requires request.Publish? && Candidate(config, s, request).Ok?
    ensures request.snapshot.owner in config && s.generation < U64_MAX
    ensures Candidate(config, s, request).value == Routing.Commit(s, request.snapshot, request.now)
  {
    var n := request.snapshot;
    AcceptIsAdmits(s, n.owner, n, PolicyOf(RulesOf(config), n.owner), request.now);
  }

  lemma CandidateOfFreeze(config: Config, s: State, request: Request)
    requires request.FreezeOwner? && Candidate(config, s, request).Ok?
    ensures Candidate(config, s, request) == Freeze(s, request.owner, request.operation)
  {
  }

  /** A commit takes the next generation, and whatever takes none changes nothing. */
  lemma CandidateAdvances(config: Config, s: State, request: Request)
    requires Candidate(config, s, request).Ok?
    ensures NothingNew(s, request) ==> Candidate(config, s, request).value == s
    ensures !NothingNew(s, request) ==> Candidate(config, s, request).value.generation == s.generation + 1
  {
    if request.Publish? {
      CandidateOfPublish(config, s, request);
    } else if request.FreezeOwner? {
      CandidateOfFreeze(config, s, request);
      FreezeAdvances(s, request.owner, request.operation);
    } else {
      CandidateOfRecover(config, s, request);
      RecoverAdvances(s, request.operation, request.result, request.credentialHash,
                      PolicyOf(RulesOf(config), request.result.owner));
    }
  }

  lemma RestartKeepsOwners(s: State)
    ensures AfterRestart(s).owners.Keys == s.owners.Keys
  {
  }

  lemma RestartKeepsInv(config: Config, s: State)
    requires Inv(config, s)
    ensures Inv(config, AfterRestart(s))
    ensures StateExtends(s, AfterRestart(s))
  {
    RestartKeeps(s, RulesOf(config));
    RestartKeepsMetadata(s);
    RestartKeepsOwners(s);
  }

  /** Every step keeps the invariant and moves up in the history order. */
  lemma StepKeeps(config: Config, s: State, step: Step)
    requires Inv(config, s)
    ensures Inv(config, Apply(config, s, step))
    ensures StateExtends(s, Apply(config, s, step))
  {
    if step.Restart? {
      RestartKeepsInv(config, s);
    } else if Candidate(config, s, step.request).Err? {
      StateExtendsIsReflexive(s);
    } else {
      CandidateKeeps(config, s, step.request);
    }
  }

  lemma FreezeKeepsOwners(s: State, owner: string, operation: string)
    requires Freeze(s, owner, operation).Ok?
    ensures Freeze(s, owner, operation).value.owners.Keys == s.owners.Keys
  {
  }

  lemma EmptyIsInv(config: Config)
    ensures Inv(config, EMPTY)
  {
  }

  /** Over a whole run the invariant holds and the order only rises: the states form a chain. */
  lemma {:induction false} RunKeeps(config: Config, s: State, steps: seq<Step>)
    requires Inv(config, s)
    ensures Inv(config, Run(config, s, steps))
    ensures StateExtends(s, Run(config, s, steps))
    decreases |steps|
  {
    if steps == [] {
      StateExtendsIsReflexive(s);
    } else {
      var t := Apply(config, s, steps[0]);
      StepKeeps(config, s, steps[0]);
      RunKeeps(config, t, steps[1..]);
      StateExtendsIsTransitive(s, t, Run(config, t, steps[1..]));
    }
  }

  lemma EmptyStateIsShort(s: State)
    requires s.owners == map[]
    ensures StateSize(s) <= 60
  {
    DecimalIsMonotone(s.generation, U64_MAX);
    DecimalOfU64();
    assert (map id | id in s.owners :: OwnerSize(s.owners[id])) == map[];
  }

  lemma SoundStateIsBounded(s: State, rules: Rules)
    requires Sound(s, rules) && MetadataOk(s) && 60 <= rules.viewLimit
    ensures StateSize(s) <= rules.viewLimit
  {
    if s.owners == map[] {
      EmptyStateIsShort(s);
    } else {
      EncodingWithinReserve(s);
      FitsIsReserve(s, rules.viewLimit);
    }
  }

  /** Every state a run reaches encodes within the view limit, so a file it saves can be loaded again. */
  lemma EncodingIsBounded(config: Config, steps: seq<Step>)
    ensures StateSize(Run(config, EMPTY, steps)) <= VIEW_LIMIT
  {
    EmptyIsInv(config);
    RunKeeps(config, EMPTY, steps);
    SoundStateIsBounded(Run(config, EMPTY, steps), RulesOf(config));
  }

  lemma HolderPersists(s: State, t: State, e: Endpoint, owner: string, id: string)
    requires StateExtends(s, t) && Distinct(t) && Holds(s, e, owner, id)
    ensures owner in t.owners && id in t.owners[owner].snapshot.records
    ensures RecordExtends(s.owners[owner].snapshot.records[id], t.owners[owner].snapshot.records[id])
    ensures forall p, j :: Holds(t, e, p, j) <==> p == owner && j == id
  {
    assert OwnerExtends(s.owners[owner], t.owners[owner]);
    assert RecordExtends(s.owners[owner].snapshot.records[id], t.owners[owner].snapshot.records[id]);
    assert Holds(t, e, owner, id);
  }

  /** An endpoint, once a run has given it to a record, is that record's for good and nobody else's. */
  lemma ReservationIsPermanent(config: Config, s: State, steps: seq<Step>, e: Endpoint, owner: string, id: string)
    requires Inv(config, s) && Holds(s, e, owner, id)
    ensures var t := Run(config, s, steps);
            && owner in t.owners && id in t.owners[owner].snapshot.records
            && (forall p, j :: Holds(t, e, p, j) <==> p == owner && j == id)
            && RecordExtends(s.owners[owner].snapshot.records[id], t.owners[owner].snapshot.records[id])
  {
    RunKeeps(config, s, steps);
    HolderPersists(s, Run(config, s, steps), e, owner, id);
  }

  /** `Accept` does not look at the incarnation of an owner it does not know. */
  lemma FirstIncarnationIsFree(s: State, next: Snapshot, incarnation: U64, rules: Rules, now: U64)
    requires Sound(s, rules) && next.owner !in s.owners && next.owner in rules.applications
    requires 1 <= next.incarnation && 1 <= incarnation
    ensures Accept(s, next.owner, next, PolicyOf(rules, next.owner), now).Ok? ==>
            Accept(s, next.owner, next.(incarnation := incarnation), PolicyOf(rules, next.owner), now).Ok?
  {
    var other := next.(incarnation := incarnation);
    AcceptIsExact(s, next.owner, next, rules, now);
    AcceptIsExact(s, next.owner, other, rules, now);
    if Accept(s, next.owner, next, PolicyOf(rules, next.owner), now).Ok? {
      PositiveIncarnations(s, rules);
      var (a, b) := (Routing.Commit(s, next, now), Routing.Commit(s, other, now));
      assert SameRecords(a, b);
      SoundnessIsOfRecords(a, b, rules);
    }
  }

  /// Incarnations over runs

  /** The incarnation an owner has, or will first have. */
  function Incarnation(s: State, owner: string): U64 {
    if owner in s.owners then s.owners[owner].snapshot.incarnation else 1
  }

  /** A recovery that was taken, and moved the owner to that incarnation. */
  predicate MovesTo(config: Config, s: State, step: Step, owner: string, incarnation: U64) {
    && step.Commit? && step.request.RecoverOwner? && step.request.result.owner == owner
    && step.request.result.incarnation == incarnation && Candidate(config, s, step.request).Ok?
  }

  lemma StepMoves(config: Config, s: State, step: Step, owner: string)
    ensures var t := Apply(config, s, step);
            || Incarnation(t, owner) == Incarnation(s, owner)
            || (owner in s.owners && MovesTo(config, s, step, owner, Incarnation(t, owner)))
  {
    if step.Commit? && Candidate(config, s, step.request).Ok? {
      match step.request
      case Publish(n, _, now) =>
        AcceptIsAdmits(s, n.owner, n, PolicyOf(RulesOf(config), n.owner), now);
      case FreezeOwner(_, _) =>
      case RecoverOwner(operation, result, hash) =>
        CandidateOfRecover(config, s, step.request);
        var policy := PolicyOf(RulesOf(config), result.owner);
        if Recorded(s, result.owner, operation) {
          RecordedRecoverChangesNothing(s, operation, result, hash, policy);
        } else {
          RecoverUnfolds(s, operation, result, hash, policy);
          AcceptIsAdmits(Unfenced(s, result), result.owner, result, policy, s.owners[result.owner].reconciledMs);
        }
    }
  }

  lemma RunTakesOne(config: Config, s: State, steps: seq<Step>, k: nat)
    requires 0 < k <= |steps|
    ensures Run(config, s, steps[..k]) == Run(config, Apply(config, s, steps[0]), steps[1..][..k - 1])
  {
    assert steps[..k][1..] == steps[1..][..k - 1];
  }

  /** Every incarnation but the one an owner began with was brought by a recovery taken in the run. */
  lemma {:induction false} IncarnationsComeFromRecoveries(config: Config, s: State, steps: seq<Step>, owner: string)
    ensures var incarnation := Incarnation(Run(config, s, steps), owner);
            || incarnation == Incarnation(s, owner)
            || exists k :: 0 <= k < |steps| && MovesTo(config, Run(config, s, steps[..k]), steps[k], owner, incarnation)
    decreases |steps|
  {
    if steps != [] {
      var (t, rest) := (Apply(config, s, steps[0]), steps[1..]);
      var incarnation := Incarnation(Run(config, s, steps), owner);
      StepMoves(config, s, steps[0], owner);
      IncarnationsComeFromRecoveries(config, t, rest, owner);
      if incarnation == Incarnation(t, owner) {
        assert steps[..0] == [];
      } else {
        var k :| 0 <= k < |rest| && MovesTo(config, Run(config, t, rest[..k]), rest[k], owner, incarnation);
        RunTakesOne(config, s, steps, k + 1);
        assert MovesTo(config, Run(config, s, steps[..k + 1]), steps[k + 1], owner, incarnation);
      }
    }
  }

  /** The step at which a run first holds a snapshot of the owner. */
  predicate FirstHeld(config: Config, s: State, steps: seq<Step>, owner: string, k: nat)
    requires k < |steps|
  {
    && owner !in Run(config, s, steps[..k]).owners
    && owner in Run(config, s, steps[..k + 1]).owners
  }

  lemma LaterIsHeld(config: Config, s: State, steps: seq<Step>, owner: string, k: nat)
    requires 0 < k < |steps|
    ensures FirstHeld(config, s, steps, owner, k)
       <==> FirstHeld(config, Apply(config, s, steps[0]), steps[1..], owner, k - 1)
    ensures Run(config, s, steps[..k + 1]) == Run(config, Apply(config, s, steps[0]), steps[1..][..k])
  {
    RunTakesOne(config, s, steps, k);
    RunTakesOne(config, s, steps, k + 1);
  }

  lemma FirstStep(config: Config, s: State, steps: seq<Step>, owner: string)
    requires owner !in s.owners && steps != []
    ensures FirstHeld(config, s, steps, owner, 0) <==> owner in Apply(config, s, steps[0]).owners
    ensures Run(config, s, steps[..1]) == Apply(config, s, steps[0])
    ensures owner in Apply(config, s, steps[0]).owners ==>
              Apply(config, s, steps[0]).owners[owner].snapshot.incarnation == 1
  {
    RunTakesOne(config, s, steps, 1);
    assert steps[..0] == [] && steps[1..][..0] == [];
    StepMoves(config, s, steps[0], owner);
  }

  /** A run first holds a snapshot of an owner at some step, and whichever it is, the snapshot has incarnation 1. */
  lemma {:induction false} FirstSnapshotIsInitial(config: Config, s: State, steps: seq<Step>, owner: string)
    requires Inv(config, s) && owner !in s.owners && owner in Run(config, s, steps).owners
    ensures exists k :: 0 <= k < |steps| && FirstHeld(config, s, steps, owner, k)
    ensures forall k :: 0 <= k < |steps| && FirstHeld(config, s, steps, owner, k) ==>
              Run(config, s, steps[..k + 1]).owners[owner].snapshot.incarnation == 1
    decreases |steps|
  {
    var (t, rest) := (Apply(config, s, steps[0]), steps[1..]);
    StepKeeps(config, s, steps[0]);
    FirstStep(config, s, steps, owner);
    if owner !in t.owners {
      FirstSnapshotIsInitial(config, t, rest, owner);
      var k :| 0 <= k < |rest| && FirstHeld(config, t, rest, owner, k);
      LaterIsHeld(config, s, steps, owner, k + 1);
    }
    forall k | 0 < k < |steps| && FirstHeld(config, s, steps, owner, k)
      ensures Run(config, s, steps[..k + 1]).owners[owner].snapshot.incarnation == 1
    {
      LaterIsHeld(config, s, steps, owner, k);
      RunKeeps(config, t, rest[..k - 1]);
      assert owner !in t.owners;
    }
  }

  /** The shape of every record and fence a run can reach. */
  lemma ReachableShape(config: Config, steps: seq<Step>, owner: string)
    requires owner in Run(config, EMPTY, steps).owners
    ensures var o := Run(config, EMPTY, steps).owners[owner];
            && Bounded(o.snapshot) && Keyed(o.snapshot.records) && EndpointsDistinct(o.snapshot.records)
            && (1 < o.snapshot.incarnation ==> o.credentialHash.Some? && o.recovery.Some?)
  {
    var s := Run(config, EMPTY, steps);
    EmptyIsInv(config);
    RunKeeps(config, EMPTY, steps);
    var n := s.owners[owner].snapshot;
    assert OwnerMetadataOk(owner, s.owners[owner]);
    assert OwnerOk(s, RulesOf(config), owner);
    KeyedByRecordsOk(n, PolicyOf(RulesOf(config), owner));
    forall i, j | i in n.records && j in n.records && n.records[i].endpoint == n.records[j].endpoint ensures i == j {
      assert Holds(s, n.records[i].endpoint, owner, i) && Holds(s, n.records[i].endpoint, owner, j);
    }
  }
}
