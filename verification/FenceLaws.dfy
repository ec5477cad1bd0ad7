/**
 Fences and recoveries in plain terms: when each is taken, what a repeated one is
 answered, whose credential is in force, and when an owner counts as stale.
 */
module FenceLaws {
  import opened Wrappers
  import opened Net
  import opened History
  import opened Routing
  import opened Budget
  import opened Soundness
  import opened Router
  import opened RouterLaws

  import Server
  import ServerRuns

  /// Fences

  /**
   A fence is taken exactly when the operation is well named, the owner known, and either
   the operation is over or holds the fence already, or nobody holds it and a generation
   is left. Only in the last case anything changes.
   */
  lemma FreezeIsExact(s: State, owner: string, operation: string)
    ensures var r := Freeze(s, owner, operation);
            && (r.Ok? <==>
                && Name(operation) && owner in s.owners
                && (|| Recorded(s, owner, operation)
                    || s.owners[owner].frozenBy == Some(operation)
                    || (s.owners[owner].frozenBy == None && s.generation < U64_MAX)))
            && (r.Ok? ==>
                  if Recorded(s, owner, operation) || s.owners[owner].frozenBy == Some(operation) then r.value == s
                  else
                    && r.value.generation == s.generation + 1
                    && r.value.owners == s.owners[owner :=
                         s.owners[owner].(frozenBy := Some(operation), stale := true)])
            && (r == Err(FenceOwned) <==>
                && Name(operation) && owner in s.owners && !Recorded(s, owner, operation)
                && s.owners[owner].frozenBy.Some? && s.owners[owner].frozenBy.value != operation)
  {
  }

  lemma {:induction false} StandsOverSteps(config: Config, s: State, steps: seq<Step>, owner: string, n: Snapshot,
                                           operation: string)
    requires ServerRuns.Stands(s, owner, n, operation)
    requires forall k :: 0 <= k < |steps| && steps[k].Commit? ==> !ServerRuns.Recovers(steps[k].request, owner)
    ensures ServerRuns.Stands(Run(config, s, steps), owner, n, operation)
    ensures Run(config, s, steps).owners[owner].recovery == s.owners[owner].recovery
    decreases |steps|
  {
    if steps != [] {
      OneStepStands(config, s, steps[0], owner, n, operation);
      StandsOverSteps(config, Apply(config, s, steps[0]), steps[1..], owner, n, operation);
    }
  }

  lemma OneStepStands(config: Config, s: State, step: Step, owner: string, n: Snapshot, operation: string)
    requires ServerRuns.Stands(s, owner, n, operation)
    requires step.Commit? ==> !ServerRuns.Recovers(step.request, owner)
    ensures ServerRuns.Stands(Apply(config, s, step), owner, n, operation)
    ensures Apply(config, s, step).owners[owner].recovery == s.owners[owner].recovery
  {
    if step.Commit? && Candidate(config, s, step.request).Ok? {
      ServerRuns.CandidateStands(config, s, step.request, owner, n, operation);
      OthersRecoveryIsKept(config, s, step.request, owner);
    }
  }

  lemma OthersRecoveryIsKept(config: Config, s: State, request: Request, owner: string)
    requires owner in s.owners && !ServerRuns.Recovers(request, owner) && Candidate(config, s, request).Ok?
    ensures var t := Candidate(config, s, request).value;
            && owner in t.owners && t.owners[owner].recovery == s.owners[owner].recovery
            && t.owners[owner].credentialHash == s.owners[owner].credentialHash
            && t.owners[owner].snapshot.incarnation == s.owners[owner].snapshot.incarnation
  {
    if request.Publish? {
      var n := request.snapshot;
      AcceptIsAdmits(s, n.owner, n, PolicyOf(RulesOf(config), n.owner), request.now);
    } else if request.FreezeOwner? {
      CandidateOfFreeze(config, s, request);
      FreezeIsExact(s, request.owner, request.operation);
    } else {
      CandidateOfRecover(config, s, request);
      var policy := PolicyOf(RulesOf(config), request.result.owner);
      OtherRecoveryLeavesAlone(s, request.operation, request.result, request.credentialHash, policy, owner);
    }
  }

  lemma OtherRecoveryLeavesAlone(s: State, operation: string, next: Snapshot, hash: string, policy: Policy,
                                 owner: string)
    requires owner in s.owners && next.owner != owner && Recover(s, operation, next, hash, policy).Ok?
    ensures var t := Recover(s, operation, next, hash, policy).value;
            owner in t.owners && t.owners[owner] == s.owners[owner]
  {
    if Recorded(s, next.owner, operation) {
      RecordedRecoverChangesNothing(s, operation, next, hash, policy);
    } else {
      RecoverUnfolds(s, operation, next, hash, policy);
      AcceptIsAdmits(Unfenced(s, next), next.owner, next, policy, s.owners[next.owner].reconciledMs);
    }
  }

  /**
   A fence belongs to one operation. Once taken, and until a recovery of the owner is asked
   for, whatever else is asked of the router: no publication of the owner is taken, and
   another operation is let in only if it is the one the owner was last recovered by.
   */
  lemma FenceIsExclusive(config: Config, s: State, owner: string, operation: string, steps: seq<Step>,
                         other: string, n: Snapshot, presented: string, now: U64)
    requires Candidate(config, s, FreezeOwner(owner, operation)).Ok? && !Recorded(s, owner, operation)
    requires forall k :: 0 <= k < |steps| && steps[k].Commit? ==> !ServerRuns.Recovers(steps[k].request, owner)
    ensures var t := Run(config, Candidate(config, s, FreezeOwner(owner, operation)).value, steps);
            && owner in s.owners && owner in t.owners
            && t.owners[owner].snapshot == s.owners[owner].snapshot
            && (n.owner == owner ==> Candidate(config, t, Publish(n, presented, now)).Err?)
            && (Candidate(config, t, FreezeOwner(owner, other)).Ok? <==>
                Name(other) && (other == operation || Recorded(s, owner, other)))
  {
    var r := Candidate(config, s, FreezeOwner(owner, operation)).value;
    ServerRuns.FreezeStands(config, s, owner, operation);
    FreezeIsExact(s, owner, operation);
    StandsOverSteps(config, r, steps, owner, s.owners[owner].snapshot, operation);
    var t := Run(config, r, steps);
    assert r.owners[owner].recovery == s.owners[owner].recovery;
    FreezeIsExact(t, owner, other);
    assert Recorded(t, owner, other) <==> Recorded(s, owner, other);
    PublishIsAdmits(config, t, n, presented, now);
  }

  /// Recoveries

  /** The router's record of a recovery. */
  function Mark(operation: string, result: Snapshot, hash: string): Option<Recovery> {
    Some(Recovery(operation, Sha256(operation, result, hash)))
  }

  /**
   A router that has recorded the operation takes a well-formed repeat exactly if it brings
   the operation, the snapshot and the hash that were recorded, and then changes nothing;
   any other repeat is a conflict, and so is every repeat over a record it cannot read.
   */
  lemma RepeatIsExact(s: State, operation: string, next: Snapshot, hash: string, policy: Policy)
    requires Name(operation) && HexDigest(hash) && Recorded(s, next.owner, operation)
    ensures var r := Recover(s, operation, next, hash, policy);
            && (r == Ok(s) <==> s.owners[next.owner].recovery == Mark(operation, next, hash))
            && (r != Ok(s) ==> r == Err(RecoveryConflict))
    ensures forall o, n, h :: s.owners[next.owner].recovery == Some(Recovery(operation, Sha256(o, n, h))) ==>
              (Recover(s, operation, next, hash, policy) == Ok(s) <==> o == operation && n == next && h == hash)
    ensures forall text :: s.owners[next.owner].recovery == Some(Recovery(operation, Text(text))) ==>
              Recover(s, operation, next, hash, policy) == Err(RecoveryConflict)
  {
  }

  /** What a recovery finds: the fence of its operation, an older incarnation, a history it continues. */
  predicate Awaits(s: State, operation: string, n: Snapshot) {
    && n.owner in s.owners
    && s.owners[n.owner].frozenBy == Some(operation)
    && s.owners[n.owner].snapshot.incarnation < n.incarnation
    && Continues(s.owners[n.owner].snapshot, n)
  }

  lemma UnfencedSucceeds(s: State, n: Snapshot)
    requires n.owner in s.owners
    ensures Succeeds(Unfenced(s, n), n) <==> Continues(s.owners[n.owner].snapshot, n)
    ensures OwnEndpoints(Unfenced(s, n), n) <==> OwnEndpoints(s, n)
  {
    var t := Unfenced(s, n);
    assert forall o :: o in s.owners <==> o in t.owners;
    assert forall o :: o in s.owners ==> t.owners[o].snapshot.records == s.owners[o].snapshot.records;
    if OwnEndpoints(s, n) {
      forall o, i, j | o in t.owners && i in t.owners[o].snapshot.records && j in n.records
        && t.owners[o].snapshot.records[i].endpoint == n.records[j].endpoint
        ensures o == n.owner && i == j
      {
        assert s.owners[o].snapshot.records[i].endpoint == n.records[j].endpoint;
      }
    }
    if OwnEndpoints(t, n) {
      forall o, i, j | o in s.owners && i in s.owners[o].snapshot.records && j in n.records
        && s.owners[o].snapshot.records[i].endpoint == n.records[j].endpoint
        ensures o == n.owner && i == j
      {
        assert t.owners[o].snapshot.records[i].endpoint == n.records[j].endpoint;
      }
    }
  }

  /** What a recovery installs: the snapshot, its credential and its mark, and the fence is gone. */
  predicate Bears(s: State, owner: string, operation: string, n: Snapshot, hash: string) {
    && owner in s.owners
    && s.owners[owner].recovery == Mark(operation, n, hash)
    && s.owners[owner].credentialHash == Some(hash)
    && s.owners[owner].snapshot.incarnation == n.incarnation
  }

  lemma FencedIsPlain(s: State, operation: string, n: Snapshot, hash: string)
    requires n.owner in s.owners && s.generation < U64_MAX
    ensures var t := Fenced(Routing.Commit(Unfenced(s, n), n, s.owners[n.owner].reconciledMs), operation, n, hash);
            && Bears(t, n.owner, operation, n, hash)
            && t.generation == s.generation + 1 && t.owners.Keys == s.owners.Keys
            && t.owners[n.owner].snapshot == n && t.owners[n.owner].stale && t.owners[n.owner].frozenBy == None
            && forall o :: o in s.owners && o != n.owner ==> t.owners[o] == s.owners[o]
  {
  }

  lemma AwaitedIsAdmitted(config: Config, s: State, operation: string, n: Snapshot)
    requires Sound(s, RulesOf(config)) && n.owner in config && n.owner in s.owners
    requires s.owners[n.owner].snapshot.incarnation < n.incarnation
    ensures var now := s.owners[n.owner].reconciledMs;
            Admits(Unfenced(s, n), n, PolicyOf(RulesOf(config), n.owner), now) <==>
              && Continues(s.owners[n.owner].snapshot, n)
              && GoodSnapshot(config[n.owner].applications, n.owner, n) && OwnEndpoints(s, n)
              && s.generation < U64_MAX && Affordable(Unfenced(s, n), n, now)
  {
    PositiveIncarnations(s, RulesOf(config));
    UnfencedHasSameRecords(s, n);
    SoundnessIsOfRecords(s, Unfenced(s, n), RulesOf(config));
    UnfencedSucceeds(s, n);
    AcceptIsPlain(config, Unfenced(s, n), n, s.owners[n.owner].reconciledMs);
  }

  /**
   On every state the server can reach a recovery it has not recorded is taken exactly when
   it is well formed, the owner awaits it, its snapshot is good and has its own endpoints,
   and generations and bytes are left. It then replaces that owner alone.
   */
  lemma RecoveryIsExact(config: Config, s: State, operation: string, n: Snapshot, hash: string)
    requires Inv(config, s) && !Recorded(s, n.owner, operation)
    ensures Candidate(config, s, RecoverOwner(operation, n, hash)).Ok? <==>
            && n.owner in config && Name(operation) && HexDigest(hash)
            && Awaits(s, operation, n)
            && GoodSnapshot(config[n.owner].applications, n.owner, n) && OwnEndpoints(s, n)
            && s.generation < U64_MAX && Affordable(Unfenced(s, n), n, s.owners[n.owner].reconciledMs)
    ensures Candidate(config, s, RecoverOwner(operation, n, hash)).Ok? ==>
              var t := Candidate(config, s, RecoverOwner(operation, n, hash)).value;
              && Bears(t, n.owner, operation, n, hash)
              && t.generation == s.generation + 1 && t.owners.Keys == s.owners.Keys
              && t.owners[n.owner].snapshot == n && t.owners[n.owner].stale && t.owners[n.owner].frozenBy == None
              && forall o :: o in s.owners && o != n.owner ==> t.owners[o] == s.owners[o]
  {
    CandidateOfRecover(config, s, RecoverOwner(operation, n, hash));
    if n.owner in config && n.owner in s.owners {
      var (policy, now) := (PolicyOf(RulesOf(config), n.owner), s.owners[n.owner].reconciledMs);
      RecoverUnfolds(s, operation, n, hash, policy);
      AcceptIsAdmits(Unfenced(s, n), n.owner, n, policy, now);
      if s.owners[n.owner].snapshot.incarnation < n.incarnation {
        AwaitedIsAdmitted(config, s, operation, n);
      }
      if s.generation < U64_MAX {
        FencedIsPlain(s, operation, n, hash);
      }
    }
  }

  /// After a recovery, over runs

  /** The credential in force and the incarnation are those of the recovery last recorded, if there was one. */
  predicate Linked(o: Owner) {
    match o.recovery
    case None => o.credentialHash == None && o.snapshot.incarnation == 1
    case Some(r) =>
      && r.digest.Sha256? && r.digest.operation == r.operation
      && o.credentialHash == Some(r.digest.credentialHash)
      && o.snapshot.incarnation == r.digest.result.incarnation
  }

  predicate AllLinked(s: State) {
    forall o {:trigger Linked(s.owners[o])} :: o in s.owners ==> Linked(s.owners[o])
  }

  lemma RecoveryLinks(config: Config, s: State, operation: string, n: Snapshot, hash: string)
    requires Inv(config, s) && AllLinked(s) && Candidate(config, s, RecoverOwner(operation, n, hash)).Ok?
    ensures AllLinked(Candidate(config, s, RecoverOwner(operation, n, hash)).value)
    ensures Bears(Candidate(config, s, RecoverOwner(operation, n, hash)).value, n.owner, operation, n, hash)
  {
    var request := RecoverOwner(operation, n, hash);
    var t := Candidate(config, s, request).value;
    CandidateOfRecover(config, s, request);
    if Recorded(s, n.owner, operation) {
      RepeatIsExact(s, operation, n, hash, PolicyOf(RulesOf(config), n.owner));
      assert Linked(s.owners[n.owner]);
    } else {
      RecoveryIsExact(config, s, operation, n, hash);
      forall o | o in t.owners ensures Linked(t.owners[o]) {
        assert o != n.owner ==> Linked(s.owners[o]);
      }
    }
  }

  lemma OthersLink(config: Config, s: State, request: Request)
    requires AllLinked(s) && !request.RecoverOwner? && Candidate(config, s, request).Ok?
    ensures AllLinked(Candidate(config, s, request).value)
  {
    var t := Candidate(config, s, request).value;
    forall o | o in t.owners ensures Linked(t.owners[o]) {
      if o in s.owners {
        assert Linked(s.owners[o]);
        OthersRecoveryIsKept(config, s, request, o);
      } else {
        NewOwnerIsLinked(config, s, request, o);
      }
    }
  }

  lemma NewOwnerIsLinked(config: Config, s: State, request: Request, o: string)
    requires !request.RecoverOwner? && Candidate(config, s, request).Ok?
    requires o in Candidate(config, s, request).value.owners && o !in s.owners
    ensures Linked(Candidate(config, s, request).value.owners[o])
  {
    if request.Publish? {
      PublishIsAdmits(config, s, request.snapshot, request.presented, request.now);
      CandidateOfPublish(config, s, request);
    } else {
      CandidateOfFreeze(config, s, request);
      FreezeIsExact(s, request.owner, request.operation);
    }
  }

  lemma StepLinks(config: Config, s: State, step: Step)
    requires Inv(config, s) && AllLinked(s)
    ensures AllLinked(Apply(config, s, step))
  {
    if step.Restart? {
      forall o | o in AfterRestart(s).owners ensures Linked(AfterRestart(s).owners[o]) {
        assert Linked(s.owners[o]);
      }
    } else if Candidate(config, s, step.request).Ok? {
      if step.request.RecoverOwner? {
        RecoveryLinks(config, s, step.request.operation, step.request.result, step.request.credentialHash);
      } else {
        OthersLink(config, s, step.request);
      }
    }
  }

  lemma {:induction false} RunLinks(config: Config, s: State, steps: seq<Step>)
    requires Inv(config, s) && AllLinked(s)
    ensures AllLinked(Run(config, s, steps))
    decreases |steps|
  {
    if steps != [] {
      StepKeeps(config, s, steps[0]);
      StepLinks(config, s, steps[0]);
      RunLinks(config, Apply(config, s, steps[0]), steps[1..]);
    }
  }

  /** A recovery of the owner under another operation. */
  predicate AnotherRecovery(step: Step, owner: string, operation: string) {
    step.Commit? && ServerRuns.Recovers(step.request, owner) && step.request.operation != operation
  }

  lemma OneStepBears(config: Config, s: State, step: Step, owner: string, operation: string, n: Snapshot, hash: string)
    requires Bears(s, owner, operation, n, hash) && !AnotherRecovery(step, owner, operation)
    ensures Bears(Apply(config, s, step), owner, operation, n, hash)
  {
    if step.Commit? && Candidate(config, s, step.request).Ok? {
      if ServerRuns.Recovers(step.request, owner) {
        CandidateOfRecover(config, s, step.request);
        RecordedRecoverChangesNothing(s, operation, step.request.result, step.request.credentialHash,
                                      PolicyOf(RulesOf(config), owner));
      } else {
        OthersRecoveryIsKept(config, s, step.request, owner);
      }
    }
  }

  lemma {:induction false} StepsBear(config: Config, s: State, steps: seq<Step>, owner: string, operation: string,
                                     n: Snapshot, hash: string)
    requires Bears(s, owner, operation, n, hash)
    requires forall k :: 0 <= k < |steps| ==> !AnotherRecovery(steps[k], owner, operation)
    ensures Bears(Run(config, s, steps), owner, operation, n, hash)
    decreases |steps|
  {
    if steps != [] {
      OneStepBears(config, s, steps[0], owner, operation, n, hash);
      StepsBear(config, Apply(config, s, steps[0]), steps[1..], owner, operation, n, hash);
    }
  }

  lemma BearerAnswers(config: Config, s: State, operation: string, n: Snapshot, hash: string, m: Snapshot, h: string)
    requires Bears(s, n.owner, operation, n, hash) && m.owner == n.owner && n.owner in config
    requires Name(operation) && HexDigest(hash)
    ensures Candidate(config, s, RecoverOwner(operation, m, h))
            == if m == n && h == hash then Ok(s)
               else if HexDigest(h) then Err(RecoveryConflict)
               else Err(RecoveryIdentity)
  {
    CandidateOfRecover(config, s, RecoverOwner(operation, m, h));
    if HexDigest(h) {
      RepeatIsExact(s, operation, m, h, PolicyOf(RulesOf(config), m.owner));
    }
  }

  lemma TakenIsWellFormed(config: Config, s: State, operation: string, n: Snapshot, hash: string)
    requires Candidate(config, s, RecoverOwner(operation, n, hash)).Ok?
    ensures n.owner in config && Name(operation) && HexDigest(hash)
  {
    CandidateOfRecover(config, s, RecoverOwner(operation, n, hash));
  }

  /**
   After an acknowledged recovery, over any steps but a recovery of that owner under another
   operation, a repeat of the operation is acknowledged exactly if it brings the very
   snapshot and hash that were installed, and a publication of the owner is taken only under
   that hash and in that incarnation.
   */
  lemma AcknowledgedRecoveryStands(config: Config, before: seq<Step>, operation: string, n: Snapshot, hash: string,
                                   after: seq<Step>, m: Snapshot, h: string, presented: string, now: U64)
    requires Candidate(config, Run(config, EMPTY, before), RecoverOwner(operation, n, hash)).Ok?
    requires forall k :: 0 <= k < |after| ==> !AnotherRecovery(after[k], n.owner, operation)
    requires m.owner == n.owner
    ensures var s := Candidate(config, Run(config, EMPTY, before), RecoverOwner(operation, n, hash)).value;
            var t := Run(config, s, after);
            && (Candidate(config, t, RecoverOwner(operation, m, h)) == Ok(t) <==> m == n && h == hash)
            && (Candidate(config, t, RecoverOwner(operation, m, h)).Ok? <==> m == n && h == hash)
            && (Candidate(config, t, Publish(m, presented, now)).Ok? ==>
                  presented == hash && m.incarnation == n.incarnation)
  {
    var earlier := Run(config, EMPTY, before);
    EmptyIsInv(config);
    RunKeeps(config, EMPTY, before);
    RunLinks(config, EMPTY, before);
    RecoveryLinks(config, earlier, operation, n, hash);
    TakenIsWellFormed(config, earlier, operation, n, hash);
    var s := Candidate(config, earlier, RecoverOwner(operation, n, hash)).value;
    var t := Run(config, s, after);
    StepsBear(config, s, after, n.owner, operation, n, hash);
    BearerAnswers(config, t, operation, n, hash, m, h);
    CandidateKeeps(config, earlier, RecoverOwner(operation, n, hash));
    RunKeeps(config, s, after);
    PublishIsExact(config, t, m, presented, now);
  }

  /// Staleness

  /** A publication of the owner that is taken. */
  predicate Freshens(config: Config, s: State, step: Step, owner: string) {
    && step.Commit? && step.request.Publish? && step.request.snapshot.owner == owner
    && Candidate(config, s, step.request).Ok?
  }

  predicate Freezes(request: Request, owner: string) {
    request.FreezeOwner? && request.owner == owner
  }

  /** A restart, or a fence or recovery of the owner that is taken and does something. */
  predicate Dulls(config: Config, s: State, step: Step, owner: string) {
    || step.Restart?
    || (&& (Freezes(step.request, owner) || ServerRuns.Recovers(step.request, owner))
        && Candidate(config, s, step.request).Ok? && Candidate(config, s, step.request).value != s)
  }

  lemma PublicationFreshens(config: Config, s: State, request: Request, owner: string)
    requires Inv(config, s) && request.Publish? && Candidate(config, s, request).Ok?
    requires owner in Candidate(config, s, request).value.owners
    ensures var t := Candidate(config, s, request).value;
            if request.snapshot.owner == owner then !t.owners[owner].stale
            else owner in s.owners && t.owners[owner] == s.owners[owner]
  {
    PublishIsExact(config, s, request.snapshot, request.presented, request.now);
  }

  lemma FenceDulls(config: Config, s: State, request: Request, owner: string)
    requires request.FreezeOwner? && Candidate(config, s, request).Ok?
    requires owner in Candidate(config, s, request).value.owners
    ensures var t := Candidate(config, s, request).value;
            && owner in s.owners
            && if request.owner == owner && t != s then t.owners[owner].stale
               else t.owners[owner] == s.owners[owner]
  {
    CandidateOfFreeze(config, s, request);
    FreezeIsExact(s, request.owner, request.operation);
  }

  lemma RecoveryDulls(config: Config, s: State, request: Request, owner: string)
    requires Inv(config, s) && request.RecoverOwner? && Candidate(config, s, request).Ok?
    requires owner in Candidate(config, s, request).value.owners
    ensures var t := Candidate(config, s, request).value;
            && owner in s.owners
            && if request.result.owner == owner && t != s then t.owners[owner].stale
               else t.owners[owner] == s.owners[owner]
  {
    if Recorded(s, request.result.owner, request.operation) {
      CandidateAdvances(config, s, request);
    } else {
      RecoveryIsExact(config, s, request.operation, request.result, request.credentialHash);
    }
  }

  lemma StepStales(config: Config, s: State, step: Step, owner: string)
    requires Inv(config, s) && owner in Apply(config, s, step).owners
    ensures owner !in s.owners ==> Freshens(config, s, step, owner)
    ensures Apply(config, s, step).owners[owner].stale <==>
            !Freshens(config, s, step, owner) && (Dulls(config, s, step, owner) || s.owners[owner].stale)
  {
    if step.Commit? && Candidate(config, s, step.request).Ok? {
      var request := step.request;
      if request.Publish? {
        PublicationFreshens(config, s, request, owner);
      } else if request.FreezeOwner? {
        FenceDulls(config, s, request, owner);
      } else {
        RecoveryDulls(config, s, request, owner);
      }
    }
  }

  predicate DullsAt(config: Config, s: State, steps: seq<Step>, owner: string, k: nat)
    requires k < |steps|
  {
    Dulls(config, Run(config, s, steps[..k]), steps[k], owner)
  }

  predicate FreshensAt(config: Config, s: State, steps: seq<Step>, owner: string, k: nat)
    requires k < |steps|
  {
    Freshens(config, Run(config, s, steps[..k]), steps[k], owner)
  }

  predicate BrightFrom(config: Config, s: State, steps: seq<Step>, owner: string, from: nat) {
    forall k {:trigger DullsAt(config, s, steps, owner, k)} :: from <= k < |steps| ==>
      !DullsAt(config, s, steps, owner, k)
  }

  lemma {:induction false} RunSnoc(config: Config, s: State, steps: seq<Step>)
    requires steps != []
    ensures Run(config, s, steps)
            == Apply(config, Run(config, s, steps[..|steps| - 1]), steps[|steps| - 1])
    decreases |steps|
  {
    var n := |steps| - 1;
    if n == 0 {
      assert steps[1..] == [] && steps[..0] == [];
    } else {
      RunSnoc(config, Apply(config, s, steps[0]), steps[1..]);
      assert steps[..n][1..] == steps[1..][..n - 1];
    }
  }

  /** The last publication after which nothing dulled the owner, or the freshness it began with. */
  ghost predicate Bright(config: Config, s: State, steps: seq<Step>, owner: string) {
    || (owner in s.owners && !s.owners[owner].stale && BrightFrom(config, s, steps, owner, 0))
    || (exists k :: 0 <= k < |steps| && FreshensAt(config, s, steps, owner, k)
                    && BrightFrom(config, s, steps, owner, k + 1))
  }

  lemma BrightSnoc(config: Config, s: State, steps: seq<Step>, owner: string)
    requires steps != []
    ensures var last := |steps| - 1;
            Bright(config, s, steps, owner) <==>
              FreshensAt(config, s, steps, owner, last)
              || (Bright(config, s, steps[..last], owner) && !DullsAt(config, s, steps, owner, last))
  {
    var last := |steps| - 1;
    var rest := steps[..last];
    forall k | 0 <= k < last
      ensures DullsAt(config, s, rest, owner, k) <==> DullsAt(config, s, steps, owner, k)
      ensures FreshensAt(config, s, rest, owner, k) <==> FreshensAt(config, s, steps, owner, k)
    {
      assert rest[..k] == steps[..k] && rest[k] == steps[k];
    }
    assert BrightFrom(config, s, steps, owner, |steps|);
    forall from: nat | from <= last
      ensures BrightFrom(config, s, steps, owner, from) <==>
              BrightFrom(config, s, rest, owner, from) && !DullsAt(config, s, steps, owner, last)
    {
      BrightFromSnoc(config, s, steps, owner, from);
    }
    if FreshensAt(config, s, steps, owner, last) {
      assert 0 <= last < |steps| && BrightFrom(config, s, steps, owner, last + 1);
    } else if Bright(config, s, rest, owner) && !DullsAt(config, s, steps, owner, last) {
      if !(owner in s.owners && !s.owners[owner].stale && BrightFrom(config, s, rest, owner, 0)) {
        var k :| 0 <= k < |rest| && FreshensAt(config, s, rest, owner, k) && BrightFrom(config, s, rest, owner, k + 1);
        assert FreshensAt(config, s, steps, owner, k) && BrightFrom(config, s, steps, owner, k + 1);
      }
    }
  }

  lemma BrightFromSnoc(config: Config, s: State, steps: seq<Step>, owner: string, from: nat)
    requires from < |steps|
    ensures var last := |steps| - 1;
            BrightFrom(config, s, steps, owner, from) <==>
              BrightFrom(config, s, steps[..last], owner, from) && !DullsAt(config, s, steps, owner, last)
  {
    var last := |steps| - 1;
    var rest := steps[..last];
    forall k | 0 <= k < last ensures DullsAt(config, s, rest, owner, k) <==> DullsAt(config, s, steps, owner, k) {
      assert rest[..k] == steps[..k] && rest[k] == steps[k];
    }
    if BrightFrom(config, s, steps, owner, from) {
      assert !DullsAt(config, s, steps, owner, last);
      forall k | from <= k < last ensures !DullsAt(config, s, rest, owner, k) {
        assert !DullsAt(config, s, steps, owner, k);
      }
    }
    if BrightFrom(config, s, rest, owner, from) && !DullsAt(config, s, steps, owner, last) {
      forall k | from <= k <= last ensures !DullsAt(config, s, steps, owner, k) {
        assert k < last ==> !DullsAt(config, s, rest, owner, k);
      }
    }
  }

  /**
   Over every run: an owner is fresh exactly if some publication of it was taken (or it was
   fresh to begin with) and since then there was no restart, no new fence of it and no new
   recovery of it.
   */
  lemma {:induction false} StalenessIsExact(config: Config, s: State, steps: seq<Step>, owner: string)
    requires Inv(config, s) && owner in Run(config, s, steps).owners
    ensures !Run(config, s, steps).owners[owner].stale <==> Bright(config, s, steps, owner)
    decreases |steps|
  {
    if steps != [] {
      var last := |steps| - 1;
      var t := Run(config, s, steps[..last]);
      RunSnoc(config, s, steps);
      RunKeeps(config, s, steps[..last]);
      StepStales(config, t, steps[last], owner);
      BrightSnoc(config, s, steps, owner);
      if owner in t.owners {
        StalenessIsExact(config, s, steps[..last], owner);
      }
    }
  }

  /** A server that starts, after a death or a power loss, has every owner stale. */
  lemma StartIsStale(config: Config, s: Server.Server, e: Server.Event, owner: string)
    requires e.Dies? || (e.PowerLoss? && e.left <= |s.unsynced|)
    requires owner in Server.Next(config, s, e).active.owners
    ensures Server.Next(config, s, e).active.owners[owner].stale
  {
  }
}
