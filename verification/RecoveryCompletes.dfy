/** When a recovery that is run again goes through to the end, and when it never can. */
module RecoveryCompletes {
  import opened Wrappers
  import opened Net
  import opened History
  import opened Routing
  import opened Soundness
  import opened Router
  import opened Join
  import opened Recovery
  import opened RecoveryRuns

  /** The state with the result in the owner's place: it says whether budget and endpoints allow the result. */
  function Placed(plan: Plan, s: State, result: Snapshot): State
    requires plan.owner in s.owners
  {
    s.(owners := s.owners[plan.owner := s.owners[plan.owner].(snapshot := result)])
  }

  ghost predicate CanInstall(plan: Plan, config: Config, s: State, result: Snapshot) {
    && plan.owner in s.owners && result.owner == plan.owner
    && SnapshotOf(plan, s).incarnation < result.incarnation
    && SnapshotExtends(SnapshotOf(plan, s).(incarnation := result.incarnation), result)
    && Sound(Placed(plan, s, result), RulesOf(config))
  }

  predicate Unclaimed(plan: Plan, s: State)
    requires plan.owner in s.owners
  {
    s.owners[plan.owner].frozenBy.None? || s.owners[plan.owner].frozenBy == Some(plan.operation)
  }

  predicate Room(plan: Plan, s: State) {
    s.generation + (if Waits(plan, s) then 1 else 2) <= U64_MAX
  }

  /** A router that will let the recovery through. */
  ghost predicate Open(plan: Plan, config: Config, s: State, result: Snapshot) {
    && plan.owner in s.owners
    && (!Recorded(s, plan.owner, plan.operation) ==>
          Unclaimed(plan, s) && Room(plan, s) && CanInstall(plan, config, s, result))
  }

  function Target(plan: Plan, w: World): Option<Snapshot>
    requires Shape(plan, w)
  {
    if Prepared(w) then w.journal.value.result
    else ResultOf(plan, SnapshotOf(plan, w.routers[0]), SnapshotOf(plan, w.routers[1]))
  }

  ghost predicate Ready(plan: Plan, w: World, result: Snapshot)
    requires Shape(plan, w)
  {
    RecoveryInv(plan, w) && Path(plan, w, result)
  }

  ghost predicate Path(plan: Plan, w: World, result: Snapshot)
    requires Shape(plan, w)
  {
    && plan.backup.owner == plan.owner
    && Target(plan, w) == Some(result)
    && Open(plan, plan.configs[0], w.routers[0], result)
    && Open(plan, plan.configs[1], w.routers[1], result)
  }

  /// The calls succeed

  lemma PlacedSurvivesFence(plan: Plan, config: Config, s: State, t: State, result: Snapshot)
    requires Inv(config, s) && CanInstall(plan, config, s, result)
    requires t.owners.Keys == s.owners.Keys
    requires forall o :: o in s.owners ==> t.owners[o].snapshot == s.owners[o].snapshot
    ensures CanInstall(plan, config, t, result)
  {
    var a, b := Placed(plan, s, result), Placed(plan, t, result);
    PositiveIncarnations(a, RulesOf(config));
    assert SameRecords(a, b) by {
      forall o | o in a.owners
        ensures b.owners[o].snapshot == a.owners[o].snapshot.(incarnation := b.owners[o].snapshot.incarnation)
        ensures 1 <= b.owners[o].snapshot.incarnation
      {
        assert b.owners[o].snapshot == a.owners[o].snapshot;
      }
    }
    SoundnessIsOfRecords(a, b, RulesOf(config));
  }

  lemma FreezeShape(plan: Plan, config: Config, s: State)
    requires plan.owner in config && plan.owner in s.owners && Name(plan.operation)
    requires !Recorded(s, plan.owner, plan.operation) && Unclaimed(plan, s) && Room(plan, s)
    ensures Candidate(config, s, Freezing(plan)).Ok?
    ensures var t := Candidate(config, s, Freezing(plan)).value;
            && t.owners.Keys == s.owners.Keys && Waits(plan, t) && Room(plan, t)
            && (forall o :: o in s.owners ==> t.owners[o].snapshot == s.owners[o].snapshot)
            && !Recorded(t, plan.owner, plan.operation)
  {
  }

  lemma FreezeRepeats(plan: Plan, config: Config, s: State)
    requires plan.owner in config && Name(plan.operation) && Recorded(s, plan.owner, plan.operation)
    ensures Candidate(config, s, Freezing(plan)) == Ok(s)
  {
  }

  lemma FreezeStaysOpen(plan: Plan, config: Config, s: State, result: Snapshot)
    requires Inv(config, s) && Open(plan, config, s, result) && plan.owner in config && Name(plan.operation)
    ensures Candidate(config, s, Freezing(plan)).Ok?
    ensures var t := Candidate(config, s, Freezing(plan)).value;
            Open(plan, config, t, result) && SnapshotOf(plan, t) == SnapshotOf(plan, s)
  {
    if Recorded(s, plan.owner, plan.operation) {
      FreezeRepeats(plan, config, s);
    } else {
      FreezeShape(plan, config, s);
      PlacedSurvivesFence(plan, config, s, Candidate(config, s, Freezing(plan)).value, result);
    }
  }

  lemma RecoveredIsPlaced(plan: Plan, config: Config, s: State, result: Snapshot, h: string)
    requires CanInstall(plan, config, s, result) && s.generation < U64_MAX
    ensures Sound(Recovered(s, plan.operation, result, h), RulesOf(config))
  {
    var a, b := Placed(plan, s, result), Recovered(s, plan.operation, result, h);
    PositiveIncarnations(a, RulesOf(config));
    assert SameRecords(a, b) by {
      forall o | o in a.owners
        ensures b.owners[o].snapshot == a.owners[o].snapshot.(incarnation := b.owners[o].snapshot.incarnation)
        ensures 1 <= b.owners[o].snapshot.incarnation
      {
        assert b.owners[o].snapshot == a.owners[o].snapshot;
      }
    }
    SoundnessIsOfRecords(a, b, RulesOf(config));
  }

  lemma InstallSucceeds(plan: Plan, config: Config, s: State, journal: Journal)
    requires Inv(config, s) && plan.owner in config && Name(plan.operation) && HexDigest(journal.credentialHash)
    requires journal.result.Some? && Open(plan, config, s, journal.result.value)
    requires journal.result.value.owner == plan.owner
    requires if Recorded(s, plan.owner, plan.operation) then Installed(plan, s, journal) else Waits(plan, s)
    ensures Candidate(config, s, Installing(plan, journal)).Ok?
  {
    var result := journal.result.value;
    CandidateOfRecover(config, s, Installing(plan, journal));
    if Recorded(s, plan.owner, plan.operation) {
      InstallRepeats(plan, s, journal, PolicyOf(RulesOf(config), plan.owner));
    } else {
      RecoveredIsPlaced(plan, config, s, result, journal.credentialHash);
      RecoverIsExact(s, plan.operation, result, journal.credentialHash, RulesOf(config));
    }
  }

  lemma InstallRepeats(plan: Plan, s: State, journal: Journal, policy: Policy)
    requires Name(plan.operation) && HexDigest(journal.credentialHash)
    requires journal.result.Some? && journal.result.value.owner == plan.owner && Installed(plan, s, journal)
    ensures Recover(s, plan.operation, journal.result.value, journal.credentialHash, policy) == Ok(s)
  {
  }

  /// The process goes on

  function Rank(p: Process): nat {
    match p
    case Idle => 16
    case SetGuard => 15
    case SaveJournal => 14
    case Fence(i) => if i == 0 then 13 else 12
    case Collect(i, _) => if i == 0 then 11 else 10
    case Prepare(_) => 9
    case Send(i, _) => if i == 0 then 8 else 6
    case SaveAck(i, _) => if i == 0 then 7 else 5
    case WriteRow => 4
    case WriteConfig => 3
    case Finish => 2
    case Release => 1
    case Done => 0
  }

  lemma OnlyDoneHasNoRank(p: Process)
    ensures Rank(p) == 0 ==> p.Done?
  {
  }

  ghost predicate Advances(plan: Plan, w: World, h: string, result: Snapshot)
    requires Shape(plan, w)
  {
    Ready(plan, Work(plan, w, h), result) && Rank(Work(plan, w, h).process) < Rank(w.process)
  }

  lemma FenceAdvances(plan: Plan, w: World, h: string, result: Snapshot)
    requires Shape(plan, w) && Ready(plan, w, result) && w.process.Fence?
    ensures Advances(plan, w, h, result)
  {
    var i := w.process.i;
    FreezeStaysOpen(plan, plan.configs[i], w.routers[i], result);
    FenceKeepsInv(plan, w, h);
  }

  lemma CollectStaysOnPath(plan: Plan, w: World, h: string, result: Snapshot)
    requires Shape(plan, w) && Ready(plan, w, result) && w.process.Collect?
    ensures Path(plan, Work(plan, w, h), result) && Rank(Work(plan, w, h).process) < Rank(w.process)
  {
    var i := w.process.i;
    FreezeStaysOpen(plan, plan.configs[i], w.routers[i], result);
  }

  lemma CollectAdvances(plan: Plan, w: World, h: string, result: Snapshot)
    requires Shape(plan, w) && Ready(plan, w, result) && w.process.Collect?
    ensures Advances(plan, w, h, result)
  {
    CollectStaysOnPath(plan, w, h, result);
    CollectKeepsInv(plan, w, h);
  }

  lemma PrepareAdvances(plan: Plan, w: World, h: string, result: Snapshot)
    requires Shape(plan, w) && Ready(plan, w, result) && w.process.Prepare? && h in plan.drawn
    ensures Advances(plan, w, h, result)
  {
    PrepareKeepsInv(plan, w, h);
  }

  lemma InstallIsAnswered(plan: Plan, config: Config, s: State, journal: Journal)
    requires Inv(config, s) && plan.owner in config && Name(plan.operation) && HexDigest(journal.credentialHash)
    requires journal.result.Some? && Open(plan, config, s, journal.result.value)
    requires journal.result.value.owner == plan.owner
    requires if Recorded(s, plan.owner, plan.operation) then Installed(plan, s, journal) else Waits(plan, s)
    ensures var r := Candidate(config, s, Installing(plan, journal));
            && r.Ok? && Recorded(r.value, plan.owner, plan.operation)
            && r.value.owners[plan.owner].recovery.value.digest == DigestOf(plan, journal)
  {
    InstallSucceeds(plan, config, s, journal);
    InstallCall(plan, config, s, journal);
  }

  lemma SendIsAnswered(plan: Plan, w: World, result: Snapshot)
    requires Shape(plan, w) && Ready(plan, w, result) && w.process.Send?
    ensures var r := Candidate(plan.configs[w.process.i], w.routers[w.process.i], Installing(plan, w.journal.value));
            && r.Ok? && Recorded(r.value, plan.owner, plan.operation)
            && r.value.owners[plan.owner].recovery.value.digest == DigestOf(plan, w.journal.value)
  {
    ResultIsOwned(plan, w.journal.value.collected[0], w.journal.value.collected[1]);
    InstallIsAnswered(plan, plan.configs[w.process.i], w.routers[w.process.i], w.journal.value);
  }

  lemma SendStaysOnPath(plan: Plan, w: World, h: string, result: Snapshot)
    requires Shape(plan, w) && Ready(plan, w, result) && w.process.Send?
    ensures Path(plan, Work(plan, w, h), result) && Rank(Work(plan, w, h).process) < Rank(w.process)
  {
    SendIsAnswered(plan, w, result);
  }

  lemma SendAdvances(plan: Plan, w: World, h: string, result: Snapshot)
    requires Shape(plan, w) && Ready(plan, w, result) && w.process.Send?
    ensures Advances(plan, w, h, result)
  {
    SendStaysOnPath(plan, w, h, result);
    SendKeepsInv(plan, w, h);
  }

  lemma StartAdvances(plan: Plan, w: World, h: string, result: Snapshot)
    requires Shape(plan, w) && Ready(plan, w, result)
    requires w.process.Idle? || w.process.SetGuard? || w.process.SaveJournal?
    ensures Advances(plan, w, h, result)
  {
    StartKeepsInv(plan, w, h);
  }

  lemma SaveAckAdvances(plan: Plan, w: World, h: string, result: Snapshot)
    requires Shape(plan, w) && Ready(plan, w, result) && w.process.SaveAck?
    ensures Advances(plan, w, h, result)
  {
    SaveAckKeepsInv(plan, w, h);
  }

  lemma CompletionStaysOnPath(plan: Plan, w: World, h: string, result: Snapshot)
    requires Shape(plan, w) && Path(plan, w, result)
    requires w.process.WriteRow? || w.process.WriteConfig? || w.process.Finish? || w.process.Release?
    ensures Path(plan, Work(plan, w, h), result) && Rank(Work(plan, w, h).process) < Rank(w.process)
  {
    CompletionIsInside(plan, w, h);
    SameOutsideStaysOnPath(plan, w, Work(plan, w, h), result);
  }

  lemma SameOutsideStaysOnPath(plan: Plan, w: World, t: World, result: Snapshot)
    requires Shape(plan, w) && Shape(plan, t) && Path(plan, w, result) && SameOutside(w, t)
    ensures Path(plan, t, result)
  {
    assert t.journal.value.result == w.journal.value.result;
  }

  lemma CompletionAdvances(plan: Plan, w: World, h: string, result: Snapshot)
    requires Shape(plan, w) && Ready(plan, w, result)
    requires w.process.WriteRow? || w.process.WriteConfig? || w.process.Finish? || w.process.Release?
    ensures Advances(plan, w, h, result)
  {
    CompletionStaysOnPath(plan, w, h, result);
    CompletionKeepsInv(plan, w, h);
  }

  lemma WorkAdvances(plan: Plan, w: World, h: string, result: Snapshot)
    requires Shape(plan, w) && Ready(plan, w, result) && !w.process.Done? && h in plan.drawn
    ensures Advances(plan, w, h, result)
  {
    match w.process
    case Fence(_) => FenceAdvances(plan, w, h, result);
    case Collect(_, _) => CollectAdvances(plan, w, h, result);
    case Prepare(_) => PrepareAdvances(plan, w, h, result);
    case Send(_, _) => SendAdvances(plan, w, h, result);
    case SaveAck(_, _) => SaveAckAdvances(plan, w, h, result);
    case Idle => StartAdvances(plan, w, h, result);
    case SetGuard => StartAdvances(plan, w, h, result);
    case SaveJournal => StartAdvances(plan, w, h, result);
    case _ => CompletionAdvances(plan, w, h, result);
  }

  function Uninterrupted(plan: Plan, w: World, h: string, steps: nat): (t: World)
    requires Shape(plan, w)
    ensures Shape(plan, t)
    decreases steps
  {
    if steps == 0 then w else Uninterrupted(plan, Work(plan, w, h), h, steps - 1)
  }

  lemma AdvancesOrIsDone(plan: Plan, w: World, h: string, result: Snapshot)
    requires Shape(plan, w) && Ready(plan, w, result) && h in plan.drawn
    ensures Ready(plan, Work(plan, w, h), result)
    ensures Work(plan, w, h).process.Done? || Rank(Work(plan, w, h).process) < Rank(w.process)
  {
    if w.process.Done? {
      assert Work(plan, w, h) == w;
    } else {
      WorkAdvances(plan, w, h, result);
    }
  }

  lemma NoRankIsCompleted(plan: Plan, w: World, result: Snapshot)
    requires Shape(plan, w) && Ready(plan, w, result) && Rank(w.process) == 0
    ensures w.process.Done? && Completed(plan, w) && w.journal.value.result == Some(result)
  {
    OnlyDoneHasNoRank(w.process);
  }

  /** Whatever each step keeps while the rank falls holds at the end, and the end is reached. */
  lemma {:induction false} RunsDown(plan: Plan, w: World, h: string, steps: nat, good: World -> bool)
    requires Shape(plan, w) && good(w) && Rank(w.process) <= steps
    requires forall t {:trigger Work(plan, t, h)} :: Shape(plan, t) && good(t) ==>
               && good(Work(plan, t, h))
               && (Work(plan, t, h).process.Done? || Rank(Work(plan, t, h).process) < Rank(t.process))
    ensures good(Uninterrupted(plan, w, h, steps)) && Uninterrupted(plan, w, h, steps).process.Done?
    decreases steps
  {
    if steps == 0 {
      OnlyDoneHasNoRank(w.process);
    } else {
      RunsDown(plan, Work(plan, w, h), h, steps - 1, good);
    }
  }

  /**
   From wherever it died, a recovery that is run again, and meets routers that can
   take the result, completes in at most sixteen steps; routers, row and token then
   hold that result.
   */
  lemma RecoveryResumes(plan: Plan, w: World, h: string, result: Snapshot, steps: nat)
    requires Shape(plan, w) && Ready(plan, w, result) && h in plan.drawn && Rank(w.process) <= steps
    ensures var t := Uninterrupted(plan, w, h, steps);
            t.process.Done? && Completed(plan, t) && t.journal.value.result == Some(result)
  {
    var good := (t: World) => Shape(plan, t) && Ready(plan, t, result);
    forall t | Shape(plan, t) && good(t)
      ensures good(Work(plan, t, h))
      ensures Work(plan, t, h).process.Done? || Rank(Work(plan, t, h).process) < Rank(t.process)
    {
      AdvancesOrIsDone(plan, t, h, result);
    }
    RunsDown(plan, w, h, steps, good);
    NoRankIsCompleted(plan, Uninterrupted(plan, w, h, steps), result);
  }

  /// When the routers can take the result

  /** Of the history that the two routers must accept, the join leaves one condition: every record is settled. */
  lemma HistoryAllowsExactly(plan: Plan, a: Snapshot, b: Snapshot)
    requires Keyed(a.records) && Keyed(b.records) && a.owner == plan.owner && b.owner == plan.owner
    requires ResultOf(plan, a, b).Some?
    ensures var r := ResultOf(plan, a, b).value;
            (SnapshotExtends(a.(incarnation := r.incarnation), r)
             && SnapshotExtends(b.(incarnation := r.incarnation), r))
            <==> (forall id :: id in a.records || id in b.records ==>
                    Settled(a.records, b.records, plan.backup.records, id))
  {
    ResultCovers(plan, a, b);
    MergedExtendsExactly(a.records, b.records, plan.backup.records);
  }

  predicate OneWay(x: Records, y: Records) {
    Extends(x, y) || Extends(y, x)
  }

  lemma ResultExists(plan: Plan, a: Snapshot, b: Snapshot)
    requires !Conflicting(a.records, b.records)
    requires a.incarnation < I63_MAX && b.incarnation < I63_MAX && plan.backup.incarnation < I63_MAX
    requires a.revision < I63_MAX && b.revision < I63_MAX && plan.backup.revision < I63_MAX
    ensures ResultOf(plan, a, b).Some?
  {
    assert Joined(map[], a.records) == a.records;
  }

  /// When it never goes through

  /** A prepared result that does not extend what one of the routers holds. */
  predicate Refused(plan: Plan, w: World, i: nat)
    requires Shape(plan, w) && i < 2
  {
    && Prepared(w) && !RecordedAt(plan, w, i)
    && !Extends(SnapshotOf(plan, w.routers[i]).records, w.journal.value.result.value.records)
  }

  lemma RefusedInstall(plan: Plan, w: World, i: nat)
    requires Shape(plan, w) && RecoveryInv(plan, w) && i < 2 && Refused(plan, w, i)
    ensures Candidate(plan.configs[i], w.routers[i], Installing(plan, w.journal.value)).Err?
  {
    var s := w.routers[i];
    var journal := w.journal.value;
    ResultIsOwned(plan, journal.collected[0], journal.collected[1]);
    CandidateOfRecover(plan.configs[i], s, Installing(plan, journal));
    RecoverIsExact(s, plan.operation, journal.result.value, journal.credentialHash, RulesOf(plan.configs[i]));
  }

  /** The process itself cannot get past a refusal: the journalled result stays, and so does the router. */
  lemma WorkMeetsRefusal(plan: Plan, w: World, i: nat, h: string)
    requires Shape(plan, w) && RecoveryInv(plan, w) && Prepared(w) && i < 2
    requires Candidate(plan.configs[i], w.routers[i], Installing(plan, w.journal.value)).Err?
    ensures var t := Work(plan, w, h);
            && Prepared(t) && t.journal.value.result == w.journal.value.result && t.routers[i] == w.routers[i]
  {
  }

  lemma SameRefusal(plan: Plan, w: World, t: World, i: nat)
    requires Shape(plan, w) && Shape(plan, t) && i < 2 && Refused(plan, w, i)
    requires Prepared(t) && t.journal.value.result == w.journal.value.result && !RecordedAt(plan, t, i)
    requires SnapshotOf(plan, t.routers[i]) == SnapshotOf(plan, w.routers[i])
    ensures Refused(plan, t, i)
  {
  }

  lemma WaitingIsUndisturbed(plan: Plan, config: Config, s: State, step: Step)
    requires Waits(plan, s) && !Recorded(s, plan.owner, plan.operation) && Foreign(plan, step)
    ensures var t := Apply(config, s, step);
            !Recorded(t, plan.owner, plan.operation) && SnapshotOf(plan, t) == SnapshotOf(plan, s)
  {
    ElsewhereKeepsEntry(plan, config, s, step);
  }

  lemma LateMeetsRefusal(plan: Plan, w: World, i: nat, installing: bool)
    requires Shape(plan, w) && RecoveryInv(plan, w) && i < 2 && Refused(plan, w, i)
    ensures var s := LateRouter(plan, w, i, installing);
            !Recorded(s, plan.owner, plan.operation) && SnapshotOf(plan, s) == SnapshotOf(plan, w.routers[i])
  {
    RefusedInstall(plan, w, i);
    FenceInstallsNothing(plan, w, i);
  }

  lemma FenceInstallsNothing(plan: Plan, w: World, i: nat)
    requires Shape(plan, w) && RecoveryInv(plan, w) && i < 2
    ensures var s := Apply(plan.configs[i], w.routers[i], Commit(Freezing(plan)));
            && (Recorded(s, plan.owner, plan.operation) <==> RecordedAt(plan, w, i))
            && SnapshotOf(plan, s) == SnapshotOf(plan, w.routers[i])
  {
    if Candidate(plan.configs[i], w.routers[i], Freezing(plan)).Ok? {
      FreezeCall(plan, plan.configs[i], w.routers[i]);
    }
  }

  lemma RefusedWaits(plan: Plan, w: World, i: nat)
    requires Shape(plan, w) && RecoveryInv(plan, w) && i < 2 && Refused(plan, w, i)
    ensures Waits(plan, w.routers[i])
  {
  }

  lemma RefusalPersists(plan: Plan, w: World, i: nat, e: Event)
    requires Shape(plan, w) && RecoveryInv(plan, w) && i < 2 && Refused(plan, w, i) && Possible(plan, e)
    ensures Refused(plan, Next(plan, w, e), i)
  {
    match e
    case Crash => SameRefusal(plan, w, Next(plan, w, e), i);
    case Elsewhere(j, step) =>
      RefusedWaits(plan, w, i);
      WaitingIsUndisturbed(plan, plan.configs[j], w.routers[i], step);
      SameRefusal(plan, w, Next(plan, w, e), i);
    case Late(j, installing) =>
      LateMeetsRefusal(plan, w, i, installing);
      SameRefusal(plan, w, Next(plan, w, e), i);
    case Working(h) =>
      RefusedInstall(plan, w, i);
      WorkMeetsRefusal(plan, w, i, h);
      SameRefusal(plan, w, Next(plan, w, e), i);
  }

  /**
   Once such a result is journalled the recovery is stuck for good: however often it
   is run again, that router never acknowledges and the guard is never lifted.
   */
  lemma {:induction false} RefusalIsFinal(plan: Plan, w: World, i: nat, events: seq<Event>)
    requires Shape(plan, w) && RecoveryInv(plan, w) && i < 2 && Refused(plan, w, i)
    requires forall k :: 0 <= k < |events| ==> Possible(plan, events[k])
    ensures var t := RunAll(plan, w, events);
            Refused(plan, t, i) && RecoveryInv(plan, t) && !t.process.Done? && t.guard && !Acknowledged(t)
    decreases |events|
  {
    if events != [] {
      NextKeepsInv(plan, w, events[0]);
      RefusalPersists(plan, w, i, events[0]);
      RefusalIsFinal(plan, Next(plan, w, events[0]), i, events[1..]);
    }
  }
}
