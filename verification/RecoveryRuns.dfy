/** What holds over every run of a recovery, whatever dies and whatever else happens. */
module RecoveryRuns {
  import opened Wrappers
  import opened History
  import opened Routing
  import opened Soundness
  import opened Router
  import opened Join
  import opened Recovery

  function DigestOf(plan: Plan, journal: Journal): Digest
    requires journal.result.Some?
  {
    Sha256(plan.operation, journal.result.value, journal.credentialHash)
  }

  predicate Prepared(w: World) {
    w.journal.Some? && w.journal.value.result.Some?
  }

  predicate RecordedAt(plan: Plan, w: World, i: nat)
    requires i < |w.routers|
  {
    Recorded(w.routers[i], plan.owner, plan.operation)
  }

  /** A router either holds the result, or waits for it with the very snapshot the result was made of. */
  ghost predicate RouterOk(plan: Plan, w: World, i: nat)
    requires Shape(plan, w) && i < 2
  {
    && Inv(plan.configs[i], w.routers[i])
    && (RecordedAt(plan, w, i) ==> Prepared(w) && Installed(plan, w.routers[i], w.journal.value))
    && (Prepared(w) && !RecordedAt(plan, w, i) ==>
          Waits(plan, w.routers[i]) && |w.journal.value.collected| == 2
          && SnapshotOf(plan, w.routers[i]) == w.journal.value.collected[i])
  }

  predicate JournalOk(plan: Plan, w: World)
    requires Shape(plan, w)
  {
    && (Prepared(w) ==>
          && w.journal.value.credentialHash in plan.drawn
          && |w.journal.value.collected| == 2
          && ResultOf(plan, w.journal.value.collected[0], w.journal.value.collected[1]) == w.journal.value.result)
    && (w.journal.Some? ==> forall i :: i in w.journal.value.acknowledged ==>
          i < 2 && RecordedAt(plan, w, i) && Prepared(w)
          && w.journal.value.acknowledged[i] == DigestOf(plan, w.journal.value))
    && (w.journal.Some? && !w.process.Done? ==> w.guard)
    && (Prepared(w) || w.row == plan.backup)
  }

  predicate BothRecorded(plan: Plan, w: World)
    requires |w.routers| == 2
  {
    RecordedAt(plan, w, 0) && RecordedAt(plan, w, 1)
  }

  predicate BothFenced(plan: Plan, w: World)
    requires |w.routers| == 2
  {
    Waits(plan, w.routers[0]) && Waits(plan, w.routers[1])
  }

  predicate ProcessOk(plan: Plan, w: World)
    requires Shape(plan, w)
  {
    match w.process
    case Idle => true
    case SetGuard => true
    case SaveJournal => w.guard
    case Fence(i) => i == 1 ==> Waits(plan, w.routers[0])
    case Collect(i, merged) =>
      && BothFenced(plan, w)
      && (i == 0 ==> merged == Base(plan))
      && (i == 1 ==> w.journal.value.collected == [SnapshotOf(plan, w.routers[0])]
                     && Absorb(Base(plan), SnapshotOf(plan, w.routers[0])) == Some(merged))
    case Prepare(merged) =>
      && BothFenced(plan, w)
      && w.journal.value.collected == [SnapshotOf(plan, w.routers[0]), SnapshotOf(plan, w.routers[1])]
      && var one := Absorb(Base(plan), SnapshotOf(plan, w.routers[0]));
         one.Some? && Absorb(one.value, SnapshotOf(plan, w.routers[1])) == Some(merged)
    case Send(i, first) => i == 1 ==> RecordedAt(plan, w, 0) && first == Some(DigestOf(plan, w.journal.value))
    case SaveAck(i, digest) =>
      RecordedAt(plan, w, i) && digest == DigestOf(plan, w.journal.value) && (i == 1 ==> RecordedAt(plan, w, 0))
    case WriteRow => BothRecorded(plan, w)
    case WriteConfig => BothRecorded(plan, w) && w.row == w.journal.value.result.value
    case Finish =>
      && BothRecorded(plan, w) && w.row == w.journal.value.result.value
      && w.token == w.journal.value.credentialHash
    case Release =>
      && BothRecorded(plan, w) && w.row == w.journal.value.result.value
      && w.token == w.journal.value.credentialHash && w.journal.value.complete
    case Done =>
      && BothRecorded(plan, w) && w.row == w.journal.value.result.value
      && w.token == w.journal.value.credentialHash && w.journal.value.complete && !w.guard
  }

  ghost predicate RecoveryInv(plan: Plan, w: World)
    requires Shape(plan, w)
  {
    RouterOk(plan, w, 0) && RouterOk(plan, w, 1) && JournalOk(plan, w) && ProcessOk(plan, w)
  }

  /** Before the first run: no journal, and neither router has heard of the operation's result. */
  ghost predicate Before(plan: Plan, w: World)
    requires Shape(plan, w)
  {
    && w.journal.None? && w.process.Idle? && w.row == plan.backup
    && Inv(plan.configs[0], w.routers[0]) && Inv(plan.configs[1], w.routers[1])
    && !RecordedAt(plan, w, 0) && !RecordedAt(plan, w, 1)
  }

  lemma BeforeIsInv(plan: Plan, w: World)
    requires Shape(plan, w) && Before(plan, w)
    ensures RecoveryInv(plan, w)
  {
  }

  /// What the process's own calls do to a router

  /** Freezing moves no snapshot, and leaves the owner fenced unless the result is already installed. */
  lemma FreezeCall(plan: Plan, config: Config, s: State)
    requires Inv(config, s) && Candidate(config, s, Freezing(plan)).Ok?
    ensures var t := Candidate(config, s, Freezing(plan)).value;
            && Inv(config, t) && SnapshotOf(plan, t) == SnapshotOf(plan, s)
            && (Recorded(t, plan.owner, plan.operation) <==> Recorded(s, plan.owner, plan.operation))
            && (Recorded(s, plan.owner, plan.operation) ==> t == s)
            && (!Recorded(s, plan.owner, plan.operation) ==> Waits(plan, t))
  {
    FreezeOwnerKeeps(config, s, Freezing(plan));
  }

  /** An installation that succeeds leaves exactly the journalled result. */
  lemma InstallCall(plan: Plan, config: Config, s: State, journal: Journal)
    requires Inv(config, s) && journal.result.Some? && journal.result.value.owner == plan.owner
    requires Recorded(s, plan.owner, plan.operation) ==> Installed(plan, s, journal)
    requires Candidate(config, s, Installing(plan, journal)).Ok?
    ensures var t := Candidate(config, s, Installing(plan, journal)).value;
            Inv(config, t) && Recorded(t, plan.owner, plan.operation) && Installed(plan, t, journal)
  {
    var request := Installing(plan, journal);
    RecoverKeeps(config, s, request);
    CandidateOfRecover(config, s, request);
    var next := journal.result.value;
    if Recorded(s, plan.owner, plan.operation) {
      RecordedRecoverChangesNothing(s, plan.operation, next, journal.credentialHash,
          PolicyOf(RulesOf(config), plan.owner));
    } else {
      assert next.owner in s.owners;
      RecoverIsExact(s, plan.operation, next, journal.credentialHash, RulesOf(config));
    }
  }

  /// What happens elsewhere

  lemma ElsewhereKeeps(plan: Plan, w: World, i: nat, step: Step)
    requires Shape(plan, w) && RecoveryInv(plan, w) && i < 2 && Foreign(plan, step)
    ensures var t := Next(plan, w, Elsewhere(i, step));
            && Inv(plan.configs[i], t.routers[i])
            && (RecordedAt(plan, t, i) <==> RecordedAt(plan, w, i))
            && (RecordedAt(plan, w, i) || Waits(plan, w.routers[i]) ==> SameEntry(plan, w.routers[i], t.routers[i]))
  {
    StepKeeps(plan.configs[i], w.routers[i], step);
    if RecordedAt(plan, w, i) || Waits(plan, w.routers[i]) {
      ElsewhereKeepsEntry(plan, plan.configs[i], w.routers[i], step);
    }
    if !RecordedAt(plan, w, i) {
      ElsewhereRecordsNothing(plan, plan.configs[i], w.routers[i], step);
    }
  }

  lemma ElsewhereKeepsRouters(plan: Plan, w: World, i: nat, step: Step)
    requires Shape(plan, w) && RecoveryInv(plan, w) && i < 2 && Foreign(plan, step)
    ensures var t := Next(plan, w, Elsewhere(i, step)); RouterOk(plan, t, 0) && RouterOk(plan, t, 1)
  {
    ElsewhereKeeps(plan, w, i, step);
  }

  lemma ElsewhereKeepsJournal(plan: Plan, w: World, i: nat, step: Step)
    requires Shape(plan, w) && RecoveryInv(plan, w) && i < 2 && Foreign(plan, step)
    ensures JournalOk(plan, Next(plan, w, Elsewhere(i, step)))
  {
    ElsewhereKeeps(plan, w, i, step);
  }

  lemma ElsewhereKeepsProcess(plan: Plan, w: World, i: nat, step: Step)
    requires Shape(plan, w) && RecoveryInv(plan, w) && i < 2 && Foreign(plan, step)
    ensures ProcessOk(plan, Next(plan, w, Elsewhere(i, step)))
  {
    ElsewhereKeeps(plan, w, i, step);
  }

  lemma ElsewhereKeepsInv(plan: Plan, w: World, i: nat, step: Step)
    requires Shape(plan, w) && RecoveryInv(plan, w) && i < 2 && Foreign(plan, step)
    ensures RecoveryInv(plan, Next(plan, w, Elsewhere(i, step)))
  {
    ElsewhereKeepsRouters(plan, w, i, step);
    ElsewhereKeepsJournal(plan, w, i, step);
    ElsewhereKeepsProcess(plan, w, i, step);
  }

  /// Calls that arrive late

  /** What a late call leaves of the router it reaches: nothing new, the journalled result, or just a fence. */
  predicate LateOutcome(plan: Plan, w: World, i: nat, s: State)
    requires i < |w.routers|
  {
    || s == w.routers[i]
    || (Prepared(w) && Installed(plan, s, w.journal.value))
    || (!RecordedAt(plan, w, i) && !Recorded(s, plan.owner, plan.operation) && Waits(plan, s)
        && SnapshotOf(plan, s) == SnapshotOf(plan, w.routers[i]))
  }

  lemma LateInstallation(plan: Plan, w: World, i: nat)
    requires Shape(plan, w) && RecoveryInv(plan, w) && i < 2 && Prepared(w)
    ensures var s := Apply(plan.configs[i], w.routers[i], Commit(Installing(plan, w.journal.value)));
            Inv(plan.configs[i], s) && LateOutcome(plan, w, i, s)
  {
    if Candidate(plan.configs[i], w.routers[i], Installing(plan, w.journal.value)).Ok? {
      ResultIsOwned(plan, w.journal.value.collected[0], w.journal.value.collected[1]);
      InstallCall(plan, plan.configs[i], w.routers[i], w.journal.value);
    }
  }

  lemma LateFence(plan: Plan, w: World, i: nat)
    requires Shape(plan, w) && i < 2 && RouterOk(plan, w, i)
    ensures var s := Apply(plan.configs[i], w.routers[i], Commit(Freezing(plan)));
            Inv(plan.configs[i], s) && LateOutcome(plan, w, i, s)
  {
    if Candidate(plan.configs[i], w.routers[i], Freezing(plan)).Ok? {
      FreezeCall(plan, plan.configs[i], w.routers[i]);
    }
  }

  /** A call that arrives late moves no snapshot, except to the journalled result. */
  lemma LateKeeps(plan: Plan, w: World, i: nat, installing: bool)
    requires Shape(plan, w) && RecoveryInv(plan, w) && i < 2
    ensures var s := LateRouter(plan, w, i, installing); Inv(plan.configs[i], s) && LateOutcome(plan, w, i, s)
  {
    if Prepared(w) {
      LateInstallation(plan, w, i);
    }
    LateFence(plan, w, i);
  }

  lemma LateOutcomeKeepsRouters(plan: Plan, w: World, t: World, i: nat)
    requires Shape(plan, w) && Shape(plan, t) && RecoveryInv(plan, w) && i < 2
    requires t == w.(routers := w.routers[i := t.routers[i]])
    requires Inv(plan.configs[i], t.routers[i]) && LateOutcome(plan, w, i, t.routers[i])
    ensures RouterOk(plan, t, 0) && RouterOk(plan, t, 1)
  {
  }

  /** Fences and recorded results stay, which is all that the process and the journal rely on. */
  lemma LateOutcomeKeepsProcess(plan: Plan, w: World, t: World, i: nat)
    requires Shape(plan, w) && Shape(plan, t) && RecoveryInv(plan, w) && i < 2
    requires t == w.(routers := w.routers[i := t.routers[i]])
    requires LateOutcome(plan, w, i, t.routers[i])
    ensures ProcessOk(plan, t)
  {
    assert !Prepared(w) ==> SnapshotOf(plan, t.routers[0]) == SnapshotOf(plan, w.routers[0]);
    assert !Prepared(w) ==> SnapshotOf(plan, t.routers[1]) == SnapshotOf(plan, w.routers[1]);
  }

  lemma LateOutcomeKeepsJournal(plan: Plan, w: World, t: World, i: nat)
    requires Shape(plan, w) && Shape(plan, t) && JournalOk(plan, w) && i < 2
    requires t == w.(routers := w.routers[i := t.routers[i]])
    requires LateOutcome(plan, w, i, t.routers[i])
    ensures JournalOk(plan, t)
  {
    assert RecordedAt(plan, w, 0) ==> RecordedAt(plan, t, 0);
    assert RecordedAt(plan, w, 1) ==> RecordedAt(plan, t, 1);
  }

  lemma LateKeepsInv(plan: Plan, w: World, i: nat, installing: bool)
    requires Shape(plan, w) && RecoveryInv(plan, w) && i < 2
    ensures RecoveryInv(plan, Next(plan, w, Late(i, installing)))
  {
    LateKeeps(plan, w, i, installing);
    LateOutcomeKeepsRouters(plan, w, Next(plan, w, Late(i, installing)), i);
    LateOutcomeKeepsProcess(plan, w, Next(plan, w, Late(i, installing)), i);
    LateOutcomeKeepsJournal(plan, w, Next(plan, w, Late(i, installing)), i);
  }

  /// The process

  lemma FenceKeepsInv(plan: Plan, w: World, h: string)
    requires Shape(plan, w) && RecoveryInv(plan, w) && w.process.Fence?
    ensures RecoveryInv(plan, Work(plan, w, h))
  {
    var i := w.process.i;
    if Candidate(plan.configs[i], w.routers[i], Freezing(plan)).Ok? {
      FreezeCall(plan, plan.configs[i], w.routers[i]);
    }
  }

  lemma CollectKeepsJournal(plan: Plan, w: World, h: string)
    requires Shape(plan, w) && RecoveryInv(plan, w) && w.process.Collect?
    ensures JournalOk(plan, Work(plan, w, h))
  {
    var i := w.process.i;
    if Candidate(plan.configs[i], w.routers[i], Freezing(plan)).Ok? {
      FreezeCall(plan, plan.configs[i], w.routers[i]);
    }
  }

  lemma CollectKeepsRouters(plan: Plan, w: World, h: string)
    requires Shape(plan, w) && RecoveryInv(plan, w) && w.process.Collect?
    ensures var t := Work(plan, w, h); RouterOk(plan, t, 0) && RouterOk(plan, t, 1)
  {
    var i := w.process.i;
    if Candidate(plan.configs[i], w.routers[i], Freezing(plan)).Ok? {
      FreezeCall(plan, plan.configs[i], w.routers[i]);
    }
  }

  lemma CollectFirstKeepsProcess(plan: Plan, w: World, h: string)
    requires Shape(plan, w) && RecoveryInv(plan, w) && w.process.Collect? && w.process.i == 0
    ensures ProcessOk(plan, Work(plan, w, h))
  {
    if Candidate(plan.configs[0], w.routers[0], Freezing(plan)).Ok? {
      FreezeCall(plan, plan.configs[0], w.routers[0]);
    }
  }

  lemma CollectSecondKeepsProcess(plan: Plan, w: World, h: string)
    requires Shape(plan, w) && RecoveryInv(plan, w) && w.process.Collect? && w.process.i == 1
    ensures ProcessOk(plan, Work(plan, w, h))
  {
    if Candidate(plan.configs[1], w.routers[1], Freezing(plan)).Ok? {
      FreezeCall(plan, plan.configs[1], w.routers[1]);
    }
  }

  lemma CollectKeepsInv(plan: Plan, w: World, h: string)
    requires Shape(plan, w) && RecoveryInv(plan, w) && w.process.Collect?
    ensures RecoveryInv(plan, Work(plan, w, h))
  {
    CollectKeepsRouters(plan, w, h);
    CollectKeepsJournal(plan, w, h);
    if w.process.i == 0 {
      CollectFirstKeepsProcess(plan, w, h);
    } else {
      CollectSecondKeepsProcess(plan, w, h);
    }
  }

  lemma ResultIsOwned(plan: Plan, a: Snapshot, b: Snapshot)
    requires ResultOf(plan, a, b).Some?
    ensures ResultOf(plan, a, b).value.owner == plan.owner
  {
  }

  /** What a step of sending leaves: the router untouched, or holding the result. */
  lemma SendCalls(plan: Plan, w: World, h: string)
    requires Shape(plan, w) && RecoveryInv(plan, w) && w.process.Send?
    ensures var (t, i) := (Work(plan, w, h), w.process.i);
            && t.journal == w.journal && t.guard == w.guard && t.row == w.row
            && t.routers == w.routers[i := t.routers[i]]
            && (if t.process.Idle? then t.routers[i] == w.routers[i] || Installed(plan, t.routers[i], w.journal.value)
                else Installed(plan, t.routers[i], w.journal.value)
                     && t.process == SaveAck(i, DigestOf(plan, w.journal.value)))
            && Inv(plan.configs[i], t.routers[i])
  {
    var i := w.process.i;
    ResultIsOwned(plan, w.journal.value.collected[0], w.journal.value.collected[1]);
    if Candidate(plan.configs[i], w.routers[i], Installing(plan, w.journal.value)).Ok? {
      InstallCall(plan, plan.configs[i], w.routers[i], w.journal.value);
    }
  }

  /** A world after such a step; stated apart from the step itself. */
  ghost predicate Sent(plan: Plan, w: World, t: World, i: nat)
    requires Shape(plan, w) && Shape(plan, t)
  {
    && w.process.Send? && i == w.process.i
    && t.journal == w.journal && t.guard == w.guard && t.row == w.row
    && t.routers == w.routers[i := t.routers[i]] && Inv(plan.configs[i], t.routers[i])
    && (t.routers[i] == w.routers[i] || Installed(plan, t.routers[i], w.journal.value))
    && (t.process.Idle?
        || (Installed(plan, t.routers[i], w.journal.value)
            && t.process == SaveAck(i, DigestOf(plan, w.journal.value))))
  }

  lemma SentKeepsRouters(plan: Plan, w: World, t: World, i: nat)
    requires Shape(plan, w) && Shape(plan, t) && RecoveryInv(plan, w) && Sent(plan, w, t, i)
    ensures RouterOk(plan, t, 0) && RouterOk(plan, t, 1)
  {
  }

  lemma SentKeepsJournal(plan: Plan, w: World, t: World, i: nat)
    requires Shape(plan, w) && Shape(plan, t) && RecoveryInv(plan, w) && Sent(plan, w, t, i)
    ensures JournalOk(plan, t)
  {
  }

  lemma SentKeepsProcess(plan: Plan, w: World, t: World, i: nat)
    requires Shape(plan, w) && Shape(plan, t) && RecoveryInv(plan, w) && Sent(plan, w, t, i)
    ensures ProcessOk(plan, t)
  {
  }

  lemma SendKeepsInv(plan: Plan, w: World, h: string)
    requires Shape(plan, w) && RecoveryInv(plan, w) && w.process.Send?
    ensures RecoveryInv(plan, Work(plan, w, h))
  {
    SendCalls(plan, w, h);
    SentKeepsRouters(plan, w, Work(plan, w, h), w.process.i);
    SentKeepsJournal(plan, w, Work(plan, w, h), w.process.i);
    SentKeepsProcess(plan, w, Work(plan, w, h), w.process.i);
  }

  lemma PrepareKeepsInv(plan: Plan, w: World, h: string)
    requires Shape(plan, w) && RecoveryInv(plan, w) && w.process.Prepare? && h in plan.drawn
    ensures RecoveryInv(plan, Work(plan, w, h))
  {
  }

  lemma StartKeepsInv(plan: Plan, w: World, h: string)
    requires Shape(plan, w) && RecoveryInv(plan, w)
    requires w.process.Idle? || w.process.SetGuard? || w.process.SaveJournal?
    ensures RecoveryInv(plan, Work(plan, w, h))
  {
  }

  lemma SaveAckKeepsInv(plan: Plan, w: World, h: string)
    requires Shape(plan, w) && RecoveryInv(plan, w) && w.process.SaveAck?
    ensures RecoveryInv(plan, Work(plan, w, h))
  {
  }

  predicate Completing(p: Process) {
    p.WriteRow? || p.WriteConfig? || p.Finish? || p.Release? || p.Done?
  }

  /** The routers as they were, and the same result. */
  predicate SameOutside(w: World, t: World) {
    && t.routers == w.routers && w.journal.Some? && t.journal.Some?
    && t.journal.value.(complete := true) == w.journal.value.(complete := true)
  }

  lemma CompletionIsInside(plan: Plan, w: World, h: string)
    requires Shape(plan, w) && Completing(w.process)
    ensures SameOutside(w, Work(plan, w, h))
  {
  }

  lemma SameOutsideIsOk(plan: Plan, w: World, t: World, i: nat)
    requires Shape(plan, w) && Shape(plan, t) && i < 2 && RouterOk(plan, w, i) && SameOutside(w, t)
    ensures RouterOk(plan, t, i)
  {
    assert Prepared(w) ==> t.journal.value.result == w.journal.value.result;
  }

  lemma CompletionKeepsRouters(plan: Plan, w: World, h: string)
    requires Shape(plan, w) && RecoveryInv(plan, w) && Completing(w.process)
    ensures var t := Work(plan, w, h); RouterOk(plan, t, 0) && RouterOk(plan, t, 1)
  {
    CompletionIsInside(plan, w, h);
    SameOutsideIsOk(plan, w, Work(plan, w, h), 0);
    SameOutsideIsOk(plan, w, Work(plan, w, h), 1);
  }

  lemma CompletionKeepsInv(plan: Plan, w: World, h: string)
    requires Shape(plan, w) && RecoveryInv(plan, w) && Completing(w.process)
    ensures RecoveryInv(plan, Work(plan, w, h))
  {
    CompletionKeepsRouters(plan, w, h);
  }

  lemma WorkKeepsInv(plan: Plan, w: World, h: string)
    requires Shape(plan, w) && RecoveryInv(plan, w) && h in plan.drawn
    ensures RecoveryInv(plan, Work(plan, w, h))
  {
    match w.process
    case Fence(_) => FenceKeepsInv(plan, w, h);
    case Collect(_, _) => CollectKeepsInv(plan, w, h);
    case Prepare(_) => PrepareKeepsInv(plan, w, h);
    case Send(_, _) => SendKeepsInv(plan, w, h);
    case SaveAck(_, _) => SaveAckKeepsInv(plan, w, h);
    case Idle => StartKeepsInv(plan, w, h);
    case SetGuard => StartKeepsInv(plan, w, h);
    case SaveJournal => StartKeepsInv(plan, w, h);
    case _ => CompletionKeepsInv(plan, w, h);
  }

  lemma NextKeepsInv(plan: Plan, w: World, e: Event)
    requires Shape(plan, w) && RecoveryInv(plan, w) && Possible(plan, e)
    ensures RecoveryInv(plan, Next(plan, w, e))
  {
    match e
    case Working(h) => WorkKeepsInv(plan, w, h);
    case Crash =>
    case Elsewhere(i, step) => ElsewhereKeepsInv(plan, w, i, step);
    case Late(i, installing) => LateKeepsInv(plan, w, i, installing);
  }

  lemma {:induction false} RunKeepsInv(plan: Plan, w: World, events: seq<Event>)
    requires Shape(plan, w) && RecoveryInv(plan, w)
    requires forall i :: 0 <= i < |events| ==> Possible(plan, events[i])
    ensures RecoveryInv(plan, RunAll(plan, w, events))
    decreases |events|
  {
    if events != [] {
      NextKeepsInv(plan, w, events[0]);
      RunKeepsInv(plan, Next(plan, w, events[0]), events[1..]);
    }
  }

  /// Nothing is lost

  predicate BothExtend(w: World, t: World) {
    && |w.routers| == |t.routers| == 2
    && StateExtends(w.routers[0], t.routers[0]) && StateExtends(w.routers[1], t.routers[1])
  }

  lemma CallExtends(plan: Plan, w: World, i: nat, request: Request)
    requires Shape(plan, w) && RecoveryInv(plan, w) && i < 2
    requires Candidate(plan.configs[i], w.routers[i], request).Ok?
    ensures StateExtends(w.routers[i], Candidate(plan.configs[i], w.routers[i], request).value)
  {
    CandidateKeeps(plan.configs[i], w.routers[i], request);
  }

  lemma FencingExtends(plan: Plan, w: World, h: string)
    requires Shape(plan, w) && RecoveryInv(plan, w) && (w.process.Fence? || w.process.Collect?)
    ensures BothExtend(w, Work(plan, w, h))
  {
    var i := w.process.i;
    StateExtendsIsReflexive(w.routers[0]);
    StateExtendsIsReflexive(w.routers[1]);
    if Candidate(plan.configs[i], w.routers[i], Freezing(plan)).Ok? {
      CallExtends(plan, w, i, Freezing(plan));
    }
  }

  lemma SendingExtends(plan: Plan, w: World, h: string)
    requires Shape(plan, w) && RecoveryInv(plan, w) && w.process.Send?
    ensures BothExtend(w, Work(plan, w, h))
  {
    var i := w.process.i;
    StateExtendsIsReflexive(w.routers[0]);
    StateExtendsIsReflexive(w.routers[1]);
    if Candidate(plan.configs[i], w.routers[i], Installing(plan, w.journal.value)).Ok? {
      CallExtends(plan, w, i, Installing(plan, w.journal.value));
    }
  }

  lemma WorkExtends(plan: Plan, w: World, h: string)
    requires Shape(plan, w) && RecoveryInv(plan, w)
    ensures BothExtend(w, Work(plan, w, h))
  {
    if w.process.Fence? || w.process.Collect? {
      FencingExtends(plan, w, h);
    } else if w.process.Send? {
      SendingExtends(plan, w, h);
    } else {
      StateExtendsIsReflexive(w.routers[0]);
      StateExtendsIsReflexive(w.routers[1]);
    }
  }

  lemma RouterMoveExtends(w: World, t: World, i: nat)
    requires |w.routers| == 2 && i < 2 && |t.routers| == 2
    requires t.routers == w.routers[i := t.routers[i]] && StateExtends(w.routers[i], t.routers[i])
    ensures BothExtend(w, t)
  {
    StateExtendsIsReflexive(w.routers[0]);
    StateExtendsIsReflexive(w.routers[1]);
  }

  lemma LateExtends(plan: Plan, w: World, i: nat, installing: bool)
    requires Shape(plan, w) && RecoveryInv(plan, w) && i < 2
    ensures StateExtends(w.routers[i], LateRouter(plan, w, i, installing))
  {
    StateExtendsIsReflexive(w.routers[i]);
    if Prepared(w) {
      StepKeeps(plan.configs[i], w.routers[i], Commit(Installing(plan, w.journal.value)));
    }
    StepKeeps(plan.configs[i], w.routers[i], Commit(Freezing(plan)));
  }

  lemma NextExtends(plan: Plan, w: World, e: Event)
    requires Shape(plan, w) && RecoveryInv(plan, w) && Possible(plan, e)
    ensures BothExtend(w, Next(plan, w, e))
  {
    match e
    case Working(h) => WorkExtends(plan, w, h);
    case Crash =>
      StateExtendsIsReflexive(w.routers[0]);
      StateExtendsIsReflexive(w.routers[1]);
    case Elsewhere(i, step) =>
      StepKeeps(plan.configs[i], w.routers[i], step);
      RouterMoveExtends(w, Next(plan, w, e), i);
    case Late(i, installing) =>
      LateExtends(plan, w, i, installing);
      RouterMoveExtends(w, Next(plan, w, e), i);
  }

  lemma BothExtendIsTransitive(a: World, b: World, c: World)
    requires BothExtend(a, b) && BothExtend(b, c)
    ensures BothExtend(a, c)
  {
    StateExtendsIsTransitive(a.routers[0], b.routers[0], c.routers[0]);
    StateExtendsIsTransitive(a.routers[1], b.routers[1], c.routers[1]);
  }

  lemma {:induction false} RunExtends(plan: Plan, w: World, events: seq<Event>)
    requires Shape(plan, w) && RecoveryInv(plan, w)
    requires forall i :: 0 <= i < |events| ==> Possible(plan, events[i])
    ensures BothExtend(w, RunAll(plan, w, events))
    decreases |events|
  {
    if events == [] {
      StateExtendsIsReflexive(w.routers[0]);
      StateExtendsIsReflexive(w.routers[1]);
    } else {
      var t := Next(plan, w, events[0]);
      NextKeepsInv(plan, w, events[0]);
      NextExtends(plan, w, events[0]);
      RunExtends(plan, t, events[1..]);
      BothExtendIsTransitive(w, t, RunAll(plan, t, events[1..]));
    }
  }

  /** Both routers have acknowledged, as the journal has it. */
  predicate Acknowledged(w: World) {
    w.journal.Some? && 0 in w.journal.value.acknowledged && 1 in w.journal.value.acknowledged
  }

  /** Two acknowledgements mean one result: both routers hold the journalled snapshot itself. */
  lemma AcknowledgedRoutersAgree(plan: Plan, w: World)
    requires Shape(plan, w) && RecoveryInv(plan, w) && Acknowledged(w)
    ensures Prepared(w)
    ensures Installed(plan, w.routers[0], w.journal.value) && Installed(plan, w.routers[1], w.journal.value)
  {
    assert RecordedAt(plan, w, 0) && RecordedAt(plan, w, 1);
  }

  lemma EntriesExtend(plan: Plan, s: State, t: State)
    requires StateExtends(s, t) && plan.owner in s.owners
    ensures plan.owner in t.owners && Extends(SnapshotOf(plan, s).records, SnapshotOf(plan, t).records)
  {
    assert OwnerExtends(s.owners[plan.owner], t.owners[plan.owner]);
  }

  predicate Kept(plan: Plan, w: World, t: World, i: nat, j: nat)
    requires i < |w.routers| && j < |t.routers|
  {
    && plan.owner in t.routers[j].owners
    && Extends(SnapshotOf(plan, w.routers[i]).records, SnapshotOf(plan, t.routers[j]).records)
  }

  lemma AgreementKeeps(plan: Plan, w: World, t: World, i: nat, j: nat)
    requires Shape(plan, t) && RecoveryInv(plan, t) && Acknowledged(t)
    requires i < 2 && j < 2 && BothExtend(w, t) && plan.owner in w.routers[i].owners
    ensures Kept(plan, w, t, i, j)
  {
    AcknowledgedRoutersAgree(plan, t);
    EntriesExtend(plan, w.routers[i], t.routers[i]);
  }

  /**
   Recovery loses nothing. Take any run, and any moment in it: once both routers have
   acknowledged, each holds every record that either held at that moment, of the same
   application and endpoint, at no lower revision and deleted if it was.
   */
  lemma NothingIsLost(plan: Plan, start: World, before: seq<Event>, after: seq<Event>, i: nat, j: nat)
    requires Shape(plan, start) && Before(plan, start) && i < 2 && j < 2
    requires forall k :: 0 <= k < |before| ==> Possible(plan, before[k])
    requires forall k :: 0 <= k < |after| ==> Possible(plan, after[k])
    requires var w := RunAll(plan, start, before);
             plan.owner in w.routers[i].owners && Acknowledged(RunAll(plan, w, after))
    ensures var w := RunAll(plan, start, before);
            Kept(plan, w, RunAll(plan, w, after), i, j)
  {
    var w := RunAll(plan, start, before);
    BeforeIsInv(plan, start);
    RunKeepsInv(plan, start, before);
    RunKeepsInv(plan, w, after);
    RunExtends(plan, w, after);
    AgreementKeeps(plan, w, RunAll(plan, w, after), i, j);
  }

  predicate Completed(plan: Plan, w: World)
    requires Shape(plan, w)
  {
    && Prepared(w) && w.journal.value.complete
    && Installed(plan, w.routers[0], w.journal.value) && Installed(plan, w.routers[1], w.journal.value)
    && w.row == w.journal.value.result.value
    && w.token == w.journal.value.credentialHash
  }

  lemma UnguardedIsCompleted(plan: Plan, w: World)
    requires Shape(plan, w) && RecoveryInv(plan, w) && w.journal.Some? && !w.guard
    ensures w.process.Done? && Completed(plan, w)
  {
  }

  /** The guard is lifted last: with it gone, routers, worker row and token hold one result. */
  lemma GuardIsLiftedLast(plan: Plan, start: World, events: seq<Event>)
    requires Shape(plan, start) && Before(plan, start)
    requires forall k :: 0 <= k < |events| ==> Possible(plan, events[k])
    requires RunAll(plan, start, events).journal.Some? && !RunAll(plan, start, events).guard
    ensures Completed(plan, RunAll(plan, start, events))
  {
    BeforeIsInv(plan, start);
    RunKeepsInv(plan, start, events);
    UnguardedIsCompleted(plan, RunAll(plan, start, events));
  }

  /** Until it installs the result, a prepared router has nothing the result does not cover. */
  lemma ResultCovers(plan: Plan, a: Snapshot, b: Snapshot)
    requires Keyed(a.records) && Keyed(b.records) && ResultOf(plan, a, b).Some?
    ensures var r := ResultOf(plan, a, b).value;
            && !Conflicting(a.records, b.records)
            && r.records == MergedRecords(a.records, b.records, plan.backup.records)
            && Covers(a.records, r.records) && Covers(b.records, r.records)
            && a.incarnation < r.incarnation && b.incarnation < r.incarnation
            && a.revision < r.revision && b.revision < r.revision
            && plan.backup.revision < r.revision && plan.backup.incarnation < r.incarnation
  {
    assert Joined(map[], a.records) == a.records;
    MergedCovers(a.records, b.records, plan.backup.records);
  }
}
