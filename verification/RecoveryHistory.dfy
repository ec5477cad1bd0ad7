/**
 Recovery on one history: when the restored backup and everything the routers accepted
 of the owner are stretches of one worker history, only the byte budget, a clash with
 another owner's endpoint and the end of the number spaces can keep it from completing.
 */
module RecoveryHistory {
  import opened Wrappers
  import opened Net
  import opened History
  import opened Routing
  import opened Soundness
  import opened Router
  import opened Join
  import opened Recovery
  import opened RecoveryRuns
  import opened RecoveryCompletes

  import Convergence
  import Worker

  /** Snapshots of which any two are stretches of one history. */
  ghost predicate OneHistory(history: set<Snapshot>) {
    && (forall n :: n in history ==> n.incarnation < I63_MAX && n.revision < I63_MAX)
    && (forall m, n {:trigger OneWay(m.records, n.records)} :: m in history && n in history ==>
        OneWay(m.records, n.records))
  }

  /** What a router has checked of a snapshot it holds. */
  ghost predicate Sane(plan: Plan, config: Config, n: Snapshot) {
    && plan.owner in config
    && SnapshotOk(plan.owner, n, PolicyOf(RulesOf(config), plan.owner)) && EndpointsDistinct(n.records)
  }

  lemma RouterIsSane(plan: Plan, config: Config, s: State)
    requires Inv(config, s) && plan.owner in s.owners
    ensures Sane(plan, config, SnapshotOf(plan, s))
  {
    var n := SnapshotOf(plan, s);
    assert OwnerOk(s, RulesOf(config), plan.owner);
    forall i, j | i in n.records && j in n.records && n.records[i].endpoint == n.records[j].endpoint ensures i == j {
      assert Holds(s, n.records[i].endpoint, plan.owner, i) && Holds(s, n.records[i].endpoint, plan.owner, j);
    }
  }

  /// The result of one history

  /** Of two stretches the longer. */
  function Longer(a: Snapshot, b: Snapshot): Snapshot {
    if Extends(a.records, b.records) then b else a
  }

  lemma ResultIsTheLonger(plan: Plan, a: Snapshot, b: Snapshot, id: string)
    requires OneWay(a.records, b.records) && ResultOf(plan, a, b).Some?
    requires Keyed(a.records) && Keyed(b.records) && Bounded(a) && Bounded(b) && Bounded(plan.backup)
    ensures var r := ResultOf(plan, a, b).value;
            && (id in r.records <==> id in Longer(a, b).records)
            && (id in r.records ==>
                  var record := Longer(a, b).records[id];
                  && r.records[id].id == record.id && SameIdentity(record, r.records[id])
                  && 1 <= r.records[id].revision <= r.revision)
  {
    ResultCovers(plan, a, b);
    var r := ResultOf(plan, a, b).value;
    assert id in r.records <==> id in a.records || id in b.records;
    if id in a.records && id in b.records {
      assert RecordExtends(a.records[id], b.records[id]) || RecordExtends(b.records[id], a.records[id]);
    }
    if id in r.records {
      assert r.records[id] ==
        if Buried(Joined(a.records, b.records), plan.backup.records, id)
        then BuryRecord(JoinAt(a.records, b.records, id), plan.backup.records[id])
        else JoinAt(a.records, b.records, id);
    }
  }

  /** The same records, up to revisions and deletions. */
  predicate Resembles(n: Snapshot, r: Snapshot) {
    && r.records.Keys == n.records.Keys
    && forall id :: id in r.records ==>
         && r.records[id].id == n.records[id].id && SameIdentity(n.records[id], r.records[id])
         && 1 <= r.records[id].revision <= r.revision
  }

  lemma ResultResembles(plan: Plan, a: Snapshot, b: Snapshot)
    requires OneWay(a.records, b.records) && ResultOf(plan, a, b).Some?
    requires Keyed(a.records) && Keyed(b.records) && Bounded(a) && Bounded(b) && Bounded(plan.backup)
    ensures Resembles(Longer(a, b), ResultOf(plan, a, b).value)
  {
    var r := ResultOf(plan, a, b).value;
    forall id
      ensures id in r.records <==> id in Longer(a, b).records
      ensures id in r.records ==>
                && r.records[id].id == Longer(a, b).records[id].id
                && SameIdentity(Longer(a, b).records[id], r.records[id]) && 1 <= r.records[id].revision <= r.revision
    {
      ResultIsTheLonger(plan, a, b, id);
    }
  }

  lemma ResemblanceIsSane(plan: Plan, config: Config, n: Snapshot, r: Snapshot)
    requires Sane(plan, config, n) && Resembles(n, r)
    requires r.schema == 1 && r.owner == plan.owner && 1 <= r.incarnation && 1 <= r.revision
    ensures Sane(plan, config, r)
  {
    var policy := PolicyOf(RulesOf(config), plan.owner);
    forall id | id in r.records ensures RecordOk(id, r.records[id], r, policy) {
      assert RecordOk(id, n.records[id], n, policy);
    }
    assert |r.records| == |r.records.Keys| == |n.records.Keys| == |n.records|;
    forall i, j | i in r.records && j in r.records && r.records[i].endpoint == r.records[j].endpoint ensures i == j {
      assert n.records[i].endpoint == n.records[j].endpoint;
    }
  }

  /** Sanity depends on the configuration only through the owner's applications. */
  lemma SaneUnderBoth(plan: Plan, one: Config, other: Config, n: Snapshot)
    requires Sane(plan, one, n) && plan.owner in other && one[plan.owner].applications == other[plan.owner].applications
    ensures Sane(plan, other, n)
  {
  }

  lemma ResultIsSane(plan: Plan, config: Config, a: Snapshot, b: Snapshot)
    requires Sane(plan, config, a) && Sane(plan, config, b)
    requires OneWay(a.records, b.records) && Bounded(plan.backup) && ResultOf(plan, a, b).Some?
    ensures Sane(plan, config, ResultOf(plan, a, b).value)
  {
    KeyedByRecordsOk(a, PolicyOf(RulesOf(config), plan.owner));
    KeyedByRecordsOk(b, PolicyOf(RulesOf(config), plan.owner));
    ResultResembles(plan, a, b);
    ResultIsStamped(plan, a, b);
    ResemblanceIsSane(plan, config, Longer(a, b), ResultOf(plan, a, b).value);
  }

  lemma ResultIsStamped(plan: Plan, a: Snapshot, b: Snapshot)
    requires ResultOf(plan, a, b).Some?
    ensures var r := ResultOf(plan, a, b).value;
            r.schema == 1 && r.owner == plan.owner && 1 <= r.incarnation && 1 <= r.revision
  {
  }

  /// What may still refuse it

  /** Another owner holds an endpoint of the result. */
  predicate Clashes(plan: Plan, s: State, r: Snapshot) {
    exists o | o in s.owners && o != plan.owner :: exists i | i in s.owners[o].snapshot.records ::
      exists j | j in r.records :: s.owners[o].snapshot.records[i].endpoint == r.records[j].endpoint
  }

  /** The router has the generations, the endpoints and the bytes left that the result needs. */
  predicate Spared(plan: Plan, s: State, r: Snapshot) {
    plan.owner in s.owners && Room(plan, s) && !Clashes(plan, s, r) && Fits(Placed(plan, s, r), VIEW_LIMIT)
  }

  lemma PlacedIsSound(plan: Plan, config: Config, s: State, r: Snapshot)
    requires Inv(config, s) && plan.owner in s.owners && Sane(plan, config, r)
    requires !Clashes(plan, s, r) && Fits(Placed(plan, s, r), VIEW_LIMIT)
    ensures Sound(Placed(plan, s, r), RulesOf(config))
  {
    var t := Placed(plan, s, r);
    forall o | o in t.owners ensures o in RulesOf(config).applications && OwnerOk(t, RulesOf(config), o) {
      assert OwnerOk(s, RulesOf(config), o);
    }
    forall e, o, i, p, j | Holds(t, e, o, i) && Holds(t, e, p, j) ensures o == p && i == j {
      if o != plan.owner && p != plan.owner {
        assert Holds(s, e, o, i) && Holds(s, e, p, j);
      }
    }
  }

  /// Everything stays on the history

  predicate RouterOn(plan: Plan, history: set<Snapshot>, s: State) {
    && plan.owner in s.owners
    && (!Recorded(s, plan.owner, plan.operation) ==> Unclaimed(plan, s) && SnapshotOf(plan, s) in history)
  }

  ghost predicate TakenOn(plan: Plan, history: set<Snapshot>, k: nat, n: Snapshot)
    requires k < |plan.configs|
  {
    n in history && Sane(plan, plan.configs[k], n)
  }

  ghost predicate CollectedOn(plan: Plan, history: set<Snapshot>, collected: seq<Snapshot>)
    requires |plan.configs| == 2
  {
    |collected| <= 2 && forall k {:trigger TakenOn(plan, history, k, collected[k])} :: 0 <= k < |collected| ==>
      TakenOn(plan, history, k, collected[k])
  }

  ghost predicate Lineage(plan: Plan, history: set<Snapshot>, w: World)
    requires Shape(plan, w)
  {
    && RouterOn(plan, history, w.routers[0]) && RouterOn(plan, history, w.routers[1])
    && (w.journal.Some? ==> CollectedOn(plan, history, w.journal.value.collected))
  }

  /** Publishers of the owner keep to its history. */
  predicate Honest(plan: Plan, history: set<Snapshot>, e: Event) {
    e.Elsewhere? && e.step.Commit? && e.step.request.Publish? && e.step.request.snapshot.owner == plan.owner ==>
      e.step.request.snapshot in history
  }

  lemma FenceStaysOn(plan: Plan, history: set<Snapshot>, config: Config, s: State)
    requires Inv(config, s) && RouterOn(plan, history, s) && Candidate(config, s, Freezing(plan)).Ok?
    ensures RouterOn(plan, history, Candidate(config, s, Freezing(plan)).value)
  {
    FreezeCall(plan, config, s);
  }

  lemma ElsewhereStaysOn(plan: Plan, history: set<Snapshot>, config: Config, s: State, step: Step)
    requires Inv(config, s) && RouterOn(plan, history, s) && Foreign(plan, step)
    requires Honest(plan, history, Elsewhere(0, step))
    ensures RouterOn(plan, history, Apply(config, s, step))
  {
    if step.Commit? && Candidate(config, s, step.request).Ok? {
      match step.request
      case Publish(_, _, _) => PublishElsewhere(plan, config, s, step.request);
      case RecoverOwner(_, _, _) => RecoverElsewhere(plan, config, s, step.request);
      case FreezeOwner(_, _) =>
    }
  }

  lemma LateStaysOn(plan: Plan, history: set<Snapshot>, w: World, i: nat, installing: bool)
    requires Shape(plan, w) && RecoveryInv(plan, w) && i < 2 && RouterOn(plan, history, w.routers[i])
    ensures RouterOn(plan, history, LateRouter(plan, w, i, installing))
  {
    LateKeeps(plan, w, i, installing);
  }

  lemma FencingStaysOn(plan: Plan, history: set<Snapshot>, w: World, h: string)
    requires Shape(plan, w) && RecoveryInv(plan, w) && Lineage(plan, history, w) && w.process.Fence?
    ensures Lineage(plan, history, Work(plan, w, h))
  {
    var i := w.process.i;
    if Candidate(plan.configs[i], w.routers[i], Freezing(plan)).Ok? {
      FenceStaysOn(plan, history, plan.configs[i], w.routers[i]);
    }
  }

  /** What is collected next. */
  function Collected(plan: Plan, w: World): seq<Snapshot>
    requires Shape(plan, w) && w.process.Collect?
  {
    var n := SnapshotOf(plan, w.routers[w.process.i]);
    if w.process.i == 0 then [n] else w.journal.value.collected + [n]
  }

  lemma CollectOutcome(plan: Plan, w: World, h: string)
    requires Shape(plan, w) && RecoveryInv(plan, w) && w.process.Collect?
    ensures var (t, i) := (Work(plan, w, h), w.process.i);
            var r := Candidate(plan.configs[i], w.routers[i], Freezing(plan));
            if r.Err? then t.routers == w.routers && t.journal == w.journal
            else
              && t.routers == w.routers[i := r.value]
              && t.journal == Some(w.journal.value.(collected := Collected(plan, w)))
  {
    var i := w.process.i;
    if Candidate(plan.configs[i], w.routers[i], Freezing(plan)).Ok? {
      FreezeCall(plan, plan.configs[i], w.routers[i]);
    }
  }

  lemma CollectedAre(plan: Plan, w: World)
    requires Shape(plan, w) && RecoveryInv(plan, w) && w.process.Collect?
    ensures !RecordedAt(plan, w, 0) && !RecordedAt(plan, w, 1)
    ensures Collected(plan, w) ==
            if w.process.i == 0 then [SnapshotOf(plan, w.routers[0])]
            else [SnapshotOf(plan, w.routers[0]), SnapshotOf(plan, w.routers[1])]
  {
  }

  lemma CollectedStaysOn(plan: Plan, history: set<Snapshot>, w: World)
    requires Shape(plan, w) && RecoveryInv(plan, w) && Lineage(plan, history, w) && w.process.Collect?
    ensures CollectedOn(plan, history, Collected(plan, w))
  {
    CollectedAre(plan, w);
    RouterIsSane(plan, plan.configs[0], w.routers[0]);
    RouterIsSane(plan, plan.configs[1], w.routers[1]);
  }

  lemma CollectStaysOn(plan: Plan, history: set<Snapshot>, w: World, t: World)
    requires Shape(plan, w) && Shape(plan, t) && Lineage(plan, history, w) && w.process.Collect?
    requires Inv(plan.configs[w.process.i], w.routers[w.process.i])
    requires CollectedOn(plan, history, Collected(plan, w))
    requires var i := w.process.i;
             var r := Candidate(plan.configs[i], w.routers[i], Freezing(plan));
             if r.Err? then t.routers == w.routers && t.journal == w.journal
             else
               && t.routers == w.routers[i := r.value]
               && t.journal == Some(w.journal.value.(collected := Collected(plan, w)))
    ensures Lineage(plan, history, t)
  {
    var i := w.process.i;
    if Candidate(plan.configs[i], w.routers[i], Freezing(plan)).Ok? {
      FenceStaysOn(plan, history, plan.configs[i], w.routers[i]);
      LineageOfParts(plan, history, w, t, i);
    }
  }

  lemma LineageOfParts(plan: Plan, history: set<Snapshot>, w: World, t: World, i: nat)
    requires Shape(plan, w) && Shape(plan, t) && Lineage(plan, history, w) && i < 2
    requires t.routers == w.routers[i := t.routers[i]] && RouterOn(plan, history, t.routers[i])
    requires t.journal.Some? ==> CollectedOn(plan, history, t.journal.value.collected)
    ensures Lineage(plan, history, t)
  {
  }

  lemma SendStaysOn(plan: Plan, history: set<Snapshot>, w: World, h: string)
    requires Shape(plan, w) && RecoveryInv(plan, w) && Lineage(plan, history, w) && w.process.Send?
    ensures Lineage(plan, history, Work(plan, w, h))
  {
    SendCalls(plan, w, h);
  }

  lemma RestStaysOn(plan: Plan, history: set<Snapshot>, w: World, h: string)
    requires Shape(plan, w) && Lineage(plan, history, w)
    requires !w.process.Fence? && !w.process.Collect? && !w.process.Send?
    ensures Lineage(plan, history, Work(plan, w, h))
  {
  }

  lemma CollectingStaysOn(plan: Plan, history: set<Snapshot>, w: World, h: string)
    requires Shape(plan, w) && RecoveryInv(plan, w) && Lineage(plan, history, w) && w.process.Collect?
    ensures Lineage(plan, history, Work(plan, w, h))
  {
    CollectedStaysOn(plan, history, w);
    CollectOutcome(plan, w, h);
    CollectStaysOn(plan, history, w, Work(plan, w, h));
  }

  lemma WorkStaysOn(plan: Plan, history: set<Snapshot>, w: World, h: string)
    requires Shape(plan, w) && RecoveryInv(plan, w) && Lineage(plan, history, w)
    ensures Lineage(plan, history, Work(plan, w, h))
  {
    if w.process.Fence? {
      FencingStaysOn(plan, history, w, h);
    } else if w.process.Collect? {
      CollectingStaysOn(plan, history, w, h);
    } else if w.process.Send? {
      SendStaysOn(plan, history, w, h);
    } else {
      RestStaysOn(plan, history, w, h);
    }
  }

  lemma ElsewhereKeepsLineage(plan: Plan, history: set<Snapshot>, w: World, i: nat, step: Step)
    requires Shape(plan, w) && Lineage(plan, history, w) && i < 2 && Inv(plan.configs[i], w.routers[i])
    requires Foreign(plan, step) && Honest(plan, history, Elsewhere(i, step))
    ensures Lineage(plan, history, Next(plan, w, Elsewhere(i, step)))
  {
    ElsewhereStaysOn(plan, history, plan.configs[i], w.routers[i], step);
    var router := Apply(plan.configs[i], w.routers[i], step);
    LineageOfParts(plan, history, w, w.(routers := w.routers[i := router]), i);
  }

  lemma LateKeepsLineage(plan: Plan, history: set<Snapshot>, w: World, i: nat, installing: bool)
    requires Shape(plan, w) && RecoveryInv(plan, w) && Lineage(plan, history, w) && i < 2
    ensures Lineage(plan, history, Next(plan, w, Late(i, installing)))
  {
    LateStaysOn(plan, history, w, i, installing);
    var router := LateRouter(plan, w, i, installing);
    LineageOfParts(plan, history, w, w.(routers := w.routers[i := router]), i);
  }

  lemma DeathKeepsLineage(plan: Plan, history: set<Snapshot>, w: World)
    requires Shape(plan, w) && Lineage(plan, history, w)
    ensures Lineage(plan, history, Next(plan, w, Crash))
  {
  }

  lemma NextStaysOn(plan: Plan, history: set<Snapshot>, w: World, e: Event)
    requires Shape(plan, w) && RecoveryInv(plan, w) && Lineage(plan, history, w)
    requires Possible(plan, e) && Honest(plan, history, e)
    ensures Lineage(plan, history, Next(plan, w, e))
  {
    match e
    case Crash => DeathKeepsLineage(plan, history, w);
    case Elsewhere(i, step) => ElsewhereKeepsLineage(plan, history, w, i, step);
    case Late(i, installing) => LateKeepsLineage(plan, history, w, i, installing);
    case Working(h) => WorkStaysOn(plan, history, w, h);
  }

  lemma {:induction false} RunStaysOn(plan: Plan, history: set<Snapshot>, w: World, events: seq<Event>)
    requires Shape(plan, w) && RecoveryInv(plan, w) && Lineage(plan, history, w)
    requires forall k :: 0 <= k < |events| ==> Possible(plan, events[k]) && Honest(plan, history, events[k])
    ensures RecoveryInv(plan, RunAll(plan, w, events)) && Lineage(plan, history, RunAll(plan, w, events))
    decreases |events|
  {
    if events != [] {
      NextKeepsInv(plan, w, events[0]);
      NextStaysOn(plan, history, w, events[0]);
      RunStaysOn(plan, history, Next(plan, w, events[0]), events[1..]);
    }
  }

  /// The recovery can go through

  /** Each router that lacks the result is spared for it. */
  predicate HasRoom(plan: Plan, w: World, r: Snapshot)
    requires Shape(plan, w)
  {
    && (RecordedAt(plan, w, 0) || Spared(plan, w.routers[0], r))
    && (RecordedAt(plan, w, 1) || Spared(plan, w.routers[1], r))
  }

  /** The snapshots the result is, or will be, made of. */
  function Sources(plan: Plan, w: World): (Snapshot, Snapshot)
    requires Shape(plan, w)
    requires Prepared(w) ==> |w.journal.value.collected| == 2
  {
    if Prepared(w) then (w.journal.value.collected[0], w.journal.value.collected[1])
    else (SnapshotOf(plan, w.routers[0]), SnapshotOf(plan, w.routers[1]))
  }

  /** What the operator has to see to: one history, one application list at both routers. */
  ghost predicate Settable(plan: Plan, history: set<Snapshot>) {
    && PlanOk(plan) && plan.backup.owner == plan.owner && Bounded(plan.backup)
    && plan.configs[0][plan.owner].applications == plan.configs[1][plan.owner].applications
    && OneHistory(history) && plan.backup in history
  }

  lemma SourcesAreSane(plan: Plan, history: set<Snapshot>, w: World)
    requires Shape(plan, w) && RecoveryInv(plan, w) && Lineage(plan, history, w)
    ensures var (a, b) := Sources(plan, w);
            && a in history && b in history
            && Sane(plan, plan.configs[0], a) && Sane(plan, plan.configs[1], b)
  {
    if Prepared(w) {
      var collected := w.journal.value.collected;
      assert TakenOn(plan, history, 0, collected[0]) && TakenOn(plan, history, 1, collected[1]);
    } else {
      RouterIsSane(plan, plan.configs[0], w.routers[0]);
      RouterIsSane(plan, plan.configs[1], w.routers[1]);
    }
  }

  /** The result exists, extends both sources under a newer incarnation, and is in itself acceptable to both routers. */
  lemma TargetIsSane(plan: Plan, history: set<Snapshot>, w: World)
    requires Shape(plan, w) && RecoveryInv(plan, w) && Lineage(plan, history, w) && Settable(plan, history)
    ensures Target(plan, w).Some?
    ensures var r := Target(plan, w).value;
            var (a, b) := Sources(plan, w);
            && r.owner == plan.owner && Sane(plan, plan.configs[0], r) && Sane(plan, plan.configs[1], r)
            && a.incarnation < r.incarnation && b.incarnation < r.incarnation
            && SnapshotExtends(a.(incarnation := r.incarnation), r)
            && SnapshotExtends(b.(incarnation := r.incarnation), r)
  {
    var (a, b) := Sources(plan, w);
    SourcesAreSane(plan, history, w);
    ResultOnHistory(plan, history, a, b);
    SaneUnderBoth(plan, plan.configs[1], plan.configs[0], b);
    ResultIsSane(plan, plan.configs[0], a, b);
    SaneUnderBoth(plan, plan.configs[0], plan.configs[1], ResultOf(plan, a, b).value);
  }

  lemma ResultOnHistory(plan: Plan, history: set<Snapshot>, a: Snapshot, b: Snapshot)
    requires Settable(plan, history) && a in history && b in history
    requires Sane(plan, plan.configs[0], a) && Sane(plan, plan.configs[1], b)
    ensures ResultOf(plan, a, b).Some?
    ensures var r := ResultOf(plan, a, b).value;
            && r.owner == plan.owner && a.incarnation < r.incarnation && b.incarnation < r.incarnation
            && SnapshotExtends(a.(incarnation := r.incarnation), r)
            && SnapshotExtends(b.(incarnation := r.incarnation), r)
  {
    assert OneWay(a.records, b.records) && OneWay(a.records, plan.backup.records)
           && OneWay(b.records, plan.backup.records);
    KeyedByRecordsOk(a, PolicyOf(RulesOf(plan.configs[0]), plan.owner));
    KeyedByRecordsOk(b, PolicyOf(RulesOf(plan.configs[1]), plan.owner));
    OneHistorySettles(a.records, b.records, plan.backup.records);
    ResultExists(plan, a, b);
    ResultCovers(plan, a, b);
    ResultIsOwned(plan, a, b);
    HistoryAllowsExactly(plan, a, b);
  }

  lemma RouterIsOpen(plan: Plan, config: Config, s: State, r: Snapshot)
    requires Inv(config, s) && plan.owner in s.owners && Unclaimed(plan, s) && Spared(plan, s, r)
    requires r.owner == plan.owner && Sane(plan, config, r)
    requires SnapshotOf(plan, s).incarnation < r.incarnation
    requires SnapshotExtends(SnapshotOf(plan, s).(incarnation := r.incarnation), r)
    ensures Open(plan, config, s, r)
  {
    PlacedIsSound(plan, config, s, r);
  }

  /**
   At every point of a run on one history, before the result is journalled, after it,
   and between the acknowledgements: the recovery can go through as soon as each
   router that lacks the result has room for it.
   */
  lemma OneHistoryIsReady(plan: Plan, history: set<Snapshot>, w: World)
    requires Shape(plan, w) && RecoveryInv(plan, w) && Lineage(plan, history, w) && Settable(plan, history)
    ensures Target(plan, w).Some?
    ensures HasRoom(plan, w, Target(plan, w).value) ==> Ready(plan, w, Target(plan, w).value)
  {
    TargetIsSane(plan, history, w);
    var r := Target(plan, w).value;
    if HasRoom(plan, w, r) {
      if !RecordedAt(plan, w, 0) {
        RouterIsOpen(plan, plan.configs[0], w.routers[0], r);
      }
      if !RecordedAt(plan, w, 1) {
        RouterIsOpen(plan, plan.configs[1], w.routers[1], r);
      }
    }
  }

  /** Where a recovery on one history begins. */
  ghost predicate Begins(plan: Plan, history: set<Snapshot>, start: World)
    requires Shape(plan, start)
  {
    && Before(plan, start) && Settable(plan, history)
    && RouterOn(plan, history, start.routers[0]) && RouterOn(plan, history, start.routers[1])
  }

  /**
   Recovery always resumes. Take any run on one history, with the process dying
   anywhere, late calls, restarts and other publishers; wherever it has come to, if
   each router that lacks the result has room for it, sixteen undisturbed steps
   complete the recovery, with the result that was journalled if there was one.
   */
  lemma RecoveryAlwaysResumes(plan: Plan, history: set<Snapshot>, start: World, events: seq<Event>, h: string)
    requires Shape(plan, start) && Begins(plan, history, start) && h in plan.drawn
    requires forall k :: 0 <= k < |events| ==> Possible(plan, events[k]) && Honest(plan, history, events[k])
    ensures var w := RunAll(plan, start, events);
            && Target(plan, w).Some?
            && (Prepared(w) ==> Target(plan, w) == w.journal.value.result)
            && (HasRoom(plan, w, Target(plan, w).value) ==>
                var t := Uninterrupted(plan, w, h, 16);
                t.process.Done? && Completed(plan, t) && t.journal.value.result == Target(plan, w))
  {
    BeforeIsInv(plan, start);
    RunStaysOn(plan, history, start, events);
    var w := RunAll(plan, start, events);
    OneHistoryIsReady(plan, history, w);
    if HasRoom(plan, w, Target(plan, w).value) {
      RecoveryResumes(plan, w, h, Target(plan, w).value, 16);
    }
  }

  /// Room is not lost by dying

  lemma LateFenceStaysOpen(plan: Plan, w: World, i: nat, result: Snapshot)
    requires Shape(plan, w) && Ready(plan, w, result) && i < 2
    ensures Open(plan, plan.configs[i], LateRouter(plan, w, i, false), result)
    ensures SnapshotOf(plan, LateRouter(plan, w, i, false)) == SnapshotOf(plan, w.routers[i])
  {
    FreezeStaysOpen(plan, plan.configs[i], w.routers[i], result);
  }

  lemma AnsweredStaysOpen(plan: Plan, config: Config, s: State, journal: Journal)
    requires Inv(config, s) && plan.owner in config && Name(plan.operation) && HexDigest(journal.credentialHash)
    requires journal.result.Some? && Open(plan, config, s, journal.result.value)
    requires journal.result.value.owner == plan.owner
    requires if Recorded(s, plan.owner, plan.operation) then Installed(plan, s, journal) else Waits(plan, s)
    ensures Open(plan, config, Apply(config, s, Commit(Installing(plan, journal))), journal.result.value)
  {
    InstallIsAnswered(plan, config, s, journal);
  }

  lemma LateResultStaysOpen(plan: Plan, w: World, i: nat, result: Snapshot)
    requires Shape(plan, w) && Ready(plan, w, result) && i < 2
    ensures Open(plan, plan.configs[i], LateRouter(plan, w, i, true), result)
    ensures !Prepared(w) ==> LateRouter(plan, w, i, true) == w.routers[i]
  {
    if Prepared(w) {
      ResultIsOwned(plan, w.journal.value.collected[0], w.journal.value.collected[1]);
      AnsweredStaysOpen(plan, plan.configs[i], w.routers[i], w.journal.value);
    }
  }

  lemma LateStaysOpen(plan: Plan, w: World, i: nat, installing: bool, result: Snapshot)
    requires Shape(plan, w) && Ready(plan, w, result) && i < 2
    ensures Open(plan, plan.configs[i], LateRouter(plan, w, i, installing), result)
    ensures !Prepared(w) ==> SnapshotOf(plan, LateRouter(plan, w, i, installing)) == SnapshotOf(plan, w.routers[i])
  {
    if installing {
      LateResultStaysOpen(plan, w, i, result);
    } else {
      LateFenceStaysOpen(plan, w, i, result);
    }
  }

  lemma DeathKeepsReady(plan: Plan, w: World, result: Snapshot)
    requires Shape(plan, w) && Ready(plan, w, result)
    ensures Ready(plan, Next(plan, w, Crash), result)
  {
    NextKeepsInv(plan, w, Crash);
  }

  lemma LateKeepsReady(plan: Plan, w: World, result: Snapshot, i: nat, installing: bool)
    requires Shape(plan, w) && Ready(plan, w, result) && Possible(plan, Late(i, installing))
    ensures Ready(plan, Next(plan, w, Late(i, installing)), result)
  {
    NextKeepsInv(plan, w, Late(i, installing));
    LateStaysOpen(plan, w, i, installing, result);
  }

  lemma ReadyIsKeptOnce(plan: Plan, w: World, result: Snapshot, e: Event)
    requires Shape(plan, w) && Ready(plan, w, result) && Possible(plan, e) && !e.Elsewhere?
    ensures Ready(plan, Next(plan, w, e), result)
  {
    match e
    case Crash => DeathKeepsReady(plan, w, result);
    case Working(h) => AdvancesOrIsDone(plan, w, h, result);
    case Late(i, installing) => LateKeepsReady(plan, w, result, i, installing);
  }

  /** A recovery that can go through still can after any steps, deaths, reruns and late calls of its own. */
  lemma {:induction false} ReadyIsKept(plan: Plan, w: World, result: Snapshot, events: seq<Event>)
    requires Shape(plan, w) && Ready(plan, w, result)
    requires forall k :: 0 <= k < |events| ==> Possible(plan, events[k]) && !events[k].Elsewhere?
    ensures Ready(plan, RunAll(plan, w, events), result)
    decreases |events|
  {
    if events != [] {
      ReadyIsKeptOnce(plan, w, result, events[0]);
      ReadyIsKept(plan, Next(plan, w, events[0]), result, events[1..]);
    }
  }

  /**
   Left to itself a recovery that has room at the start completes from every point it
   may die at, always with one result.
   */
  lemma RecoveryResumesFromEveryDeath(plan: Plan, history: set<Snapshot>, start: World, events: seq<Event>, h: string)
    requires Shape(plan, start) && Begins(plan, history, start) && h in plan.drawn
    requires forall k :: 0 <= k < |events| ==> Possible(plan, events[k]) && !events[k].Elsewhere?
    ensures Target(plan, start).Some?
    ensures HasRoom(plan, start, Target(plan, start).value) ==>
              var t := Uninterrupted(plan, RunAll(plan, start, events), h, 16);
              t.process.Done? && Completed(plan, t) && t.journal.value.result == Target(plan, start)
  {
    BeforeIsInv(plan, start);
    OneHistoryIsReady(plan, history, start);
    var result := Target(plan, start).value;
    if HasRoom(plan, start, result) {
      ReadyIsKept(plan, start, result, events);
      RecoveryResumes(plan, RunAll(plan, start, events), h, result, 16);
    }
  }

  /// A worker's own log is such a history

  function Published(workers: Convergence.Workers, owner: string): set<Snapshot>
    requires owner in workers
  {
    set k | 0 <= k <= |workers[owner]| :: Convergence.SnapshotAt(workers, owner, k)
  }

  lemma LogsAreOneHistory(workers: Convergence.Workers, owner: string)
    requires owner in workers
    ensures OneHistory(Published(workers, owner))
  {
    var history := Published(workers, owner);
    forall n | n in history ensures n.incarnation < I63_MAX && n.revision < I63_MAX {
      var k :| 0 <= k <= |workers[owner]| && n == Convergence.SnapshotAt(workers, owner, k);
      Convergence.SnapshotIsPublished(workers, owner, k);
      Worker.InitialIsInv(owner);
      Worker.RegisterAllKeeps(Worker.Initial(owner), workers[owner][..k]);
      Worker.LogIsBounded(Worker.RegisterAll(Worker.Initial(owner), workers[owner][..k]));
    }
    forall m, n | m in history && n in history ensures OneWay(m.records, n.records) {
      var j :| 0 <= j <= |workers[owner]| && m == Convergence.SnapshotAt(workers, owner, j);
      var k :| 0 <= k <= |workers[owner]| && n == Convergence.SnapshotAt(workers, owner, k);
      if j <= k {
        Convergence.SnapshotsAscend(workers, owner, j, k);
      } else {
        Convergence.SnapshotsAscend(workers, owner, k, j);
      }
    }
  }
}
