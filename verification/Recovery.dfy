/**
 The recovery of a restored worker: fence both routers, collect their histories, join
 them, journal one result, have both routers install it, and only then let the worker
 publish again. The process may die at any point and is then run again, while other
 publishers and router restarts go on; runs are followed up to the first completion.
 */
module Recovery {
  import opened Wrappers
  import opened Net
  import opened History
  import opened Routing
  import opened Soundness
  import opened Router
  import opened Join

  /**
   What one recovery is given: the owner and the operation, the configurations of the
   two routers, the snapshot in the restored database, and the hashes of credentials it
   may draw. Nobody else can present a credential it drew.
   */
  datatype Plan = Plan(
    owner: string, operation: string, configs: seq<Config>, backup: Snapshot, drawn: set<string>)

  predicate PlanOk(plan: Plan) {
    && |plan.configs| == 2
    && plan.owner in plan.configs[0] && plan.owner in plan.configs[1]
    && Name(plan.operation)
    && forall h :: h in plan.drawn ==> HexDigest(h)
  }

  /** The journal file. `collected` is not in the file: it remembers what the result was made of. */
  datatype Journal = Journal(
    result: Option<Snapshot>, credentialHash: string, quarantined: Records,
    acknowledged: map<nat, Digest>, complete: bool, collected: seq<Snapshot>)

  /** What the process does next. */
  datatype Process =
    | Idle
    | SetGuard
    | SaveJournal
    | Fence(i: nat)
    | Collect(i: nat, merged: Snapshot)
    | Prepare(merged: Snapshot)
    | Send(i: nat, first: Option<Digest>)
    | SaveAck(i: nat, digest: Digest)
    | WriteRow
    | WriteConfig
    | Finish
    | Release
    | Done

  datatype World = World(
    routers: seq<State>, row: Snapshot, token: string, guard: bool, journal: Option<Journal>, process: Process)

  /// The result

  function Max(x: U64, y: U64): U64 {
    if x < y then y else x
  }

  function Base(plan: Plan): Snapshot {
    Snapshot(1, plan.owner, plan.backup.incarnation, plan.backup.revision, map[])
  }

  function Absorb(merged: Snapshot, n: Snapshot): Option<Snapshot> {
    if Conflicting(merged.records, n.records) then None
    else Some(merged.(
      incarnation := Max(merged.incarnation, n.incarnation),
      revision := Max(merged.revision, n.revision),
      records := Joined(merged.records, n.records)))
  }

  function Conclude(plan: Plan, merged: Snapshot): Option<Snapshot> {
    if merged.incarnation >= I63_MAX || merged.revision >= I63_MAX then None
    else Some(merged.(
      incarnation := merged.incarnation + 1,
      revision := merged.revision + 1,
      records := Overlaid(merged.records, plan.backup.records)))
  }

  /** The one result a recovery can reach from two collected snapshots. */
  function ResultOf(plan: Plan, a: Snapshot, b: Snapshot): Option<Snapshot> {
    var one := Absorb(Base(plan), a);
    if one.None? then None
    else
      var both := Absorb(one.value, b);
      if both.None? then None else Conclude(plan, both.value)
  }

  /// The process

  function Freezing(plan: Plan): Request {
    FreezeOwner(plan.owner, plan.operation)
  }

  function Installing(plan: Plan, journal: Journal): Request
    requires journal.result.Some?
  {
    RecoverOwner(plan.operation, journal.result.value, journal.credentialHash)
  }

  function SnapshotOf(plan: Plan, s: State): Snapshot {
    if plan.owner in s.owners then s.owners[plan.owner].snapshot else Base(plan)
  }

  predicate Shape(plan: Plan, w: World) {
    && PlanOk(plan) && |w.routers| == 2
    && (w.process.Fence? || w.process.Collect? || w.process.Send? || w.process.SaveAck? ==> w.process.i < 2)
    && (w.process.Fence? || w.process.Collect? || w.process.Prepare? ==>
          w.journal.Some? && w.journal.value.result.None?)
    && (w.process.Send? || w.process.SaveAck? || w.process.WriteRow? || w.process.WriteConfig?
        || w.process.Finish? || w.process.Release? || w.process.Done? ==>
          w.journal.Some? && w.journal.value.result.Some?)
  }

  /** The process takes its next step; a refusal ends it. `h` is the credential drawn, where one is. */
  function Work(plan: Plan, w: World, h: string): (t: World)
    requires Shape(plan, w)
    ensures Shape(plan, t)
  {
    match w.process
    case Idle => w.(process := SetGuard)
    case SetGuard => w.(guard := true, process := SaveJournal)
    case SaveJournal =>
      var journal := if w.journal.Some? then w.journal.value else Journal(None, "", map[], map[], false, []);
      var saved := w.(journal := Some(journal));
      if journal.result.Some? then saved.(process := Send(0, None))
      else if w.row.owner != plan.owner then saved.(process := Idle)
      else saved.(process := Fence(0))
    case Fence(i) =>
      var r := Candidate(plan.configs[i], w.routers[i], Freezing(plan));
      if r.Err? then w.(process := Idle)
      else w.(routers := w.routers[i := r.value], process := if i == 0 then Fence(1) else Collect(0, Base(plan)))
    case Collect(i, merged) =>
      var r := Candidate(plan.configs[i], w.routers[i], Freezing(plan));
      if r.Err? then w.(process := Idle)
      else
        var n := SnapshotOf(plan, r.value);
        var absorbed := Absorb(merged, n);
        var collected := if i == 0 then [n] else w.journal.value.collected + [n];
        var t := w.(routers := w.routers[i := r.value], journal := Some(w.journal.value.(collected := collected)));
        if absorbed.None? then t.(process := Idle)
        else t.(process := if i == 0 then Collect(1, absorbed.value) else Prepare(absorbed.value))
    case Prepare(merged) =>
      var result := Conclude(plan, merged);
      if result.None? then w.(process := Idle)
      else
        w.(journal := Some(w.journal.value.(
             result := result,
             credentialHash := h,
             quarantined := w.journal.value.quarantined + Quarantine(merged.records, plan.backup.records))),
           process := Send(0, None))
    case Send(i, first) =>
      var r := Candidate(plan.configs[i], w.routers[i], Installing(plan, w.journal.value));
      if r.Err? then w.(process := Idle)
      else
        var t := w.(routers := w.routers[i := r.value]);
        if !Recorded(r.value, plan.owner, plan.operation) then t.(process := Idle)
        else
          var digest := r.value.owners[plan.owner].recovery.value.digest;
          if i == 1 && first != Some(digest) then t.(process := Idle)
          else t.(process := SaveAck(i, digest))
    case SaveAck(i, digest) =>
      w.(journal := Some(w.journal.value.(acknowledged := w.journal.value.acknowledged[i := digest])),
         process := if i == 0 then Send(1, Some(digest)) else WriteRow)
    case WriteRow => w.(row := w.journal.value.result.value, process := WriteConfig)
    case WriteConfig => w.(token := w.journal.value.credentialHash, process := Finish)
    case Finish => w.(journal := Some(w.journal.value.(complete := true)), process := Release)
    case Release => w.(guard := false, process := Done)
    case Done => w
  }

  /** Meanwhile: restarts, and any request except this owner's recovery and publications under a drawn credential. */
  predicate Foreign(plan: Plan, step: Step) {
    match step
    case Restart => true
    case Commit(Publish(n, presented, _)) => n.owner == plan.owner ==> presented !in plan.drawn
    case Commit(FreezeOwner(owner, _)) => owner != plan.owner
    case Commit(RecoverOwner(_, result, _)) => result.owner != plan.owner
  }

  /** A late event is a call of this recovery that its process gave up on, and that the router takes only now. */
  datatype Event = Working(h: string) | Crash | Elsewhere(i: nat, step: Step) | Late(i: nat, installing: bool)

  predicate Possible(plan: Plan, e: Event) {
    match e
    case Working(h) => h in plan.drawn
    case Crash => true
    case Elsewhere(i, step) => i < 2 && Foreign(plan, step)
    case Late(i, _) => i < 2
  }

  /** A fence may have been sent once there is a journal, an installation once it holds a result. */
  function LateRouter(plan: Plan, w: World, i: nat, installing: bool): State
    requires i < |w.routers| && i < |plan.configs|
  {
    if w.journal.None? || (installing && w.journal.value.result.None?) then w.routers[i]
    else
      var request := if installing then Installing(plan, w.journal.value) else Freezing(plan);
      Apply(plan.configs[i], w.routers[i], Commit(request))
  }

  function Next(plan: Plan, w: World, e: Event): (t: World)
    requires Shape(plan, w) && Possible(plan, e)
    ensures Shape(plan, t)
  {
    match e
    case Working(h) => Work(plan, w, h)
    case Crash => if w.process.Done? then w else w.(process := Idle)
    case Elsewhere(i, step) => w.(routers := w.routers[i := Apply(plan.configs[i], w.routers[i], step)])
    case Late(i, installing) => w.(routers := w.routers[i := LateRouter(plan, w, i, installing)])
  }

  function RunAll(plan: Plan, w: World, events: seq<Event>): (t: World)
    requires Shape(plan, w) && forall i :: 0 <= i < |events| ==> Possible(plan, events[i])
    ensures Shape(plan, t)
    decreases |events|
  {
    if events == [] then w else RunAll(plan, Next(plan, w, events[0]), events[1..])
  }

  /// The entry of the owner under recovery at one router

  predicate Waits(plan: Plan, s: State) {
    plan.owner in s.owners && s.owners[plan.owner].frozenBy == Some(plan.operation)
  }

  /** The router holds the journalled result, under the journalled credential. */
  predicate Installed(plan: Plan, s: State, journal: Journal) {
    && plan.owner in s.owners && journal.result.Some?
    && var o := s.owners[plan.owner];
       && o.snapshot == journal.result.value
       && o.frozenBy.None?
       && o.credentialHash == Some(journal.credentialHash)
       && o.recovery == Some(Recovery(
            plan.operation, Sha256(plan.operation, journal.result.value, journal.credentialHash)))
  }

  predicate SameEntry(plan: Plan, s: State, t: State) {
    && plan.owner in s.owners && plan.owner in t.owners
    && t.owners[plan.owner] == s.owners[plan.owner].(stale := t.owners[plan.owner].stale)
  }

  /** Whether the owner's entry is out of reach of everyone but this recovery. */
  predicate Guarded(plan: Plan, s: State) {
    && plan.owner in s.owners
    && (s.owners[plan.owner].frozenBy.Some?
        || (s.owners[plan.owner].credentialHash.Some? && s.owners[plan.owner].credentialHash.value in plan.drawn))
  }

  lemma PublishElsewhere(plan: Plan, config: Config, s: State, request: Request)
    requires request.Publish? && Foreign(plan, Commit(request))
    ensures var r := Candidate(config, s, request);
            && (r.Ok? && request.snapshot.owner == plan.owner ==> !Guarded(plan, s))
            && (r.Ok? ==> s.generation < U64_MAX && r.value == Routing.Commit(s, request.snapshot, request.now))
  {
    var n := request.snapshot;
    if n.owner in config {
      AcceptIsAdmits(s, n.owner, n, PolicyOf(RulesOf(config), n.owner), request.now);
    }
  }

  lemma RecoverElsewhere(plan: Plan, config: Config, s: State, request: Request)
    requires request.RecoverOwner? && request.result.owner != plan.owner && plan.owner in s.owners
    requires Candidate(config, s, request).Ok?
    ensures SameEntry(plan, s, Candidate(config, s, request).value)
  {
    var n := request.result;
    CandidateOfRecover(config, s, request);
    var policy := PolicyOf(RulesOf(config), n.owner);
    if Recorded(s, n.owner, request.operation) {
      RecordedRecoverChangesNothing(s, request.operation, n, request.credentialHash, policy);
    } else {
      RecoverUnfolds(s, request.operation, n, request.credentialHash, policy);
      AcceptIsAdmits(Unfenced(s, n), n.owner, n, policy, s.owners[n.owner].reconciledMs);
    }
  }

  /** Nothing that happens elsewhere touches a guarded entry. */
  lemma ElsewhereKeepsEntry(plan: Plan, config: Config, s: State, step: Step)
    requires Guarded(plan, s) && Foreign(plan, step)
    ensures SameEntry(plan, s, Apply(config, s, step))
  {
    if step.Commit? && Candidate(config, s, step.request).Ok? {
      match step.request
      case Publish(_, _, _) => PublishElsewhere(plan, config, s, step.request);
      case RecoverOwner(_, _, _) => RecoverElsewhere(plan, config, s, step.request);
      case FreezeOwner(_, _) =>
    }
  }

  lemma RecoverElsewhereRecordsNothing(plan: Plan, config: Config, s: State, request: Request)
    requires request.RecoverOwner? && request.result.owner != plan.owner && plan.owner !in s.owners
    requires Candidate(config, s, request).Ok?
    ensures plan.owner !in Candidate(config, s, request).value.owners
  {
    var n := request.result;
    CandidateOfRecover(config, s, request);
    var policy := PolicyOf(RulesOf(config), n.owner);
    if Recorded(s, n.owner, request.operation) {
      RecordedRecoverChangesNothing(s, request.operation, n, request.credentialHash, policy);
    } else {
      RecoverUnfolds(s, request.operation, n, request.credentialHash, policy);
      AcceptIsAdmits(Unfenced(s, n), n.owner, n, policy, s.owners[n.owner].reconciledMs);
    }
  }

  /** Nor does anything elsewhere record this recovery. */
  lemma ElsewhereRecordsNothing(plan: Plan, config: Config, s: State, step: Step)
    requires !Recorded(s, plan.owner, plan.operation) && Foreign(plan, step)
    ensures !Recorded(Apply(config, s, step), plan.owner, plan.operation)
  {
    if step.Commit? && Candidate(config, s, step.request).Ok? {
      match step.request
      case Publish(_, _, _) => PublishElsewhere(plan, config, s, step.request);
      case RecoverOwner(_, _, _) =>
        if plan.owner in s.owners {
          RecoverElsewhere(plan, config, s, step.request);
        } else {
          RecoverElsewhereRecordsNothing(plan, config, s, step.request);
        }
      case FreezeOwner(_, _) =>
    }
  }
}
