/**
 Inputs at which tempting claims fail: a recovery that two publishing lives of one
 worker leave stuck, a state file and an active state that go back, a deleted endpoint
 that is a target again, and a first snapshot that only the server refuses.
 */
module Witnesses {
  import opened Wrappers
  import opened Net
  import opened History
  import opened Ordered
  import opened Routing
  import opened Budget
  import opened Soundness
  import opened Router
  import opened Join
  import opened Recovery
  import opened RecoveryRuns
  import opened RecoveryCompletes
  import opened RecoveryHistory

  import Worker
  import Server
  import ServerRuns
  import ProxyView
  import ProxyRuns

  const OWNER := "w"
  const TOKEN := "t"
  const OPERATION := "recovery"
  const DRAWN := seq(64, i => 'a')
  const ADDRESS := V4(10, 0, 0, 1, 9000)

  const CONFIG: Config := map[OWNER := Identity(TOKEN, {"echo"})]

  function RecordAt(revision: U64, deleted: bool): Record {
    Record("one", "echo", ADDRESS, revision, deleted)
  }

  function SnapshotAt(revision: U64, deleted: bool): Snapshot {
    Snapshot(1, OWNER, 1, revision, map["one" := RecordAt(revision, deleted)])
  }

  /// Small states fit

  lemma SumOfOne(m: map<string, nat>, k: string)
    requires m.Keys == {k}
    ensures Sum(m) == m[k]
  {
    SumSplits(m, k);
    assert m - {k} == map[];
  }

  lemma TableOfOne(m: map<string, nat>, k: string)
    requires m.Keys == {k}
    ensures Table(m) == |k| + 5 + m[k]
  {
    SumOfOne(TableFields(m), k);
  }

  lemma RecordIsShort(revision: U64, deleted: bool)
    ensures RecordSize(RecordAt(revision, deleted)) <= 400
  {
    DecimalOfU64();
    DecimalIsMonotone(revision, U64_MAX);
    DecimalIsMonotone(10, U64_MAX);
    DecimalIsMonotone(0, U64_MAX);
    DecimalIsMonotone(1, U64_MAX);
    DecimalIsMonotone(9000, U64_MAX);
  }

  lemma SnapshotIsShort(n: Snapshot)
    requires n.schema == 1 && n.owner == OWNER && n.records == map["one" := RecordAt(U64_MAX, false)]
    ensures SnapshotSize(n) <= 1000
  {
    DecimalOfU64();
    DecimalIsMonotone(1, U64_MAX);
    DecimalIsMonotone(n.incarnation, U64_MAX);
    DecimalIsMonotone(n.revision, U64_MAX);
    RecordIsShort(U64_MAX, false);
    TableOfOne(RecordSizes(n.records), "one");
  }

  function LargestOwner(): Owner {
    Owner(Snapshot(1, OWNER, U64_MAX, U64_MAX, map["one" := RecordAt(U64_MAX, false)]),
          U64_MAX, false, Some(Letters(128)), Some(Letters(64)), Some(Recovery(Letters(128), Text(Letters(64)))))
  }

  lemma LargestRecoveryIsShort()
    ensures RecoverySize(LargestOwner().recovery) <= 300
  {
  }

  lemma LargestOwnerIsShort()
    ensures OwnerSize(LargestOwner()) <= 3000
  {
    DecimalOfU64();
    SnapshotIsShort(LargestOwner().snapshot);
    LargestRecoveryIsShort();
  }

  lemma OneOwnerIsShort(s: State, o: Owner)
    requires s == State(U64_MAX, map[OWNER := o]) && OwnerSize(o) <= 3000
    ensures StateSize(s) <= 4000
  {
    DecimalOfU64();
    TableOfOne(OwnerSizes(s.owners), OWNER);
  }

  lemma LargestIsShort()
    ensures StateSize(State(U64_MAX, map[OWNER := LargestOwner()])) <= 4000
  {
    LargestOwnerIsShort();
    OneOwnerIsShort(State(U64_MAX, map[OWNER := LargestOwner()]), LargestOwner());
  }

  lemma InflatedIsLargest(s: State, o: Owner, revision: U64, deleted: bool)
    requires s.owners == map[OWNER := o] && o.snapshot.schema == 1 && o.snapshot.owner == OWNER
    requires o.snapshot.records == map["one" := RecordAt(revision, deleted)]
    ensures Inflated(s) == State(U64_MAX, map[OWNER := LargestOwner()])
  {
    var p := InflatedOwner(o);
    assert p.snapshot.records == LargestOwner().snapshot.records;
  }

  lemma OneRecordFits(s: State, o: Owner, revision: U64, deleted: bool)
    requires s.owners == map[OWNER := o] && o.snapshot.schema == 1 && o.snapshot.owner == OWNER
    requires o.snapshot.records == map["one" := RecordAt(revision, deleted)]
    ensures Fits(s, VIEW_LIMIT)
  {
    InflatedIsLargest(s, o, revision, deleted);
    LargestIsShort();
    FitsIsReserve(s, VIEW_LIMIT);
  }

  /// Publications are taken

  lemma Names()
    ensures Name(OWNER) && Name("one") && Name("echo") && Name(OPERATION)
  {
  }

  lemma DrawnIsADigest()
    ensures HexDigest(DRAWN)
  {
  }

  function Entry(n: Snapshot): Owner {
    Owner(n, 0, false, None, None, None)
  }

  function Holding(n: Snapshot): State {
    State(1, map[OWNER := Entry(n)])
  }

  lemma FirstIsAccepted(revision: U64, deleted: bool, incarnation: U64)
    requires 1 <= revision && 1 <= incarnation
    ensures var n := SnapshotAt(revision, deleted).(incarnation := incarnation);
            Accept(EMPTY, OWNER, n, PolicyOf(RulesOf(CONFIG), OWNER), 0) == Ok(Holding(n))
  {
    var n := SnapshotAt(revision, deleted).(incarnation := incarnation);
    Names();
    assert Routing.Commit(EMPTY, n, 0) == Holding(n);
    OneRecordFits(Holding(n), Entry(n), revision, deleted);
    AcceptIsAdmits(EMPTY, OWNER, n, PolicyOf(RulesOf(CONFIG), OWNER), 0);
  }

  lemma FirstIsPublished(revision: U64, deleted: bool)
    requires 1 <= revision
    ensures var n := SnapshotAt(revision, deleted);
            && Candidate(CONFIG, EMPTY, Publish(n, TOKEN, 0)) == Ok(Holding(n))
            && Run(CONFIG, EMPTY, [Step.Commit(Publish(n, TOKEN, 0))]) == Holding(n)
            && Inv(CONFIG, Holding(n))
  {
    FirstIsAccepted(revision, deleted, 1);
    EmptyIsInv(CONFIG);
    RunKeeps(CONFIG, EMPTY, [Step.Commit(Publish(SnapshotAt(revision, deleted), TOKEN, 0))]);
  }

  /// A recovery that is stuck

  function Registering(operation: string, deleted: bool): Worker.Registration {
    Worker.Registration(operation, "one", "echo", ADDRESS, deleted)
  }

  lemma OneRegistration()
    ensures Worker.RegisterAll(Worker.Initial(OWNER), [Registering("a", false)]).state == SnapshotAt(2, false)
    ensures Worker.Registered(Worker.Initial(OWNER), Registering("a", false)).0 ==
            Worker.Log(SnapshotAt(2, false), map["a" := Worker.Stored(Registering("a", false), 2)])
  {
    assert [Registering("a", false)][1..] == [];
  }

  lemma SecondRegistration(operation: string, deleted: bool)
    requires operation != "a"
    ensures Worker.RegisterAll(Worker.Initial(OWNER), [Registering("a", false), Registering(operation, deleted)]).state
            == SnapshotAt(3, deleted)
  {
    var (first, second) := (Registering("a", false), Registering(operation, deleted));
    var log := Worker.Registered(Worker.Initial(OWNER), first).0;
    OneRegistration();
    assert log.state.records["one" := RecordAt(3, deleted)] == map["one" := RecordAt(3, deleted)];
    assert Worker.Registered(log, second).0.state == SnapshotAt(3, deleted);
    assert [first, second][1..] == [second] && [second][1..] == [];
    assert Worker.RegisterAll(log, [second]) == Worker.RegisterAll(Worker.Registered(log, second).0, []);
  }

  /** The worker's first life registers its record twice; after a restore without recovery, its second deletes it. */
  lemma TwoLives()
    ensures Worker.RegisterAll(Worker.Initial(OWNER), [Registering("a", false)]).state == SnapshotAt(2, false)
    ensures Worker.RegisterAll(Worker.Initial(OWNER), [Registering("a", false), Registering("b", false)]).state
            == SnapshotAt(3, false)
    ensures Worker.RegisterAll(Worker.Initial(OWNER), [Registering("a", false), Registering("c", true)]).state
            == SnapshotAt(3, true)
  {
    OneRegistration();
    SecondRegistration("b", false);
    SecondRegistration("c", true);
  }

  /** The first life reached one router, the second the other; the backup is from before they parted. */
  const PLAN := Plan(OWNER, OPERATION, [CONFIG, CONFIG], SnapshotAt(2, false), {DRAWN})

  function Start(): World {
    World([Holding(SnapshotAt(3, false)), Holding(SnapshotAt(3, true))], SnapshotAt(2, false), TOKEN, false, None,
        Process.Idle)
  }

  lemma StartIsBefore()
    ensures Shape(PLAN, Start()) && Before(PLAN, Start())
  {
    DrawnIsADigest();
    Names();
    FirstIsPublished(3, false);
    FirstIsPublished(3, true);
  }

  function Fenced(n: Snapshot): State {
    State(2, map[OWNER := Entry(n).(frozenBy := Some(OPERATION), stale := true)])
  }

  lemma FreezesOnce(n: Snapshot)
    ensures Candidate(CONFIG, Holding(n), Freezing(PLAN)) == Ok(Fenced(n))
    ensures Candidate(CONFIG, Fenced(n), Freezing(PLAN)) == Ok(Fenced(n))
  {
    Names();
    var fenced := Entry(n).(frozenBy := Some(OPERATION), stale := true);
    assert Holding(n).owners[OWNER := fenced] == map[OWNER := fenced];
  }

  function Merged(): Snapshot {
    Snapshot(1, OWNER, 1, 3, map["one" := RecordAt(3, true)])
  }

  lemma Merging()
    ensures Absorb(Base(PLAN), SnapshotAt(3, false)) == Some(SnapshotAt(3, false))
    ensures Absorb(SnapshotAt(3, false), SnapshotAt(3, true)) == Some(Merged())
    ensures Conclude(PLAN, Merged()) == Some(Result())
  {
    var (live, dead) := (SnapshotAt(3, false).records, SnapshotAt(3, true).records);
    assert Joined(map[], live) == live;
    assert Joined(live, dead) == dead;
    assert Overlaid(dead, PLAN.backup.records) == dead;
  }

  function Result(): Snapshot {
    Merged().(incarnation := 2, revision := 4)
  }

  function Live(): Snapshot { SnapshotAt(3, false) }
  function Dead(): Snapshot { SnapshotAt(3, true) }

  function Saved(collected: seq<Snapshot>): Option<Journal> {
    Some(Journal(None, "", map[], map[], false, collected))
  }

  /** The worlds of the first run, guard up and journal saved. */
  function During(one: State, other: State, collected: seq<Snapshot>, process: Process): World {
    World([one, other], SnapshotAt(2, false), TOKEN, true, Saved(collected), process)
  }

  lemma StartsUp()
    requires Shape(PLAN, Start())
    ensures var w := Work(PLAN, Work(PLAN, Work(PLAN, Start(), DRAWN), DRAWN), DRAWN);
            w == During(Holding(Live()), Holding(Dead()), [], Process.Fence(0))
  {
  }

  lemma Fences()
    requires PlanOk(PLAN)
    ensures var w := During(Holding(Live()), Holding(Dead()), [], Process.Fence(0));
            Shape(PLAN, w) && Work(PLAN, w, DRAWN) == During(Fenced(Live()), Holding(Dead()), [], Process.Fence(1))
    ensures var w := During(Fenced(Live()), Holding(Dead()), [], Process.Fence(1));
            && Shape(PLAN, w)
            && Work(PLAN, w, DRAWN) == During(Fenced(Live()), Fenced(Dead()), [], Process.Collect(0, Base(PLAN)))
  {
    FreezesOnce(Live());
    FreezesOnce(Dead());
  }

  lemma CollectsLive()
    requires PlanOk(PLAN)
    ensures var w := During(Fenced(Live()), Fenced(Dead()), [], Process.Collect(0, Base(PLAN)));
            Shape(PLAN, w)
            && Work(PLAN, w, DRAWN) == During(Fenced(Live()), Fenced(Dead()), [Live()], Process.Collect(1, Live()))
  {
    FreezesOnce(Live());
    Merging();
  }

  lemma CollectsDead()
    requires PlanOk(PLAN)
    ensures var w := During(Fenced(Live()), Fenced(Dead()), [Live()], Process.Collect(1, Live()));
            Shape(PLAN, w)
            && Work(PLAN, w, DRAWN)
               == During(Fenced(Live()), Fenced(Dead()), [Live(), Dead()], Process.Prepare(Merged()))
  {
    FreezesOnce(Dead());
    Merging();
    assert [Live()] + [Dead()] == [Live(), Dead()];
    assert SnapshotOf(PLAN, Fenced(Dead())) == Dead();
  }

  lemma Prepares()
    requires PlanOk(PLAN)
    ensures var w := During(Fenced(Live()), Fenced(Dead()), [Live(), Dead()], Process.Prepare(Merged()));
            Shape(PLAN, w)
            && var t := Work(PLAN, w, DRAWN);
               t.routers == w.routers && t.journal.Some? && t.journal.value.result == Some(Result())
  {
    Merging();
  }

  function Works(n: nat): seq<Event> {
    seq(n, i => Working(DRAWN))
  }

  lemma WorksFirst(w: World, n: nat)
    requires Shape(PLAN, w) && 0 < n
    ensures RunAll(PLAN, w, Works(n)) == RunAll(PLAN, Work(PLAN, w, DRAWN), Works(n - 1))
  {
    assert Works(n)[1..] == Works(n - 1);
  }

  /**
   Both publications are taken, the recovery begins on routers that never heard of it,
   and eight undisturbed steps later it has journalled a result that router 0 refuses
   for ever, whatever happens from then on.
   */
  lemma PublishedLivesGetStuck(events: seq<Event>)
    requires forall k :: 0 <= k < |events| ==> Possible(PLAN, events[k])
    ensures Run(CONFIG, EMPTY, [Step.Commit(Publish(Live(), TOKEN, 0))]) == Start().routers[0]
    ensures Run(CONFIG, EMPTY, [Step.Commit(Publish(Dead(), TOKEN, 0))]) == Start().routers[1]
    ensures Shape(PLAN, Start()) && Before(PLAN, Start())
    ensures var w := RunAll(PLAN, Start(), Works(8));
            Refused(PLAN, w, 0) && !RunAll(PLAN, w, events).process.Done? && RunAll(PLAN, w, events).guard
  {
    FirstIsPublished(3, false);
    FirstIsPublished(3, true);
    StartIsBefore();
    BeforeIsInv(PLAN, Start());
    RunKeepsInv(PLAN, Start(), Works(8));
    EightStepsRefused();
    RefusalIsFinal(PLAN, RunAll(PLAN, Start(), Works(8)), 0, events);
  }

  lemma EightStepsRefused()
    requires Shape(PLAN, Start())
    ensures Refused(PLAN, RunAll(PLAN, Start(), Works(8)), 0)
  {
    EightSteps();
    assert "one" in Live().records && !RecordExtends(Live().records["one"], Result().records["one"]);
  }

  lemma EightSteps()
    requires Shape(PLAN, Start())
    ensures var w := RunAll(PLAN, Start(), Works(8));
            && w.routers == [Fenced(Live()), Fenced(Dead())]
            && w.journal.Some? && w.journal.value.result == Some(Result())
  {
    ThreeSteps();
    Fences();
    CollectsLive();
    CollectsDead();
    Prepares();
    WorksFirst(During(Holding(Live()), Holding(Dead()), [], Process.Fence(0)), 5);
    WorksFirst(During(Fenced(Live()), Holding(Dead()), [], Process.Fence(1)), 4);
    WorksFirst(During(Fenced(Live()), Fenced(Dead()), [], Process.Collect(0, Base(PLAN))), 3);
    WorksFirst(During(Fenced(Live()), Fenced(Dead()), [Live()], Process.Collect(1, Live())), 2);
    WorksFirst(During(Fenced(Live()), Fenced(Dead()), [Live(), Dead()], Process.Prepare(Merged())), 1);
  }

  lemma ThreeSteps()
    requires Shape(PLAN, Start())
    ensures var w := During(Holding(Live()), Holding(Dead()), [], Process.Fence(0));
            Shape(PLAN, w) && RunAll(PLAN, Start(), Works(8)) == RunAll(PLAN, w, Works(5))
  {
    WorksFirst(Start(), 8);
    WorksFirst(Work(PLAN, Start(), DRAWN), 7);
    WorksFirst(Work(PLAN, Work(PLAN, Start(), DRAWN), DRAWN), 6);
    StartsUp();
  }

  /// A recovery that goes through

  function OneLife(): set<Snapshot> {
    {SnapshotAt(2, false), SnapshotAt(3, false)}
  }

  function OneLifeStart(): World {
    Start().(routers := [Holding(SnapshotAt(2, false)), Holding(SnapshotAt(3, false))])
  }

  lemma OneLifeIsOneHistory()
    ensures OneHistory(OneLife()) && Bounded(SnapshotAt(2, false))
  {
    assert RecordExtends(RecordAt(2, false), RecordAt(3, false));
  }

  lemma OneLifeStartIsBefore()
    ensures Shape(PLAN, OneLifeStart()) && Before(PLAN, OneLifeStart())
  {
    DrawnIsADigest();
    Names();
    FirstIsPublished(2, false);
    FirstIsPublished(3, false);
  }

  function OneLifeResult(): Snapshot {
    SnapshotAt(4, false).(incarnation := 2, records := map["one" := RecordAt(3, false)])
  }

  lemma OneLifeMerges()
    ensures ResultOf(PLAN, SnapshotAt(2, false), SnapshotAt(3, false)) == Some(OneLifeResult())
  {
    var (a, b) := (SnapshotAt(2, false), SnapshotAt(3, false));
    assert Joined(map[], a.records) == a.records;
    assert Joined(a.records, b.records) == b.records;
    assert Overlaid(b.records, PLAN.backup.records) == b.records;
    assert Absorb(Base(PLAN), a) == Some(a);
    assert Absorb(a, b) == Some(b);
  }

  /** A router that holds nothing else has the generations, the endpoints and the bytes. */
  lemma HoldingIsSpared(n: Snapshot)
    ensures Spared(PLAN, Holding(n), OneLifeResult())
  {
    var t := Placed(PLAN, Holding(n), OneLifeResult());
    assert t.owners == map[OWNER := t.owners[OWNER]];
    OneRecordFits(t, t.owners[OWNER], 3, false);
  }

  /** One life: router 0 is behind router 1, and the backup is as old as router 0. */
  lemma OneLifeBegins()
    ensures Shape(PLAN, OneLifeStart()) && Begins(PLAN, OneLife(), OneLifeStart())
    ensures Target(PLAN, OneLifeStart()) == Some(OneLifeResult())
    ensures HasRoom(PLAN, OneLifeStart(), OneLifeResult())
  {
    OneLifeStartIsBefore();
    OneLifeIsOneHistory();
    assert RouterOn(PLAN, OneLife(), Holding(SnapshotAt(2, false)));
    assert RouterOn(PLAN, OneLife(), Holding(SnapshotAt(3, false)));
    OneLifeMerges();
    HoldingIsSpared(SnapshotAt(2, false));
    HoldingIsSpared(SnapshotAt(3, false));
  }

  /// A state file that goes back, and an active state that goes back

  /** A server that has renamed one publication into place and then failed to sync its directory. */
  function Renaming(p: Server.Pending): Server.Server {
    Server.FRESH.(unsynced := [p])
  }

  function Pending(n: Snapshot): Server.Pending {
    Server.Pending(EMPTY, Publish(n, TOKEN, 0), Holding(n))
  }

  function Renames(ticket: nat, request: Server.Publication): seq<Server.Event> {
    [Server.Authenticate(ticket, request), Server.Take(ticket), Server.Renames]
  }

  lemma RunCons(s: Server.Server, e: Server.Event, rest: seq<Server.Event>)
    ensures Server.RunServer(CONFIG, s, [e] + rest) == Server.RunServer(CONFIG, Server.Next(CONFIG, s, e), rest)
  {
    assert ([e] + rest)[1..] == rest;
  }

  lemma RenamesOne(s: Server.Server, ticket: nat, revision: U64, rest: seq<Server.Event>)
    requires s.active == EMPTY && s.writer.Idle? && s.waiting == map[] && 1 <= revision
    ensures var n := SnapshotAt(revision, false);
            var request := Publish(n, TOKEN, 0);
            var t := s.(writer := Server.Renamed(request, Holding(n)), unsynced := s.unsynced + [Pending(n)]);
            Server.RunServer(CONFIG, s, Renames(ticket, request) + rest) == Server.RunServer(CONFIG, t, rest)
  {
    var n := SnapshotAt(revision, false);
    var request := Publish(n, TOKEN, 0);
    FirstIsPublished(revision, false);
    var (a, b, c) := (Server.Authenticate(ticket, request), Server.Take(ticket), Server.Renames);
    var t := Server.Next(CONFIG, s, a);
    assert t == s.(waiting := map[ticket := request]) && t.waiting - {ticket} == map[];
    var u := Server.Next(CONFIG, t, b);
    assert Renames(ticket, request) + rest == [a] + ([b] + ([c] + rest));
    RunCons(s, a, [b] + ([c] + rest));
    RunCons(t, b, [c] + rest);
    RunCons(u, c, rest);
  }

  lemma OlderDoesNotExtend()
    ensures !StateExtends(Holding(SnapshotAt(3, false)), Holding(SnapshotAt(2, false)))
  {
    var (a, b) := (Holding(SnapshotAt(3, false)), Holding(SnapshotAt(2, false)));
    assert OWNER in a.owners && !OwnerExtends(a.owners[OWNER], b.owners[OWNER]);
  }

  /** A newer publication is renamed into place but not synced; an older one, still under way, then replaces it. */
  lemma FileGoesBack()
    ensures var (newer, older) := (SnapshotAt(3, false), SnapshotAt(2, false));
            var first := Renames(0, Publish(newer, TOKEN, 0)) + [Server.SyncFails];
            var t := Server.RunServer(CONFIG, Server.FRESH, first);
            var u := Server.RunServer(CONFIG, t, Renames(1, Publish(older, TOKEN, 0)));
            && t == Renaming(Pending(newer))
            && u.unsynced == [Pending(newer), Pending(older)]
            && !StateExtends(Holding(newer), Holding(older))
  {
    var newer := SnapshotAt(3, false);
    var s := Renaming(Pending(newer)).(writer := Server.Renamed(Publish(newer, TOKEN, 0), Holding(newer)));
    RenamesOne(Server.FRESH, 0, 3, [Server.SyncFails]);
    RunCons(s, Server.SyncFails, []);
    var second := Renames(1, Publish(SnapshotAt(2, false), TOKEN, 0));
    RenamesOne(Renaming(Pending(newer)), 1, 2, []);
    assert second + [] == second;
    OlderDoesNotExtend();
  }

  /** A server whose next process serves what was only renamed. */
  function Serving(n: Snapshot): Server.Server {
    Renaming(Pending(n)).(active := AfterRestart(Holding(n)), loaded := 1)
  }

  lemma DiesRenamed(revision: U64)
    requires 1 <= revision
    ensures var n := SnapshotAt(revision, false);
            Server.RunServer(CONFIG, Server.FRESH, Renames(0, Publish(n, TOKEN, 0)) + [Server.Dies]) == Serving(n)
  {
    var n := SnapshotAt(revision, false);
    var s := Renaming(Pending(n)).(writer := Server.Renamed(Publish(n, TOKEN, 0), Holding(n)));
    RenamesOne(Server.FRESH, 0, revision, [Server.Dies]);
    RunCons(s, Server.Dies, []);
  }

  lemma LosesTheFirst(n: Snapshot)
    ensures Server.Next(CONFIG, Serving(n), Server.PowerLoss(0)).active == EMPTY
    ensures !StateExtends(Serving(n).active, EMPTY) && !ServerRuns.Remembers(Serving(n), Server.PowerLoss(0))
  {
    assert AfterRestart(EMPTY) == EMPTY;
    assert OWNER in Holding(n).owners && OWNER in AfterRestart(Holding(n)).owners && OWNER !in EMPTY.owners;
  }

  /**
   The process dies between the rename and the sync of its directory. The next one reads
   the renamed file and serves it; then the power fails and the file from before is back.
   */
  lemma ActiveGoesBack()
    ensures var n := SnapshotAt(2, false);
            var t := Server.RunServer(CONFIG, Server.FRESH, Renames(0, Publish(n, TOKEN, 0)) + [Server.Dies]);
            && t.active == AfterRestart(Holding(n))
            && Server.Next(CONFIG, t, Server.PowerLoss(0)).active == EMPTY
            && !StateExtends(t.active, EMPTY) && !ServerRuns.Remembers(t, Server.PowerLoss(0))
  {
    DiesRenamed(2);
    LosesTheFirst(SnapshotAt(2, false));
  }

  /// A deleted endpoint that is a target again

  const PORTS: ProxyView.ProxyConfig := map["echo" := [80]]

  function LiveView(): State { Holding(SnapshotAt(2, false)) }
  function DeadView(): State { Holding(Dead()) }

  /** The proxy saved and shows a live record. */
  function Cached(): ProxyRuns.Proxy {
    ProxyRuns.Proxy(Some(LiveView()), Some(LiveView()), [], 0)
  }

  lemma BothAreValid()
    ensures ProxyView.Valid(PORTS, LiveView()) && ProxyView.Valid(PORTS, DeadView())
    ensures ProxyView.Acceptable(PORTS, DeadView(), Some(LiveView()))
  {
    FirstIsPublished(2, false);
    FirstIsPublished(3, true);
    ProxyView.WiderRulesStaySound(CONFIG, PORTS, LiveView());
    ProxyView.WiderRulesStaySound(CONFIG, PORTS, DeadView());
    var (a, b) := (RecordAt(2, false), RecordAt(3, true));
    assert ProxyView.RecordContinues(a, b);
    assert ProxyView.OwnerContinues(Entry(SnapshotAt(2, false)), Entry(Dead()));
  }

  lemma WhatIsShown()
    ensures ADDRESS in ProxyRuns.Gone(Some(DeadView()))
    ensures ADDRESS in ProxyView.Targets(AfterRestart(LiveView()), "echo")
  {
    assert ADDRESS in ProxyRuns.OwnerGone(Dead().records) by {
      assert "one" in Dead().records;
    }
    assert ADDRESS in ProxyView.OwnerTargets(SnapshotAt(2, false).records, "echo") by {
      assert "one" in SnapshotAt(2, false).records;
    }
    assert OWNER in DeadView().owners && OWNER in AfterRestart(LiveView()).owners;
  }

  function Shown(): ProxyRuns.Proxy {
    ProxyRuns.Proxy(Some(AfterRestart(DeadView())), Some(LiveView()), [DeadView()], 1)
  }

  function Returned(): ProxyRuns.Proxy {
    ProxyRuns.Proxy(Some(AfterRestart(LiveView())), Some(LiveView()), [], 0)
  }

  lemma BothAreOpened()
    ensures ProxyRuns.Opened(PORTS, Some(DeadView())) == Some(AfterRestart(DeadView()))
    ensures ProxyRuns.Opened(PORTS, Some(LiveView())) == Some(AfterRestart(LiveView()))
  {
    BothAreValid();
    ProxyRuns.OpenedIsGood(PORTS, Some(DeadView()));
    ProxyRuns.OpenedIsGood(PORTS, Some(LiveView()));
  }

  lemma CachedIsInv()
    ensures ProxyRuns.ProxyInv(PORTS, Cached())
  {
    BothAreValid();
    ProxyRuns.FollowsIsReflexive(Some(LiveView()));
    ProxyRuns.ShowingIsInv(PORTS, Cached());
  }

  function Renamed(): ProxyRuns.Proxy {
    Cached().(unsynced := [DeadView()])
  }

  /// The same three steps for any two views, the one saved and the one not

  lemma RenamesOnly(config: ProxyView.ProxyConfig, saved: State, lost: State)
    requires ProxyView.Acceptable(config, lost, Some(saved))
    ensures var p := ProxyRuns.Proxy(Some(saved), Some(saved), [], 0);
            ProxyRuns.Next(config, p, ProxyRuns.Offer(lost, ProxyRuns.FailedAfterRename)) == p.(unsynced := [lost])
  {
  }

  lemma Rereads(config: ProxyView.ProxyConfig, saved: State, lost: State, reread: State)
    requires ProxyRuns.Opened(config, Some(lost)) == Some(reread)
    ensures ProxyRuns.Next(config, ProxyRuns.Proxy(Some(saved), Some(saved), [lost], 0), ProxyRuns.Dies)
            == ProxyRuns.Proxy(Some(reread), Some(saved), [lost], 1)
  {
  }

  lemma Returns(config: ProxyView.ProxyConfig, saved: State, lost: State, reread: State, back: State)
    requires ProxyRuns.Opened(config, Some(saved)) == Some(back)
    ensures ProxyRuns.Next(config, ProxyRuns.Proxy(Some(reread), Some(saved), [lost], 1), ProxyRuns.PowerLoss(0))
            == ProxyRuns.Proxy(Some(back), Some(saved), [], 0)
  {
  }

  lemma CacheGoesBack()
    ensures ProxyRuns.Next(PORTS, Cached(), ProxyRuns.Offer(DeadView(), ProxyRuns.FailedAfterRename)) == Renamed()
    ensures ProxyRuns.Next(PORTS, Renamed(), ProxyRuns.Dies) == Shown()
    ensures ProxyRuns.Next(PORTS, Shown(), ProxyRuns.PowerLoss(0)) == Returned()
  {
    BothAreValid();
    BothAreOpened();
    RenamesOnly(PORTS, LiveView(), DeadView());
    Rereads(PORTS, LiveView(), DeadView(), AfterRestart(DeadView()));
    Returns(PORTS, LiveView(), DeadView(), AfterRestart(DeadView()), AfterRestart(LiveView()));
  }

  lemma TwoEvents(p: ProxyRuns.Proxy, a: ProxyRuns.Event, b: ProxyRuns.Event)
    ensures ProxyRuns.RunProxy(PORTS, p, [a, b]) == ProxyRuns.Next(PORTS, ProxyRuns.Next(PORTS, p, a), b)
  {
    assert [a, b][1..] == [b] && [b][1..] == [];
    var q := ProxyRuns.Next(PORTS, p, a);
    assert ProxyRuns.RunProxy(PORTS, q, [b]) == ProxyRuns.RunProxy(PORTS, ProxyRuns.Next(PORTS, q, b), []);
  }

  lemma StaysGone()
    ensures ADDRESS in ProxyRuns.Gone(Shown().current)
  {
    WhatIsShown();
    BothAreValid();
    ProxyRuns.RestartStaysValid(PORTS, DeadView());
    ProxyRuns.GoneStays(Some(DeadView()), Shown().current);
  }

  lemma NotGone()
    ensures ADDRESS !in ProxyRuns.Gone(Some(AfterRestart(LiveView())))
  {
    var s := AfterRestart(LiveView());
    assert s.owners[OWNER].snapshot == SnapshotAt(2, false);
    forall o | o in s.owners ensures ProxyRuns.OwnerGone(s.owners[o].snapshot.records) == {} {
    }
  }

  /**
   A view in which the record is deleted is renamed into the cache but not synced, and the
   process dies. The next one shows it deleted; then the power fails, and it is a target.
   */
  lemma DeletionReturns()
    ensures ProxyRuns.ProxyInv(PORTS, Cached())
    ensures var events := [ProxyRuns.Offer(DeadView(), ProxyRuns.FailedAfterRename), ProxyRuns.Dies];
            var p := ProxyRuns.RunProxy(PORTS, Cached(), events);
            var q := ProxyRuns.Next(PORTS, p, ProxyRuns.PowerLoss(0));
            && ADDRESS in ProxyRuns.Gone(p.current)
            && q.current.Some? && ADDRESS in ProxyView.Targets(q.current.value, "echo")
            && !ProxyRuns.KeepsDeletions(PORTS, p, ProxyRuns.PowerLoss(0))
  {
    CachedIsInv();
    CacheGoesBack();
    TwoEvents(Cached(), ProxyRuns.Offer(DeadView(), ProxyRuns.FailedAfterRename), ProxyRuns.Dies);
    WhatIsShown();
    StaysGone();
    NotGone();
    KeepsIsOnShown();
  }

  lemma KeepsIsOnShown()
    requires ADDRESS in ProxyRuns.Gone(Shown().current) && ADDRESS !in ProxyRuns.Gone(Returned().current)
    requires ProxyRuns.Next(PORTS, Shown(), ProxyRuns.PowerLoss(0)) == Returned()
    ensures !ProxyRuns.KeepsDeletions(PORTS, Shown(), ProxyRuns.PowerLoss(0))
  {
    ShownIsInv();
    ProxyRuns.DeletionsKeptExactly(PORTS, Shown(), ProxyRuns.PowerLoss(0));
  }

  lemma ShownIsInv()
    ensures ProxyRuns.ProxyInv(PORTS, Shown())
  {
    CachedIsInv();
    CacheGoesBack();
    ProxyRuns.NextKeepsInv(PORTS, Cached(), ProxyRuns.Offer(DeadView(), ProxyRuns.FailedAfterRename));
    ProxyRuns.NextKeepsInv(PORTS, Renamed(), ProxyRuns.Dies);
  }

  /// A first snapshot that only the server refuses

  lemma SecondIncarnationFirst()
    ensures var n := SnapshotAt(2, false).(incarnation := 2);
            && Accept(EMPTY, OWNER, n, PolicyOf(RulesOf(CONFIG), OWNER), 0).Ok?
            && Candidate(CONFIG, EMPTY, Publish(n, TOKEN, 0)) == Err(NotInitial)
  {
    FirstIsAccepted(2, false, 2);
  }
}
