/**
 What holds of every run of the server, whatever dies, fails or loses power: when its
 active states form one chain, what can never be lost, what a rename may replace, and
 that a fence or an acknowledged publication is there to stay.
 */
module ServerRuns {
  import opened Wrappers
  import opened History
  import opened Routing
  import opened Soundness
  import opened Router
  import opened Server

  /// The chain of active states

  function Actives(config: Config, s: Server, events: seq<Event>): (r: seq<State>)
    ensures |r| == |events| + 1 && r[0] == s.active
    decreases |events|
  {
    if events == [] then [s.active] else [s.active] + Actives(config, Next(config, s, events[0]), events[1..])
  }

  ghost predicate Ascending(states: seq<State>) {
    forall i, j :: 0 <= i <= j < |states| ==> StateExtends(states[i], states[j])
  }

  /** No power loss returns a file older than the one that was loaded since the last completed sync. */
  ghost predicate Remembers(s: Server, e: Event) {
    e.PowerLoss? && e.left < s.loaded <= |s.unsynced| ==> StateExtends(FileAt(s, s.loaded), FileAt(s, e.left))
  }

  ghost predicate AlwaysRemembers(config: Config, s: Server, events: seq<Event>)
    decreases |events|
  {
    events == [] || (Remembers(s, events[0]) && AlwaysRemembers(config, Next(config, s, events[0]), events[1..]))
  }

  lemma StaleIsAsOld(a: State, b: State, c: State, d: State)
    requires AfterRestart(a) == AfterRestart(b) && AfterRestart(c) == AfterRestart(d)
    ensures StateExtends(a, c) <==> StateExtends(b, d)
  {
    SameButStale(a, b);
    SameButStale(b, a);
    SameButStale(c, d);
    SameButStale(d, c);
    if StateExtends(a, c) {
      StateExtendsIsTransitive(b, a, c);
      StateExtendsIsTransitive(b, c, d);
    }
    if StateExtends(b, d) {
      StateExtendsIsTransitive(a, b, d);
      StateExtendsIsTransitive(a, d, c);
    }
  }

  /** A file is at or ahead of the active state exactly when a power loss may return it without forgetting. */
  lemma FileIsAheadExactly(config: Config, s: Server, place: nat)
    requires ServerInv(config, s) && place <= |s.unsynced|
    ensures StateExtends(s.active, FileAt(s, place)) <==> Remembers(s, PowerLoss(place))
  {
    if place >= s.loaded {
      FileIsAhead(config, s, place);
    } else {
      StaleIsAsOld(s.active, FileAt(s, s.loaded), FileAt(s, place), FileAt(s, place));
    }
  }

  lemma StartAscendsExactly(config: Config, s: Server, place: nat)
    requires ServerInv(config, s) && place <= |s.unsynced|
    ensures StateExtends(s.active, AfterRestart(FileAt(s, place))) <==> Remembers(s, PowerLoss(place))
  {
    FileIsAheadExactly(config, s, place);
    RestartIsIdempotent(FileAt(s, place));
    StaleIsAsOld(s.active, s.active, FileAt(s, place), AfterRestart(FileAt(s, place)));
  }

  lemma OnlyTheseActivate(config: Config, s: Server, e: Event)
    requires !e.Activates? && !e.Dies? && !e.PowerLoss?
    ensures Next(config, s, e).active == s.active
  {
  }

  lemma StepAscendsExactly(config: Config, s: Server, e: Event)
    requires ServerInv(config, s)
    ensures StateExtends(s.active, Next(config, s, e).active) <==> Remembers(s, e)
  {
    StateExtendsIsReflexive(s.active);
    if e.PowerLoss? {
      if e.left <= |s.unsynced| {
        StartAscendsExactly(config, s, e.left);
      }
    } else if e.Dies? {
      StartAscendsExactly(config, s, |s.unsynced|);
    } else if e.Activates? {
      if s.writer.Synced? {
        ProposalPrecedes(config, Pending(s.active, s.writer.request, s.writer.candidate));
      }
    } else {
      OnlyTheseActivate(config, s, e);
    }
  }

  lemma AscendingSplits(a: State, rest: seq<State>)
    requires |rest| > 0
    ensures Ascending([a] + rest) <==> StateExtends(a, rest[0]) && Ascending(rest)
  {
    var all := [a] + rest;
    if Ascending(all) {
      forall i, j | 0 <= i <= j < |rest| ensures StateExtends(rest[i], rest[j]) {
        assert StateExtends(all[i + 1], all[j + 1]);
      }
      assert StateExtends(all[0], all[1]);
    }
    if StateExtends(a, rest[0]) && Ascending(rest) {
      forall i, j | 0 <= i <= j < |all| ensures StateExtends(all[i], all[j]) {
        if j == 0 {
          StateExtendsIsReflexive(a);
        } else if i == 0 {
          assert StateExtends(rest[0], rest[j - 1]);
          StateExtendsIsTransitive(a, rest[0], rest[j - 1]);
        } else {
          assert StateExtends(rest[i - 1], rest[j - 1]);
        }
      }
    }
  }

  /** The active states of a run form one chain exactly when no power loss of the run forgets what was loaded. */
  lemma {:induction false} ChainIsExact(config: Config, s: Server, events: seq<Event>)
    requires ServerInv(config, s)
    ensures Ascending(Actives(config, s, events)) <==> AlwaysRemembers(config, s, events)
    decreases |events|
  {
    if events == [] {
      StateExtendsIsReflexive(s.active);
    } else {
      var t := Next(config, s, events[0]);
      NextKeepsInv(config, s, events[0]);
      StepAscendsExactly(config, s, events[0]);
      ChainIsExact(config, t, events[1..]);
      AscendingSplits(s.active, Actives(config, t, events[1..]));
    }
  }

  lemma {:induction false} ActivesAreInv(config: Config, s: Server, events: seq<Event>, i: nat)
    requires ServerInv(config, s) && i <= |events|
    ensures Inv(config, Actives(config, s, events)[i])
    decreases |events|
  {
    if 0 < i {
      NextKeepsInv(config, s, events[0]);
      ActivesAreInv(config, Next(config, s, events[0]), events[1..], i - 1);
    }
  }

  /** What a forgetting power loss leaves active, no steps of the atomic router lead to. */
  lemma ForgettingIsNoRun(config: Config, s: Server, e: Event, steps: seq<Step>)
    requires ServerInv(config, s) && !Remembers(s, e)
    ensures Run(config, s.active, steps) != Next(config, s, e).active
  {
    StepAscendsExactly(config, s, e);
    RunKeeps(config, s.active, steps);
  }

  /** Returning the file last loaded, or any later one, forgets nothing. */
  lemma {:induction false} RecallingRemembers(config: Config, s: Server, events: seq<Event>)
    requires AlwaysRecalls(config, s, events)
    ensures AlwaysRemembers(config, s, events)
    decreases |events|
  {
    if events != [] {
      RecallingRemembers(config, Next(config, s, events[0]), events[1..]);
    }
  }

  /**
   Generations tell whether a power loss forgets: a file of a later generation than the
   active one does not, one of an earlier generation does, and the last synced file
   does exactly when a restart has activated a commit since.
   */
  lemma GenerationsTell(config: Config, s: Server, left: nat)
    requires ServerInv(config, s) && left < s.loaded
    ensures s.active.generation < FileAt(s, left).generation ==> Remembers(s, PowerLoss(left))
    ensures s.active.generation > FileAt(s, left).generation ==> !Remembers(s, PowerLoss(left))
    ensures left == 0 ==> (Remembers(s, PowerLoss(left)) <==> s.active.generation == s.disk.generation)
  {
    FileIsAheadExactly(config, s, left);
    if left == 0 {
      if s.active.generation == s.disk.generation {
        SameButStale(s.active, s.disk);
      }
    } else if s.active.generation < FileAt(s, left).generation {
      var p := s.unsynced[left - 1];
      assert EntryOk(config, s, left - 1);
      CandidateAdvances(config, p.base, p.request);
      SameButStale(s.active, p.base);
      ProposalPrecedes(config, p);
      StateExtendsIsTransitive(s.active, p.base, p.candidate);
    }
  }

  /** The files at the end of a run: each may be loaded, and is ahead of the active state unless it forgets. */
  lemma FilesOfARun(config: Config, s: Server, events: seq<Event>, place: nat)
    requires ServerInv(config, s) && place <= |RunServer(config, s, events).unsynced|
    ensures var t := RunServer(config, s, events);
            && Inv(config, FileAt(t, place)) && StateExtends(t.disk, FileAt(t, place))
            && StateExtends(t.active, FileAt(t, |t.unsynced|))
            && (StateExtends(t.active, FileAt(t, place)) <==> Remembers(t, PowerLoss(place)))
  {
    var t := RunServer(config, s, events);
    RunKeepsServer(config, s, events);
    FileIsAhead(config, t, place);
    FileIsAhead(config, t, |t.unsynced|);
    FileIsAheadExactly(config, t, place);
  }

  /// What is never lost

  ghost predicate Floor(floor: State, s: Server) {
    StateExtends(floor, s.disk) && StateExtends(floor, s.active)
  }

  lemma FloorUnderFiles(config: Config, s: Server, floor: State, place: nat)
    requires ServerInv(config, s) && Floor(floor, s) && place <= |s.unsynced|
    ensures StateExtends(floor, FileAt(s, place)) && StateExtends(floor, AfterRestart(FileAt(s, place)))
  {
    FileIsAhead(config, s, place);
    StateExtendsIsTransitive(floor, s.disk, FileAt(s, place));
    RestartPrecedes(config, FileAt(s, place));
    StateExtendsIsTransitive(floor, FileAt(s, place), AfterRestart(FileAt(s, place)));
  }

  lemma FloorStaysOneEvent(config: Config, s: Server, e: Event, floor: State)
    requires ServerInv(config, s) && Floor(floor, s)
    ensures Floor(floor, Next(config, s, e))
  {
    if !s.writer.Idle? {
      ProposalPrecedes(config, Pending(s.active, s.writer.request, s.writer.candidate));
      StateExtendsIsTransitive(floor, s.active, s.writer.candidate);
    }
    match e
    case Dies => FloorUnderFiles(config, s, floor, |s.unsynced|);
    case PowerLoss(left) =>
      if left <= |s.unsynced| {
        FloorUnderFiles(config, s, floor, left);
      }
    case _ =>
  }

  /** What is both synced and active is in every later active state and file, even if power losses forget. */
  lemma {:induction false} FloorStays(config: Config, s: Server, events: seq<Event>, floor: State)
    requires ServerInv(config, s) && Floor(floor, s)
    ensures Floor(floor, RunServer(config, s, events))
    ensures forall place: nat :: place <= |RunServer(config, s, events).unsynced| ==>
              StateExtends(floor, FileAt(RunServer(config, s, events), place))
    decreases |events|
  {
    if events == [] {
      forall place: nat | place <= |s.unsynced| ensures StateExtends(floor, FileAt(s, place)) {
        FloorUnderFiles(config, s, floor, place);
      }
    } else {
      FloorStaysOneEvent(config, s, events[0], floor);
      NextKeepsInv(config, s, events[0]);
      FloorStays(config, Next(config, s, events[0]), events[1..], floor);
    }
  }

  ghost predicate Survives(published: Snapshot, s: State) {
    published.owner in s.owners && SnapshotExtends(published, s.owners[published.owner].snapshot)
  }

  lemma PublishedIsActive(config: Config, s: State, request: Request)
    requires request.Publish? && Candidate(config, s, request).Ok?
    ensures Survives(request.snapshot, Candidate(config, s, request).value)
  {
    var n := request.snapshot;
    AcceptIsAdmits(s, n.owner, n, PolicyOf(RulesOf(config), n.owner), request.now);
    ExtendsIsReflexive(n.records);
  }

  lemma SurvivalPersists(published: Snapshot, s: State, t: State)
    requires Survives(published, s) && StateExtends(s, t)
    ensures Survives(published, t)
  {
    var o := published.owner;
    assert OwnerExtends(s.owners[o], t.owners[o]);
    SnapshotExtendsIsTransitive(published, s.owners[o].snapshot, t.owners[o].snapshot);
  }

  /** An acknowledged publication is in every later active state and in every file, whatever a power loss returns. */
  lemma AcknowledgedSurvives(config: Config, s: Server, events: seq<Event>, place: nat)
    requires ServerInv(config, s) && s.writer.Synced? && s.writer.request.Publish?
    requires place <= |RunServer(config, Next(config, s, Activates), events).unsynced|
    ensures var t := RunServer(config, Next(config, s, Activates), events);
            && Survives(s.writer.request.snapshot, t.active)
            && Survives(s.writer.request.snapshot, FileAt(t, place))
  {
    var published := s.writer.request.snapshot;
    var t := Next(config, s, Activates);
    var u := RunServer(config, t, events);
    PublishedIsActive(config, s.active, s.writer.request);
    NextKeepsInv(config, s, Activates);
    StateExtendsIsReflexive(t.active);
    FloorStays(config, t, events, t.active);
    SurvivalPersists(published, t.active, u.active);
    SurvivalPersists(published, t.active, FileAt(u, place));
  }

  /// Fences

  /** The owner is fenced and stands as it stood. */
  predicate Stands(s: State, owner: string, snapshot: Snapshot, operation: string) {
    owner in s.owners && s.owners[owner].snapshot == snapshot && s.owners[owner].frozenBy == Some(operation)
  }

  predicate Recovers(request: Request, owner: string) {
    request.RecoverOwner? && request.result.owner == owner
  }

  lemma CandidateStands(config: Config, s: State, request: Request, owner: string, n: Snapshot, operation: string)
    requires Stands(s, owner, n, operation) && !Recovers(request, owner) && Candidate(config, s, request).Ok?
    ensures Stands(Candidate(config, s, request).value, owner, n, operation)
  {
    match request
    case Publish(next, _, now) =>
      AcceptIsAdmits(s, next.owner, next, PolicyOf(RulesOf(config), next.owner), now);
    case FreezeOwner(_, _) =>
    case RecoverOwner(taken, next, hash) =>
      CandidateOfRecover(config, s, request);
      if Recorded(s, next.owner, taken) {
        RecordedRecoverChangesNothing(s, taken, next, hash, PolicyOf(RulesOf(config), next.owner));
      } else {
        RecoverUnfolds(s, taken, next, hash, PolicyOf(RulesOf(config), next.owner));
        AcceptIsAdmits(Unfenced(s, next), next.owner, next, PolicyOf(RulesOf(config), next.owner),
                       s.owners[next.owner].reconciledMs);
      }
  }

  predicate AllStand(s: Server, owner: string, n: Snapshot, operation: string) {
    && Stands(s.active, owner, n, operation)
    && (!s.writer.Idle? ==> Stands(s.writer.candidate, owner, n, operation))
    && forall place: nat {:trigger FileAt(s, place)} :: place <= |s.unsynced| ==>
         Stands(FileAt(s, place), owner, n, operation)
  }

  lemma BeginStands(config: Config, s: Server, request: Request, owner: string, n: Snapshot, operation: string)
    requires AllStand(s, owner, n, operation) && !Recovers(request, owner)
    ensures AllStand(Begin(config, s, request), owner, n, operation)
  {
    var t := Begin(config, s, request);
    if Candidate(config, s.active, request).Ok? {
      CandidateStands(config, s.active, request, owner, n, operation);
    }
    SameFilesStand(s, t, owner, n, operation);
  }

  lemma SameFilesStand(s: Server, t: Server, owner: string, n: Snapshot, operation: string)
    requires AllStand(s, owner, n, operation)
    requires t.active == s.active && t.disk == s.disk && t.unsynced == s.unsynced
    requires !t.writer.Idle? ==> Stands(t.writer.candidate, owner, n, operation)
    ensures AllStand(t, owner, n, operation)
  {
    forall place: nat | place <= |t.unsynced| ensures Stands(FileAt(t, place), owner, n, operation) {
      assert FileAt(t, place) == FileAt(s, place);
    }
  }

  lemma FilesStand(config: Config, s: Server, e: Event, owner: string, n: Snapshot, operation: string)
    requires AllStand(s, owner, n, operation) && !e.Authenticate? && !e.Take? && !e.Administer?
    ensures AllStand(Next(config, s, e), owner, n, operation)
  {
    var t := Next(config, s, e);
    assert Stands(FileAt(s, |s.unsynced|), owner, n, operation) && Stands(FileAt(s, 0), owner, n, operation);
    forall place: nat | place <= |t.unsynced| ensures Stands(FileAt(t, place), owner, n, operation) {
      assert place <= |s.unsynced| ==> Stands(FileAt(s, place), owner, n, operation);
    }
  }

  lemma StandsOneEvent(config: Config, s: Server, e: Event, owner: string, n: Snapshot, operation: string)
    requires AllStand(s, owner, n, operation) && (e.Administer? ==> !Recovers(e.request, owner))
    ensures AllStand(Next(config, s, e), owner, n, operation)
  {
    match e
    case Authenticate(_, _) => SameFilesStand(s, Next(config, s, e), owner, n, operation);
    case Take(ticket) =>
      if ticket in s.waiting {
        BeginStands(config, s, s.waiting[ticket], owner, n, operation);
        SameFilesStand(Begin(config, s, s.waiting[ticket]), Next(config, s, e), owner, n, operation);
      }
    case Administer(request) => BeginStands(config, s, request, owner, n, operation);
    case _ => FilesStand(config, s, e, owner, n, operation);
  }

  lemma {:induction false} AllStandStays(config: Config, s: Server, events: seq<Event>, owner: string, n: Snapshot,
                                         operation: string)
    requires AllStand(s, owner, n, operation)
    requires forall k :: 0 <= k < |events| && events[k].Administer? ==> !Recovers(events[k].request, owner)
    ensures AllStand(RunServer(config, s, events), owner, n, operation)
    decreases |events|
  {
    if events != [] {
      StandsOneEvent(config, s, events[0], owner, n, operation);
      AllStandStays(config, Next(config, s, events[0]), events[1..], owner, n, operation);
    }
  }

  lemma FreezeStands(config: Config, s: State, owner: string, operation: string)
    requires Candidate(config, s, FreezeOwner(owner, operation)).Ok? && !Recorded(s, owner, operation)
    ensures owner in s.owners
    ensures Stands(Candidate(config, s, FreezeOwner(owner, operation)).value,
                   owner, s.owners[owner].snapshot, operation)
  {
    CandidateOfFreeze(config, s, FreezeOwner(owner, operation));
  }

  /** A server that has just activated what it synced. */
  function Activated(file: State, waiting: map<nat, Publication>): Server {
    Server(file, file, [], 0, Idle, waiting)
  }

  lemma ActivationIs(config: Config, s: Server)
    requires ServerInv(config, s) && s.writer.Synced?
    ensures Next(config, s, Activates) == Activated(s.writer.candidate, s.waiting)
    ensures Candidate(config, s.active, s.writer.request) == Ok(s.writer.candidate)
  {
  }

  lemma FencedRun(config: Config, file: State, waiting: map<nat, Publication>, owner: string, n: Snapshot,
                  operation: string, events: seq<Event>)
    requires Stands(file, owner, n, operation)
    requires forall k :: 0 <= k < |events| && events[k].Administer? ==> !Recovers(events[k].request, owner)
    ensures AllStand(RunServer(config, Activated(file, waiting), events), owner, n, operation)
  {
    assert AllStand(Activated(file, waiting), owner, n, operation);
    AllStandStays(config, Activated(file, waiting), events, owner, n, operation);
  }

  /**
   An acknowledged fence holds: until an administrator asks for a recovery of that owner,
   its snapshot stays as it was fenced in every active state and every file, through
   late publications, deaths and power losses.
   */
  lemma FenceHolds(config: Config, s: Server, operation: string, owner: string, events: seq<Event>)
    requires ServerInv(config, s) && s.writer.Synced? && s.writer.request == FreezeOwner(owner, operation)
    requires !Recorded(s.active, owner, operation)
    requires forall k :: 0 <= k < |events| && events[k].Administer? ==> !Recovers(events[k].request, owner)
    ensures owner in s.active.owners
    ensures AllStand(RunServer(config, Next(config, s, Activates), events),
                     owner, s.active.owners[owner].snapshot, operation)
  {
    ActivationIs(config, s);
    FreezeStands(config, s.active, owner, operation);
    FencedRun(config, s.writer.candidate, s.waiting, owner, s.active.owners[owner].snapshot, operation, events);
  }

  /** The publisher's credential was in force, and its owner not fenced, on the state the candidate was made from. */
  predicate Permitted(config: Config, p: Pending) {
    p.request.Publish? ==>
      var owner := p.request.snapshot.owner;
      && owner in config && p.request.presented == CurrentHash(config, p.base, owner)
      && (owner in p.base.owners ==> p.base.owners[owner].frozenBy.None?)
  }

  lemma ProposedIsPermitted(config: Config, p: Pending)
    requires Proposed(config, p)
    ensures Permitted(config, p)
  {
    if p.request.Publish? {
      var n := p.request.snapshot;
      AcceptIsAdmits(p.base, n.owner, n, PolicyOf(RulesOf(config), n.owner), p.request.now);
    }
  }

  lemma {:induction false} BasesWereActive(config: Config, s: Server, events: seq<Event>, p: Pending)
    requires p in RunServer(config, s, events).unsynced
    ensures p in s.unsynced || p.base in Actives(config, s, events)
    decreases |events|
  {
    if events != [] {
      BasesWereActive(config, Next(config, s, events[0]), events[1..], p);
    }
  }

  /**
   Whatever a publisher proved when it authenticated, its candidate is only ever written
   or renamed on an active state of the run where its credential is the one in force and
   its owner is not fenced. For the writer, and for each file renamed since the last
   start, that is the state still active.
   */
  lemma NoFencedPublishCommits(config: Config, events: seq<Event>, place: nat)
    requires 0 < place <= |RunServer(config, FRESH, events).unsynced|
    ensures var t := RunServer(config, FRESH, events);
            var p := t.unsynced[place - 1];
            && Permitted(config, p) && p.base in Actives(config, FRESH, events)
            && (t.loaded < place ==> p.base == t.active)
  {
    var t := RunServer(config, FRESH, events);
    FreshIsInv(config);
    RunKeepsServer(config, FRESH, events);
    assert EntryOk(config, t, place - 1);
    ProposedIsPermitted(config, t.unsynced[place - 1]);
    BasesWereActive(config, FRESH, events, t.unsynced[place - 1]);
  }

  lemma WriterIsPermitted(config: Config, events: seq<Event>)
    ensures var t := RunServer(config, FRESH, events);
            !t.writer.Idle? ==> Permitted(config, Pending(t.active, t.writer.request, t.writer.candidate))
  {
    var t := RunServer(config, FRESH, events);
    FreshIsInv(config);
    RunKeepsServer(config, FRESH, events);
    if !t.writer.Idle? {
      ProposedIsPermitted(config, Pending(t.active, t.writer.request, t.writer.candidate));
    }
  }

  /** The publisher proved the credential in force in that state. */
  predicate Authentic(config: Config, s: State, p: Publication) {
    p.snapshot.owner in config && p.presented == CurrentHash(config, s, p.snapshot.owner)
  }

  ghost predicate WasAuthentic(config: Config, actives: seq<State>, p: Publication) {
    exists a :: a in actives && Authentic(config, a, p)
  }

  lemma OneEventAuthenticates(config: Config, s: Server, e: Event, ticket: nat)
    requires ticket in Next(config, s, e).waiting
    ensures var p := Next(config, s, e).waiting[ticket];
            (ticket in s.waiting && s.waiting[ticket] == p) || Authentic(config, s.active, p)
  {
  }

  /** A publication waits for the writer only if its credential was the one in force in some active state. */
  lemma {:induction false} WaitingWasAuthentic(config: Config, s: Server, events: seq<Event>, ticket: nat)
    requires ticket in RunServer(config, s, events).waiting
    ensures var p := RunServer(config, s, events).waiting[ticket];
            (ticket in s.waiting && s.waiting[ticket] == p) || WasAuthentic(config, Actives(config, s, events), p)
    decreases |events|
  {
    if events != [] {
      var t := Next(config, s, events[0]);
      var p := RunServer(config, s, events).waiting[ticket];
      var rest := Actives(config, t, events[1..]);
      WaitingWasAuthentic(config, t, events[1..], ticket);
      assert Actives(config, s, events) == [s.active] + rest;
      if WasAuthentic(config, rest, p) {
        var a :| a in rest && Authentic(config, a, p);
        assert a in [s.active] + rest;
      } else {
        OneEventAuthenticates(config, s, events[0], ticket);
        assert s.active in [s.active] + rest;
      }
    }
  }

  /// A request that nothing disturbs

  lemma RunFirst(config: Config, s: Server, e: Event, rest: seq<Event>)
    ensures RunServer(config, s, [e] + rest) == RunServer(config, Next(config, s, e), rest)
  {
    assert ([e] + rest)[1..] == rest;
  }

  const SAVE := [Renames, Syncs, Activates]

  /** A save to the end makes the candidate active, and the only file. */
  lemma SaveGoesThrough(config: Config, s: Server, request: Request, candidate: State)
    requires s.writer == Writing(request, candidate)
    ensures RunServer(config, s, SAVE)
         == s.(active := candidate, disk := candidate, unsynced := [], loaded := 0, writer := Idle)
  {
    assert SAVE == [Renames] + ([Syncs] + ([Activates] + []));
    var t := Next(config, s, Renames);
    var u := Next(config, t, Syncs);
    RunFirst(config, s, Renames, [Syncs] + ([Activates] + []));
    RunFirst(config, t, Syncs, [Activates] + []);
    RunFirst(config, u, Activates, []);
  }

  lemma NothingToSave(config: Config, s: Server)
    requires s.writer.Idle?
    ensures RunServer(config, s, SAVE) == s
  {
    assert SAVE == [Renames] + ([Syncs] + ([Activates] + []));
    RunFirst(config, s, Renames, [Syncs] + ([Activates] + []));
    RunFirst(config, s, Syncs, [Activates] + []);
    RunFirst(config, s, Activates, []);
  }

  lemma TakesOrNot(config: Config, s: Server, ticket: nat, p: Publication)
    requires s.writer.Idle? && ticket !in s.waiting
    ensures var r := Candidate(config, s.active, p);
            Next(config, Next(config, s, Authenticate(ticket, p)), Take(ticket))
            == if r.Ok? then s.(writer := Writing(p, r.value)) else s
  {
    assert s.waiting[ticket := p] - {ticket} == s.waiting;
  }

  /**
   A publication that meets an idle writer and a save that works is committed exactly if the
   router takes it, and leaves the server as it was otherwise.
   */
  lemma UndisturbedPublication(config: Config, s: Server, ticket: nat, p: Publication)
    requires s.writer.Idle? && ticket !in s.waiting
    ensures var r := Candidate(config, s.active, p);
            RunServer(config, s, [Authenticate(ticket, p), Take(ticket)] + SAVE)
            == if r.Ok? then s.(active := r.value, disk := r.value, unsynced := [], loaded := 0) else s
  {
    var (a, b) := (Authenticate(ticket, p), Take(ticket));
    assert [a, b] + SAVE == [a] + ([b] + SAVE);
    RunFirst(config, s, a, [b] + SAVE);
    RunFirst(config, Next(config, s, a), b, SAVE);
    TakesOrNot(config, s, ticket, p);
    var r := Candidate(config, s.active, p);
    if r.Ok? {
      SaveGoesThrough(config, s.(writer := Writing(p, r.value)), p, r.value);
    } else {
      NothingToSave(config, s);
    }
  }

  /** So is an administrator's request for a fence or a recovery. */
  lemma UndisturbedRequest(config: Config, s: Server, request: Request)
    requires s.writer.Idle? && !request.Publish?
    ensures var r := Candidate(config, s.active, request);
            RunServer(config, s, [Administer(request)] + SAVE)
            == if r.Ok? then s.(active := r.value, disk := r.value, unsynced := [], loaded := 0) else s
  {
    var r := Candidate(config, s.active, request);
    RunFirst(config, s, Administer(request), SAVE);
    if r.Ok? {
      SaveGoesThrough(config, s.(writer := Writing(request, r.value)), request, r.value);
    } else {
      NothingToSave(config, s);
    }
  }

  /// What a start demands, from the first start on

  /** What a restart demands of the file: the size check of `load`, and the validation in `main`. */
  ghost predicate Loadable(config: Config, file: State) {
    StateSize(file) <= VIEW_LIMIT && MetadataOk(file) && Sound(file, RulesOf(config))
  }

  /** Under an unchanged configuration the server never refuses to start on a file it left behind. */
  lemma AlwaysLoadable(config: Config, s: Server, events: seq<Event>, place: nat)
    requires ServerInv(config, s) && place <= |RunServer(config, s, events).unsynced|
    ensures Loadable(config, FileAt(RunServer(config, s, events), place))
  {
    var t := RunServer(config, s, events);
    RunKeepsServer(config, s, events);
    FileIsAhead(config, t, place);
    SoundStateIsBounded(FileAt(t, place), RulesOf(config));
  }

  /**
   A server that began on no file: at any moment it could start again on any file it may
   find, and as long as power losses return the file last loaded or a later one, it is
   where the atomic router gets by the matching steps, on one chain.
   */
  lemma FromTheFirstStart(config: Config, events: seq<Event>, place: nat)
    requires place <= |RunServer(config, FRESH, events).unsynced|
    ensures Loadable(config, FileAt(RunServer(config, FRESH, events), place))
    ensures AlwaysRecalls(config, FRESH, events) ==>
              && RunServer(config, FRESH, events).active == Run(config, EMPTY, Trace(config, FRESH, events))
              && Ascending(Actives(config, FRESH, events))
  {
    FreshIsInv(config);
    AlwaysLoadable(config, FRESH, events, place);
    if AlwaysRecalls(config, FRESH, events) {
      ServerRefinesRouter(config, FRESH, events);
      RecallingRemembers(config, FRESH, events);
      ChainIsExact(config, FRESH, events);
    }
  }

  /// What a rename replaces

  /** The snapshot a request puts in place, if it puts one. */
  function Brings(s: State, request: Request): Option<Snapshot> {
    match request
    case Publish(snapshot, _, _) => Some(snapshot)
    case FreezeOwner(_, _) => None
    case RecoverOwner(_, result, _) => if NothingNew(s, request) then None else Some(result)
  }

  /** The snapshot an owner has once a request is taken. */
  function Leaves(s: State, request: Request, owner: string): Option<Snapshot> {
    var brought := Brings(s, request);
    if brought.Some? && brought.value.owner == owner then brought
    else if owner in s.owners then Some(s.owners[owner].snapshot)
    else None
  }

  /**
   Nothing of an unsynced file is missing once the request is taken: its commit is not
   ahead in number, and the snapshot it put in place is extended.
   */
  predicate Carries(s: State, request: Request, p: Pending) {
    && (p.base.generation < s.generation || NothingNew(p.base, p.request) || !NothingNew(s, request))
    && (Brings(p.base, p.request).Some? ==>
          var brought := Brings(p.base, p.request).value;
          var left := Leaves(s, request, brought.owner);
          left.Some? && SnapshotExtends(brought, left.value))
  }

  lemma CandidateLeaves(config: Config, s: State, request: Request, o: string)
    requires Candidate(config, s, request).Ok?
    ensures var t := Candidate(config, s, request).value;
            && (o in t.owners <==> Leaves(s, request, o).Some?)
            && (o in t.owners ==> t.owners[o].snapshot == Leaves(s, request, o).value)
            && (o in t.owners && t.owners[o].credentialHash.Some? && !Recovers(request, o) ==>
                  o in s.owners && s.owners[o].credentialHash.Some?)
            && (o in t.owners && t.owners[o].recovery.Some? && !Recovers(request, o) ==>
                  o in s.owners && s.owners[o].recovery.Some?)
  {
    match request
    case Publish(n, _, now) =>
      AcceptIsAdmits(s, n.owner, n, PolicyOf(RulesOf(config), n.owner), now);
    case FreezeOwner(_, _) =>
    case RecoverOwner(operation, result, hash) =>
      CandidateOfRecover(config, s, request);
      if Recorded(s, result.owner, operation) {
        RecordedRecoverChangesNothing(s, operation, result, hash, PolicyOf(RulesOf(config), result.owner));
      } else {
        RecoverUnfolds(s, operation, result, hash, PolicyOf(RulesOf(config), result.owner));
        AcceptIsAdmits(Unfenced(s, result), result.owner, result, PolicyOf(RulesOf(config), result.owner),
                       s.owners[result.owner].reconciledMs);
      }
  }

  lemma RecoveredIncarnation(config: Config, s: State, request: Request)
    requires Inv(config, s) && request.RecoverOwner? && !NothingNew(s, request) && Candidate(config, s, request).Ok?
    ensures 1 < request.result.incarnation
  {
    CandidateOfRecover(config, s, request);
    RecoverUnfolds(s, request.operation, request.result, request.credentialHash,
                   PolicyOf(RulesOf(config), request.result.owner));
    PositiveIncarnations(s, RulesOf(config));
  }

  lemma FencesArePresent(config: Config, p: Pending, t: State, o: string)
    requires Proposed(config, p) && Inv(config, t) && StateExtends(p.base, t)
    requires o in p.candidate.owners && o in t.owners
    requires SnapshotExtends(p.candidate.owners[o].snapshot, t.owners[o].snapshot)
    ensures OwnerExtends(p.candidate.owners[o], t.owners[o])
  {
    CandidateLeaves(config, p.base, p.request, o);
    if Recovers(p.request, o) && !NothingNew(p.base, p.request) {
      RecoveredIncarnation(config, p.base, p.request);
      assert OwnerMetadataOk(o, t.owners[o]);
    } else {
      CandidateAdvances(config, p.base, p.request);
      assert o in p.base.owners ==> OwnerExtends(p.base.owners[o], t.owners[o]);
    }
  }

  lemma OwnerIsCarried(config: Config, p: Pending, s: State, request: Request, o: string)
    requires Proposed(config, p) && Inv(config, s) && StateExtends(p.base, s)
    requires Candidate(config, s, request).Ok? && Carries(s, request, p) && o in p.candidate.owners
    ensures var t := Candidate(config, s, request).value;
            o in t.owners && OwnerExtends(p.candidate.owners[o], t.owners[o])
  {
    var t := Candidate(config, s, request).value;
    CandidateKeeps(config, s, request);
    StateExtendsIsTransitive(p.base, s, t);
    CandidateLeaves(config, p.base, p.request, o);
    CandidateLeaves(config, s, request, o);
    var brought := Brings(p.base, p.request);
    if brought.None? || brought.value.owner != o {
      assert OwnerExtends(p.base.owners[o], t.owners[o]);
    }
    FencesArePresent(config, p, t, o);
  }

  /** A candidate extends an unsynced file exactly when its request carries what that file's request brought. */
  lemma CarriesIsExact(config: Config, p: Pending, s: State, request: Request)
    requires Proposed(config, p) && Inv(config, s) && Precedes(p.base, s) && Candidate(config, s, request).Ok?
    ensures StateExtends(p.candidate, Candidate(config, s, request).value) <==> Carries(s, request, p)
  {
    var t := Candidate(config, s, request).value;
    CandidateAdvances(config, p.base, p.request);
    CandidateAdvances(config, s, request);
    if Carries(s, request, p) {
      forall o | o in p.candidate.owners
        ensures o in t.owners && OwnerExtends(p.candidate.owners[o], t.owners[o])
      {
        OwnerIsCarried(config, p, s, request, o);
      }
    }
    if StateExtends(p.candidate, t) && Brings(p.base, p.request).Some? {
      var o := Brings(p.base, p.request).value.owner;
      CandidateLeaves(config, p.base, p.request, o);
      CandidateLeaves(config, s, request, o);
      assert OwnerExtends(p.candidate.owners[o], t.owners[o]);
    }
  }

  /**
   A rename puts a candidate over whatever file was there. It is never older than the file
   last synced; it is no older than every file a power loss may return exactly when the
   request carries each one renamed since, which can be told before the rename.
   */
  lemma RenameRises(config: Config, s: Server)
    requires ServerInv(config, s) && s.writer.Writing?
    ensures StateExtends(s.disk, s.writer.candidate)
    ensures (forall place: nat :: place <= |s.unsynced| ==> StateExtends(FileAt(s, place), s.writer.candidate)) <==>
            (forall i :: 0 <= i < |s.unsynced| ==> Carries(s.active, s.writer.request, s.unsynced[i]))
  {
    ProposalPrecedes(config, Pending(s.active, s.writer.request, s.writer.candidate));
    StateExtendsIsTransitive(s.disk, s.active, s.writer.candidate);
    forall i | 0 <= i < |s.unsynced|
      ensures StateExtends(FileAt(s, i + 1), s.writer.candidate) <==>
              Carries(s.active, s.writer.request, s.unsynced[i])
    {
      assert EntryOk(config, s, i);
      CarriesIsExact(config, s.unsynced[i], s.active, s.writer.request);
    }
  }
}
