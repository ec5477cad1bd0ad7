/**
 The router as it runs: authentication before the writer lock, a file written and
 renamed before the candidate is activated, the process dying and the power failing
 at any point. A process that comes back reads the file last renamed, whether or not
 its directory was synced; a power loss may put back any file since the last sync.
 */
module Server {
  import opened Wrappers
  import opened History
  import opened Routing
  import opened Soundness
  import opened Router

  /** A file that was renamed into place: the active state it was proposed on, and by which request. */
  datatype Pending = Pending(base: State, request: Request, candidate: State)

  type Publication = r: Request | r.Publish? witness Publish(Snapshot(1, "", 1, 1, map[]), "", 0)

  /** The holder of the writer lock, and how far its save has come. */
  datatype Writer =
    | Idle
    | Writing(request: Request, candidate: State)
    | Renamed(request: Request, candidate: State)
    | Synced(request: Request, candidate: State)

  /**
   `disk` is the file of the last completed directory sync, `unsynced` are the files
   renamed over it since, in order. The last restart read the file at place `loaded`.
   */
  datatype Server = Server(
    active: State, disk: State, unsynced: seq<Pending>, loaded: nat, writer: Writer, waiting: map<nat, Publication>)

  datatype Event =
    | Authenticate(ticket: nat, publication: Publication)
    | Take(ticket: nat)
    | Administer(request: Request)
    | SaveFails
    | Renames
    | SyncFails
    | Syncs
    | Activates
    | Dies
    | PowerLoss(left: nat)

  /** The files since the last sync: place 0 is the synced one, the last place is the one a process reads. */
  function FileAt(s: Server, place: nat): State
    requires place <= |s.unsynced|
  {
    if place == 0 then s.disk else s.unsynced[place - 1].candidate
  }

  function Begin(config: Config, s: Server, request: Request): Server {
    var r := Candidate(config, s.active, request);
    if s.writer.Idle? && r.Ok? then s.(writer := Writing(request, r.value)) else s
  }

  /** One event; an event that is not possible leaves the server as it is. */
  function Next(config: Config, s: Server, e: Event): Server {
    match e
    case Authenticate(ticket, publication) =>
      if && ticket !in s.waiting && publication.snapshot.owner in config
         && publication.presented == CurrentHash(config, s.active, publication.snapshot.owner)
      then s.(waiting := s.waiting[ticket := publication]) else s
    case Take(ticket) =>
      if ticket in s.waiting then
        Begin(config, s, s.waiting[ticket]).(waiting := s.waiting - {ticket})
      else s
    case Administer(request) =>
      if request.Publish? then s else Begin(config, s, request)
    case SaveFails =>
      if s.writer.Writing? then s.(writer := Idle) else s
    case Renames =>
      if s.writer.Writing? then
        s.(writer := Renamed(s.writer.request, s.writer.candidate),
           unsynced := s.unsynced + [Pending(s.active, s.writer.request, s.writer.candidate)])
      else s
    case SyncFails =>
      if s.writer.Renamed? then s.(writer := Idle) else s
    case Syncs =>
      if s.writer.Renamed? then
        s.(writer := Synced(s.writer.request, s.writer.candidate),
           disk := s.writer.candidate, unsynced := [], loaded := 0)
      else s
    case Activates =>
      if s.writer.Synced? then s.(writer := Idle, active := s.writer.candidate) else s
    case Dies =>
      var last := |s.unsynced|;
      Server(AfterRestart(FileAt(s, last)), s.disk, s.unsynced, last, Idle, map[])
    case PowerLoss(left) =>
      if left <= |s.unsynced| then
        Server(AfterRestart(FileAt(s, left)), FileAt(s, left), [], 0, Idle, map[])
      else s
  }

  function RunServer(config: Config, s: Server, events: seq<Event>): Server
    decreases |events|
  {
    if events == [] then s else RunServer(config, Next(config, s, events[0]), events[1..])
  }

  /** A server started on no file. */
  const FRESH := Server(EMPTY, EMPTY, [], 0, Idle, map[])

  /// The invariant

  /** The order on histories, where only a commit makes a difference and every commit counts. */
  ghost predicate Precedes(a: State, b: State) {
    StateExtends(a, b) && (a.generation == b.generation ==> AfterRestart(a) == AfterRestart(b))
  }

  ghost predicate Proposed(config: Config, p: Pending) {
    Inv(config, p.base) && Candidate(config, p.base, p.request) == Ok(p.candidate)
  }

  ghost predicate EntryOk(config: Config, s: Server, i: nat)
    requires i < |s.unsynced|
  {
    var p := s.unsynced[i];
    && Proposed(config, p)
    && Precedes(s.disk, p.base)
    && Precedes(p.base, s.active)
    && (s.loaded <= i ==> p.base == s.active)
  }

  ghost predicate LogOk(config: Config, s: Server) {
    && s.loaded <= |s.unsynced|
    && forall i {:trigger EntryOk(config, s, i)} :: 0 <= i < |s.unsynced| ==> EntryOk(config, s, i)
  }

  /** What was last loaded and what is active differ in staleness only, or the file is one candidate ahead. */
  ghost predicate DiskOk(s: Server)
    requires s.loaded <= |s.unsynced|
  {
    if s.writer.Synced? then s.disk == s.writer.candidate && s.unsynced == []
    else Precedes(s.disk, s.active) && AfterRestart(FileAt(s, s.loaded)) == AfterRestart(s.active)
  }

  ghost predicate WriterOk(config: Config, s: Server) {
    && (!s.writer.Idle? ==> Proposed(config, Pending(s.active, s.writer.request, s.writer.candidate)))
    && (s.writer.Renamed? ==>
          && s.loaded < |s.unsynced|
          && s.unsynced[|s.unsynced| - 1] == Pending(s.active, s.writer.request, s.writer.candidate))
  }

  ghost predicate ServerInv(config: Config, s: Server) {
    Inv(config, s.active) && Inv(config, s.disk) && LogOk(config, s) && DiskOk(s) && WriterOk(config, s)
  }

  lemma PrecedesIsTransitive(a: State, b: State, c: State)
    requires Precedes(a, b) && Precedes(b, c)
    ensures Precedes(a, c)
  {
    StateExtendsIsTransitive(a, b, c);
  }

  lemma SameButStale(a: State, b: State)
    requires AfterRestart(a) == AfterRestart(b)
    ensures Precedes(a, b)
  {
    StateExtendsIsReflexive(a);
    assert a.owners.Keys == AfterRestart(a).owners.Keys == b.owners.Keys;
    forall o | o in a.owners ensures OwnerExtends(a.owners[o], b.owners[o]) {
      assert AfterRestart(a).owners[o] == AfterRestart(b).owners[o];
    }
  }

  lemma RestartIsIdempotent(s: State)
    ensures AfterRestart(AfterRestart(s)) == AfterRestart(s)
  {
    assert AfterRestart(AfterRestart(s)).owners == AfterRestart(s).owners;
  }

  lemma RestartPrecedes(config: Config, s: State)
    requires Inv(config, s)
    ensures Inv(config, AfterRestart(s)) && Precedes(s, AfterRestart(s))
  {
    RestartKeepsInv(config, s);
    RestartIsIdempotent(s);
    SameButStale(s, AfterRestart(s));
  }

  lemma ProposalPrecedes(config: Config, p: Pending)
    requires Proposed(config, p)
    ensures Inv(config, p.candidate) && Precedes(p.base, p.candidate)
  {
    CandidateKeeps(config, p.base, p.request);
    CandidateAdvances(config, p.base, p.request);
  }

  /** Every file may be loaded and is no older than the synced one; one renamed since the last start is no older
      than the active state either. */
  lemma FileIsAhead(config: Config, s: Server, place: nat)
    requires ServerInv(config, s) && place <= |s.unsynced|
    ensures Inv(config, FileAt(s, place)) && Precedes(s.disk, FileAt(s, place))
    ensures s.loaded <= place ==> Precedes(s.active, FileAt(s, place))
  {
    SameButStale(s.disk, s.disk);
    if place > 0 {
      var p := s.unsynced[place - 1];
      assert EntryOk(config, s, place - 1);
      ProposalPrecedes(config, p);
      PrecedesIsTransitive(s.disk, p.base, p.candidate);
    }
    if s.writer.Synced? {
      ProposalPrecedes(config, Pending(s.active, s.writer.request, s.writer.candidate));
    } else {
      SameButStale(s.active, FileAt(s, s.loaded));
    }
  }

  lemma RestartKeepsLog(config: Config, s: Server, t: Server)
    requires LogOk(config, s) && Precedes(s.active, t.active)
    requires t.disk == s.disk && t.unsynced == s.unsynced && t.loaded == |t.unsynced|
    ensures LogOk(config, t)
  {
    forall i | 0 <= i < |t.unsynced| ensures EntryOk(config, t, i) {
      assert EntryOk(config, s, i);
      PrecedesIsTransitive(s.unsynced[i].base, s.active, t.active);
    }
  }

  lemma DeathKeepsInv(config: Config, s: Server)
    requires ServerInv(config, s)
    ensures ServerInv(config, Next(config, s, Dies))
  {
    var file := FileAt(s, |s.unsynced|);
    FileIsAhead(config, s, |s.unsynced|);
    RestartPrecedes(config, file);
    RestartIsIdempotent(file);
    PrecedesIsTransitive(s.active, file, AfterRestart(file));
    PrecedesIsTransitive(s.disk, file, AfterRestart(file));
    RestartKeepsLog(config, s, Next(config, s, Dies));
  }

  lemma PowerLossKeepsInv(config: Config, s: Server, left: nat)
    requires ServerInv(config, s)
    ensures ServerInv(config, Next(config, s, PowerLoss(left)))
  {
    if left <= |s.unsynced| {
      FileIsAhead(config, s, left);
      RestartPrecedes(config, FileAt(s, left));
      RestartIsIdempotent(FileAt(s, left));
    }
  }

  lemma SameLogIsOk(config: Config, s: Server, t: Server)
    requires LogOk(config, s)
    requires t.active == s.active && t.disk == s.disk && t.unsynced == s.unsynced && t.loaded == s.loaded
    ensures LogOk(config, t)
  {
    forall i | 0 <= i < |t.unsynced| ensures EntryOk(config, t, i) {
      assert EntryOk(config, s, i);
    }
  }

  lemma BeginKeepsInv(config: Config, s: Server, request: Request)
    requires ServerInv(config, s)
    ensures ServerInv(config, Begin(config, s, request))
  {
    SameLogIsOk(config, s, Begin(config, s, request));
  }

  lemma RenameKeepsInv(config: Config, s: Server)
    requires ServerInv(config, s)
    ensures ServerInv(config, Next(config, s, Renames))
  {
    if s.writer.Writing? {
      var t := Next(config, s, Renames);
      SameButStale(s.active, s.active);
      forall i | 0 <= i < |t.unsynced| ensures EntryOk(config, t, i) {
        if i < |s.unsynced| {
          assert EntryOk(config, s, i);
        }
      }
      assert FileAt(t, t.loaded) == FileAt(s, s.loaded);
    }
  }

  lemma SyncKeepsInv(config: Config, s: Server)
    requires ServerInv(config, s)
    ensures ServerInv(config, Next(config, s, Syncs))
  {
    if s.writer.Renamed? {
      ProposalPrecedes(config, Pending(s.active, s.writer.request, s.writer.candidate));
    }
  }

  lemma ActivateKeepsInv(config: Config, s: Server)
    requires ServerInv(config, s)
    ensures ServerInv(config, Next(config, s, Activates))
  {
    if s.writer.Synced? {
      ProposalPrecedes(config, Pending(s.active, s.writer.request, s.writer.candidate));
      SameButStale(s.disk, s.disk);
    }
  }

  lemma FailureKeepsInv(config: Config, s: Server, e: Event)
    requires ServerInv(config, s) && (e.SaveFails? || e.SyncFails?)
    ensures ServerInv(config, Next(config, s, e))
  {
    SameLogIsOk(config, s, Next(config, s, e));
  }

  lemma WaitingIsFree(config: Config, s: Server, waiting: map<nat, Publication>)
    requires ServerInv(config, s)
    ensures ServerInv(config, s.(waiting := waiting))
  {
    SameLogIsOk(config, s, s.(waiting := waiting));
  }

  lemma NextKeepsInv(config: Config, s: Server, e: Event)
    requires ServerInv(config, s)
    ensures ServerInv(config, Next(config, s, e))
  {
    match e
    case Authenticate(ticket, publication) =>
      WaitingIsFree(config, s, s.waiting[ticket := publication]);
    case Take(ticket) =>
      if ticket in s.waiting {
        BeginKeepsInv(config, s, s.waiting[ticket]);
        WaitingIsFree(config, Begin(config, s, s.waiting[ticket]), s.waiting - {ticket});
      }
    case Administer(request) => BeginKeepsInv(config, s, request);
    case SaveFails => FailureKeepsInv(config, s, e);
    case Renames => RenameKeepsInv(config, s);
    case SyncFails => FailureKeepsInv(config, s, e);
    case Syncs => SyncKeepsInv(config, s);
    case Activates => ActivateKeepsInv(config, s);
    case Dies => DeathKeepsInv(config, s);
    case PowerLoss(left) => PowerLossKeepsInv(config, s, left);
  }

  lemma {:induction false} RunKeepsServer(config: Config, s: Server, events: seq<Event>)
    requires ServerInv(config, s)
    ensures ServerInv(config, RunServer(config, s, events))
    decreases |events|
  {
    if events != [] {
      NextKeepsInv(config, s, events[0]);
      RunKeepsServer(config, Next(config, s, events[0]), events[1..]);
    }
  }

  lemma FreshIsInv(config: Config)
    ensures ServerInv(config, FRESH)
  {
    EmptyIsInv(config);
    SameButStale(EMPTY, EMPTY);
  }

  /// Refinement of the atomic router

  /** A power loss that returns the file read by the last start, or a later one. */
  predicate Recalls(s: Server, e: Event) {
    e.PowerLoss? && e.left <= |s.unsynced| ==> s.loaded <= e.left
  }

  predicate AlwaysRecalls(config: Config, s: Server, events: seq<Event>)
    decreases |events|
  {
    events == [] || (Recalls(s, events[0]) && AlwaysRecalls(config, Next(config, s, events[0]), events[1..]))
  }

  /** The atomic steps a start amounts to: a candidate found in the file was committed after all. */
  function StartSteps(s: Server, place: nat): seq<Step>
    requires place <= |s.unsynced|
  {
    if place > s.loaded then [Commit(s.unsynced[place - 1].request), Restart]
    else if s.writer.Synced? then [Commit(s.writer.request), Restart]
    else [Restart]
  }

  function Steps(s: Server, e: Event): seq<Step> {
    if e.Activates? && s.writer.Synced? then [Commit(s.writer.request)]
    else if e.Dies? then StartSteps(s, |s.unsynced|)
    else if e.PowerLoss? && e.left <= |s.unsynced| then StartSteps(s, e.left)
    else []
  }

  lemma RunOne(config: Config, s: State, a: Step)
    ensures Run(config, s, [a]) == Apply(config, s, a)
  {
    assert [a][1..] == [];
  }

  lemma RunTwo(config: Config, s: State, a: Step, b: Step)
    ensures Run(config, s, [a, b]) == Apply(config, Apply(config, s, a), b)
  {
    assert [a, b][1..] == [b];
    RunOne(config, Apply(config, s, a), b);
  }

  lemma CommitThenRestart(config: Config, p: Pending)
    requires Proposed(config, p)
    ensures Run(config, p.base, [Commit(p.request), Restart]) == AfterRestart(p.candidate)
  {
    RunTwo(config, p.base, Commit(p.request), Restart);
  }

  lemma StartRefines(config: Config, s: Server, place: nat)
    requires ServerInv(config, s) && s.loaded <= place <= |s.unsynced|
    ensures Run(config, s.active, StartSteps(s, place)) == AfterRestart(FileAt(s, place))
  {
    if place > s.loaded {
      assert EntryOk(config, s, place - 1);
      CommitThenRestart(config, s.unsynced[place - 1]);
    } else if s.writer.Synced? {
      CommitThenRestart(config, Pending(s.active, s.writer.request, s.writer.candidate));
    } else {
      RunOne(config, s.active, Restart);
    }
  }

  /** Persist before activate: every event that recalls what was loaded is some atomic steps of the router. */
  lemma EventRefines(config: Config, s: Server, e: Event)
    requires ServerInv(config, s) && Recalls(s, e)
    ensures Run(config, s.active, Steps(s, e)) == Next(config, s, e).active
  {
    if e.Activates? && s.writer.Synced? {
      RunOne(config, s.active, Commit(s.writer.request));
    } else if e.Dies? {
      StartRefines(config, s, |s.unsynced|);
    } else if e.PowerLoss? && e.left <= |s.unsynced| {
      StartRefines(config, s, e.left);
    }
  }

  function Trace(config: Config, s: Server, events: seq<Event>): seq<Step>
    decreases |events|
  {
    if events == [] then []
    else Steps(s, events[0]) + Trace(config, Next(config, s, events[0]), events[1..])
  }

  lemma {:induction false} RunConcatenates(config: Config, s: State, a: seq<Step>, b: seq<Step>)
    ensures Run(config, s, a + b) == Run(config, Run(config, s, a), b)
    decreases |a|
  {
    if a == [] {
      assert a + b == b;
    } else {
      assert (a + b)[1..] == a[1..] + b;
      RunConcatenates(config, Apply(config, s, a[0]), a[1..], b);
    }
  }

  /** Over every run that recalls, the active state is the one the atomic router reaches by the matching steps. */
  lemma {:induction false} ServerRefinesRouter(config: Config, s: Server, events: seq<Event>)
    requires ServerInv(config, s) && AlwaysRecalls(config, s, events)
    ensures Run(config, s.active, Trace(config, s, events)) == RunServer(config, s, events).active
    decreases |events|
  {
    if events != [] {
      var t := Next(config, s, events[0]);
      NextKeepsInv(config, s, events[0]);
      EventRefines(config, s, events[0]);
      ServerRefinesRouter(config, t, events[1..]);
      RunConcatenates(config, s.active, Steps(s, events[0]), Trace(config, t, events[1..]));
    }
  }
}
