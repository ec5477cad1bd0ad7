/**
 The proxy's update loop over runs: a candidate is saved before it is used, a process
 that comes back reads the cache file last renamed, and a power loss may put back any
 cache file since the last completed sync.
 */
module ProxyRuns {
  import opened Wrappers
  import opened Net
  import opened History
  import opened Routing
  import opened Soundness
  import opened Router
  import opened ProxyView

  import RouterLaws
  import Server
  import ServerRuns

  /**
   `cache` is the file of the last completed directory sync, `unsynced` are the files
   renamed over it since, in order. The last start read the file at place `loaded`.
   */
  datatype Proxy = Proxy(current: Option<State>, cache: Option<State>, unsynced: seq<State>, loaded: nat)

  datatype Saving = Saved | FailedBeforeRename | FailedAfterRename

  datatype Event = Offer(candidate: State, saving: Saving) | Dies | PowerLoss(left: nat)

  function FileAt(p: Proxy, place: nat): Option<State>
    requires place <= |p.unsynced|
  {
    if place == 0 then p.cache else Some(p.unsynced[place - 1])
  }

  /** What a start makes of the file: a view, or none if the file is missing, too large or refused. */
  ghost function Opened(config: ProxyConfig, file: Option<State>): Option<State> {
    if file.Some? && StateSize(file.value) <= VIEW_LIMIT && Valid(config, AfterRestart(file.value))
    then Some(AfterRestart(file.value)) else None
  }

  /** Candidates come from either router, or from anyone; the cache file outlives the process. */
  ghost function Next(config: ProxyConfig, p: Proxy, e: Event): Proxy {
    match e
    case Offer(candidate, saving) =>
      if !Acceptable(config, candidate, p.current) then p
      else
        (match saving
         case Saved => Proxy(Some(candidate), Some(candidate), [], 0)
         case FailedBeforeRename => p
         case FailedAfterRename => p.(unsynced := p.unsynced + [candidate]))
    case Dies =>
      p.(current := Opened(config, FileAt(p, |p.unsynced|)), loaded := |p.unsynced|)
    case PowerLoss(left) =>
      if left <= |p.unsynced| then
        Proxy(Opened(config, FileAt(p, left)), FileAt(p, left), [], 0)
      else p
  }

  ghost function RunProxy(config: ProxyConfig, p: Proxy, events: seq<Event>): Proxy
    decreases |events|
  {
    if events == [] then p else RunProxy(config, Next(config, p, events[0]), events[1..])
  }

  /** The views held along a run. */
  ghost function Views(config: ProxyConfig, p: Proxy, events: seq<Event>): (r: seq<Option<State>>)
    ensures |r| == |events| + 1 && r[0] == p.current
    decreases |events|
  {
    if events == [] then [p.current] else [p.current] + Views(config, Next(config, p, events[0]), events[1..])
  }

  /// The invariant

  ghost predicate Good(config: ProxyConfig, file: Option<State>) {
    file.Some? && Valid(config, file.value)
  }

  /** The order on views; to hold none is the least of them. */
  predicate Follows(a: Option<State>, b: Option<State>) {
    a.Some? ==> b.Some? && ViewExtends(a.value, b.value)
  }

  ghost predicate Ahead(config: ProxyConfig, p: Proxy, place: nat)
    requires place <= |p.unsynced|
  {
    Good(config, FileAt(p, place)) && Follows(p.current, FileAt(p, place))
  }

  ghost predicate AllValid(config: ProxyConfig, files: seq<State>) {
    forall i {:trigger Valid(config, files[i])} :: 0 <= i < |files| ==> Valid(config, files[i])
  }

  /**
   What a proxy holds is valid, shows the file it last loaded, and no file renamed since
   is older.
   */
  ghost predicate ProxyInv(config: ProxyConfig, p: Proxy) {
    && p.loaded <= |p.unsynced|
    && AllValid(config, p.unsynced)
    && (if p.current.None? then p.loaded == 0
        else && Valid(config, p.current.value)
             && Follows(FileAt(p, p.loaded), p.current)
             && forall place: nat {:trigger Ahead(config, p, place)} :: p.loaded <= place <= |p.unsynced| ==>
                  Ahead(config, p, place))
  }

  lemma FollowsIsReflexive(a: Option<State>)
    ensures Follows(a, a)
  {
    if a.Some? {
      ViewExtendsIsReflexive(a.value);
    }
  }

  lemma FollowsIsTransitive(a: Option<State>, b: Option<State>, c: Option<State>)
    requires Follows(a, b) && Follows(b, c)
    ensures Follows(a, c)
  {
    if a.Some? {
      ViewExtendsIsTransitive(a.value, b.value, c.value);
    }
  }

  lemma RestartStaysValid(config: ProxyConfig, s: State)
    requires Valid(config, s)
    ensures Valid(config, AfterRestart(s)) && ViewExtends(s, AfterRestart(s)) && ViewExtends(AfterRestart(s), s)
    ensures StateSize(s) <= VIEW_LIMIT
  {
    RestartKeeps(s, RulesFor(config, s));
    RestartKeepsMetadata(s);
    RestartKeepsOwners(s);
    assert RulesFor(config, AfterRestart(s)) == RulesFor(config, s);
    StateExtendsIsViewExtends(s, AfterRestart(s));
    forall o | o in s.owners ensures OwnerViewExtends(AfterRestart(s).owners[o], s.owners[o]) {
      ExtendsIsReflexive(s.owners[o].snapshot.records);
    }
    SoundStateIsBounded(s, RulesFor(config, s));
  }

  lemma UnstaleIsValid(config: ProxyConfig, s: State)
    requires Valid(config, AfterRestart(s))
    ensures Valid(config, s)
  {
    var t := AfterRestart(s);
    RestartKeepsOwners(s);
    PositiveIncarnations(t, RulesFor(config, t));
    assert SameRecords(t, s) by {
      forall o | o in t.owners
        ensures s.owners[o].snapshot == t.owners[o].snapshot.(incarnation := s.owners[o].snapshot.incarnation)
        ensures 1 <= s.owners[o].snapshot.incarnation
      {
        assert t.owners[o].snapshot == s.owners[o].snapshot;
      }
    }
    SoundnessIsOfRecords(t, s, RulesFor(config, t));
    assert RulesFor(config, t) == RulesFor(config, s);
    assert |s.owners| == |s.owners.Keys| == |t.owners.Keys| == |t.owners|;
    forall id | id in s.owners ensures OwnerMetadataOk(id, s.owners[id]) {
      assert OwnerMetadataOk(id, t.owners[id]);
    }
  }

  /** A start takes exactly the valid files, and shows what they hold. */
  lemma OpenedIsGood(config: ProxyConfig, file: Option<State>)
    ensures Opened(config, file).Some? <==> Good(config, file)
    ensures Good(config, file) ==>
              && Good(config, Opened(config, file))
              && Follows(file, Opened(config, file)) && Follows(Opened(config, file), file)
  {
    if file.Some? {
      if Valid(config, file.value) {
        RestartStaysValid(config, file.value);
      }
      if Valid(config, AfterRestart(file.value)) {
        UnstaleIsValid(config, file.value);
        RestartStaysValid(config, file.value);
      }
    }
  }

  lemma OfferKeepsInv(config: ProxyConfig, p: Proxy, candidate: State, saving: Saving)
    requires ProxyInv(config, p)
    ensures ProxyInv(config, Next(config, p, Offer(candidate, saving)))
    ensures Follows(p.current, Next(config, p, Offer(candidate, saving)).current)
  {
    FollowsIsReflexive(p.current);
    if Acceptable(config, candidate, p.current) {
      AcceptableFollows(config, candidate, p.current);
      FollowsIsReflexive(Some(candidate));
      if saving.Saved? {
        ShowingIsInv(config, Proxy(Some(candidate), Some(candidate), [], 0));
      } else if saving.FailedAfterRename? {
        RenameKeepsInv(config, p, candidate);
      }
    }
  }

  lemma AcceptableFollows(config: ProxyConfig, candidate: State, current: Option<State>)
    requires Acceptable(config, candidate, current) && (current.Some? ==> Valid(config, current.value))
    ensures Good(config, Some(candidate)) && Follows(current, Some(candidate))
  {
    if current.Some? {
      ContinuesIsExtends(config, current.value, candidate);
    }
  }

  lemma RenameKeepsInv(config: ProxyConfig, p: Proxy, candidate: State)
    requires ProxyInv(config, p) && Good(config, Some(candidate)) && Follows(p.current, Some(candidate))
    ensures ProxyInv(config, p.(unsynced := p.unsynced + [candidate]))
  {
    var q := p.(unsynced := p.unsynced + [candidate]);
    assert FileAt(q, q.loaded) == FileAt(p, p.loaded);
    if p.current.Some? {
      forall place: nat | q.loaded <= place <= |q.unsynced| ensures Ahead(config, q, place) {
        assert place <= |p.unsynced| ==> Ahead(config, p, place);
      }
    }
  }

  lemma FileIsGood(config: ProxyConfig, p: Proxy, place: nat)
    requires ProxyInv(config, p) && place <= |p.unsynced|
    ensures 0 < place ==> Good(config, FileAt(p, place))
    ensures p.current.Some? ==> Good(config, FileAt(p, p.loaded)) && Follows(p.current, FileAt(p, p.loaded))
    ensures p.current.Some? && p.loaded <= place ==> Ahead(config, p, place)
  {
    if p.current.Some? {
      assert Ahead(config, p, p.loaded);
    }
  }

  /** A proxy that shows its last file. */
  lemma ShowingIsInv(config: ProxyConfig, q: Proxy)
    requires q.loaded == |q.unsynced| && AllValid(config, q.unsynced)
    requires q.current.None? ==> q.loaded == 0
    requires q.current.Some? ==>
               && Good(config, q.current) && Good(config, FileAt(q, q.loaded))
               && Follows(FileAt(q, q.loaded), q.current) && Follows(q.current, FileAt(q, q.loaded))
    ensures ProxyInv(config, q)
  {
    if q.current.Some? {
      forall place: nat | q.loaded <= place <= |q.unsynced| ensures Ahead(config, q, place) {
        assert place == q.loaded;
      }
    }
  }

  lemma StartedIsInv(config: ProxyConfig, q: Proxy)
    requires q.loaded == |q.unsynced| && AllValid(config, q.unsynced)
    requires q.current == Opened(config, FileAt(q, q.loaded))
    ensures ProxyInv(config, q)
  {
    OpenedIsGood(config, FileAt(q, q.loaded));
    ShowingIsInv(config, q);
  }

  lemma DeathKeepsInv(config: ProxyConfig, p: Proxy)
    requires ProxyInv(config, p)
    ensures ProxyInv(config, Next(config, p, Dies))
  {
    var last := |p.unsynced|;
    var q := p.(current := Opened(config, FileAt(p, last)), loaded := last);
    assert FileAt(q, last) == FileAt(p, last);
    StartedIsInv(config, q);
  }

  lemma PowerLossKeepsInv(config: ProxyConfig, p: Proxy, left: nat)
    requires ProxyInv(config, p)
    ensures ProxyInv(config, Next(config, p, PowerLoss(left)))
  {
    if left <= |p.unsynced| {
      StartedIsInv(config, Proxy(Opened(config, FileAt(p, left)), FileAt(p, left), [], 0));
    }
  }

  lemma NextKeepsInv(config: ProxyConfig, p: Proxy, e: Event)
    requires ProxyInv(config, p)
    ensures ProxyInv(config, Next(config, p, e))
  {
    if e.Offer? {
      OfferKeepsInv(config, p, e.candidate, e.saving);
    } else if e.Dies? {
      DeathKeepsInv(config, p);
    } else {
      PowerLossKeepsInv(config, p, e.left);
    }
  }

  /// The chain of views

  /** No power loss returns a cache file that is older than the one loaded since the last sync, or unusable. */
  ghost predicate Remembers(config: ProxyConfig, p: Proxy, e: Event) {
    e.PowerLoss? && e.left < p.loaded <= |p.unsynced| ==>
      Good(config, FileAt(p, e.left)) && Follows(FileAt(p, p.loaded), FileAt(p, e.left))
  }

  ghost predicate AlwaysRemembers(config: ProxyConfig, p: Proxy, events: seq<Event>)
    decreases |events|
  {
    || events == []
    || (Remembers(config, p, events[0]) && AlwaysRemembers(config, Next(config, p, events[0]), events[1..]))
  }

  ghost predicate Ascending(views: seq<Option<State>>) {
    forall i, j :: 0 <= i <= j < |views| ==> Follows(views[i], views[j])
  }

  lemma StartFollowsExactly(config: ProxyConfig, p: Proxy, place: nat)
    requires ProxyInv(config, p) && place <= |p.unsynced|
    ensures Follows(p.current, Opened(config, FileAt(p, place))) <==> Remembers(config, p, PowerLoss(place))
  {
    var (file, start) := (FileAt(p, place), Opened(config, FileAt(p, place)));
    FileIsGood(config, p, place);
    OpenedIsGood(config, file);
    if p.current.Some? && start.Some? {
      if Follows(p.current, file) {
        FollowsIsTransitive(p.current, file, start);
        FollowsIsTransitive(FileAt(p, p.loaded), p.current, file);
      }
      if Follows(FileAt(p, p.loaded), file) {
        FollowsIsTransitive(p.current, FileAt(p, p.loaded), file);
      }
      if Follows(p.current, start) {
        FollowsIsTransitive(p.current, start, file);
      }
    }
  }

  /** One event keeps the invariant, and the view goes back exactly on a power loss that forgets a loaded file. */
  lemma EventKeeps(config: ProxyConfig, p: Proxy, e: Event)
    requires ProxyInv(config, p)
    ensures ProxyInv(config, Next(config, p, e))
    ensures Follows(p.current, Next(config, p, e).current) <==> Remembers(config, p, e)
  {
    NextKeepsInv(config, p, e);
    FollowsIsReflexive(p.current);
    match e
    case Offer(candidate, saving) => OfferKeepsInv(config, p, candidate, saving);
    case Dies => StartFollowsExactly(config, p, |p.unsynced|);
    case PowerLoss(left) =>
      if left <= |p.unsynced| {
        StartFollowsExactly(config, p, left);
      }
  }

  lemma AscendingSplits(a: Option<State>, rest: seq<Option<State>>)
    requires |rest| > 0
    ensures Ascending([a] + rest) <==> Follows(a, rest[0]) && Ascending(rest)
  {
    var all := [a] + rest;
    if Ascending(all) {
      forall i, j | 0 <= i <= j < |rest| ensures Follows(rest[i], rest[j]) {
        assert Follows(all[i + 1], all[j + 1]);
      }
      assert Follows(all[0], all[1]);
    }
    if Follows(a, rest[0]) && Ascending(rest) {
      forall i, j | 0 <= i <= j < |all| ensures Follows(all[i], all[j]) {
        if j == 0 {
          FollowsIsReflexive(a);
        } else if i == 0 {
          assert Follows(rest[0], rest[j - 1]);
          FollowsIsTransitive(a, rest[0], rest[j - 1]);
        } else {
          assert Follows(rest[i - 1], rest[j - 1]);
        }
      }
    }
  }

  /** The views of a run only rise exactly when no power loss of the run forgets what was loaded. */
  lemma {:induction false} RunKeepsView(config: ProxyConfig, p: Proxy, events: seq<Event>)
    requires ProxyInv(config, p)
    ensures ProxyInv(config, RunProxy(config, p, events))
    ensures Ascending(Views(config, p, events)) <==> AlwaysRemembers(config, p, events)
    decreases |events|
  {
    if events == [] {
      FollowsIsReflexive(p.current);
    } else {
      var q := Next(config, p, events[0]);
      EventKeeps(config, p, events[0]);
      RunKeepsView(config, q, events[1..]);
      AscendingSplits(p.current, Views(config, q, events[1..]));
    }
  }

  /// What was saved

  ghost predicate Over(config: ProxyConfig, floor: State, file: Option<State>) {
    Good(config, file) && Follows(Some(floor), file)
  }

  ghost predicate Floor(config: ProxyConfig, floor: State, p: Proxy) {
    && Follows(Some(floor), p.current)
    && forall place: nat {:trigger FileAt(p, place)} :: place <= |p.unsynced| ==> Over(config, floor, FileAt(p, place))
  }

  lemma StartKeepsFloor(config: ProxyConfig, floor: State, p: Proxy, place: nat)
    requires Floor(config, floor, p) && place <= |p.unsynced|
    ensures Follows(Some(floor), Opened(config, FileAt(p, place)))
  {
    OpenedIsGood(config, FileAt(p, place));
    FollowsIsTransitive(Some(floor), FileAt(p, place), Opened(config, FileAt(p, place)));
  }

  lemma FloorStaysOneEvent(config: ProxyConfig, floor: State, p: Proxy, e: Event)
    requires ProxyInv(config, p) && Floor(config, floor, p)
    ensures Floor(config, floor, Next(config, p, e))
  {
    var q := Next(config, p, e);
    if e.Dies? {
      StartKeepsFloor(config, floor, p, |p.unsynced|);
    } else if e.PowerLoss? && e.left <= |p.unsynced| {
      StartKeepsFloor(config, floor, p, e.left);
    } else if e.Offer? && Acceptable(config, e.candidate, p.current) {
      ContinuesIsExtends(config, p.current.value, e.candidate);
      FollowsIsTransitive(Some(floor), p.current, Some(e.candidate));
    }
    assert e.PowerLoss? && e.left <= |p.unsynced| ==> Over(config, floor, FileAt(p, e.left));
    forall place: nat | place <= |q.unsynced| ensures Over(config, floor, FileAt(q, place)) {
      assert place <= |p.unsynced| ==> Over(config, floor, FileAt(p, place));
    }
  }

  lemma {:induction false} FloorStays(config: ProxyConfig, floor: State, p: Proxy, events: seq<Event>)
    requires ProxyInv(config, p) && Floor(config, floor, p)
    ensures Floor(config, floor, RunProxy(config, p, events))
    decreases |events|
  {
    if events != [] {
      FloorStaysOneEvent(config, floor, p, events[0]);
      NextKeepsInv(config, p, events[0]);
      FloorStays(config, floor, Next(config, p, events[0]), events[1..]);
    }
  }

  /** A view that was saved to the end is never lost: all later views extend it, whatever a power loss returns. */
  lemma SavedViewStays(config: ProxyConfig, p: Proxy, candidate: State, events: seq<Event>)
    requires ProxyInv(config, p) && Acceptable(config, candidate, p.current)
    ensures var q := RunProxy(config, Next(config, p, Offer(candidate, Saved)), events);
            q.current.Some? && Valid(config, q.current.value) && ViewExtends(candidate, q.current.value)
  {
    var q := Next(config, p, Offer(candidate, Saved));
    NextKeepsInv(config, p, Offer(candidate, Saved));
    FollowsIsReflexive(Some(candidate));
    FloorStays(config, candidate, q, events);
    RunKeepsView(config, q, events);
  }

  /// Deletions

  ghost function OwnerGone(records: Records): set<Endpoint> {
    set i | i in records && records[i].deleted :: records[i].endpoint
  }

  /** The endpoints of the deleted records of a view. */
  ghost function Gone(view: Option<State>): set<Endpoint> {
    if view.None? then {}
    else set o, e | o in view.value.owners && e in OwnerGone(view.value.owners[o].snapshot.records) :: e
  }

  lemma GoneStays(a: Option<State>, b: Option<State>)
    requires Follows(a, b)
    ensures Gone(a) <= Gone(b)
  {
    forall e | e in Gone(a) ensures e in Gone(b) {
      var o :| o in a.value.owners && e in OwnerGone(a.value.owners[o].snapshot.records);
      var records := a.value.owners[o].snapshot.records;
      var i :| i in records && records[i].deleted && records[i].endpoint == e;
      assert OwnerViewExtends(a.value.owners[o], b.value.owners[o]);
      assert RecordExtends(records[i], b.value.owners[o].snapshot.records[i]);
      assert e in OwnerGone(b.value.owners[o].snapshot.records);
    }
  }

  lemma GoneIsNoTarget(config: ProxyConfig, s: State, app: string)
    requires Valid(config, s)
    ensures Gone(Some(s)) !! Targets(s, app)
  {
    forall e | e in Gone(Some(s)) && e in Targets(s, app) ensures false {
      var o :| o in s.owners && e in OwnerGone(s.owners[o].snapshot.records);
      var i :| i in s.owners[o].snapshot.records && s.owners[o].snapshot.records[i].deleted
        && s.owners[o].snapshot.records[i].endpoint == e;
      var p, j := TargetIsLive(s, app, e);
      assert Holds(s, e, o, i) && Holds(s, e, p, j);
    }
  }

  /** No power loss returns a cache file that lacks a deletion of the one loaded since the last completed sync. */
  ghost predicate KeepsDeletions(config: ProxyConfig, p: Proxy, e: Event) {
    e.PowerLoss? && e.left < p.loaded <= |p.unsynced| ==>
      Gone(FileAt(p, p.loaded)) <= Gone(Opened(config, FileAt(p, e.left)))
  }

  ghost predicate AlwaysKeepsDeletions(config: ProxyConfig, p: Proxy, events: seq<Event>)
    decreases |events|
  {
    || events == []
    || (KeepsDeletions(config, p, events[0])
        && AlwaysKeepsDeletions(config, Next(config, p, events[0]), events[1..]))
  }

  lemma DeletionsKeptExactly(config: ProxyConfig, p: Proxy, e: Event)
    requires ProxyInv(config, p)
    ensures Gone(p.current) <= Gone(Next(config, p, e).current) <==> KeepsDeletions(config, p, e)
    ensures Remembers(config, p, e) ==> KeepsDeletions(config, p, e)
  {
    EventKeeps(config, p, e);
    if Remembers(config, p, e) {
      GoneStays(p.current, Next(config, p, e).current);
    }
    if e.PowerLoss? && e.left < p.loaded {
      FileIsGood(config, p, p.loaded);
      GoneStays(p.current, FileAt(p, p.loaded));
      GoneStays(FileAt(p, p.loaded), p.current);
    }
  }

  ghost predicate DeletionsGrow(views: seq<Option<State>>) {
    forall i, j :: 0 <= i <= j < |views| ==> Gone(views[i]) <= Gone(views[j])
  }

  lemma GrowingSplits(a: Option<State>, rest: seq<Option<State>>)
    requires |rest| > 0
    ensures DeletionsGrow([a] + rest) <==> Gone(a) <= Gone(rest[0]) && DeletionsGrow(rest)
  {
    var all := [a] + rest;
    if DeletionsGrow(all) {
      forall i, j | 0 <= i <= j < |rest| ensures Gone(rest[i]) <= Gone(rest[j]) {
        assert Gone(all[i + 1]) <= Gone(all[j + 1]);
      }
      assert Gone(all[0]) <= Gone(all[1]);
    }
    if Gone(a) <= Gone(rest[0]) && DeletionsGrow(rest) {
      forall i, j | 0 <= i <= j < |all| ensures Gone(all[i]) <= Gone(all[j]) {
        if 0 < i {
          assert Gone(rest[i - 1]) <= Gone(rest[j - 1]);
        } else if 0 < j {
          assert Gone(rest[0]) <= Gone(rest[j - 1]);
        }
      }
    }
  }

  lemma {:induction false} DeletionsGrowExactly(config: ProxyConfig, p: Proxy, events: seq<Event>)
    requires ProxyInv(config, p)
    ensures DeletionsGrow(Views(config, p, events)) <==> AlwaysKeepsDeletions(config, p, events)
    ensures AlwaysRemembers(config, p, events) ==> AlwaysKeepsDeletions(config, p, events)
    decreases |events|
  {
    if events != [] {
      var q := Next(config, p, events[0]);
      DeletionsKeptExactly(config, p, events[0]);
      NextKeepsInv(config, p, events[0]);
      DeletionsGrowExactly(config, q, events[1..]);
      GrowingSplits(p.current, Views(config, q, events[1..]));
    }
  }

  ghost predicate GoodOrNone(config: ProxyConfig, view: Option<State>) {
    view.Some? ==> Valid(config, view.value)
  }

  ghost predicate AllGood(config: ProxyConfig, views: seq<Option<State>>) {
    forall i {:trigger GoodOrNone(config, views[i])} :: 0 <= i < |views| ==> GoodOrNone(config, views[i])
  }

  lemma OneMoreIsGood(config: ProxyConfig, a: Option<State>, rest: seq<Option<State>>)
    requires GoodOrNone(config, a) && AllGood(config, rest)
    ensures AllGood(config, [a] + rest)
  {
    forall i | 0 <= i < |rest| + 1 ensures GoodOrNone(config, ([a] + rest)[i]) {
      assert 0 < i ==> GoodOrNone(config, rest[i - 1]);
    }
  }

  lemma HeldIsGood(config: ProxyConfig, p: Proxy)
    requires ProxyInv(config, p)
    ensures GoodOrNone(config, p.current)
  {
  }

  lemma {:induction false} ViewsAreGood(config: ProxyConfig, p: Proxy, events: seq<Event>)
    requires ProxyInv(config, p)
    ensures AllGood(config, Views(config, p, events))
    decreases |events|
  {
    HeldIsGood(config, p);
    if events == [] {
      OneMoreIsGood(config, p.current, []);
    } else {
      var q := Next(config, p, events[0]);
      NextKeepsInv(config, p, events[0]);
      ViewsAreGood(config, q, events[1..]);
      OneMoreIsGood(config, p.current, Views(config, q, events[1..]));
    }
  }

  /**
   No resurrection. What is deleted in a view stays deleted in all later views exactly
   when no power loss of the run returns a file without it, and then its endpoint is a
   target of no application in any of them, through lagging routers, failed saves,
   deaths and power losses.
   */
  lemma NoResurrection(config: ProxyConfig, p: Proxy, events: seq<Event>)
    requires ProxyInv(config, p)
    ensures DeletionsGrow(Views(config, p, events)) <==> AlwaysKeepsDeletions(config, p, events)
    ensures AlwaysRemembers(config, p, events) ==> AlwaysKeepsDeletions(config, p, events)
    ensures AlwaysKeepsDeletions(config, p, events) ==>
              var views := Views(config, p, events);
              forall i, j, app :: 0 <= i <= j < |views| && views[j].Some? ==>
                Gone(views[i]) !! Targets(views[j].value, app)
  {
    var views := Views(config, p, events);
    DeletionsGrowExactly(config, p, events);
    ViewsAreGood(config, p, events);
    if AlwaysKeepsDeletions(config, p, events) {
      forall i, j, app | 0 <= i <= j < |views| && views[j].Some?
        ensures Gone(views[i]) !! Targets(views[j].value, app)
      {
        assert GoodOrNone(config, views[j]);
        GoneIsNoTarget(config, views[j].value, app);
        assert Gone(views[i]) <= Gone(views[j]);
      }
    }
  }

  /** Deletions in a view that was saved to the end stay gone in any case. */
  lemma SavedDeletionsStayGone(config: ProxyConfig, p: Proxy, candidate: State, events: seq<Event>, app: string)
    requires ProxyInv(config, p) && Acceptable(config, candidate, p.current)
    ensures var q := RunProxy(config, Next(config, p, Offer(candidate, Saved)), events);
            q.current.Some? && Gone(Some(candidate)) !! Targets(q.current.value, app)
  {
    var q := RunProxy(config, Next(config, p, Offer(candidate, Saved)), events);
    SavedViewStays(config, p, candidate, events);
    GoneStays(Some(candidate), q.current);
    GoneIsNoTarget(config, q.current.value, app);
  }

  /// Following a server

  /**
   As long as a server's power losses forget nothing, a proxy that holds what the server
   once had active accepts whatever it has active later.
   */
  lemma SubscriberFollowsServer(config: Config, proxy: ProxyConfig, s: Server.Server, events: seq<Server.Event>,
                                i: nat, j: nat)
    requires Server.ServerInv(config, s) && ServerRuns.AlwaysRemembers(config, s, events)
    requires i <= j <= |events| && forall o :: o in config ==> config[o].applications <= proxy.Keys
    ensures var actives := ServerRuns.Actives(config, s, events);
            Acceptable(proxy, actives[j], Some(actives[i]))
  {
    var actives := ServerRuns.Actives(config, s, events);
    ServerRuns.ChainIsExact(config, s, events);
    ServerRuns.ActivesAreInv(config, s, events, i);
    ServerRuns.ActivesAreInv(config, s, events, j);
    assert StateExtends(actives[i], actives[j]);
    FollowsIsAcceptable(config, proxy, actives[i], actives[j]);
  }

  /**
   In a view taken from a running server every target of an application is a live endpoint
   of an owner that is configured for the application, whatever died or lost power before.
   */
  lemma TargetsAreEntitled(config: Config, events: seq<Server.Event>, app: string, e: Endpoint)
    requires e in Targets(Server.RunServer(config, Server.FRESH, events).active, app)
    ensures var s := Server.RunServer(config, Server.FRESH, events).active;
            exists o, i :: o in config && app in config[o].applications && o in s.owners
              && i in s.owners[o].snapshot.records && s.owners[o].snapshot.records[i].endpoint == e
              && s.owners[o].snapshot.records[i].app == app && !s.owners[o].snapshot.records[i].deleted
  {
    var s := Server.RunServer(config, Server.FRESH, events).active;
    Server.FreshIsInv(config);
    Server.RunKeepsServer(config, Server.FRESH, events);
    var o, i := TargetIsLive(s, app, e);
    RouterLaws.HeldIsGood(config, s, o);
    assert o in config && app in config[o].applications;
  }
}
