/**
 The proxy's view: every candidate is validated against the last one held, and reduced
 to the targets of each application.
 */
module ProxyView {
  import opened Wrappers
  import opened Net
  import opened History
  import opened Routing
  import opened Soundness
  import opened Startup
  import opened Router

  import RouterLaws

  /** The applications and the ports each listens on. */
  type ProxyConfig = map<string, seq<U16>>

  /** Every owner may serve every configured application. */
  function RulesFor(config: ProxyConfig, s: State): Rules {
    Rules(map o | o in s.owners :: config.Keys, RECORD_LIMIT, VIEW_LIMIT)
  }

  ghost predicate Valid(config: ProxyConfig, s: State) {
    MetadataOk(s) && Sound(s, RulesFor(config, s))
  }

  /** The comparison with the cached record. */
  predicate RecordContinues(old_: Record, new_: Record) {
    && new_.endpoint == old_.endpoint && new_.app == old_.app
    && old_.revision <= new_.revision
    && (old_.deleted ==> new_.deleted)
    && (new_.revision == old_.revision ==> new_ == old_)
  }

  predicate RecordsContinue(old_: Records, new_: Records) {
    forall id :: id in old_ ==> id in new_ && RecordContinues(old_[id], new_[id])
  }

  predicate OwnerContinues(old_: Owner, new_: Owner) {
    && old_.snapshot.incarnation <= new_.snapshot.incarnation
    && RecordsContinue(old_.snapshot.records, new_.snapshot.records)
  }

  predicate Continues(previous: State, s: State) {
    && previous.owners.Keys <= s.owners.Keys
    && forall o {:trigger OwnerContinues(previous.owners[o], s.owners[o])} :: o in previous.owners ==>
         OwnerContinues(previous.owners[o], s.owners[o])
  }

  ghost predicate Acceptable(config: ProxyConfig, s: State, previous: Option<State>) {
    Valid(config, s) && (previous.Some? ==> Continues(previous.value, s))
  }

  method CheckRecords(old_: Records, new_: Records) returns (ok: bool)
    ensures ok <==> RecordsContinue(old_, new_)
  {
    var remaining := old_.Keys;
    while remaining != {}
      invariant remaining <= old_.Keys
      invariant forall id :: id in old_.Keys - remaining ==> id in new_ && RecordContinues(old_[id], new_[id])
      decreases remaining
    {
      var id :| id in remaining;
      if id !in new_ {
        return false;
      }
      var (record, next) := (old_[id], new_[id]);
      if next.endpoint != record.endpoint || next.app != record.app || next.revision < record.revision
         || (record.deleted && !next.deleted) || (next.revision == record.revision && next != record) {
        return false;
      }
      remaining := remaining - {id};
    }
    return true;
  }

  method CheckPrevious(previous: State, s: State) returns (ok: bool)
    ensures ok <==> Continues(previous, s)
  {
    var remaining := previous.owners.Keys;
    while remaining != {}
      invariant remaining <= previous.owners.Keys && previous.owners.Keys - remaining <= s.owners.Keys
      invariant forall o {:trigger OwnerContinues(previous.owners[o], s.owners[o])} ::
                  o in previous.owners.Keys - remaining ==> OwnerContinues(previous.owners[o], s.owners[o])
      decreases remaining
    {
      var o :| o in remaining;
      if o !in s.owners || s.owners[o].snapshot.incarnation < previous.owners[o].snapshot.incarnation {
        assert o !in s.owners || !OwnerContinues(previous.owners[o], s.owners[o]);
        return false;
      }
      var records := CheckRecords(previous.owners[o].snapshot.records, s.owners[o].snapshot.records);
      if !records {
        assert !OwnerContinues(previous.owners[o], s.owners[o]);
        return false;
      }
      remaining := remaining - {o};
    }
    return true;
  }

  /** `validate` of proxy/src/dynamic.rs accepts exactly the valid states that continue the previous one. */
  method Validate(config: ProxyConfig, s: State, previous: Option<State>) returns (ok: bool)
    ensures ok <==> Acceptable(config, s, previous)
  {
    if !MetadataOk(s) {
      return false;
    }
    var rebuilt := Rebuild(s, RulesFor(config, s));
    if !rebuilt {
      return false;
    }
    if previous.Some? {
      ok := CheckPrevious(previous.value, s);
    } else {
      ok := true;
    }
  }

  /**
   What a proxy demands of a view in itself: at most sixteen owners, each under its own name
   with well-formed fences and a good snapshot of configured applications, every endpoint
   held once, and room for what deletions can lead to.
   */
  lemma ValidIsPlain(config: ProxyConfig, s: State)
    ensures Valid(config, s) <==> RouterLaws.GoodState(map o | o in s.owners :: config.Keys, s)
  {
    RouterLaws.GoodStateIsSound(map o | o in s.owners :: config.Keys, s);
  }

  /// Targets

  ghost function OwnerTargets(records: Records, app: string): set<Endpoint> {
    set i | i in records && records[i].app == app && !records[i].deleted :: records[i].endpoint
  }

  /** Where connections of an application may go: the endpoints of its live records. */
  ghost function Targets(s: State, app: string): set<Endpoint> {
    set o, e | o in s.owners && e in OwnerTargets(s.owners[o].snapshot.records, app) :: e
  }

  ghost predicate LiveAt(s: State, e: Endpoint, app: string, o: string, i: string) {
    Holds(s, e, o, i) && s.owners[o].snapshot.records[i].app == app && !s.owners[o].snapshot.records[i].deleted
  }

  lemma TargetIsLive(s: State, app: string, e: Endpoint) returns (o: string, i: string)
    requires e in Targets(s, app)
    ensures LiveAt(s, e, app, o, i)
  {
    o :| o in s.owners && e in OwnerTargets(s.owners[o].snapshot.records, app);
    var records := s.owners[o].snapshot.records;
    i :| i in records && records[i].app == app && !records[i].deleted && records[i].endpoint == e;
  }

  /** In a validated view each target belongs to one live record, and so to one application. */
  lemma TargetsAreOwned(config: ProxyConfig, s: State, app: string, e: Endpoint)
    requires Valid(config, s) && e in Targets(s, app)
    ensures exists o, i :: LiveAt(s, e, app, o, i) && forall p, j :: Holds(s, e, p, j) ==> p == o && j == i
    ensures forall other :: e in Targets(s, other) ==> other == app
  {
    var o, i := TargetIsLive(s, app, e);
    forall other | e in Targets(s, other) ensures other == app {
      var p, j := TargetIsLive(s, other, e);
    }
  }

  /** The targets of an application are the endpoints of its live records: all of them, and nothing else. */
  lemma TargetsAreTheLive(s: State, app: string, e: Endpoint)
    ensures e in Targets(s, app) <==>
            exists o, i :: o in s.owners && i in s.owners[o].snapshot.records
              && s.owners[o].snapshot.records[i].endpoint == e
              && s.owners[o].snapshot.records[i].app == app && !s.owners[o].snapshot.records[i].deleted
  {
    if e in Targets(s, app) {
      var o, i := TargetIsLive(s, app, e);
    }
    forall o, i | o in s.owners && i in s.owners[o].snapshot.records
      && s.owners[o].snapshot.records[i].endpoint == e
      && s.owners[o].snapshot.records[i].app == app && !s.owners[o].snapshot.records[i].deleted
      ensures e in Targets(s, app)
    {
      assert e in OwnerTargets(s.owners[o].snapshot.records, app);
    }
  }

  datatype AppView = AppView(name: string, targets: set<Endpoint>)

  predicate PortsDistinct(config: ProxyConfig) {
    forall a, b, i, j ::
      a in config && b in config && 0 <= i < |config[a]| && 0 <= j < |config[b]| && config[a][i] == config[b][j] ==>
        a == b && i == j
  }

  /** The targets of one application, gathered owner by owner and record by record. */
  method CollectTargets(s: State, app: string) returns (targets: set<Endpoint>)
    ensures targets == Targets(s, app)
  {
    targets := {};
    var owners := s.owners.Keys;
    while owners != {}
      invariant owners <= s.owners.Keys
      invariant forall o :: o in s.owners.Keys - owners ==> OwnerTargets(s.owners[o].snapshot.records, app) <= targets
      invariant targets <= Targets(s, app)
      decreases owners
    {
      var o :| o in owners;
      var found := CollectOwner(s.owners[o].snapshot.records, app);
      targets := targets + found;
      owners := owners - {o};
    }
  }

  method CollectOwner(records: Records, app: string) returns (targets: set<Endpoint>)
    ensures targets == OwnerTargets(records, app)
  {
    targets := {};
    var remaining := records.Keys;
    while remaining != {}
      invariant remaining <= records.Keys
      invariant forall i :: i in records.Keys - remaining && records[i].app == app && !records[i].deleted ==>
                  records[i].endpoint in targets
      invariant targets <= OwnerTargets(records, app)
      decreases remaining
    {
      var i :| i in remaining;
      if records[i].app == app && !records[i].deleted {
        targets := targets + {records[i].endpoint};
      }
      remaining := remaining - {i};
    }
  }

  /** `make_view`: every configured port leads to its application's targets, and there are no other ports. */
  method MakeView(config: ProxyConfig, s: Option<State>) returns (ports: map<U16, AppView>)
    requires PortsDistinct(config)
    ensures forall a, i :: a in config && 0 <= i < |config[a]| ==>
              config[a][i] in ports && ports[config[a][i]] == AppView(a, if s.Some? then Targets(s.value, a) else {})
    ensures forall port :: port in ports ==> exists a, i :: a in config && 0 <= i < |config[a]| && config[a][i] == port
  {
    ports := map[];
    var names := config.Keys;
    while names != {}
      invariant names <= config.Keys
      invariant forall a, i :: a in config.Keys - names && 0 <= i < |config[a]| ==>
                  && config[a][i] in ports
                  && ports[config[a][i]] == AppView(a, if s.Some? then Targets(s.value, a) else {})
      invariant forall port :: port in ports ==>
                  exists a, i :: a in config.Keys - names && 0 <= i < |config[a]| && config[a][i] == port
      decreases names
    {
      var name :| name in names;
      var targets := {};
      if s.Some? {
        targets := CollectTargets(s.value, name);
      }
      ports := AddPorts(config, names, name, AppView(name, targets), ports);
      names := names - {name};
    }
  }

  method AddPorts(config: ProxyConfig, ghost names: set<string>, name: string, view: AppView, before: map<U16, AppView>)
    returns (ports: map<U16, AppView>)
    requires name in config
    ensures ports.Keys == before.Keys + set i | 0 <= i < |config[name]| :: config[name][i]
    ensures forall i :: 0 <= i < |config[name]| ==> ports[config[name][i]] == view
    ensures forall port :: port in before && port !in config[name] ==> ports[port] == before[port]
  {
    ports := before;
    for k := 0 to |config[name]|
      invariant ports.Keys == before.Keys + set i | 0 <= i < k :: config[name][i]
      invariant forall i :: 0 <= i < k ==> ports[config[name][i]] == view
      invariant forall port :: port in before && port !in config[name] ==> ports[port] == before[port]
    {
      ports := ports[config[name][k] := view];
    }
  }

  /// The order on views

  lemma ValidIsKeyed(config: ProxyConfig, s: State, o: string)
    requires Valid(config, s) && o in s.owners
    ensures Keyed(s.owners[o].snapshot.records)
  {
    assert OwnerOk(s, RulesFor(config, s), o);
    KeyedByRecordsOk(s.owners[o].snapshot, PolicyOf(RulesFor(config, s), o));
  }

  predicate OwnerViewExtends(a: Owner, b: Owner) {
    a.snapshot.incarnation <= b.snapshot.incarnation && Extends(a.snapshot.records, b.snapshot.records)
  }

  /** The proxy looks at incarnations and records; it compares neither generations nor snapshot revisions. */
  predicate ViewExtends(a: State, b: State) {
    && a.owners.Keys <= b.owners.Keys
    && forall o {:trigger OwnerViewExtends(a.owners[o], b.owners[o])} :: o in a.owners ==>
         OwnerViewExtends(a.owners[o], b.owners[o])
  }

  lemma ContinuesIsExtends(config: ProxyConfig, a: State, b: State)
    requires Valid(config, a) && Valid(config, b)
    ensures Continues(a, b) <==> ViewExtends(a, b)
  {
    if a.owners.Keys <= b.owners.Keys {
      forall o | o in a.owners
        ensures OwnerContinues(a.owners[o], b.owners[o]) <==> OwnerViewExtends(a.owners[o], b.owners[o])
      {
        ValidIsKeyed(config, a, o);
        ValidIsKeyed(config, b, o);
        RecordsContinueIsExtends(a.owners[o].snapshot.records, b.owners[o].snapshot.records);
      }
    }
  }

  lemma RecordsContinueIsExtends(a: Records, b: Records)
    requires Keyed(a) && Keyed(b)
    ensures RecordsContinue(a, b) <==> Extends(a, b)
  {
    forall id | id in a && id in b ensures RecordContinues(a[id], b[id]) <==> RecordExtends(a[id], b[id]) {
    }
  }

  lemma ViewExtendsIsReflexive(a: State)
    ensures ViewExtends(a, a)
  {
    forall o | o in a.owners ensures OwnerViewExtends(a.owners[o], a.owners[o]) {
      ExtendsIsReflexive(a.owners[o].snapshot.records);
    }
  }

  lemma ViewExtendsIsTransitive(a: State, b: State, c: State)
    requires ViewExtends(a, b) && ViewExtends(b, c)
    ensures ViewExtends(a, c)
  {
    forall o | o in a.owners ensures OwnerViewExtends(a.owners[o], c.owners[o]) {
      assert OwnerViewExtends(a.owners[o], b.owners[o]) && OwnerViewExtends(b.owners[o], c.owners[o]);
      ExtendsIsTransitive(a.owners[o].snapshot.records, b.owners[o].snapshot.records, c.owners[o].snapshot.records);
    }
  }

  /// A subscriber may skip anything

  lemma WiderRulesStaySound(config: Config, proxy: ProxyConfig, s: State)
    requires Inv(config, s)
    requires forall o :: o in config ==> config[o].applications <= proxy.Keys
    ensures Valid(proxy, s)
  {
    var wide := RulesFor(proxy, s);
    forall o | o in s.owners ensures o in wide.applications && OwnerOk(s, wide, o) {
      assert OwnerOk(s, RulesOf(config), o);
      var n := s.owners[o].snapshot;
      forall id | id in n.records ensures RecordOk(id, n.records[id], n, PolicyOf(wide, o)) {
        assert RecordOk(id, n.records[id], n, PolicyOf(RulesOf(config), o));
      }
    }
  }

  lemma StateExtendsIsViewExtends(a: State, b: State)
    requires StateExtends(a, b)
    ensures ViewExtends(a, b)
  {
    forall o | o in a.owners ensures OwnerViewExtends(a.owners[o], b.owners[o]) {
      assert OwnerExtends(a.owners[o], b.owners[o]);
    }
  }

  lemma FollowsIsAcceptable(config: Config, proxy: ProxyConfig, earlier: State, later: State)
    requires Inv(config, earlier) && Inv(config, later) && StateExtends(earlier, later)
    requires forall o :: o in config ==> config[o].applications <= proxy.Keys
    ensures Acceptable(proxy, later, Some(earlier)) && Acceptable(proxy, later, None)
  {
    WiderRulesStaySound(config, proxy, earlier);
    WiderRulesStaySound(config, proxy, later);
    StateExtendsIsViewExtends(earlier, later);
    ContinuesIsExtends(proxy, earlier, later);
  }

  /**
   A proxy configured for every published application, and holding any earlier view of
   a router, accepts any later one, whatever commits and restarts lay between.
   */
  lemma SubscriberMaySkip(config: Config, proxy: ProxyConfig, earlier: State, steps: seq<Step>)
    requires Inv(config, earlier)
    requires forall o :: o in config ==> config[o].applications <= proxy.Keys
    ensures Acceptable(proxy, Run(config, earlier, steps), Some(earlier))
    ensures Acceptable(proxy, Run(config, earlier, steps), None)
  {
    var later := Run(config, earlier, steps);
    RunKeeps(config, earlier, steps);
    FollowsIsAcceptable(config, proxy, earlier, later);
  }
}
