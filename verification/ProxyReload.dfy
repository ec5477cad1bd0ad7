/**
 The static proxy: reloads numbered by generation with one validation in flight and one
 replaceable request waiting, and admission objects that are only weakly remembered
 between reloads but must be shared by all sessions of an application.
 */
module ProxyReload {
  import opened Wrappers
  import opened Sets

  const GLOBAL_LIMIT: nat := 1024

  type Port = nat

  /** An admission object is named by a number; `App` and sessions hold it strongly. */
  datatype App = App(name: string, targets: seq<string>, admission: nat)

  datatype Session = Session(name: string, admission: nat)

  datatype Semaphore = Semaphore(limit: nat, available: nat)

  /** The default number of sessions of an application, and what some are given instead. */
  datatype Limits = Limits(default: nat, overrides: map<string, nat>) {
    function For(name: string): nat {
      if name in overrides then overrides[name] else default
    }
  }

  datatype Item = Item(name: string, ports: seq<Port>, targets: seq<string>)

  datatype Progress = Unread | Preparing(done: nat) | Rejected

  /** A validation works on clones taken when it started, and holds what it has built. */
  datatype Validation = Validation(
    generation: nat,
    admissions: map<string, nat>,
    listeners: map<Port, nat>,
    built: map<Port, App>,
    bound: map<Port, nat>,
    config: seq<Item>,
    progress: Progress)
  {
    predicate Ready() {
      progress == Preparing(|config|)
    }

    predicate Over() {
      Ready() || progress == Rejected
    }
  }

  datatype Reloads = Reloads(generation: nat, flight: Option<Validation>, pending: Option<nat>)

  function PortCount(config: seq<Item>): nat {
    if config == [] then 0 else PortCount(config[..|config| - 1]) + |config[|config| - 1].ports|
  }

  predicate ItemOk(item: Item) {
    && 1 <= |item.name| <= 128 && item.ports != [] && 1 <= |item.targets| <= 64 && 0 !in item.ports
    && forall k, l :: 0 <= k < l < |item.ports| ==> item.ports[k] != item.ports[l]
  }

  /** What a configuration must be to be accepted, as far as names, ports and numbers of targets go. */
  predicate ConfigOk(config: seq<Item>) {
    && 1 <= |config| <= 64
    && (forall i, j :: 0 <= i < j < |config| ==> config[i].name != config[j].name)
    && (forall i :: 0 <= i < |config| ==> ItemOk(config[i]))
    && (forall i, j, p :: 0 <= i < j < |config| && p in config[i].ports ==> p !in config[j].ports)
    && PortCount(config) <= 256
  }

  predicate ListsPort(config: seq<Item>, i: nat, p: Port)
    requires i < |config|
  {
    p in config[i].ports
  }

  /** An application that cannot be served: its name, its listeners or its number of targets. */
  predicate Useless(item: Item) {
    || item.name == "" || 128 < |item.name| || item.targets == [] || 64 < |item.targets|
    || item.ports == [] || 0 in item.ports
    || exists k, l :: 0 <= k < l < |item.ports| && item.ports[k] == item.ports[l]
  }

  /** Why a configuration is refused: its size, a name given twice, a useless application, or a port given to two. */
  lemma RefusedConfigs(config: seq<Item>)
    ensures !ConfigOk(config) <==>
            || config == [] || 64 < |config| || 256 < PortCount(config)
            || (exists i, j :: 0 <= i < j < |config| && config[i].name == config[j].name)
            || (exists i :: 0 <= i < |config| && Useless(config[i]))
            || (exists i, j, p :: 0 <= i < j < |config| && ListsPort(config, i, p) && ListsPort(config, j, p))
  {
    forall i | 0 <= i < |config| ensures ItemOk(config[i]) <==> !Useless(config[i]) {
    }
    if ConfigOk(config) {
      forall i, j, p | 0 <= i < j < |config| && ListsPort(config, i, p) ensures !ListsPort(config, j, p) {
      }
    } else if forall i, j, p :: 0 <= i < j < |config| && ListsPort(config, i, p) ==> !ListsPort(config, j, p) {
      forall i, j, p | 0 <= i < j < |config| && p in config[i].ports ensures p !in config[j].ports {
        assert ListsPort(config, i, p);
        assert !ListsPort(config, j, p);
      }
    }
  }

  /** The routes of a configuration: each listed port to its application and targets, and no other port. */
  ghost predicate Routes(view: map<Port, App>, config: seq<Item>) {
    && (forall p {:trigger Mentions(config, p)} :: p in view ==> Mentions(config, p))
    && (forall i {:trigger Leads(view, config[i])} :: 0 <= i < |config| ==> Leads(view, config[i]))
  }

  predicate Mentions(config: seq<Item>, p: Port) {
    exists i :: 0 <= i < |config| && p in config[i].ports
  }

  predicate Leads(view: map<Port, App>, item: Item) {
    forall p :: p in item.ports ==> p in view && view[p].name == item.name && view[p].targets == item.targets
  }

  /// At every instant

  function Holding(sessions: map<nat, Session>, admission: nat): set<nat> {
    set s | s in sessions && sessions[s].admission == admission
  }

  function Named(sessions: map<nat, Session>, name: string): set<nat> {
    set s | s in sessions && sessions[s].name == name
  }

  /** Every object's free permits and sessions add up to its limit. */
  ghost predicate PermitsOk(permits: map<nat, Semaphore>, sessions: map<nat, Session>) {
    forall a {:trigger Balanced(permits, sessions, a)} :: a in permits ==> Balanced(permits, sessions, a)
  }

  predicate Balanced(permits: map<nat, Semaphore>, sessions: map<nat, Session>, a: nat)
    requires a in permits
  {
    permits[a].available + |Holding(sessions, a)| == permits[a].limit
  }

  ghost predicate MapOk(limits: Limits, permits: map<nat, Semaphore>, admissions: map<string, nat>) {
    forall name {:trigger admissions[name]} :: name in admissions ==>
      admissions[name] in permits && permits[admissions[name]].limit == limits.For(name)
  }

  /** What is in use under a name is what the map says. */
  ghost predicate ViewOk(view: map<Port, App>, admissions: map<string, nat>) {
    forall p {:trigger view[p]} :: p in view ==>
      view[p].name in admissions && admissions[view[p].name] == view[p].admission
  }

  ghost predicate SessionsOk(sessions: map<nat, Session>, admissions: map<string, nat>) {
    forall s {:trigger sessions[s]} :: s in sessions ==>
      sessions[s].name in admissions && admissions[sessions[s].name] == sessions[s].admission
  }

  /** At most one validation is in flight; behind an outdated one the newest request waits. */
  predicate ReloadsOk(r: Reloads) {
    match r.flight
    case None => r.pending == None
    case Some(v) =>
      && v.generation <= r.generation
      && r.pending == if v.generation == r.generation then None else Some(r.generation)
  }

  ghost predicate ValidationOk(
    limits: Limits, permits: map<nat, Semaphore>, view: map<Port, App>, sessions: map<nat, Session>,
    listeners: map<Port, nat>, v: Validation)
  {
    && v.listeners == listeners
    && MapOk(limits, permits, v.admissions)
    && ViewOk(view, v.admissions)
    && SessionsOk(sessions, v.admissions)
    && ViewOk(v.built, v.admissions)
    && v.bound.Keys == v.built.Keys
    && (forall p {:trigger v.bound[p]} :: p in v.bound && p in listeners ==> v.bound[p] == listeners[p])
  }

  /** What has been built so far is the routes of the applications prepared so far. */
  ghost predicate ProgressOk(v: Validation) {
    v.progress.Preparing? ==>
      ConfigOk(v.config) && v.progress.done <= |v.config| && Routes(v.built, v.config[..v.progress.done])
  }

  /** A number for a new object. */
  method Fresh(used: set<nat>) returns (n: nat)
    ensures n !in used
  {
    n := 0;
    var remaining := used;
    while remaining != {}
      invariant forall x :: x in used && x !in remaining ==> x < n
    {
      var x :| x in remaining;
      if n <= x {
        n := x + 1;
      }
      remaining := remaining - {x};
    }
  }

  ghost predicate AcceptsOk(view: map<Port, App>, listeners: map<Port, nat>, accepts: multiset<Port>) {
    listeners.Keys == view.Keys && accepts == multiset(listeners.Keys)
  }

  predicate HeldByView(view: map<Port, App>, a: nat) {
    exists p :: p in view && view[p].admission == a
  }

  predicate HeldBySession(sessions: map<nat, Session>, a: nat) {
    exists s :: s in sessions && sessions[s].admission == a
  }

  /// The proxy

  datatype Event =
    | Signal
    | Read(config: seq<Item>)
    | Prepare(bindable: set<Port>)
    | TimedOut
    | Completed
    | Accepted(port: Port, ok: bool)
    | Ended(session: nat)

  class Proxy {
    const limits: Limits
    var view: map<Port, App>
    var listeners: map<Port, nat>
    /** Weak references: they keep nothing alive. */
    var admissions: map<string, nat>
    var permits: map<nat, Semaphore>
    var sessions: map<nat, Session>
    var global: nat
    var accepts: multiset<Port>
    var reloads: Reloads
    var sockets: nat

    ghost predicate Inv()
      reads this
    {
      && PermitsOk(permits, sessions)
      && MapOk(limits, permits, admissions)
      && ViewOk(view, admissions)
      && SessionsOk(sessions, admissions)
      && global + |sessions| == GLOBAL_LIMIT
      && AcceptsOk(view, listeners, accepts)
      && ReloadsOk(reloads)
      && (reloads.flight.Some? ==>
            && ValidationOk(limits, permits, view, sessions, listeners, reloads.flight.value)
            && ProgressOk(reloads.flight.value))
    }

    /** Someone holds the object: the view, a session, or what a validation has built. */
    predicate Alive(a: nat, built: map<Port, App>)
      reads this
    {
      HeldByView(view, a) || HeldBySession(sessions, a) || HeldByView(built, a)
    }

    /** Starting up is the validation of generation 0. */
    constructor (limits: Limits)
      ensures Inv() && this.limits == limits && sessions == map[] && view == map[]
      ensures reloads.flight.Some? && reloads.flight.value.generation == reloads.generation
    {
      this.limits := limits;
      view, listeners, admissions, permits, sessions := map[], map[], map[], map[], map[];
      global, accepts, sockets := GLOBAL_LIMIT, multiset{}, 0;
      reloads := Reloads(0, Some(Validation(0, map[], map[], map[], map[], [], Unread)), None);
      new;
      assert accepts == multiset(view.Keys);
    }

    /** A new validation on clones of what is current. */
    function Started(generation: nat): Validation
      reads this
    {
      Validation(generation, admissions, listeners, map[], map[], [], Unread)
    }

    method OnSignal()
      requires Inv()
      modifies this`reloads
      ensures Inv()
      ensures reloads.generation == old(reloads).generation + 1
      ensures reloads.flight ==
              if old(reloads).flight.None? then Some(Started(reloads.generation)) else old(reloads).flight
    {
      var generation := reloads.generation + 1;
      reloads := if reloads.flight.None? then Reloads(generation, Some(Started(generation)), None)
                 else Reloads(generation, reloads.flight, Some(generation));
    }

    /** The configuration has been read; objects nobody holds are forgotten. */
    method OnRead(config: seq<Item>)
      requires Inv() && reloads.flight.Some? && reloads.flight.value.progress == Unread
      modifies this`reloads
      ensures Inv() && SameQueue(old(reloads), reloads)
      ensures ConfigOk(config) ==> reloads.flight.value.config == config
      ensures reloads.flight.value.progress == if ConfigOk(config) then Preparing(0) else Rejected
    {
      var v := reloads.flight.value;
      if !ConfigOk(config) {
        reloads := reloads.(flight := Some(Rejecting(v)));
        return;
      }
      var kept := map name | name in v.admissions && Alive(v.admissions[name], v.built) :: v.admissions[name];
      Retained(limits, permits, view, sessions, v.admissions, kept);
      var next := v.(admissions := kept, built := map[], bound := map[], config := config, progress := Preparing(0));
      reloads := reloads.(flight := Some(next));
    }

    /** The object a name is remembered with if anyone still holds it, or a new one. */
    method Admission(name: string, v: Validation) returns (a: nat, map': map<string, nat>)
      requires Inv() && ValidationOk(limits, permits, view, sessions, listeners, v)
      modifies this`permits
      ensures Inv() && ValidationOk(limits, permits, view, sessions, listeners, v.(admissions := map'))
      ensures name in map' && map'[name] == a
      ensures if name in v.admissions && Alive(v.admissions[name], v.built) then a == v.admissions[name]
              else a !in old(permits)
      ensures map' == v.admissions[name := a]
    {
      if name in v.admissions && Alive(v.admissions[name], v.built) {
        assert v.admissions[name := v.admissions[name]] == v.admissions;
        return v.admissions[name], v.admissions;
      }
      a := NewObject(name, v);
      map' := v.admissions[name := a];
    }

    /** A new object for a name that nobody holds one for. */
    method NewObject(name: string, v: Validation) returns (a: nat)
      requires Inv() && ValidationOk(limits, permits, view, sessions, listeners, v)
      requires !(name in v.admissions && Alive(v.admissions[name], v.built))
      modifies this`permits
      ensures Inv() && a !in old(permits)
      ensures ValidationOk(limits, permits, view, sessions, listeners, v.(admissions := v.admissions[name := a]))
    {
      a := Fresh(permits.Keys);
      ObjectAdded(limits, permits, sessions, admissions, a, limits.For(name));
      ObjectKept(limits, permits, v.admissions, a, limits.For(name));
      ViewForgets(view, v.admissions, name, a);
      ViewForgets(v.built, v.admissions, name, a);
      SessionsForget(sessions, v.admissions, name, a);
      permits := permits[a := Semaphore(limits.For(name), limits.For(name))];
    }

    /** Prepares one application; a listener already open on a port is kept, a failed bind rejects everything. */
    method OnPrepare(bindable: set<Port>)
      requires Inv() && reloads.flight.Some?
      requires reloads.flight.value.progress.Preparing? && !reloads.flight.value.Ready()
      modifies this`reloads, this`permits, this`sockets
      ensures Inv() && SameQueue(old(reloads), reloads)
      ensures var v := old(reloads).flight.value;
              && reloads.flight.value.config == v.config
              && reloads.flight.value.progress == if CanBind(v.config[v.progress.done].ports, bindable)
                                                  then Preparing(v.progress.done + 1) else Rejected
    {
      var v := reloads.flight.value;
      var item := v.config[v.progress.done];
      var a, admissions' := Admission(item.name, v);
      Bind(App(item.name, item.targets, a), bindable, v.(admissions := admissions'));
    }

    /** Every port is already open or can be opened. */
    predicate CanBind(ports: seq<Port>, bindable: set<Port>)
      reads this
    {
      forall p :: p in ports ==> p in listeners || p in bindable
    }

    method Bind(app: App, bindable: set<Port>, v: Validation)
      requires Inv() && reloads.flight.Some? && v == reloads.flight.value.(admissions := v.admissions)
      requires v.progress.Preparing? && !v.Ready() && ProgressOk(v)
      requires app.name == v.config[v.progress.done].name && app.targets == v.config[v.progress.done].targets
      requires app.name in v.admissions && v.admissions[app.name] == app.admission
      requires ValidationOk(limits, permits, view, sessions, listeners, v)
      modifies this`reloads, this`sockets
      ensures Inv() && SameQueue(old(reloads), reloads)
      ensures reloads.flight.value.config == v.config
      ensures reloads.flight.value.progress == if CanBind(v.config[v.progress.done].ports, bindable)
                                               then Preparing(v.progress.done + 1) else Rejected
    {
      var ok, next := BindPorts(app, v.config[v.progress.done].ports, bindable, v);
      if ok {
        MoreRoutes(v, next, app);
        Settle(next.(progress := Preparing(v.progress.done + 1)));
      } else {
        Settle(Rejecting(next));
      }
    }

    /** The validation in flight moves on. */
    method Settle(next: Validation)
      requires Inv() && reloads.flight.Some? && next.generation == reloads.flight.value.generation
      requires ValidationOk(limits, permits, view, sessions, listeners, next) && ProgressOk(next)
      modifies this`reloads, this`sockets
      ensures Inv() && SameQueue(old(reloads), reloads) && reloads.flight == Some(next)
    {
      reloads := reloads.(flight := Some(next));
      sockets := sockets + 1;
    }

    method BindPorts(app: App, ports: seq<Port>, bindable: set<Port>, start: Validation)
      returns (ok: bool, v: Validation)
      requires app.name in start.admissions && start.admissions[app.name] == app.admission
      requires ValidationOk(limits, permits, view, sessions, listeners, start)
      ensures ok <==> CanBind(ports, bindable)
      ensures ValidationOk(limits, permits, view, sessions, listeners, v)
      ensures v == start.(built := v.built, bound := v.bound)
      ensures ok ==> AddsRoutes(start.built, v.built, app, ports)
    {
      v := start;
      for k := 0 to |ports|
        invariant v == start.(built := v.built, bound := v.bound)
        invariant ValidationOk(limits, permits, view, sessions, listeners, v)
        invariant CanBind(ports[..k], bindable)
        invariant AddsRoutes(start.built, v.built, app, ports[..k])
      {
        var p := ports[k];
        if p !in listeners && p !in bindable {
          assert p in ports;
          return false, v;
        }
        PortBound(limits, permits, view, sessions, listeners, v, app, p, sockets);
        v := WithPort(v, app, p, sockets);
        assert ports[..k + 1] == ports[..k] + [p];
      }
      assert ports[..|ports|] == ports;
      return true, v;
    }

    method OnTimedOut()
      requires Inv() && reloads.flight.Some? && !reloads.flight.value.Over()
      modifies this`reloads
      ensures Inv() && SameQueue(old(reloads), reloads)
      ensures reloads.flight.value.progress == Rejected
    {
      reloads := reloads.(flight := Some(Rejecting(reloads.flight.value)));
    }

    /** Only the newest generation activates; the request that waited starts. */
    method OnCompleted()
      requires Inv() && reloads.flight.Some? && reloads.flight.value.Over()
      modifies this`view, this`listeners, this`admissions, this`accepts, this`reloads
      ensures Inv() && Completion(old(reloads), reloads)
      ensures reloads.flight.Some? ==> reloads.flight.value == Started(reloads.generation)
      ensures var v := old(reloads).flight.value;
              if v.generation == reloads.generation && v.Ready() then
                && Routes(view, v.config) && view == v.built && listeners == v.bound
                && forall p :: p in listeners && p in old(listeners) ==> listeners[p] == old(listeners)[p]
              else view == old(view) && listeners == old(listeners) && admissions == old(admissions)
    {
      var v := reloads.flight.value;
      if v.generation == reloads.generation && v.Ready() {
        assert v.config[..|v.config|] == v.config;
        Activate();
      } else {
        Next();
      }
    }

    method Activate()
      requires Inv() && reloads.flight.Some? && reloads.pending == None
      modifies this`view, this`listeners, this`admissions, this`accepts, this`reloads
      ensures Inv() && reloads == Reloads(old(reloads).generation, None, None)
      ensures view == old(reloads).flight.value.built && listeners == old(reloads).flight.value.bound
      ensures forall p :: p in listeners && p in old(listeners) ==> listeners[p] == old(listeners)[p]
    {
      var v := reloads.flight.value;
      AbortAccepts();
      view, listeners, admissions := v.built, v.bound, v.admissions;
      SpawnAccepts();
      reloads := reloads.(flight := None);
    }

    /** Aborts the outstanding accepts and waits for each. */
    method AbortAccepts()
      modifies this`accepts
      ensures accepts == multiset{}
    {
      while accepts != multiset{}
        decreases |accepts|
      {
        var port :| port in accepts;
        accepts := accepts - multiset{port};
      }
    }

    /** One accept on each listener, whatever order they are taken in. */
    method SpawnAccepts()
      requires accepts == multiset{}
      modifies this`accepts
      ensures accepts == multiset(listeners.Keys)
    {
      var remaining := listeners.Keys;
      assert listeners.Keys - remaining == {};
      while remaining != {}
        invariant remaining <= listeners.Keys
        invariant accepts == multiset(listeners.Keys - remaining)
      {
        var port :| port in remaining;
        AcceptOne(port);
        assert listeners.Keys - (remaining - {port}) == (listeners.Keys - remaining) + {port};
        remaining := remaining - {port};
      }
      assert listeners.Keys - remaining == listeners.Keys;
    }

    method AcceptOne(port: Port)
      modifies this`accepts
      ensures accepts == old(accepts) + multiset{port}
    {
      accepts := accepts + multiset{port};
    }

    method Next()
      requires Inv() && reloads.flight.Some?
      modifies this`reloads
      ensures Inv() && Completion(old(reloads), reloads)
      ensures reloads.flight.Some? ==> reloads.flight.value == Started(reloads.generation)
    {
      StartedIsOk(limits, permits, view, sessions, listeners, admissions, reloads.generation);
      reloads := Reloads(
        reloads.generation,
        if reloads.pending.Some? then Some(Started(reloads.pending.value)) else None,
        None);
    }

    /** An accept on a port ended and was replaced; a connection is served if both limits allow. */
    method OnAccepted(port: Port, ok: bool) returns (served: bool, s: nat)
      requires Inv() && port in accepts
      modifies this`accepts, this`permits, this`sessions, this`global
      ensures Inv() && accepts == old(accepts)
      ensures port in view
      ensures served <==>
                ok && view[port].targets != [] && old(permits)[view[port].admission].available > 0 && old(global) > 0
      ensures if served then
                s !in old(sessions) && sessions == old(sessions)[s := Session(view[port].name, view[port].admission)]
              else sessions == old(sessions) && permits == old(permits) && global == old(global)
    {
      Replace(port);
      var app := view[port];
      if !ok || app.targets == [] || permits[app.admission].available == 0 || global == 0 {
        return false, 0;
      }
      s := Admit(port);
      served := true;
    }

    /** The ended accept is taken out and a new one put in. */
    method Replace(port: Port)
      requires port in accepts
      modifies this`accepts
      ensures accepts == old(accepts)
    {
      accepts := accepts - multiset{port};
      AcceptOne(port);
    }

    method Admit(port: Port) returns (s: nat)
      requires Inv() && port in view
      requires permits[view[port].admission].available > 0 && global > 0
      modifies this`permits, this`sessions, this`global
      ensures Inv()
      ensures s !in old(sessions)
      ensures sessions == old(sessions)[s := Session(view[port].name, view[port].admission)]
    {
      var app := view[port];
      s := Fresh(sessions.Keys);
      SessionBegins(limits, permits, sessions, admissions, s, app);
      if reloads.flight.Some? {
        FlightAdmits(limits, permits, view, sessions, listeners, reloads.flight.value, s, app);
      }
      permits, sessions, global :=
        Acquired(permits, app.admission), sessions[s := Session(app.name, app.admission)], global - 1;
    }

    method OnEnded(s: nat)
      requires Inv() && s in sessions
      modifies this`permits, this`sessions, this`global
      ensures Inv() && sessions == old(sessions) - {s}
    {
      SessionEnds(limits, permits, sessions, admissions, s);
      if reloads.flight.Some? {
        FlightReleases(limits, permits, view, sessions, listeners, reloads.flight.value, s);
      }
      permits, sessions, global := Released(permits, sessions[s].admission), sessions - {s}, global + 1;
    }

    /** One event, ignored where it cannot happen: whether a validation was decided, and whether it was activated. */
    method Handle(e: Event) returns (decided: bool, activated: bool)
      requires Inv()
      modifies this
      ensures Inv() && Moved(old(reloads), reloads, e, decided)
      ensures activated ==> decided && old(reloads).flight.value.generation == reloads.generation
      ensures !activated ==> view == old(view) && listeners == old(listeners)
    {
      decided, activated := false, false;
      if e.Accepted? || e.Ended? {
        Connect(e);
      } else if e.Signal? {
        OnSignal();
      } else if e.Completed? {
        decided, activated := Complete();
      } else {
        Validate(e);
      }
    }

    method Connect(e: Event)
      requires Inv() && (e.Accepted? || e.Ended?)
      modifies this`accepts, this`permits, this`sessions, this`global
      ensures Inv()
    {
      if e.Accepted? && e.port in accepts {
        var served, s := OnAccepted(e.port, e.ok);
      } else if e.Ended? && e.session in sessions {
        OnEnded(e.session);
      }
    }

    method Complete() returns (decided: bool, activated: bool)
      requires Inv()
      modifies this`view, this`listeners, this`admissions, this`accepts, this`reloads
      ensures Inv() && if decided then Completion(old(reloads), reloads) else reloads == old(reloads)
      ensures activated ==> decided && old(reloads).flight.value.generation == reloads.generation
      ensures !activated ==> view == old(view) && listeners == old(listeners)
    {
      decided, activated := false, false;
      if reloads.flight.Some? && reloads.flight.value.Over() {
        decided := true;
        activated := reloads.flight.value.generation == reloads.generation && reloads.flight.value.Ready();
        OnCompleted();
      }
    }

    method Validate(e: Event)
      requires Inv()
      modifies this`reloads, this`permits, this`sockets
      ensures Inv() && SameQueue(old(reloads), reloads)
    {
      if reloads.flight.None? || reloads.flight.value.Over() {
        return;
      }
      var progress := reloads.flight.value.progress;
      if e.TimedOut? {
        OnTimedOut();
      } else if e.Read? && progress == Unread {
        OnRead(e.config);
      } else if e.Prepare? && progress.Preparing? {
        OnPrepare(e.bindable);
      }
    }

    /**
     Any interleaving of signals, validation steps, connections and session ends. The
     generations that activate only rise, and each was the newest when it did. Without
     further signals at most two completions are left, after which nothing is open, and
     only the newest generation may still activate.
     */
    method Serve(events: seq<Event>) returns (completions: nat, activations: seq<nat>)
      requires Inv()
      modifies this
      ensures Inv() && |activations| <= completions
      ensures Rising(activations) && forall i :: 0 <= i < |activations| ==> activations[i] <= reloads.generation
      ensures activations == [] ==> view == old(view) && listeners == old(listeners)
      ensures (forall i :: 0 <= i < |events| ==> !events[i].Signal?) ==>
                && reloads.generation == old(reloads).generation
                && completions + Undecided(reloads) == Undecided(old(reloads))
                && (activations == [] || (activations == [reloads.generation] && Undecided(reloads) == 0))
    {
      completions, activations := 0, [];
      for i := 0 to |events|
        invariant Inv() && |activations| <= completions && Rising(activations) && Before(activations, reloads)
        invariant activations == [] ==> view == old(view) && listeners == old(listeners)
        invariant (forall j :: 0 <= j < i ==> !events[j].Signal?) ==>
                    && reloads.generation == old(reloads).generation
                    && completions + Undecided(reloads) == Undecided(old(reloads))
                    && (activations == [] || (activations == [reloads.generation] && Undecided(reloads) == 0))
      {
        ghost var was := reloads;
        var decided, activated := Handle(events[i]);
        MovedStaysBefore(activations, was, reloads, events[i], decided, activated);
        if decided {
          completions := completions + 1;
        }
        if activated {
          activations := activations + [reloads.generation];
        }
      }
    }

    /** However reloads went, a name's sessions share one object and stay under its limit. */
    lemma SharedAndBounded(name: string)
      requires Inv()
      ensures forall s, t :: s in sessions && t in sessions && sessions[s].name == sessions[t].name ==>
                sessions[s].admission == sessions[t].admission
      ensures forall s, p :: s in sessions && p in view && sessions[s].name == view[p].name ==>
                sessions[s].admission == view[p].admission
      ensures |Named(sessions, name)| <= if name in limits.overrides then limits.overrides[name] else limits.default
      ensures |sessions| <= 1024
    {
      if s :| s in Named(sessions, name) {
        var a := sessions[s].admission;
        assert Named(sessions, name) <= Holding(sessions, a);
        SubsetIsSmaller(Named(sessions, name), Holding(sessions, a));
        assert permits[a].limit == limits.For(name) && Balanced(permits, sessions, a);
      }
    }

    /** There is exactly one outstanding accept on every listening port, and every such port has a route. */
    lemma OneAcceptPerListener(p: Port)
      requires Inv()
      ensures p in listeners <==> p in view
      ensures accepts[p] == if p in listeners then 1 else 0
    {
    }
  }

  /// The queue of reloads

  predicate SameQueue(a: Reloads, b: Reloads) {
    && b.generation == a.generation && b.pending == a.pending
    && match a.flight
       case None => b.flight == None
       case Some(v) => b.flight.Some? && b.flight.value.generation == v.generation
  }

  predicate Completion(a: Reloads, b: Reloads) {
    && a.flight.Some? && b.generation == a.generation && b.pending == None
    && match a.pending
       case None => b.flight == None
       case Some(next) => b.flight.Some? && b.flight.value.generation == next
  }

  predicate Signalled(a: Reloads, b: Reloads) {
    && b.generation == a.generation + 1
    && b.flight.Some?
    && b.flight.value.generation == if a.flight.Some? then a.flight.value.generation else b.generation
  }

  /** What one event does to the queue. */
  predicate Moved(a: Reloads, b: Reloads, e: Event, decided: bool) {
    if decided then !e.Signal? && Completion(a, b) else if e.Signal? then Signalled(a, b) else SameQueue(a, b)
  }

  /** How many completions are left before nothing is open, if no signal comes. */
  function Undecided(r: Reloads): nat {
    if r.flight.None? then 0 else if r.flight.value.generation == r.generation then 1 else 2
  }

  /** Each completion leaves one fewer, and nothing else but a signal changes their number. */
  lemma CompletionsDecide(a: Reloads, b: Reloads, e: Event, decided: bool)
    requires ReloadsOk(a) && Moved(a, b, e, decided) && !e.Signal?
    ensures b.generation == a.generation && Undecided(b) + (if decided then 1 else 0) == Undecided(a)
  {
  }

  predicate Rising(generations: seq<nat>) {
    forall i, j :: 0 <= i < j < |generations| ==> generations[i] < generations[j]
  }

  /** Everything activated so far is older than what is still open. */
  predicate Before(activations: seq<nat>, r: Reloads) {
    forall i :: 0 <= i < |activations| ==>
      activations[i] <= r.generation && (r.flight.Some? ==> activations[i] < r.flight.value.generation)
  }

  lemma MovedStaysBefore(activations: seq<nat>, a: Reloads, b: Reloads, e: Event, decided: bool, activated: bool)
    requires ReloadsOk(a) && Before(activations, a) && Moved(a, b, e, decided) && Rising(activations)
    requires activated ==> decided && a.flight.value.generation == b.generation
    ensures var next := if activated then activations + [b.generation] else activations;
            Before(next, b) && Rising(next)
    ensures !e.Signal? ==> b.generation == a.generation && Undecided(b) + (if decided then 1 else 0) == Undecided(a)
    ensures activated ==> Undecided(a) == 1 && Undecided(b) == 0
  {
    if !e.Signal? {
      CompletionsDecide(a, b, e, decided);
    }
  }

  function Rejecting(v: Validation): Validation {
    v.(progress := Rejected, built := map[], bound := map[])
  }

  function WithPort(v: Validation, app: App, p: Port, socket: nat): Validation {
    v.(built := v.built[p := app], bound := v.bound[p := if p in v.listeners then v.listeners[p] else socket])
  }

  /** The ports of one application are added, or taken over, and nothing else changes. */
  ghost predicate AddsRoutes(before: map<Port, App>, after: map<Port, App>, app: App, ports: seq<Port>) {
    && (forall p :: p in after <==> p in before || p in ports)
    && (forall p :: p in after ==> after[p] == if p in ports then app else before[p])
  }

  lemma MoreRoutes(v: Validation, next: Validation, app: App)
    requires ProgressOk(v) && v.progress.Preparing? && !v.Ready()
    requires var item := v.config[v.progress.done];
             app.name == item.name && app.targets == item.targets && AddsRoutes(v.built, next.built, app, item.ports)
    requires next.config == v.config
    ensures ProgressOk(next.(progress := Preparing(v.progress.done + 1)))
  {
    var done := v.progress.done;
    assert v.config[..done + 1] == v.config[..done] + [v.config[done]];
    ItemIsRouted(v.built, next.built, app, v.config[..done], v.config[done]);
  }

  lemma ItemIsRouted(view: map<Port, App>, after: map<Port, App>, app: App, config: seq<Item>, item: Item)
    requires Routes(view, config) && AddsRoutes(view, after, app, item.ports)
    requires app.name == item.name && app.targets == item.targets
    requires forall i, p :: 0 <= i < |config| && p in config[i].ports ==> p !in item.ports
    ensures Routes(after, config + [item])
  {
    var longer := config + [item];
    forall p | p in after ensures Mentions(longer, p) {
      if p in view {
        assert Mentions(config, p);
        var i :| 0 <= i < |config| && p in config[i].ports;
        assert p in longer[i].ports;
      } else {
        assert p in longer[|config|].ports;
      }
    }
    forall i | 0 <= i < |longer| ensures Leads(after, longer[i]) {
      if i < |config| {
        assert Leads(view, config[i]) && longer[i] == config[i];
      }
    }
  }

  /// Each event keeps what a validation relies on

  lemma PortBound(limits: Limits, permits: map<nat, Semaphore>, view: map<Port, App>, sessions: map<nat, Session>,
                  listeners: map<Port, nat>, v: Validation, app: App, p: Port, socket: nat)
    requires ValidationOk(limits, permits, view, sessions, listeners, v)
    requires app.name in v.admissions && v.admissions[app.name] == app.admission
    ensures ValidationOk(limits, permits, view, sessions, listeners, WithPort(v, app, p, socket))
  {
  }

  lemma FlightAdmits(limits: Limits, permits: map<nat, Semaphore>, view: map<Port, App>, sessions: map<nat, Session>,
                     listeners: map<Port, nat>, v: Validation, s: nat, app: App)
    requires ValidationOk(limits, permits, view, sessions, listeners, v) && s !in sessions
    requires app.name in v.admissions && v.admissions[app.name] == app.admission && permits[app.admission].available > 0
    ensures ValidationOk(limits, Acquired(permits, app.admission), view,
              sessions[s := Session(app.name, app.admission)], listeners, v)
  {
    SessionRemembered(limits, permits, sessions, v.admissions, s, app);
  }

  lemma FlightReleases(limits: Limits, permits: map<nat, Semaphore>, view: map<Port, App>, sessions: map<nat, Session>,
                       listeners: map<Port, nat>, v: Validation, s: nat)
    requires ValidationOk(limits, permits, view, sessions, listeners, v) && s in sessions
    requires sessions[s].admission in permits
    ensures ValidationOk(limits, Released(permits, sessions[s].admission), view, sessions - {s}, listeners, v)
  {
    SessionForgotten(limits, permits, sessions, v.admissions, s);
  }

  lemma StartedIsOk(limits: Limits, permits: map<nat, Semaphore>, view: map<Port, App>, sessions: map<nat, Session>,
                    listeners: map<Port, nat>, admissions: map<string, nat>, generation: nat)
    requires MapOk(limits, permits, admissions) && ViewOk(view, admissions) && SessionsOk(sessions, admissions)
    ensures ValidationOk(limits, permits, view, sessions, listeners,
              Validation(generation, admissions, listeners, map[], map[], [], Unread))
  {
  }

  /// Counting

  function Acquired(permits: map<nat, Semaphore>, a: nat): map<nat, Semaphore>
    requires a in permits && permits[a].available > 0
  {
    permits[a := permits[a].(available := permits[a].available - 1)]
  }

  function Released(permits: map<nat, Semaphore>, a: nat): map<nat, Semaphore>
    requires a in permits
  {
    permits[a := permits[a].(available := permits[a].available + 1)]
  }

  lemma ObjectAdded(limits: Limits, permits: map<nat, Semaphore>, sessions: map<nat, Session>,
                    admissions: map<string, nat>, a: nat, n: nat)
    requires PermitsOk(permits, sessions) && a !in permits
    requires MapOk(limits, permits, admissions) && SessionsOk(sessions, admissions)
    ensures PermitsOk(permits[a := Semaphore(n, n)], sessions)
    ensures MapOk(limits, permits[a := Semaphore(n, n)], admissions)
  {
    var after := permits[a := Semaphore(n, n)];
    forall b | b in after ensures Balanced(after, sessions, b) {
      if b == a {
        assert Holding(sessions, a) == {};
      } else {
        assert Balanced(permits, sessions, b);
      }
    }
    ObjectKept(limits, permits, admissions, a, n);
  }

  lemma ObjectKept(limits: Limits, permits: map<nat, Semaphore>, admissions: map<string, nat>, a: nat, n: nat)
    requires a !in permits && MapOk(limits, permits, admissions)
    ensures MapOk(limits, permits[a := Semaphore(n, n)], admissions)
    ensures forall name :: limits.For(name) == n ==> MapOk(limits, permits[a := Semaphore(n, n)], admissions[name := a])
  {
  }

  /** Giving a name a new object harms no view that did not hold the old one. */
  lemma ViewForgets(view: map<Port, App>, admissions: map<string, nat>, name: string, a: nat)
    requires ViewOk(view, admissions) && (name in admissions ==> !HeldByView(view, admissions[name]))
    ensures ViewOk(view, admissions[name := a])
  {
  }

  lemma SessionsForget(sessions: map<nat, Session>, admissions: map<string, nat>, name: string, a: nat)
    requires SessionsOk(sessions, admissions) && (name in admissions ==> !HeldBySession(sessions, admissions[name]))
    ensures SessionsOk(sessions, admissions[name := a])
  {
  }

  lemma Retained(limits: Limits, permits: map<nat, Semaphore>, view: map<Port, App>, sessions: map<nat, Session>,
                 admissions: map<string, nat>, kept: map<string, nat>)
    requires MapOk(limits, permits, admissions) && ViewOk(view, admissions) && SessionsOk(sessions, admissions)
    requires forall name :: name in kept ==> name in admissions && kept[name] == admissions[name]
    requires forall name ::
               name in admissions &&
               (HeldByView(view, admissions[name]) || HeldBySession(sessions, admissions[name])) ==>
               name in kept
    ensures MapOk(limits, permits, kept) && ViewOk(view, kept) && SessionsOk(sessions, kept)
  {
    forall p | p in view ensures view[p].name in kept && kept[view[p].name] == view[p].admission {
      assert HeldByView(view, view[p].admission);
    }
    forall s | s in sessions ensures sessions[s].name in kept && kept[sessions[s].name] == sessions[s].admission {
      assert HeldBySession(sessions, sessions[s].admission);
    }
  }

  lemma HoldingAdded(sessions: map<nat, Session>, s: nat, session: Session, a: nat)
    requires s !in sessions
    ensures |Holding(sessions[s := session], a)| == |Holding(sessions, a)| + if session.admission == a then 1 else 0
  {
    assert Holding(sessions[s := session], a) ==
           if session.admission == a then Holding(sessions, a) + {s} else Holding(sessions, a);
  }

  lemma HoldingRemoved(sessions: map<nat, Session>, s: nat, a: nat)
    requires s in sessions
    ensures |Holding(sessions - {s}, a)| == |Holding(sessions, a)| - if sessions[s].admission == a then 1 else 0
  {
    assert Holding(sessions - {s}, a) ==
           if sessions[s].admission == a then Holding(sessions, a) - {s} else Holding(sessions, a);
  }

  lemma SessionRemembered(limits: Limits, permits: map<nat, Semaphore>, sessions: map<nat, Session>,
                          admissions: map<string, nat>, s: nat, app: App)
    requires MapOk(limits, permits, admissions) && SessionsOk(sessions, admissions) && s !in sessions
    requires app.name in admissions && admissions[app.name] == app.admission && permits[app.admission].available > 0
    ensures MapOk(limits, Acquired(permits, app.admission), admissions)
    ensures SessionsOk(sessions[s := Session(app.name, app.admission)], admissions)
  {
  }

  lemma SessionBegins(limits: Limits, permits: map<nat, Semaphore>, sessions: map<nat, Session>,
                      admissions: map<string, nat>, s: nat, app: App)
    requires MapOk(limits, permits, admissions) && SessionsOk(sessions, admissions) && s !in sessions
    requires PermitsOk(permits, sessions)
    requires app.name in admissions && admissions[app.name] == app.admission && permits[app.admission].available > 0
    ensures MapOk(limits, Acquired(permits, app.admission), admissions)
    ensures SessionsOk(sessions[s := Session(app.name, app.admission)], admissions)
    ensures PermitsOk(Acquired(permits, app.admission), sessions[s := Session(app.name, app.admission)])
    ensures |sessions[s := Session(app.name, app.admission)]| == |sessions| + 1
  {
    SessionRemembered(limits, permits, sessions, admissions, s, app);
    var after := sessions[s := Session(app.name, app.admission)];
    assert after.Keys == sessions.Keys + {s};
    forall a | a in permits ensures Balanced(Acquired(permits, app.admission), after, a) {
      assert Balanced(permits, sessions, a);
      HoldingAdded(sessions, s, Session(app.name, app.admission), a);
    }
  }

  lemma SessionForgotten(limits: Limits, permits: map<nat, Semaphore>, sessions: map<nat, Session>,
                         admissions: map<string, nat>, s: nat)
    requires MapOk(limits, permits, admissions) && SessionsOk(sessions, admissions) && s in sessions
    ensures MapOk(limits, Released(permits, sessions[s].admission), admissions)
    ensures SessionsOk(sessions - {s}, admissions)
  {
  }

  lemma SessionEnds(limits: Limits, permits: map<nat, Semaphore>, sessions: map<nat, Session>,
                    admissions: map<string, nat>, s: nat)
    requires MapOk(limits, permits, admissions) && SessionsOk(sessions, admissions) && s in sessions
    requires PermitsOk(permits, sessions)
    ensures MapOk(limits, Released(permits, sessions[s].admission), admissions)
    ensures SessionsOk(sessions - {s}, admissions)
    ensures PermitsOk(Released(permits, sessions[s].admission), sessions - {s})
    ensures |sessions - {s}| == |sessions| - 1
  {
    SessionForgotten(limits, permits, sessions, admissions, s);
    var after := sessions - {s};
    assert sessions.Keys == after.Keys + {s};
    forall a | a in permits ensures Balanced(Released(permits, sessions[s].admission), after, a) {
      assert Balanced(permits, sessions, a);
      HoldingRemoved(sessions, s, a);
    }
  }
}
