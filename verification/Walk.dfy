/** A project, an endpoint on it, a suspend: calls in a row from the start; and a run that ends apart. */
module Walks {
  import opened Model
  import opened WarmPools
  import opened PoolLaws
  import opened Stores
  import opened Routing
  import opened ControlPlane
  import opened Runs
  import opened Calls
  import opened Serial
  import EndpointIds
  import Mocks
  import Sync
  import Divergence
  import Apps

  // ---- What one call leaves for the next ----

  /** A created project and its root branch are found. */
  lemma ProjectLeaves(w: World, d: Data, op: Id, j: Job, branch: Id, project: Id)
    requires j.req.ForProject?
    ensures var d' := ProjectCall(w, d, op, j, Some(branch), project).0;
      && GetProject(d', j.org, project).Some? && GetBranch(d', j.org, branch).Some? && d'.endpoints == d.endpoints
  {
  }

  ghost predicate AlwaysBoots(w: World) {
    forall n: nat :: w.boots(n).Booted?
  }

  const GRANTED := StartPorts(0, 0, true, true)

  /** An endpoint started on a branch that is found is registered and active in both places. */
  lemma EndpointLeaves(w: World, p: Parts, op: Id, j: Job, ep: Id)
    requires AlwaysBoots(w) && j.req.ForEndpoint? && GetBranch(p.data, j.org, j.req.onBranch).Some?
    ensures var p' := EndpointCall(w, p, op, j, GRANTED, ep).0;
      && ep in p'.reg.table && Sync.RouteStateOf(p'.reg, ep) == Some(RouteActive)
      && GetEndpoint(p'.data, j.org, ep).Some? && Sync.StoreState(p'.data, ep) == Some(EndpointActive)
  {
    var (pool, a) := AcquireFrom(p.pool, w.boots, w.policy, 0, 0);
    assert a.Ok();
    HeldLeaves(p.(pool := pool), op, j.(got := a), ep);
  }

  lemma HeldLeaves(p: Parts, op: Id, j: Job, ep: Id)
    requires j.req.ForEndpoint? && j.got.Ok()
    ensures var p' := EndpointHeld(p, op, j, true, ep).0;
      && ep in p'.reg.table && Sync.RouteStateOf(p'.reg, ep) == Some(RouteActive)
      && GetEndpoint(p'.data, j.org, ep).Some? && Sync.StoreState(p'.data, ep) == Some(EndpointActive)
  {
  }

  /** A suspend of an endpoint active in both places leaves it suspended in both. */
  lemma SuspendLeaves(d: Data, reg: Registry, org: Id, ep: Id)
    requires GetEndpoint(d, org, ep).Some? && Sync.StoreState(d, ep) == Some(EndpointActive)
    requires Sync.RouteStateOf(reg, ep).Some?
    ensures var (d', reg', done) := SuspendCall(d, reg, org, ep, true);
      && done && ep in reg'.table && Sync.RouteStateOf(reg', ep) == Some(RouteSuspended)
      && GetEndpoint(d', org, ep).Some? && Sync.StoreState(d', ep) == Some(EndpointSuspended)
  {
  }

  lemma Chain(w: World, s: State, t: State, u: State, a: seq<Event>, b: seq<Event>)
    requires EventsTo(w, s, t, a) && EventsTo(w, t, u, b)
    ensures EventsTo(w, s, u, a + b)
  {
    Join(w, s, a, b);
  }

  const FIRST_BYTES: seq<EndpointIds.byte> := [0, 0, 0, 0, 0, 0, 0, 0, 0]

  lemma AnEndpointId() returns (ep: Id)
    ensures EndpointIds.IsNewId("ep", ep) && |ep| > 2
  {
    ep := EndpointIds.NewId("ep", FIRST_BYTES);
    EndpointIds.NewIdShape("ep", FIRST_BYTES);
  }

  lemma FirstProject(w: World, now: int, org: Id) returns (events: seq<Event>, s: State)
    requires Fresh(w.boots)
    ensures EventsTo(w, Initial(w, now), s, events) && Alone(w, Nobody, s)
    ensures GetBranch(s.data, org, "b").Some? && s.suspends == map[] && s.resolves == map[]
    ensures forall id :: id != "1" && id != "p" && id != "b" ==> Unused(s, id)
  {
    var s0 := Initial(w, now);
    Starts(w, now);
    s := WholeProject(w, s0, "1", org, "", Some("b"), "p");
    ProjectLeaves(w, WithOp(s0.data, "1", org, ForProject("")), "1", NewJob(org, ForProject("")), "b", "p");
    events := RanTo(w, s0, Begin("1", org, ForProject("")), OfJob("1"), s);
  }

  lemma NextEndpoint(w: World, s: State, org: Id, ep: Id) returns (events: seq<Event>, t: State)
    requires Alone(w, Nobody, s) && AlwaysBoots(w) && GetBranch(s.data, org, "b").Some?
    requires Unused(s, "2") && Unused(s, ep) && ep != "2" && EndpointIds.IsNewId("ep", ep)
    ensures EventsTo(w, s, t, events) && Alone(w, Nobody, t) && t.suspends == s.suspends && t.resolves == s.resolves
    ensures ep in t.reg.table && Sync.RouteStateOf(t.reg, ep) == Some(RouteActive)
    ensures GetEndpoint(t.data, org, ep).Some? && Sync.StoreState(t.data, ep) == Some(EndpointActive)
  {
    var req := ForEndpoint("b", 0.0, 0.0);
    t := WholeEndpoint(w, s, "2", org, "b", 0.0, 0.0, GRANTED, ep);
    EndpointLeaves(w, Parts(WithOp(s.data, "2", org, req), s.pool, s.reg), "2", NewJob(org, req), ep);
    events := RanTo(w, s, Begin("2", org, req), OfJob("2"), t);
  }

  lemma NextSuspend(w: World, s: State, org: Id, ep: Id) returns (events: seq<Event>, t: State)
    requires Alone(w, Nobody, s) && s.suspends == map[]
    requires GetEndpoint(s.data, org, ep).Some? && Sync.StoreState(s.data, ep) == Some(EndpointActive)
    requires Sync.RouteStateOf(s.reg, ep).Some?
    ensures EventsTo(w, s, t, events) && Alone(w, Nobody, t) && t.suspends.Keys == {0} && t.resolves == s.resolves
    ensures ep in t.reg.table && GetEndpoint(t.data, org, ep).Some?
    ensures Sync.RouteStateOf(t.reg, ep) == Some(RouteSuspended) && Sync.StoreState(t.data, ep) == Some(EndpointSuspended)
  {
    t := WholeSuspend(w, s, 0, org, ep, true);
    SuspendLeaves(s.data, s.reg, org, ep);
    events := RanTo(w, s, BeginSuspend(0, org, ep), OfSuspend(0), t);
  }

  /** From the start, a project, an endpoint on its root branch and a suspend lead to rest with the endpoint
      suspended in table and store. */
  lemma SuspendedEndpoint(w: World, now: int, org: Id) returns (events: seq<Event>, s: State, ep: Id)
    requires Fresh(w.boots) && AlwaysBoots(w)
    ensures EventsTo(w, Initial(w, now), s, events) && Alone(w, Nobody, s)
    ensures ep in s.reg.table && GetEndpoint(s.data, org, ep).Some?
    ensures Sync.RouteStateOf(s.reg, ep) == Some(RouteSuspended) && Sync.StoreState(s.data, ep) == Some(EndpointSuspended)
    ensures s.suspends.Keys == {0} && s.resolves == map[]
  {
    ep := AnEndpointId();
    var e1, s1 := FirstProject(w, now, org);
    var e2, s2 := NextEndpoint(w, s1, org, ep);
    var e3, s3 := NextSuspend(w, s2, org, ep);
    Chain(w, Initial(w, now), s1, s2, e1, e2);
    Chain(w, Initial(w, now), s2, s3, e1 + e2, e3);
    events, s := e1 + e2 + e3, s3;
  }

  lemma AloneIsIdle(w: World, s: State)
    requires Alone(w, Nobody, s)
    ensures Sync.Idle(s)
  {
  }

  /** A run from the start that ends at rest with table and store apart. */
  lemma DivergentRun(w: World, now: int) returns (events: seq<Event>, ep: Id)
    requires Fresh(w.boots) && AlwaysBoots(w)
    ensures CanDo(w, Initial(w, now), events)
    ensures var t := After(w, Initial(w, now), events);
      Sync.Idle(t) && ep in t.reg.table && !Sync.Agree(t, ep)
  {
    var a, s, x := SuspendedEndpoint(w, now, "");
    var luck := Luck(true, "", 0, 0);
    AloneIsIdle(w, s);
    var b := Divergence.DivergenceHappens(w, s, 0, 1, x, luck);
    Join(w, Initial(w, now), a, b);
    events, ep := a + b, x;
    ReachesStart(w, now);
    ReachesAfter(w, Initial(w, now), events);
    Apart(After(w, Initial(w, now), events), x);
  }

  lemma Apart(t: State, x: Id)
    requires !Sync.Agree(t, x)
    ensures x in t.reg.table
  {
  }

  /** And there are such worlds. */
  lemma SomeWorld() returns (w: World)
    ensures Fresh(w.boots) && AlwaysBoots(w)
  {
    Mocks.EndlessBootsFresh("");
    w := World(Mocks.EndlessBoots(""), LoadProportionalPolicy(1.5, 2, 64), "");
  }

  // ---- The same on the objects, and awake again ----

  /** A created branch takes no other away. */
  lemma BranchLeaves(d: Data, op: Id, j: Job, branch: Id, other: Id)
    requires j.req.ForBranch? && branch != other && GetBranch(d, j.org, other).Some?
    ensures GetBranch(BranchCall(d, op, j, Some(branch)).0, j.org, other).Some?
  {
  }

  /** Connecting to an endpoint that sleeps wakes it. */
  lemma WakeLeaves(w: World, s: State, ep: Id)
    requires Alone(w, Nobody, s) && AlwaysBoots(w) && ep in s.reg.table && Sync.RouteStateOf(s.reg, ep) == Some(RouteSuspended)
    ensures var (p, o) := ResolveCall(w, PartsOf(s), ep, WakePorts(0, 0, true));
      && o.Answered? && Sync.StoreState(p.data, ep) == Some(EndpointActive) && Sync.RouteStateOf(p.reg, ep) == Some(RouteActive)
  {
    Sync.KnownState(w, s, ep);
    SleeperWakes(w, PartsOf(s), ep);
  }

  lemma SleeperWakes(w: World, p: Parts, ep: Id)
    requires AlwaysBoots(w) && p.reg.Valid() && ep in p.reg.table && Sync.RouteStateOf(p.reg, ep) == Some(RouteSuspended)
    requires Sync.Alive(Sync.StoreState(p.data, ep))
    ensures var (p', o) := ResolveCall(w, p, ep, WakePorts(0, 0, true));
      && o.Answered? && Sync.StoreState(p'.data, ep) == Some(EndpointActive) && Sync.RouteStateOf(p'.reg, ep) == Some(RouteActive)
  {
    assert AcquireFrom(p.pool, w.boots, w.policy, 0, 0).1.Ok();
  }

  method ProjectIt(a: Apps.App, org: Id)
    requires a.Valid() && forall id :: Unused(a.m, id)
    modifies a`m, a.store
    ensures a.Valid() && a.m.suspends == old(a.m.suspends) && a.m.resolves == old(a.m.resolves)
    ensures GetBranch(a.m.data, org, "b").Some? && forall id :: |id| > 1 || id == "3" || id == "c" ==> Unused(a.m, id)
  {
    ProjectLeaves(a.w, WithOp(a.m.data, "1", org, ForProject("")), "1", NewJob(org, ForProject("")), "b", "p");
    a.CreateProject("1", org, "", Some("b"), "p");
  }

  method BranchIt(a: Apps.App, org: Id)
    requires a.Valid() && GetBranch(a.m.data, org, "b").Some? && Unused(a.m, "3") && Unused(a.m, "c")
    modifies a`m, a.store
    ensures a.Valid() && a.m.suspends == old(a.m.suspends) && a.m.resolves == old(a.m.resolves)
    ensures GetBranch(a.m.data, org, "b").Some? && forall id :: |id| > 1 && old(Unused(a.m, id)) ==> Unused(a.m, id)
  {
    BranchLeaves(WithOp(a.m.data, "3", org, ForBranch("p", "b")), "3", NewJob(org, ForBranch("p", "b")), "c", "b");
    a.CreateBranch("3", org, "p", "b", Some("c"));
  }

  method StartIt(a: Apps.App, org: Id, ep: Id)
    requires a.Valid() && AlwaysBoots(a.w) && GetBranch(a.m.data, org, "b").Some?
    requires Unused(a.m, "op") && Unused(a.m, ep) && ep != "op" && EndpointIds.IsNewId("ep", ep)
    modifies a`m, a.store, a.storage, a.warmpool, a.registry
    ensures a.Valid() && a.m.suspends == old(a.m.suspends) && a.m.resolves == old(a.m.resolves)
    ensures old(a.registry.cells) <= a.registry.cells && fresh(a.registry.cells[|old(a.registry.cells)|..])
    ensures ep in a.m.reg.table && Sync.RouteStateOf(a.m.reg, ep) == Some(RouteActive)
    ensures GetEndpoint(a.m.data, org, ep).Some? && Sync.StoreState(a.m.data, ep) == Some(EndpointActive)
  {
    ghost var req := ForEndpoint("b", 0.0, 0.0);
    EndpointLeaves(a.w, Parts(WithOp(a.m.data, "op", org, req), a.m.pool, a.m.reg), "op", NewJob(org, req), ep);
    a.StartEndpoint("op", org, "b", 0.0, 0.0, GRANTED, ep);
  }

  method SuspendIt(a: Apps.App, org: Id, ep: Id)
    requires a.Valid() && a.m.suspends == map[]
    requires GetEndpoint(a.m.data, org, ep).Some? && Sync.StoreState(a.m.data, ep) == Some(EndpointActive)
    requires Sync.RouteStateOf(a.m.reg, ep).Some?
    modifies a`m, a.store, a.registry.cells
    ensures a.Valid() && a.m.resolves == old(a.m.resolves)
    ensures ep in a.m.reg.table && Sync.RouteStateOf(a.m.reg, ep) == Some(RouteSuspended)
  {
    SuspendLeaves(a.m.data, a.m.reg, org, ep);
    var ok := a.SuspendEndpoint(org, ep, true, 0);
  }

  method WakeIt(a: Apps.App, ep: Id) returns (o: Outcome)
    requires a.Valid() && AlwaysBoots(a.w) && a.m.resolves == map[]
    requires ep in a.m.reg.table && Sync.RouteStateOf(a.m.reg, ep) == Some(RouteSuspended)
    modifies a`m, a.store, a.storage, a.warmpool, a.registry.cells
    ensures a.Valid() && o.Answered?
    ensures Sync.StoreState(a.m.data, ep) == Some(EndpointActive) && Sync.RouteStateOf(a.m.reg, ep) == Some(RouteActive)
  {
    WakeLeaves(a.w, a.m, ep);
    o := a.Resolve(ep, WakePorts(0, 0, true), 0);
  }

  method Prepared(w: World, now: int, org: Id) returns (a: Apps.App)
    requires Fresh(w.boots)
    ensures fresh(a) && fresh(a.store) && fresh(a.storage) && fresh(a.warmpool) && fresh(a.registry) && fresh(a.registry.cells)
    ensures a.Valid() && a.w == w && a.m.suspends == map[] && a.m.resolves == map[] && a.registry.cells == []
    ensures GetBranch(a.m.data, org, "b").Some? && forall id :: |id| > 1 ==> Unused(a.m, id)
  {
    a := new Apps.App(w, now);
    ProjectIt(a, org);
    BranchIt(a, org);
  }

  method Started(w: World, now: int, org: Id, ep: Id) returns (a: Apps.App)
    requires Fresh(w.boots) && AlwaysBoots(w) && EndpointIds.IsNewId("ep", ep) && |ep| > 2
    ensures fresh(a) && fresh(a.store) && fresh(a.storage) && fresh(a.warmpool) && fresh(a.registry) && fresh(a.registry.cells)
    ensures a.Valid() && a.w == w && a.m.suspends == map[] && a.m.resolves == map[]
    ensures GetEndpoint(a.m.data, org, ep).Some? && Sync.StoreState(a.m.data, ep) == Some(EndpointActive)
    ensures Sync.RouteStateOf(a.m.reg, ep).Some?
  {
    a := Prepared(w, now, org);
    StartIt(a, org, ep);
    assert a.registry.cells[0..] == a.registry.cells;
  }

  method Asleep(w: World, now: int, org: Id, ep: Id) returns (a: Apps.App)
    requires Fresh(w.boots) && AlwaysBoots(w) && EndpointIds.IsNewId("ep", ep) && |ep| > 2
    ensures fresh(a) && fresh(a.store) && fresh(a.storage) && fresh(a.warmpool) && fresh(a.registry) && fresh(a.registry.cells)
    ensures a.Valid() && a.w == w && a.m.resolves == map[]
    ensures ep in a.m.reg.table && Sync.RouteStateOf(a.m.reg, ep) == Some(RouteSuspended)
  {
    a := Started(w, now, org, ep);
    SuspendIt(a, org, ep);
  }

  /** A new application, and one call of each kind in a row: the endpoint is awake again in both places. */
  method Walk(w: World, now: int, org: Id, ep: Id) returns (a: Apps.App, o: Outcome)
    requires Fresh(w.boots) && AlwaysBoots(w) && EndpointIds.IsNewId("ep", ep) && |ep| > 2
    ensures fresh(a) && a.Valid() && a.w == w && o.Answered?
    ensures Sync.StoreState(a.m.data, ep) == Some(EndpointActive) && Sync.RouteStateOf(a.m.reg, ep) == Some(RouteActive)
  {
    a := Asleep(w, now, org, ep);
    o := WakeIt(a, ep);
  }
}
