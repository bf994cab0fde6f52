/** The application object: its methods do each call's work, in the source's order, on the real store, warm
    pool and registry, and leave them as the machine does. */
module Apps {
  import opened Model
  import opened WarmPools
  import PoolLaws
  import opened Stores
  import opened Routing
  import opened ControlPlane
  import opened Calls
  import opened Serial
  import EndpointIds

  class App {
    const store: Store
    const storage: BootPort
    const warmpool: WarmPool
    const registry: RoutingRegistry
    const w: World
    ghost var m: State    // the machine's state after the calls made so far

    ghost predicate Wired()
      reads this, storage, warmpool
    {
      warmpool.storage == storage && storage.boots == w.boots && warmpool.policy == w.policy
    }

    ghost predicate Matches()
      reads this, store, storage, warmpool, registry, registry.cells
    {
      && Wired() && registry.Valid()
      && store.View() == m.data && warmpool.View() == m.pool && registry.View() == m.reg
    }

    /** The objects hold a reachable state of the machine, with no call under way and every registered
        endpoint in the same state in table and store. */
    ghost predicate Valid()
      reads this, store, storage, warmpool, registry, registry.cells
    {
      Matches() && Alone(w, Nobody, m)
    }

    constructor (w: World, now: int)
      requires PoolLaws.Fresh(w.boots)
      ensures Valid() && this.w == w && m == Initial(w, now)
      ensures fresh(store) && fresh(storage) && fresh(warmpool) && fresh(registry) && fresh(registry.cells)
    {
      this.w := w;
      store := new Store();
      var port := new BootPort(w.boots);
      storage := port;
      warmpool := new WarmPool(port, w.policy, now);
      registry := new RoutingRegistry();
      m := Initial(w, now);
      Starts(w, now);
    }

    // ---- The calls' own work ----

    method RunProject(op: Id, org: Id, name: string, branch: Option<Id>, project: Id)
      modifies store
      ensures var req := ForProject(name);
        store.View() == ProjectCall(w, WithOp(old(store.View()), op, org, req), op, NewJob(org, req), branch, project).0
    {
      store.Insert(OperationRecord(Operation(op, org, OpKind.CreateProject, Running, NoResult)));
      if branch.None? {
        store.Fail(op);
        return;
      }
      store.Insert(ProjectRecord(Project(project, org, name, w.region, branch.value)));
      store.Insert(BranchRecord(Branch(branch.value, org, project, "", BranchReady)));
      store.Meter(MeteringEvent(org, BranchOps, 1.0));
      store.Complete(op, ProjectResult(project, branch.value));
    }

    method RunBranch(op: Id, org: Id, parentProject: Id, parent: Id, branch: Option<Id>)
      modifies store
      ensures var req := ForBranch(parentProject, parent);
        store.View() == BranchCall(WithOp(old(store.View()), op, org, req), op, NewJob(org, req), branch).0
    {
      store.Insert(OperationRecord(Operation(op, org, OpKind.CreateBranch, Running, NoResult)));
      var p := store.LookupProject(org, parentProject);
      if p.None? || branch.None? {
        store.Fail(op);
        return;
      }
      store.Insert(BranchRecord(Branch(branch.value, org, parentProject, parent, BranchCreating)));
      var _ := store.MoveBranch(org, branch.value, BranchReady);
      store.Meter(MeteringEvent(org, BranchOps, 1.0));
      store.Complete(op, BranchResult(branch.value));
    }

    method RunEndpoint(op: Id, org: Id, branch: Id, minCU: real, maxCU: real, ports: StartPorts, ep: Id)
      requires Wired() && registry.Valid()
      modifies store, storage, warmpool, registry
      ensures Wired() && registry.Valid() && old(registry.cells) <= registry.cells && fresh(registry.cells[|old(registry.cells)|..])
      ensures var req := ForEndpoint(branch, minCU, maxCU);
        Parts(store.View(), warmpool.View(), registry.View()) ==
        EndpointCall(w, Parts(WithOp(old(store.View()), op, org, req), old(warmpool.View()), old(registry.View())), op, NewJob(org, req), ports, ep).0
    {
      store.Insert(OperationRecord(Operation(op, org, OpKind.StartEndpoint, Running, NoResult)));
      var b := store.LookupBranch(org, branch);
      if b.None? {
        store.Fail(op);
        return;
      }
      Boot(op, NewJob(org, ForEndpoint(branch, minCU, maxCU)), Endpoint(ep, org, branch, EndpointCreating, minCU, maxCU), ports);
    }

    /** StartEndpoint once the branch is found. */
    method Boot(op: Id, ghost j: Job, e: Endpoint, ports: StartPorts)
      requires Wired() && registry.Valid()
      requires j.req == ForEndpoint(e.branch, e.minCU, e.maxCU) && j.org == e.org && e.state == EndpointCreating
      modifies store, storage, warmpool, registry
      ensures Wired() && registry.Valid() && old(registry.cells) <= registry.cells && fresh(registry.cells[|old(registry.cells)|..])
      ensures var (pool, a) := AcquireFrom(old(warmpool.View()), w.boots, w.policy, ports.stamp, ports.now);
        Parts(store.View(), warmpool.View(), registry.View()) ==
        if a.Ok() then EndpointHeld(Parts(old(store.View()), pool, old(registry.View())), op, j.(got := a), ports.attached && ports.issued, e.id).0
        else Parts(FailOp(old(store.View()), op), pool, old(registry.View()))
    {
      var a := warmpool.Acquire(ports.stamp, ports.now);
      if !a.Ok() {
        store.Fail(op);
        return;
      }
      Launch(op, e, a, ports.attached && ports.issued);
    }

    /** The end of StartEndpoint, with a compute instance in hand. */
    method Launch(op: Id, e: Endpoint, a: Acquired, granted: bool)
      requires registry.Valid() && a.Ok()
      modifies store, registry
      ensures registry.Valid() && old(registry.cells) <= registry.cells && fresh(registry.cells[|old(registry.cells)|..])
      ensures registry.View() == if granted then AddRoute(old(registry.View()), e.id, a.inst.host, RouteActive) else old(registry.View())
      ensures store.View() ==
        if !granted then FailOp(old(store.View()), op)
        else CompleteOp(AddMetering(
          TransitionEndpoint(Put(old(store.View()), EndpointRecord(e)), e.org, e.id, EndpointActive), MeteringEvent(e.org, CuHours, 0.0)),
          op, EndpointResult(e.id, a.BootMs(), a.Hit?))
    {
      if !granted {
        store.Fail(op);
        return;
      }
      store.Insert(EndpointRecord(e));
      var _ := store.MoveEndpoint(e.org, e.id, EndpointActive);
      registry.Register(e.id, a.inst.host, RouteActive);
      store.Meter(MeteringEvent(e.org, CuHours, 0.0));
      store.Complete(op, EndpointResult(e.id, a.BootMs(), a.Hit?));
    }

    method RunSuspend(org: Id, ep: Id, suspended: bool) returns (ok: bool)
      requires registry.Valid()
      modifies store, registry.cells
      ensures registry.Valid()
      ensures (store.View(), registry.View(), ok) == SuspendCall(old(store.View()), old(registry.View()), org, ep, suspended)
    {
      var e := store.LookupEndpoint(org, ep);
      if e.None? || !suspended {
        return false;
      }
      registry.SetState(ep, RouteSuspended);
      ok := store.MoveEndpoint(org, ep, EndpointSuspended);
    }

    /** The wake hook. */
    method Wake(ep: Id, ports: WakePorts) returns (o: Outcome)
      requires Wired()
      modifies store, storage, warmpool
      ensures Wired()
      ensures (store.View(), warmpool.View(), o) == WakeCall(w, old(store.View()), old(warmpool.View()), ep, ports)
    {
      var e := store.LookupEndpointRef(ep);
      if e.None? {
        return Gone;
      }
      var a := warmpool.Acquire(ports.stamp, ports.now);
      if !a.Ok() || !ports.attached {
        return WakeFailed;
      }
      var _ := store.MoveEndpoint(e.value.org, ep, EndpointActive);
      o := Outcome.Answered(a.inst.host, a.BootMs());
    }

    method RunResolve(ep: Id, ports: WakePorts) returns (o: Outcome)
      requires Wired() && registry.Valid()
      modifies store, storage, warmpool, registry.cells
      ensures Wired() && registry.Valid()
      ensures (Parts(store.View(), warmpool.View(), registry.View()), o) ==
        ResolveCall(w, Parts(old(store.View()), old(warmpool.View()), old(registry.View())), ep, ports)
    {
      var b, ref := registry.Lookup(ep);
      if b == null {
        return NotFound;
      }
      if b.state == RouteActive {
        return Outcome.Answered(b.addr, 0);
      }
      o := Wake(ep, ports);
      if o.Answered? {
        registry.Install(b, ref, o.addr);
      }
    }

    // ---- The calls beside the machine ----

    /** `branch` is what the storage port answers; `op`, `project` and it are the ids made. */
    method CreateProject(op: Id, org: Id, name: string, branch: Option<Id>, project: Id)
      requires Valid() && Unused(m, op) && Unused(m, project) && project != op
      requires branch.Some? ==> Unused(m, branch.value) && branch.value != op && branch.value != project
      modifies this`m, store
      ensures Valid() && Ran(w, old(m), Begin(op, org, ForProject(name)), OfJob(op), m)
      ensures var req := ForProject(name);
        var (d, j) := ProjectCall(w, WithOp(old(m.data), op, org, req), op, NewJob(org, req), branch, project);
        && store.View() == d && warmpool.View() == old(m.pool) && registry.View() == old(m.reg)
        && m.jobs == old(m.jobs)[op := j] && m.suspends == old(m.suspends) && m.resolves == old(m.resolves)
      ensures forall id :: old(Unused(m, id)) && id != op && id != project && branch != Some(id) ==> Unused(m, id)
    {
      RunProject(op, org, name, branch, project);
      m := WholeProject(w, m, op, org, name, branch, project);
    }

    method CreateBranch(op: Id, org: Id, parentProject: Id, parent: Id, branch: Option<Id>)
      requires Valid() && Unused(m, op)
      requires branch.Some? ==> Unused(m, branch.value) && branch.value != op
      modifies this`m, store
      ensures Valid() && Ran(w, old(m), Begin(op, org, ForBranch(parentProject, parent)), OfJob(op), m)
      ensures var req := ForBranch(parentProject, parent);
        var (d, j) := BranchCall(WithOp(old(m.data), op, org, req), op, NewJob(org, req), branch);
        && store.View() == d && warmpool.View() == old(m.pool) && registry.View() == old(m.reg)
        && m.jobs == old(m.jobs)[op := j] && m.suspends == old(m.suspends) && m.resolves == old(m.resolves)
      ensures forall id :: old(Unused(m, id)) && id != op && branch != Some(id) ==> Unused(m, id)
    {
      RunBranch(op, org, parentProject, parent, branch);
      m := WholeBranch(w, m, op, org, parentProject, parent, branch);
    }

    method StartEndpoint(op: Id, org: Id, branch: Id, minCU: real, maxCU: real, ports: StartPorts, ep: Id)
      requires Valid() && Unused(m, op) && Unused(m, ep) && ep != op && EndpointIds.IsNewId("ep", ep)
      modifies this`m, store, storage, warmpool, registry
      ensures Valid() && Ran(w, old(m), Begin(op, org, ForEndpoint(branch, minCU, maxCU)), OfJob(op), m)
      ensures old(registry.cells) <= registry.cells && fresh(registry.cells[|old(registry.cells)|..])
      ensures var req := ForEndpoint(branch, minCU, maxCU);
        var (p, j) := EndpointCall(w, Parts(WithOp(old(m.data), op, org, req), old(m.pool), old(m.reg)), op, NewJob(org, req), ports, ep);
        && Parts(store.View(), warmpool.View(), registry.View()) == p
        && m.jobs == old(m.jobs)[op := j] && m.suspends == old(m.suspends) && m.resolves == old(m.resolves)
      ensures forall id :: old(Unused(m, id)) && id != op && id != ep ==> Unused(m, id)
    {
      RunEndpoint(op, org, branch, minCU, maxCU, ports, ep);
      m := WholeEndpoint(w, m, op, org, branch, minCU, maxCU, ports, ep);
    }

    method SuspendEndpoint(org: Id, ep: Id, suspended: bool, ghost c: nat) returns (ok: bool)
      requires Valid() && c !in m.suspends
      modifies this`m, store, registry.cells
      ensures Valid() && Ran(w, old(m), BeginSuspend(c, org, ep), OfSuspend(c), m)
      ensures (store.View(), registry.View(), ok) == SuspendCall(old(m.data), old(m.reg), org, ep, suspended)
      ensures warmpool.View() == old(m.pool) && m.jobs == old(m.jobs) && m.resolves == old(m.resolves)
      ensures m.suspends == old(m.suspends)[c := Suspend(org, ep, SDone(ok))]
      ensures SameIds(old(m), m)
    {
      ok := RunSuspend(org, ep, suspended);
      m := WholeSuspend(w, m, c, org, ep, suspended);
    }

    method Resolve(ep: Id, ports: WakePorts, ghost c: nat) returns (o: Outcome)
      requires Valid() && c !in m.resolves
      modifies this`m, store, storage, warmpool, registry.cells
      ensures Valid() && Ran(w, old(m), BeginResolve(c, ep), OfResolve(c), m)
      ensures (Parts(store.View(), warmpool.View(), registry.View()), o) ==
        ResolveCall(w, Parts(old(m.data), old(m.pool), old(m.reg)), ep, ports)
      ensures c in m.resolves && m.resolves[c].pc == RDone(o) && m.resolves == old(m.resolves)[c := m.resolves[c]]
      ensures m.jobs == old(m.jobs) && m.suspends == old(m.suspends) && SameIds(old(m), m)
    {
      o := RunResolve(ep, ports);
      m := WholeResolve(w, m, c, ep, ports);
    }

    /** The entry of the data plane: which endpoint a connection is for, and where it runs. */
    method ResolveConnection(att: EndpointIds.ConnAttempt, ports: WakePorts, ghost c: nat) returns (o: Option<Outcome>)
      requires Valid() && c !in m.resolves
      modifies this`m, store, storage, warmpool, registry.cells
      ensures Valid() && SameIds(old(m), m) && m.jobs == old(m.jobs) && m.suspends == old(m.suspends)
      ensures var id := EndpointIds.ResolveEndpointId(att);
        && (o.Some? <==> id.Some?)
        && (id.None? ==> m == old(m))
        && (id.Some? ==> Ran(w, old(m), BeginResolve(c, id.value.id), OfResolve(c), m) && m.resolves.Keys == old(m.resolves.Keys) + {c})
        && (id.Some? ==>
             (Parts(m.data, m.pool, m.reg), o.value) == ResolveCall(w, Parts(old(m.data), old(m.pool), old(m.reg)), id.value.id, ports))
    {
      var id := EndpointIds.ResolveEndpointId(att);
      if id.None? {
        return None;
      }
      var answer := Resolve(id.value.id, ports, c);
      return Some(answer);
    }
  }
}
