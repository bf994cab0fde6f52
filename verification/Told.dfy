/** Each call of the application told by the fields it changes. */
module Told {
  import opened Model
  import opened WarmPools
  import opened Stores
  import opened Routing
  import opened ControlPlane
  import opened Calls
  import opened Serial

  /** CreateProject fails exactly when the storage port does. Otherwise it stores one project and its ready root
      branch, meters one branch and reports both ids. */
  lemma ProjectTold(w: World, d: Data, op: Id, org: Id, name: string, branch: Option<Id>, project: Id)
    ensures var req := ForProject(name);
      var (d', j) := ProjectCall(w, WithOp(d, op, org, req), op, NewJob(org, req), branch, project);
      match branch
      case None =>
        && j.pc == Finished(false)
        && d' == d.(ops := d.ops[op := Operation(op, org, OpKind.CreateProject, Failed, NoResult)])
      case Some(b) =>
        && j.pc == Finished(true)
        && d' == Data(
          d.projects[project := Project(project, org, name, w.region, b)],
          d.branches[b := Branch(b, org, project, "", BranchReady)],
          d.endpoints,
          d.ops[op := Operation(op, org, OpKind.CreateProject, Succeeded, ProjectResult(project, b))],
          d.metering + [MeteringEvent(org, BranchOps, 1.0)],
          d.idemp)
  {
  }

  /** CreateBranch succeeds exactly when the project exists in the caller's organisation and the storage port
      answers. It then stores one ready branch with the parent it was given, whatever that is. */
  lemma BranchTold(d: Data, op: Id, org: Id, parentProject: Id, parent: Id, branch: Option<Id>)
    ensures var req := ForBranch(parentProject, parent);
      var (d', j) := BranchCall(WithOp(d, op, org, req), op, NewJob(org, req), branch);
      var granted := branch.Some? && parentProject in d.projects && d.projects[parentProject].org == org;
      && j.pc == Finished(granted)
      && d' == if granted
        then Data(
          d.projects,
          d.branches[branch.value := Branch(branch.value, org, parentProject, parent, BranchReady)],
          d.endpoints,
          d.ops[op := Operation(op, org, OpKind.CreateBranch, Succeeded, BranchResult(branch.value))],
          d.metering + [MeteringEvent(org, BranchOps, 1.0)],
          d.idemp)
        else d.(ops := d.ops[op := Operation(op, org, OpKind.CreateBranch, Failed, NoResult)])
  {
  }

  /** An Acquire gives the first ready instance at once, or the next boot's in the time it takes. */
  lemma AcquireTold(p: Pool, boots: Boots, policy: Policy, stamp: int, now: int)
    ensures var a := AcquireFrom(p, boots, policy, stamp, now).1;
      && (p.ready != [] ==> a == Hit(p.ready[0]) && a.BootMs() == 0)
      && (p.ready == [] ==> match boots(p.calls)
           case Booted(inst, ms) => a == Miss(inst, ms) && a.BootMs() == ms
           case BootFailed(ms) => a == NoCompute(ms))
  {
  }

  /** StartEndpoint succeeds exactly when the branch exists in the caller's organisation, there is compute, and
      the ports grant. It then stores one active endpoint, routes it to the instance, and reports whether
      the instance was warm and how long its boot took. */
  lemma EndpointTold(w: World, p: Parts, op: Id, org: Id, onBranch: Id, minCU: real, maxCU: real, ports: StartPorts, ep: Id)
    ensures var req := ForEndpoint(onBranch, minCU, maxCU);
      var (p', j) := EndpointCall(w, Parts(WithOp(p.data, op, org, req), p.pool, p.reg), op, NewJob(org, req), ports, ep);
      var d, d' := p.data, p'.data;
      var found := onBranch in d.branches && d.branches[onBranch].org == org;
      var warm, boot := p.pool.ready != [], w.boots(p.pool.calls);
      var granted := found && (warm || boot.Booted?) && ports.attached && ports.issued;
      && j.pc == Finished(granted)
      && (!found ==> p'.pool == p.pool)
      && (found ==> p'.pool == AcquireFrom(p.pool, w.boots, w.policy, ports.stamp, ports.now).0)
      && (!granted ==> p'.reg == p.reg && d' == d.(ops := d.ops[op := Operation(op, org, OpKind.StartEndpoint, Failed, NoResult)]))
      && (granted ==>
           && p'.reg == Registry(p.reg.table[ep := |p.reg.cells|],
                                 p.reg.cells + [Route(if warm then p.pool.ready[0].host else boot.inst.host, RouteActive)])
           && d' == Data(
             d.projects,
             d.branches,
             d.endpoints[ep := Endpoint(ep, org, onBranch, EndpointActive, minCU, maxCU)],
             d.ops[op := Operation(op, org, OpKind.StartEndpoint, Succeeded, EndpointResult(ep, if warm then 0 else boot.ms, warm))],
             d.metering + [MeteringEvent(org, CuHours, 0.0)],
             d.idemp))
  {
    AcquireTold(p.pool, w.boots, w.policy, ports.stamp, ports.now);
  }

  /** SuspendEndpoint answers an error when the endpoint is not the caller's, when the storage port refuses, and,
      after it has already suspended the table's entry, when the endpoint is not active. */
  lemma SuspendTold(d: Data, reg: Registry, org: Id, ep: Id, ok: bool)
    requires reg.Valid()
    ensures var (d', reg', done) := SuspendCall(d, reg, org, ep, ok);
      var granted := ok && ep in d.endpoints && d.endpoints[ep].org == org;
      && (done <==> granted && d.endpoints[ep].state == EndpointActive)
      && d' == (if done then d.(endpoints := d.endpoints[ep := d.endpoints[ep].(state := EndpointSuspended)]) else d)
      && reg' == (if granted && ep in reg.table
                  then reg.(cells := reg.cells[reg.table[ep] := reg.cells[reg.table[ep]].(state := RouteSuspended)]) else reg)
  {
  }

  /** Resolve answers an active entry's address at once. It wakes a suspended one: the endpoint becomes active at
      the address of the instance taken, and the caller is told how long its boot took. */
  lemma ResolveTold(w: World, p: Parts, ep: Id, ports: WakePorts)
    requires p.reg.Valid() && (ep in p.reg.table && ep in p.data.endpoints ==> p.data.endpoints[ep].state != EndpointDeleted)
    ensures var (p', o) := ResolveCall(w, p, ep, ports);
      var warm, boot := p.pool.ready != [], w.boots(p.pool.calls);
      if ep !in p.reg.table then p' == p && o == NotFound
      else
        var ref := p.reg.table[ep];
        if p.reg.cells[ref].state == RouteActive then p' == p && o == Outcome.Answered(p.reg.cells[ref].addr, 0)
        else if ep !in p.data.endpoints then p' == p && o == Gone
        else
          && p'.pool == AcquireFrom(p.pool, w.boots, w.policy, ports.stamp, ports.now).0
          && if !(warm || boot.Booted?) || !ports.attached then p'.data == p.data && p'.reg == p.reg && o == WakeFailed
             else
               var host := if warm then p.pool.ready[0].host else boot.inst.host;
               && o == Outcome.Answered(host, if warm then 0 else boot.ms)
               && p'.data == p.data.(endpoints := p.data.endpoints[ep := p.data.endpoints[ep].(state := EndpointActive)])
               && p'.reg == p.reg.(cells := p.reg.cells[ref := Route(host, RouteActive)])
  {
    if ep in p.reg.table {
      WakeTold(w, p.data, p.pool, ep, ports);
    }
  }

  lemma WakeTold(w: World, d: Data, pool: Pool, ep: Id, ports: WakePorts)
    requires ep in d.endpoints ==> d.endpoints[ep].state != EndpointDeleted
    ensures var (d', pool', o) := WakeCall(w, d, pool, ep, ports);
      var warm, boot := pool.ready != [], w.boots(pool.calls);
      if ep !in d.endpoints then d' == d && pool' == pool && o == Gone
      else
        && pool' == AcquireFrom(pool, w.boots, w.policy, ports.stamp, ports.now).0
        && if !(warm || boot.Booted?) || !ports.attached then d' == d && o == WakeFailed
           else
             && o == Outcome.Answered(if warm then pool.ready[0].host else boot.inst.host, if warm then 0 else boot.ms)
             && d' == d.(endpoints := d.endpoints[ep := d.endpoints[ep].(state := EndpointActive)])
  {
    AcquireTold(pool, w.boots, w.policy, ports.stamp, ports.now);
  }
}
