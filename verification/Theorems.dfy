/** What holds in every reachable state and along every run of the control plane, for every
    interleaving and every outcome of the ports. */
module Theorems {
  import opened Model
  import opened WarmPools
  import opened PoolLaws
  import opened Stores
  import opened Routing
  import opened ControlPlane
  import EndpointIds
  import Texts
  import Ledger
  import Metering
  import Places
  import Safety
  import opened Runs
  import Sync

  // ---- Compute exclusivity ----

  /** Each booted instance has exactly one place, and the place is where it really is. */
  lemma OnePlaceEach(w: World, s: State, h: string)
    requires Fresh(w.boots) && Reachable(w, s)
    ensures h in s.place <==> exists i :: i in BootedIn(w.boots, 0, s.pool.calls) && i.host == h
    ensures DistinctHosts(s.pool.ready)
    ensures h in s.place ==>
      && (s.place[h] == Ready <==> h in Places.Hosts(s.pool.ready))
      && (forall c :: s.place[h] == Held(c) <==> Places.HostHeldBy(s.jobs, s.resolves, c) == Some(h))
      && (forall r: nat :: s.place[h] == Routed(r) <==> r < |s.reg.cells| && s.reg.cells[r].addr == h)
  {
    Safety.PlacesHold(w, s);
    if h in s.place {
      PlaceIsReal(s, h);
    }
  }

  lemma PlaceIsReal(s: State, h: string)
    requires Places.Whole(s.place, s.pool.ready, Places.Holdings(s.jobs, s.resolves), Places.Addrs(s.reg.cells)) && h in s.place
    ensures s.place[h] == Ready <==> h in Places.Hosts(s.pool.ready)
    ensures forall c :: s.place[h] == Held(c) <==> Places.HostHeldBy(s.jobs, s.resolves, c) == Some(h)
    ensures forall r: nat :: s.place[h] == Routed(r) <==> r < |s.reg.cells| && s.reg.cells[r].addr == h
  {
    var holds, addrs := Places.Holdings(s.jobs, s.resolves), Places.Addrs(s.reg.cells);
    assert Places.PlaceOk(h, s.place[h], s.pool.ready, holds, addrs);
    forall c ensures s.place[h] == Held(c) <==> Places.HostHeldBy(s.jobs, s.resolves, c) == Some(h) {
      assert c in holds <==> Places.HostHeldBy(s.jobs, s.resolves, c).Some?;
    }
    forall r: nat ensures s.place[h] == Routed(r) <==> r < |s.reg.cells| && s.reg.cells[r].addr == h {
      assert r < |addrs| ==> addrs[r] == s.reg.cells[r].addr;
    }
  }

  /** No two endpoints ever map to the same address. */
  lemma AddressesExclusive(w: World, s: State, e1: Id, e2: Id)
    requires Fresh(w.boots) && Reachable(w, s)
    requires e1 in s.reg.table && e2 in s.reg.table && e1 != e2
    ensures s.reg.Valid() && s.reg.cells[s.reg.table[e1]].addr != s.reg.cells[s.reg.table[e2]].addr
  {
    Safety.PlacesHold(w, s);
    Safety.RoutesHold(w, s);
    var addrs := Places.Addrs(s.reg.cells);
    assert addrs[s.reg.table[e1]] == s.reg.cells[s.reg.table[e1]].addr && addrs[s.reg.table[e2]] == s.reg.cells[s.reg.table[e2]].addr;
  }

  /** In a whole run Resolve never gives the callers of two endpoints the same address. */
  lemma AnswersExclusive(w: World, s: State, c1: nat, c2: nat)
    requires Fresh(w.boots) && Reachable(w, s)
    requires c1 in s.resolves && s.resolves[c1].pc.RDone? && s.resolves[c1].pc.outcome.Answered?
    requires c2 in s.resolves && s.resolves[c2].pc.RDone? && s.resolves[c2].pc.outcome.Answered?
    requires s.resolves[c1].pc.outcome.addr == s.resolves[c2].pc.outcome.addr
    ensures s.resolves[c1].ep == s.resolves[c2].ep
  {
    Safety.RoutesHold(w, s);
    Safety.AnswersHold(w, s);
    var h := s.resolves[c1].pc.outcome.addr;
    assert Safety.CallFine(s, s.resolves[c1]) && Safety.CallFine(s, s.resolves[c2]);
    assert Safety.AnswerFine(s, (s.resolves[c1].ep, h)) && Safety.AnswerFine(s, (s.resolves[c2].ep, h));
  }

  lemma JobPlace(w: World, s: State, op: Id, luck: Luck, h: string)
    requires Fresh(w.boots) && Reachable(w, s) && op in s.jobs && h in s.place
    ensures var t := JobStep(w, s, op, luck); h in t.place && Places.Onward(s.place[h], t.place[h])
  {
    Safety.JobHolds(w, s, op);
    Safety.PlacesHold(w, s);
    Places.JobOnward(w, s, op, luck, h);
  }

  lemma ResolvePlace(w: World, s: State, c: nat, luck: Luck, h: string)
    requires Fresh(w.boots) && Reachable(w, s) && c in s.resolves && h in s.place
    ensures var f := ResolveStep(w, s, c, s.resolves[c], luck); h in f.place && Places.Onward(s.place[h], f.place[h])
  {
    Sync.WakeFacts(w, s, c);
    Safety.RoutesHold(w, s);
    Safety.PlacesHold(w, s);
    Places.ResolveOnward(w, s, c, luck, h);
  }

  lemma DrainPlace(w: World, s: State, h: string)
    requires Fresh(w.boots) && Reachable(w, s) && h in s.place
    ensures var place := PutDropped(s.place, s.pool.ready); h in place && Places.Onward(s.place[h], place[h])
  {
    Safety.PlacesHold(w, s);
    assert Places.PlaceOk(h, s.place[h], s.pool.ready, Places.Holdings(s.jobs, s.resolves), Places.Addrs(s.reg.cells));
  }

  lemma PlacesAfter(w: World, s: State, e: Event)
    requires Enabled(s, e)
    ensures Apply(w, s, e).place ==
      match e
      case Advance(op, luck) => JobStep(w, s, op, luck).place
      case AdvanceResolve(c, luck) => ResolveStep(w, s, c, s.resolves[c], luck).place
      case DrainPool => PutDropped(s.place, s.pool.ready)
      case _ => s.place
  {
  }

  lemma PlaceOnward(w: World, s: State, e: Event, h: string)
    requires Fresh(w.boots) && Reachable(w, s) && Enabled(s, e) && h in s.place
    ensures var place := Apply(w, s, e).place; h in place && Places.Onward(s.place[h], place[h])
  {
    PlacesAfter(w, s, e);
    match e
    case Advance(op, luck) => JobPlace(w, s, op, luck, h);
    case AdvanceResolve(c, luck) => ResolvePlace(w, s, c, luck, h);
    case DrainPool => DrainPlace(w, s, h);
    case _ =>
  }

  /** Where an instance may be any number of steps later. */
  predicate Later(p: Place, q: Place) {
    || p.Ready? || q == p
    || (p.Held? && (q.Routed? || q.Retired? || q.Stranded?))
    || (p.Routed? && q == Retired(p.ref))
  }

  lemma NextPlace(w: World, run: seq<State>, k: nat, h: string)
    requires Fresh(w.boots) && IsRun(w, run) && k + 1 < |run| && h in run[k].place
    ensures h in run[k + 1].place && Places.Onward(run[k].place[h], run[k + 1].place[h])
  {
    ReachesRun(w, run, k);
    assert StepAt(w, run, k);
    var e :| Enabled(run[k], e) && run[k + 1] == Apply(w, run[k], e);
    PlaceOnward(w, run[k], e, h);
  }

  /** In a whole run an instance only goes forward: ready, held by one caller, at one routing entry, retired;
      or dropped, or stranded. It is handed out at most once, and what is dropped, stranded or retired
      is never used again. */
  lemma {:induction false} InstancesGoForward(w: World, run: seq<State>, i: nat, j: nat, h: string)
    requires Fresh(w.boots) && IsRun(w, run) && i <= j < |run| && h in run[i].place
    ensures h in run[j].place && Later(run[i].place[h], run[j].place[h])
    ensures run[i].place[h].Held? && run[j].place[h].Held? ==> run[i].place[h] == run[j].place[h]
    ensures run[i].place[h].Dropped? || run[i].place[h].Stranded? || run[i].place[h].Retired? ==> run[j].place[h] == run[i].place[h]
    decreases j
  {
    if i < j {
      InstancesGoForward(w, run, i, j - 1, h);
      NextPlace(w, run, j - 1, h);
    }
  }

  // ---- The pool under all interleavings ----

  /** What an event means to the pool. */
  ghost function PoolCall(s: State, e: Event): Option<Call>
    requires Enabled(s, e)
  {
    match e
    case Advance(op, luck) => if s.jobs[op].pc.EpAcquire? && s.jobs[op].req.ForEndpoint? then Some(Acquire(luck.stamp, luck.now)) else None
    case AdvanceResolve(c, luck) => if s.resolves[c].pc.WAcquire? then Some(Acquire(luck.stamp, luck.now)) else None
    case DrainPool => Some(Drain)
    case _ => None
  }

  /** The calls of the pool that a list of events makes. */
  ghost function PoolCalls(w: World, s: State, events: seq<Event>): seq<Call>
    requires CanDo(w, s, events)
    decreases events
  {
    if events == [] then []
    else
      var c := PoolCall(s, events[0]);
      (if c.Some? then [c.value] else []) + PoolCalls(w, Apply(w, s, events[0]), events[1..])
  }

  function Drains(events: seq<Event>): nat {
    if events == [] then 0 else (if events[0].DrainPool? then 1 else 0) + Drains(events[1..])
  }

  lemma JobPool(w: World, s: State, op: Id, j: Job, luck: Luck)
    ensures JobEffect(w, s, op, j, luck).pool ==
      if j.pc.EpAcquire? && j.req.ForEndpoint? then AcquireFrom(s.pool, w.boots, w.policy, luck.stamp, luck.now).0 else s.pool
  {
  }

  lemma ResolvePool(w: World, s: State, c: nat, r: Resolve, luck: Luck)
    ensures ResolveStep(w, s, c, r, luck).pool ==
      if r.pc.WAcquire? then AcquireFrom(s.pool, w.boots, w.policy, luck.stamp, luck.now).0 else s.pool
  {
  }

  /** An event does to the pool what its call does to a run of the pool. */
  lemma PoolStep(w: World, s: State, e: Event, r: Run)
    requires Enabled(s, e) && r.pool == s.pool
    ensures var c, t := PoolCall(s, e), Apply(w, s, e);
      && (c.None? ==> t.pool == s.pool && !e.DrainPool?)
      && (c.Some? ==> Do(r, c.value, w.boots, w.policy).pool == t.pool)
      && (c.Some? ==> Do(r, c.value, w.boots, w.policy).drains == r.drains + if e.DrainPool? then 1 else 0)
  {
    match e
    case Advance(op, luck) => JobPool(w, s, op, s.jobs[op], luck);
    case AdvanceResolve(c, luck) => ResolvePool(w, s, c, s.resolves[c], luck);
    case _ =>
  }

  ghost predicate PoolGoesOn(w: World, s: State, events: seq<Event>, r: Run)
    requires CanDo(w, s, events)
  {
    var last := RunOn(r, PoolCalls(w, s, events), w.boots, w.policy);
    last.pool == After(w, s, events).pool && last.drains == r.drains + Drains(events)
  }

  lemma OneMorePoolCall(w: World, s: State, e: Event, rest: seq<Event>, r: Run, r': Run)
    requires CanDo(w, s, [e] + rest) && CanDo(w, Apply(w, s, e), rest) && PoolGoesOn(w, Apply(w, s, e), rest, r')
    requires r' == if PoolCall(s, e).Some? then Do(r, PoolCall(s, e).value, w.boots, w.policy) else r
    requires r'.drains == r.drains + if e.DrainPool? then 1 else 0
    ensures PoolGoesOn(w, s, [e] + rest, r)
  {
    DoFirst(w, s, e, rest);
    assert ([e] + rest)[1..] == rest;
    var calls := PoolCalls(w, s, [e] + rest);
    if PoolCall(s, e).Some? {
      assert calls[0] == PoolCall(s, e).value && calls[1..] == PoolCalls(w, Apply(w, s, e), rest);
    } else {
      assert calls == PoolCalls(w, Apply(w, s, e), rest);
    }
  }

  lemma {:induction false} PoolFrom(w: World, s: State, events: seq<Event>, r: Run)
    requires CanDo(w, s, events) && r.pool == s.pool
    ensures PoolGoesOn(w, s, events, r)
    decreases events
  {
    if events != [] {
      var e, rest := events[0], events[1..];
      assert [e] + rest == events;
      PoolStep(w, s, e, r);
      var r' := if PoolCall(s, e).Some? then Do(r, PoolCall(s, e).value, w.boots, w.policy) else r;
      PoolFrom(w, Apply(w, s, e), rest, r');
      OneMorePoolCall(w, s, e, rest, r, r');
    }
  }

  /** Whatever interleaves, the pool is that of a run of pool calls, one for each acquiring step and each Drain. */
  lemma PoolOfEvents(w: World, now: int, events: seq<Event>)
    requires CanDo(w, Initial(w, now), events)
    ensures var r := RunOf(PoolCalls(w, Initial(w, now), events), w.boots, w.policy, now);
      r.pool == After(w, Initial(w, now), events).pool && r.drains == Drains(events)
  {
    var calls := PoolCalls(w, Initial(w, now), events);
    PoolFrom(w, Initial(w, now), events, RunOf([], w.boots, w.policy, now));
    RunOnIsRunOf([], calls, w.boots, w.policy, now);
    assert [] + calls == calls;
  }

  /** So the pool of every reachable state is one that pool calls alone lead to. */
  lemma ReachablePool(w: World, s: State) returns (calls: seq<Call>, start: int)
    requires Reachable(w, s)
    ensures RunOf(calls, w.boots, w.policy, start).pool == s.pool
  {
    var now, events := ReachableByEvents(w, s);
    PoolOfEvents(w, now, events);
    calls, start := PoolCalls(w, Initial(w, now), events), now;
  }

  /** So under all interleavings every successful boot is ready, was handed out or was dropped, and a policy that
      keeps one instance bounds misses by drains and failed boots. */
  lemma PoolLawsHold(w: World, now: int, events: seq<Event>)
    requires CanDo(w, Initial(w, now), events)
    ensures var p := After(w, Initial(w, now), events).pool;
      var r := RunOf(PoolCalls(w, Initial(w, now), events), w.boots, w.policy, now);
      && |BootedIn(w.boots, 0, p.calls)| == |p.ready| + p.hits + p.misses + CountDropped(r.exits)
      && |p.recent| == p.hits + p.misses + CountRefused(r.answers)
      && (KeepsOne(w.policy) ==> p.misses + Dry(p) <= Drains(events) + FailedBoots(w.boots, p.calls))
  {
    var calls := PoolCalls(w, Initial(w, now), events);
    PoolOfEvents(w, now, events);
    BootsConserved(calls, w.boots, w.policy, now);
    if KeepsOne(w.policy) {
      MissesArePaid(calls, w.boots, w.policy, now);
    }
  }

  // ---- Tenancy and references ----

  lemma BranchHasProject(w: World, s: State, b: Id)
    requires Fresh(w.boots) && Reachable(w, s) && b in s.data.branches
    ensures var branch := s.data.branches[b];
      branch.id == b && branch.project in s.data.projects && s.data.projects[branch.project].org == branch.org
  {
    Safety.LedgerHolds(w, s);
    assert Ledger.BranchOk(s.data, s.jobs, s.maker, b);
    var o := s.maker[b];
    Ledger.LocalHolds(w, s.data, s.jobs, s.maker, o);
  }

  lemma EndpointHasBranch(w: World, s: State, e: Id)
    requires Fresh(w.boots) && Reachable(w, s) && e in s.data.endpoints
    ensures var endpoint := s.data.endpoints[e];
      endpoint.id == e && endpoint.branch in s.data.branches && s.data.branches[endpoint.branch].org == endpoint.org
  {
    Safety.LedgerHolds(w, s);
    assert Ledger.EndpointOk(s.data, s.jobs, s.maker, e);
    var o := s.maker[e];
    assert Ledger.JobOk(s.data, s.maker, o, s.jobs[o]);
  }

  /** A project's root branch exists, unless its own job is between the two puts. */
  lemma ProjectHasRoot(w: World, s: State, p: Id)
    requires Fresh(w.boots) && Reachable(w, s) && p in s.data.projects
    ensures var project := s.data.projects[p];
      && p in s.maker && s.maker[p] in s.jobs
      && project.id == p && project.region == w.region
      && (s.jobs[s.maker[p]].pc.ProjPutBranch? ||
           (project.root in s.data.branches && s.data.branches[project.root].org == project.org
             && s.data.branches[project.root].project == p && s.data.branches[project.root].state == BranchReady))
  {
    Safety.LedgerHolds(w, s);
    assert Ledger.ProjectOk(w, s.data, s.jobs, s.maker, p);
    var o := s.maker[p];
    Ledger.LocalHolds(w, s.data, s.jobs, s.maker, o);
  }

  // ---- Operations ----

  /** An operation runs exactly while its goroutine has steps left, and ends as the goroutine did. */
  lemma StatusFollowsJob(w: World, s: State, op: Id)
    requires Fresh(w.boots) && Reachable(w, s)
    ensures op in s.data.ops <==> op in s.jobs
    ensures op in s.jobs ==>
      && (s.data.ops[op].status == Running <==> !s.jobs[op].pc.Finished?)
      && (s.data.ops[op].status == Succeeded <==> s.jobs[op].pc == Finished(true))
      && (s.data.ops[op].status == Failed <==> s.jobs[op].pc == Finished(false))
  {
    Safety.LedgerHolds(w, s);
    if op in s.jobs {
      assert Ledger.JobOk(s.data, s.maker, op, s.jobs[op]);
    }
  }

  /** Every id in the result of a succeeded operation resolves within the operation's organisation. */
  lemma ResultsResolve(w: World, s: State, op: Id)
    requires Fresh(w.boots) && Reachable(w, s) && op in s.data.ops && s.data.ops[op].status == Succeeded
    ensures var o, d := s.data.ops[op], s.data;
      match o.result
      case ProjectResult(p, b) =>
        o.kind == CreateProject && p in d.projects && d.projects[p].org == o.org && b in d.branches && d.branches[b].org == o.org
        && d.branches[b].state == BranchReady && d.branches[b].project == p && d.projects[p].root == b
      case BranchResult(b) =>
        o.kind == CreateBranch && b in d.branches && d.branches[b].org == o.org && d.branches[b].state == BranchReady
      case EndpointResult(e, _, _) =>
        o.kind == StartEndpoint && e in d.endpoints && d.endpoints[e].org == o.org && e in s.reg.table
      case NoResult => false
  {
    Safety.LedgerHolds(w, s);
    assert Ledger.JobOk(s.data, s.maker, op, s.jobs[op]);
    Ledger.LocalHolds(w, s.data, s.jobs, s.maker, op);
    Sync.OwnFacts(w, s, op);
  }

  /** Every record in the store was made by an operation that has not failed. */
  lemma RecordsHaveMakers(w: World, s: State, id: Id)
    requires Fresh(w.boots) && Reachable(w, s)
    requires id in s.data.projects || id in s.data.branches || id in s.data.endpoints
    ensures id in s.maker && s.maker[id] in s.data.ops && s.data.ops[s.maker[id]].status != Failed
  {
    Safety.LedgerHolds(w, s);
    if id in s.data.projects {
      assert Ledger.ProjectOk(w, s.data, s.jobs, s.maker, id);
    } else if id in s.data.branches {
      assert Ledger.BranchOk(s.data, s.jobs, s.maker, id);
    } else {
      assert Ledger.EndpointOk(s.data, s.jobs, s.maker, id);
    }
    var o := s.maker[id];
    assert Ledger.JobOk(s.data, s.maker, o, s.jobs[o]);
  }

  /** So a failed operation leaves nothing it made in the store. */
  lemma FailuresLeaveNothing(w: World, s: State, op: Id, id: Id)
    requires Fresh(w.boots) && Reachable(w, s) && op in s.data.ops && s.data.ops[op].status == Failed
    requires id in s.maker && s.maker[id] == op
    ensures id !in s.data.projects && id !in s.data.branches && id !in s.data.endpoints
  {
    if id in s.data.projects || id in s.data.branches || id in s.data.endpoints {
      RecordsHaveMakers(w, s, id);
    }
  }

  lemma SettledByJob(w: World, s: State, mover: Id, luck: Luck, op: Id)
    requires Ledger.Inv(w, s.data, s.jobs, s.maker) && Enabled(s, Advance(mover, luck))
    requires op in s.data.ops && s.data.ops[op].status != Running
    ensures var t := JobStep(w, s, mover, luck); op in t.data.ops && t.data.ops[op] == s.data.ops[op]
  {
    var i := s.jobs[mover];
    var f := JobEffect(w, s, mover, i, luck);
    assert Ledger.JobOk(s.data, s.maker, op, s.jobs[op]);
    assert Ledger.JobOk(s.data, s.maker, mover, i);
    Ledger.LocalHolds(w, s.data, s.jobs, s.maker, mover);
    Ledger.JobLawful(w, s, mover, i, luck);
    Ledger.JobFinds(w, s, mover, i, luck);
    Ledger.WriteGrows(w, s.data, s.maker, mover, i, f.job, f.write, f.made);
  }

  lemma SettledStays(w: World, s: State, e: Event, op: Id)
    requires Ledger.Inv(w, s.data, s.jobs, s.maker) && Enabled(s, e)
    requires op in s.data.ops && s.data.ops[op].status != Running
    ensures var t := Apply(w, s, e); op in t.data.ops && t.data.ops[op] == s.data.ops[op]
  {
    if e.Advance? {
      SettledByJob(w, s, e.job, e.luck, op);
    } else if e.AdvanceSuspend? {
      Ledger.SuspendKeepsOps(s, s.suspends[e.suspend], e.ok);
    } else if e.AdvanceResolve? {
      Ledger.ResolveKeepsOps(w, s, e.resolve, s.resolves[e.resolve], e.luck);
    }
  }

  lemma SnapshotStays(w: World, s: State, t: State, org: Id, op: Id)
    requires Fresh(w.boots) && Reachable(w, s) && Steps(w, s, t)
    requires op in s.data.ops && s.data.ops[op].status != Running
    ensures OpSnapshot(t.data, org, op) == OpSnapshot(s.data, org, op)
  {
    var e :| Enabled(s, e) && t == Apply(w, s, e);
    Safety.LedgerHolds(w, s);
    SettledStays(w, s, e, op);
  }

  lemma SnapshotNext(w: World, run: seq<State>, k: nat, org: Id, op: Id)
    requires Fresh(w.boots) && IsRun(w, run) && k + 1 < |run|
    requires op in run[k].data.ops && run[k].data.ops[op].status != Running
    ensures OpSnapshot(run[k + 1].data, org, op) == OpSnapshot(run[k].data, org, op)
  {
    ReachesRun(w, run, k);
    assert StepAt(w, run, k);
    SnapshotStays(w, run[k], run[k + 1], org, op);
  }

  /** Operations are write-once: once one has left `running`, every later snapshot of it is the same. */
  lemma {:induction false} SnapshotsFinal(w: World, run: seq<State>, i: nat, j: nat, org: Id, op: Id)
    requires Fresh(w.boots) && IsRun(w, run) && i <= j < |run|
    requires var seen := OpSnapshot(run[i].data, org, op); seen.Some? && seen.value.status != Running
    ensures OpSnapshot(run[j].data, org, op) == OpSnapshot(run[i].data, org, op)
    decreases j
  {
    if i < j {
      SnapshotsFinal(w, run, i, j - 1, org, op);
      SnapshotNext(w, run, j - 1, org, op);
    }
  }

  // ---- Metering ----

  /** Per organisation, in every reachable state: the metered branch usage is the number of stored branches
      less the create jobs between their put and their metering, and the number of succeeded create
      operations plus the create jobs between their metering and their completion. */
  lemma UsageConserved(w: World, s: State, org: Id)
    requires Fresh(w.boots) && Reachable(w, s)
    ensures Usage(s.data.metering, org, BranchOps)
         == (|Metering.BranchesOf(s.data, org)| - |Metering.UnmeteredJobs(s.jobs, org)|) as real
         == (|Metering.SucceededCreates(s.data, org)| + |Metering.CompletingJobs(s.jobs, org)|) as real
  {
    Safety.LedgerHolds(w, s);
    Safety.MeteringHolds(w, s);
    Metering.UsageConserved(w, s.data, s.jobs, s.maker, org);
  }

  /** With nothing in flight the usage is the number of the organisation's branches, and of its succeeded
      creations of projects and branches. */
  lemma UsageWhenIdle(w: World, s: State, org: Id)
    requires Fresh(w.boots) && Reachable(w, s)
    requires forall o :: o in s.jobs ==> s.jobs[o].pc.Finished?
    ensures Usage(s.data.metering, org, BranchOps) == |set b | b in s.data.branches && s.data.branches[b].org == org| as real
    ensures Usage(s.data.metering, org, BranchOps) == |set o | o in s.data.ops && s.data.ops[o].org == org
      && s.data.ops[o].status == Succeeded && (s.data.ops[o].kind == CreateProject || s.data.ops[o].kind == CreateBranch)| as real
  {
    UsageConserved(w, s, org);
    assert Metering.UnmeteredJobs(s.jobs, org) == {} && Metering.CompletingJobs(s.jobs, org) == {};
    assert Metering.BranchesOf(s.data, org) == set b | b in s.data.branches && s.data.branches[b].org == org;
    assert Metering.SucceededCreates(s.data, org) == set o | o in s.data.ops && s.data.ops[o].org == org
      && s.data.ops[o].status == Succeeded && (s.data.ops[o].kind == CreateProject || s.data.ops[o].kind == CreateBranch);
  }

  // ---- Endpoints and their routes ----

  /** Every registered endpoint is in the store, active or suspended. */
  lemma RoutesAreStored(w: World, s: State, e: Id)
    requires Fresh(w.boots) && Reachable(w, s) && e in s.reg.table
    ensures Sync.StoreState(s.data, e) == Some(EndpointActive) || Sync.StoreState(s.data, e) == Some(EndpointSuspended)
  {
    Sync.KnownState(w, s, e);
  }

  /** So the wake hook never finds its endpoint gone. */
  lemma NeverGone(w: World, s: State, c: nat)
    requires Fresh(w.boots) && Reachable(w, s) && c in s.resolves
    ensures s.resolves[c].pc != RDone(Gone)
  {
    Sync.WakeFacts(w, s, c);
  }

  /** The store state of an endpoint along a run. */
  function Seen(run: seq<State>, e: Id): (seen: seq<Option<EndpointState>>)
    ensures |seen| == |run| && forall i :: 0 <= i < |run| ==> seen[i] == Sync.StoreState(run[i].data, e)
  {
    seq(|run|, i requires 0 <= i < |run| => Sync.StoreState(run[i].data, e))
  }

  /** The states seen, repetitions dropped. */
  function Trail(seen: seq<Option<EndpointState>>): seq<EndpointState> {
    if seen == [] then []
    else
      var past, now := Trail(seen[..|seen| - 1]), seen[|seen| - 1];
      if now.Some? && (past == [] || past[|past| - 1] != now.value) then past + [now.value] else past
  }

  /** The k-th state in the life of every endpoint. */
  function LifeState(k: nat): EndpointState {
    if k == 0 then EndpointCreating else if k % 2 == 1 then EndpointActive else EndpointSuspended
  }

  /** One step of any call moves an endpoint along its life, or not at all. */
  predicate LifeStep(before: Option<EndpointState>, after: Option<EndpointState>) {
    || after == before
    || (before == None && after == Some(EndpointCreating))
    || (before == Some(EndpointCreating) && after == Some(EndpointActive))
    || (before == Some(EndpointActive) && after == Some(EndpointSuspended))
    || (before == Some(EndpointSuspended) && after == Some(EndpointActive))
  }

  lemma StepIsLifeStep(w: World, s: State, ev: Event, e: Id)
    requires Fresh(w.boots) && Reachable(w, s) && Enabled(s, ev)
    ensures LifeStep(Sync.StoreState(s.data, e), Sync.StoreState(Apply(w, s, ev).data, e))
  {
    Sync.EventFollows(w, s, ev, e);
  }

  ghost predicate LifeSteps(seen: seq<Option<EndpointState>>) {
    seen != [] && seen[0] == None && forall i :: 0 <= i < |seen| - 1 ==> LifeStep(seen[i], seen[i + 1])
  }

  lemma {:induction false} TrailIsLife(seen: seq<Option<EndpointState>>)
    requires LifeSteps(seen)
    ensures var trail := Trail(seen);
      && (forall k :: 0 <= k < |trail| ==> trail[k] == LifeState(k))
      && seen[|seen| - 1] == if trail == [] then None else Some(trail[|trail| - 1])
  {
    var n := |seen|;
    if n == 1 {
      assert seen[..0] == [];
    } else {
      TrailIsLife(seen[..n - 1]);
      assert LifeStep(seen[n - 2], seen[n - 2 + 1]);
    }
  }

  /** Every endpoint lives: creating, active, then suspended and active in turn. */
  lemma LifeCycle(w: World, run: seq<State>, e: Id)
    requires Fresh(w.boots) && IsRun(w, run)
    ensures var trail := Trail(Seen(run, e));
      && (forall k :: 0 <= k < |trail| ==> trail[k] == LifeState(k))
      && Sync.StoreState(run[|run| - 1].data, e) == if trail == [] then None else Some(trail[|trail| - 1])
  {
    var seen := Seen(run, e);
    forall i | 0 <= i < |run| - 1 ensures LifeStep(seen[i], seen[i + 1]) {
      RunLifeStep(w, run, i, e);
    }
    TrailIsLife(seen);
  }

  lemma RunLifeStep(w: World, run: seq<State>, i: nat, e: Id)
    requires Fresh(w.boots) && IsRun(w, run) && i < |run| - 1
    ensures LifeStep(Sync.StoreState(run[i].data, e), Sync.StoreState(run[i + 1].data, e))
  {
    ReachesRun(w, run, i);
    assert StepAt(w, run, i);
    var ev :| Enabled(run[i], ev) && run[i + 1] == Apply(w, run[i], ev);
    StepIsLifeStep(w, run[i], ev, e);
  }

  /** And that life is a path of the endpoint state table. */
  lemma LifeIsAllowed(k: nat)
    ensures LifeState(k + 1) in EndpointTransitions(LifeState(k))
  {
  }

  // ---- Connecting ----

  /** The pooled host of every successfully started endpoint leads to it and to a routing entry; the direct
      host does so exactly when the id does not look like a pooled one. */
  lemma StartedEndpointsConnect(w: World, s: State, op: Id, options: string, password: string)
    requires Fresh(w.boots) && Reachable(w, s)
    requires op in s.data.ops && s.data.ops[op].status == Succeeded && s.data.ops[op].kind == StartEndpoint
    ensures s.data.ops[op].result.EndpointResult?
    ensures var e := s.data.ops[op].result.endpoint;
      var found := Some(EndpointIds.Resolved(e, password, EndpointIds.BySni));
      && e in s.reg.table
      && EndpointIds.ResolveEndpointId(EndpointIds.ConnAttempt(EndpointIds.Host(e, EndpointIds.POOLER, w.region), options, password)) == found
      && (!Texts.HasSuffix(e, "-pooler") <==>
            EndpointIds.ResolveEndpointId(EndpointIds.ConnAttempt(EndpointIds.Host(e, "", w.region), options, password)) == found)
  {
    ResultsResolve(w, s, op);
    Safety.LedgerHolds(w, s);
    Safety.NamesHold(w, s);
    assert Ledger.JobOk(s.data, s.maker, op, s.jobs[op]);
    EndpointIds.NewIdHosts(s.jobs[op].ep, w.region, options, password);
  }
}
