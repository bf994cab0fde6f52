/** What the routing table and the store keep true of each other under every interleaving. */
module Routes {
  import opened Model
  import opened WarmPools
  import opened Stores
  import opened Routing
  import opened ControlPlane
  import Ledger

  type Table = map<Id, nat>

  // ---- The invariant ----

  predicate Registered(j: Job) {
    j.pc.EpMeter? || j.pc.EpComplete? || (Ledger.Won(j) && j.req.ForEndpoint?)
  }

  /** An endpoint is creating exactly until its job activates it, is never deleted, and is in the
      table exactly from the job's Register on. */
  predicate Settled(d: Data, table: Table, j: Job, e: Id) {
    && e in d.endpoints
    && (d.endpoints[e].state.EndpointCreating? <==> j.pc.EpActivate?)
    && !d.endpoints[e].state.EndpointDeleted?
    && (e in table <==> Registered(j))
  }

  ghost predicate EndpointFine(d: Data, table: Table, jobs: map<Id, Job>, maker: map<Id, Id>, e: Id)
    requires e in d.endpoints
  {
    e in maker && maker[e] in jobs && Settled(d, table, jobs[maker[e]], e)
  }

  predicate HasRef(pc: ResolvePc) {
    !pc.RLookup? && !pc.RDone?
  }

  predicate KnowsEndpoint(pc: ResolvePc) {
    pc.WAcquire? || pc.WAttach? || pc.WActivate? || pc.WAddr? || pc.WState?
  }

  ghost predicate ResolveFine(d: Data, table: Table, r: Resolve) {
    && (HasRef(r.pc) ==> r.ep in table && table[r.ep] == r.ref)
    && (KnowsEndpoint(r.pc) ==> r.ep in d.endpoints && d.endpoints[r.ep].org == r.org && d.endpoints[r.ep].branch == r.branch)
    && r.pc != RDone(Gone)
  }

  ghost predicate SuspendFine(d: Data, u: Suspend) {
    !u.pc.SCheck? && !u.pc.SDone? ==> u.ep in d.endpoints && d.endpoints[u.ep].org == u.org
  }

  ghost predicate Inv(s: State) {
    && s.reg.Valid()
    && (forall e :: e in s.reg.table ==> e in s.data.endpoints)
    && (forall e {:trigger EndpointFine(s.data, s.reg.table, s.jobs, s.maker, e)} :: e in s.data.endpoints ==>
          EndpointFine(s.data, s.reg.table, s.jobs, s.maker, e))
    && (forall c {:trigger ResolveFine(s.data, s.reg.table, s.resolves[c])} :: c in s.resolves ==>
          ResolveFine(s.data, s.reg.table, s.resolves[c]))
    && (forall c {:trigger SuspendFine(s.data, s.suspends[c])} :: c in s.suspends ==> SuspendFine(s.data, s.suspends[c]))
  }

  // ---- Growth: what every step does to endpoints and table ----

  /** Endpoints and table entries stay; an endpoint keeps all but its state. */
  ghost predicate Keep(d: Data, d': Data, table: Table, table': Table) {
    && (forall e :: e in d.endpoints ==> e in d'.endpoints && Ledger.SameButState(d'.endpoints[e], d.endpoints[e]))
    && (forall e :: e in table ==> e in table' && table'[e] == table[e])
  }

  /** Only endpoint `x` is touched. */
  ghost predicate Only(d: Data, d': Data, table: Table, table': Table, x: Id) {
    && (forall e :: e in d'.endpoints && e != x ==> e in d.endpoints && d'.endpoints[e] == d.endpoints[e])
    && (forall e :: e in table' && e != x ==> e in table)
  }

  lemma CallsStay(s: State, d': Data, table': Table)
    requires Inv(s) && Keep(s.data, d', s.reg.table, table')
    ensures forall c {:trigger ResolveFine(d', table', s.resolves[c])} :: c in s.resolves ==> ResolveFine(d', table', s.resolves[c])
    ensures forall c {:trigger SuspendFine(d', s.suspends[c])} :: c in s.suspends ==> SuspendFine(d', s.suspends[c])
  {
    forall c | c in s.resolves ensures ResolveFine(d', table', s.resolves[c]) {
      assert ResolveFine(s.data, s.reg.table, s.resolves[c]);
    }
    forall c | c in s.suspends ensures SuspendFine(d', s.suspends[c]) {
      assert SuspendFine(s.data, s.suspends[c]);
    }
  }

  // ---- Steps of jobs ----

  /** A job about its own endpoint. */
  ghost predicate Own(d: Data, table: Table, j: Job) {
    && (Ledger.EndpointStored(j) ==> Settled(d, table, j, j.ep) && d.endpoints[j.ep].org == j.org)
    && (Ledger.EndpointNamed(j) && !Ledger.EndpointStored(j) ==> j.ep !in d.endpoints && j.ep !in table)
  }

  lemma OwnHolds(w: World, s: State, op: Id)
    requires Ledger.Inv(w, s.data, s.jobs, s.maker) && Inv(s) && op in s.jobs
    ensures Own(s.data, s.reg.table, s.jobs[op])
  {
    var j := s.jobs[op];
    Ledger.LocalHolds(w, s.data, s.jobs, s.maker, op);
    if Ledger.EndpointStored(j) {
      assert EndpointFine(s.data, s.reg.table, s.jobs, s.maker, j.ep);
    }
  }

  /** What a job's step means for its own endpoint and the table. */
  ghost predicate EndpointLaw(i: Job, j: Job, wr: Write, reg: Registry, reg': Registry) {
    && (match wr
        case Insert(EndpointRecord(e)) => i.pc.EpPut? && j.req.ForEndpoint? && e == NewEndpoint(j)
        case MoveEndpoint(org, id, to) => i.pc.EpActivate? && org == i.org && id == i.ep && to == EndpointActive
        case _ => !i.pc.EpPut? && !i.pc.EpActivate?)
    && j.org == i.org && j.req == i.req
    && (i.pc.EpPut? ==> j.pc.EpActivate? && j.ep == i.ep)
    && (i.pc.EpActivate? ==> j.pc.EpRegister? && j.ep == i.ep)
    && (i.pc.EpRegister? ==> j.pc.EpMeter? && j.ep == i.ep && i.got.Ok() && reg' == AddRoute(reg, i.ep, i.got.inst.host, RouteActive))
    && (!i.pc.EpRegister? ==> reg' == reg)
    && (Registered(i) ==> Registered(j) && j.ep == i.ep)
    && (Registered(j) ==> Registered(i) || i.pc.EpRegister?)
    && (j.pc.EpPut? ==> i.pc.EpCredential?) && (j.pc.EpActivate? ==> i.pc.EpPut?) && (j.pc.EpRegister? ==> i.pc.EpActivate?)
  }

  lemma OtherJobLaw(w: World, s: State, op: Id, j: Job, luck: Luck)
    requires Ledger.PcFits(j) && !j.pc.Finished? && (!j.req.ForEndpoint? || j.pc.Failing?)
    ensures var f := JobEffect(w, s, op, j, luck); EndpointLaw(j, f.job, f.write, s.reg, f.reg)
  {
  }

  lemma EndpointJobLaw(w: World, s: State, op: Id, j: Job, luck: Luck)
    requires Ledger.PcFits(j) && !j.pc.Finished? && j.req.ForEndpoint? && !j.pc.Failing? && (j.pc.EpRegister? ==> j.got.Ok())
    ensures var f := StartEndpointStep(w, s, op, j, luck); EndpointLaw(j, f.job, f.write, s.reg, f.reg)
  {
  }

  lemma JobLaw(w: World, s: State, op: Id, j: Job, luck: Luck)
    requires Ledger.PcFits(j) && !j.pc.Finished? && (j.pc.EpRegister? ==> j.got.Ok())
    ensures var f := JobEffect(w, s, op, j, luck); EndpointLaw(j, f.job, f.write, s.reg, f.reg)
  {
    if j.req.ForEndpoint? && !j.pc.Failing? {
      EndpointJobLaw(w, s, op, j, luck);
    } else {
      OtherJobLaw(w, s, op, j, luck);
    }
  }

  lemma OwnAfter(d: Data, reg: Registry, reg': Registry, i: Job, j: Job, wr: Write)
    requires Own(d, reg.table, i) && EndpointLaw(i, j, wr, reg, reg')
    requires Ledger.PcFits(i) && Ledger.PcFits(j)
    requires j.pc.EpPut? ==> j.ep !in d.endpoints && j.ep !in reg.table
    ensures Own(Written(d, wr), reg'.table, j)
  {
  }

  lemma KeepAfter(d: Data, reg: Registry, reg': Registry, i: Job, j: Job, wr: Write)
    requires Own(d, reg.table, i) && EndpointLaw(i, j, wr, reg, reg')
    ensures Keep(d, Written(d, wr), reg.table, reg'.table)
    ensures Only(d, Written(d, wr), reg.table, reg'.table, j.ep)
    ensures !Ledger.EndpointStored(j) ==> Written(d, wr).endpoints == d.endpoints && reg' == reg
    ensures reg.Valid() ==> reg'.Valid()
  {
    Ledger.EndpointPart(d, wr);
  }

  lemma EndpointsAfter(d: Data, d': Data, table: Table, table': Table, jobs: map<Id, Job>, maker: map<Id, Id>, maker': map<Id, Id>, op: Id, j: Job)
    requires forall e {:trigger EndpointFine(d, table, jobs, maker, e)} :: e in d.endpoints ==> EndpointFine(d, table, jobs, maker, e)
    requires forall id :: id in maker ==> id in maker' && maker'[id] == maker[id]
    requires Only(d, d', table, table', j.ep) && Keep(d, d', table, table')
    requires if Ledger.EndpointStored(j) then Settled(d', table', j, j.ep) && j.ep in maker' && maker'[j.ep] == op
             else d'.endpoints == d.endpoints && table' == table
    requires forall e :: e in d.endpoints && e in maker && maker[e] == op ==> Ledger.EndpointStored(j) && e == j.ep
    ensures forall e {:trigger EndpointFine(d', table', jobs[op := j], maker', e)} :: e in d'.endpoints ==>
      EndpointFine(d', table', jobs[op := j], maker', e)
  {
    forall e | e in d'.endpoints ensures EndpointFine(d', table', jobs[op := j], maker', e) {
      if !Ledger.EndpointStored(j) || e != j.ep {
        assert EndpointFine(d, table, jobs, maker, e);
      }
    }
  }

  lemma OwnersOf(w: World, s: State, op: Id, j: Job)
    requires Ledger.Inv(w, s.data, s.jobs, s.maker) && op in s.jobs
    requires Ledger.EndpointStored(s.jobs[op]) ==> Ledger.EndpointStored(j) && j.ep == s.jobs[op].ep
    ensures forall e :: e in s.data.endpoints && e in s.maker && s.maker[e] == op ==> Ledger.EndpointStored(j) && e == j.ep
  {
    forall e | e in s.data.endpoints && e in s.maker && s.maker[e] == op ensures Ledger.EndpointStored(j) && e == j.ep {
      assert Ledger.EndpointOk(s.data, s.jobs, s.maker, e);
    }
  }

  lemma FreshEndpoint(w: World, s: State, op: Id, luck: Luck)
    requires Ledger.Inv(w, s.data, s.jobs, s.maker) && Inv(s) && Enabled(s, Advance(op, luck))
    ensures var f := JobEffect(w, s, op, s.jobs[op], luck);
      f.job.pc.EpPut? ==> f.job.ep !in s.data.endpoints && f.job.ep !in s.reg.table
  {
    assert Ledger.JobOk(s.data, s.maker, op, s.jobs[op]);
    if luck.id in s.data.endpoints {
      assert Ledger.EndpointOk(s.data, s.jobs, s.maker, luck.id);
    }
  }

  /** The job's own endpoint after its step, and what became of the others. */
  lemma JobOwnAfter(w: World, s: State, op: Id, luck: Luck)
    requires Ledger.Inv(w, s.data, s.jobs, s.maker) && Inv(s) && Enabled(s, Advance(op, luck))
    requires s.jobs[op].pc.EpRegister? ==> s.jobs[op].got.Ok()
    ensures var f := JobEffect(w, s, op, s.jobs[op], luck);
      var d' := Written(s.data, f.write);
      && Own(d', f.reg.table, f.job) && Keep(s.data, d', s.reg.table, f.reg.table) && Only(s.data, d', s.reg.table, f.reg.table, f.job.ep)
      && (!Ledger.EndpointStored(f.job) ==> d'.endpoints == s.data.endpoints && f.reg == s.reg)
      && (Ledger.EndpointStored(s.jobs[op]) ==> Ledger.EndpointStored(f.job) && f.job.ep == s.jobs[op].ep)
  {
    var i := s.jobs[op];
    var f := JobEffect(w, s, op, i, luck);
    Ledger.LocalHolds(w, s.data, s.jobs, s.maker, op);
    Ledger.JobLawful(w, s, op, i, luck);
    OwnHolds(w, s, op);
    FreshEndpoint(w, s, op, luck);
    JobLaw(w, s, op, i, luck);
    OwnAfter(s.data, s.reg, f.reg, i, f.job, f.write);
    KeepAfter(s.data, s.reg, f.reg, i, f.job, f.write);
  }

  lemma JobIds(w: World, s: State, op: Id, luck: Luck)
    requires Ledger.Inv(w, s.data, s.jobs, s.maker) && Enabled(s, Advance(op, luck))
    ensures var f := JobEffect(w, s, op, s.jobs[op], luck);
      var maker' := Ledger.Making(s.maker, f.made, op);
      && (forall id :: id in s.maker ==> id in maker' && maker'[id] == s.maker[id])
      && (Ledger.EndpointNamed(f.job) ==> f.job.ep in maker' && maker'[f.job.ep] == op)
  {
    var i := s.jobs[op];
    var f := JobEffect(w, s, op, i, luck);
    Ledger.LocalHolds(w, s.data, s.jobs, s.maker, op);
    Ledger.JobLawful(w, s, op, i, luck);
    Ledger.JobFinds(w, s, op, i, luck);
    Ledger.IdsMade(w, s.data, s.maker, op, i, f.job, f.write, f.made);
  }

  lemma JobEndpoints(w: World, s: State, op: Id, luck: Luck)
    requires Ledger.Inv(w, s.data, s.jobs, s.maker) && Inv(s) && Enabled(s, Advance(op, luck))
    requires s.jobs[op].pc.EpRegister? ==> s.jobs[op].got.Ok()
    ensures var t := JobStep(w, s, op, luck);
      forall e {:trigger EndpointFine(t.data, t.reg.table, t.jobs, t.maker, e)} :: e in t.data.endpoints ==>
        EndpointFine(t.data, t.reg.table, t.jobs, t.maker, e)
  {
    var f := JobEffect(w, s, op, s.jobs[op], luck);
    JobOwnAfter(w, s, op, luck);
    JobIds(w, s, op, luck);
    OwnersOf(w, s, op, f.job);
    EndpointsAfter(s.data, Written(s.data, f.write), s.reg.table, f.reg.table, s.jobs, s.maker, Ledger.Making(s.maker, f.made, op), op, f.job);
  }

  lemma JobKeep(w: World, s: State, op: Id, luck: Luck)
    requires Ledger.Inv(w, s.data, s.jobs, s.maker) && Inv(s) && Enabled(s, Advance(op, luck))
    requires s.jobs[op].pc.EpRegister? ==> s.jobs[op].got.Ok()
    ensures var t := JobStep(w, s, op, luck);
      && Keep(s.data, t.data, s.reg.table, t.reg.table) && t.reg.Valid()
      && (forall e :: e in t.reg.table ==> e in t.data.endpoints)
  {
    var i := s.jobs[op];
    var f := JobEffect(w, s, op, i, luck);
    Ledger.LocalHolds(w, s.data, s.jobs, s.maker, op);
    OwnHolds(w, s, op);
    JobLaw(w, s, op, i, luck);
    KeepAfter(s.data, s.reg, f.reg, i, f.job, f.write);
  }

  lemma JobKeeps(w: World, s: State, op: Id, luck: Luck)
    requires Ledger.Inv(w, s.data, s.jobs, s.maker) && Inv(s) && Enabled(s, Advance(op, luck))
    requires s.jobs[op].pc.EpRegister? ==> s.jobs[op].got.Ok()
    ensures Inv(JobStep(w, s, op, luck))
  {
    var f := JobEffect(w, s, op, s.jobs[op], luck);
    var d' := Written(s.data, f.write);
    JobEndpoints(w, s, op, luck);
    JobKeep(w, s, op, luck);
    CallsStay(s, d', f.reg.table);
  }

  // ---- Steps of suspend and resolve calls ----

  /** A write that moves no endpoint out of creating: an endpoint is only activated from there by its own job. */
  predicate Harmless(d: Data, wr: Write) {
    match wr
    case NoWrite => true
    case MoveEndpoint(_, id, to) =>
      to.EndpointSuspended? || (to.EndpointActive? && (id in d.endpoints ==> !d.endpoints[id].state.EndpointCreating?))
    case _ => false
  }

  lemma HarmlessKeeps(s: State, wr: Write, reg': Registry)
    requires Inv(s) && Harmless(s.data, wr) && reg'.table == s.reg.table
    ensures var d' := Written(s.data, wr);
      && Keep(s.data, d', s.reg.table, reg'.table)
      && d'.endpoints.Keys == s.data.endpoints.Keys
      && (forall e {:trigger EndpointFine(d', reg'.table, s.jobs, s.maker, e)} :: e in d'.endpoints ==>
            EndpointFine(d', reg'.table, s.jobs, s.maker, e))
  {
    var d' := Written(s.data, wr);
    Ledger.EndpointPart(s.data, wr);
    forall e | e in d'.endpoints ensures EndpointFine(d', reg'.table, s.jobs, s.maker, e) {
      assert EndpointFine(s.data, s.reg.table, s.jobs, s.maker, e);
    }
  }

  lemma SuspendStepFine(s: State, u: Suspend, ok: bool)
    requires SuspendFine(s.data, u) && s.reg.Valid()
    ensures var f := SuspendStep(s, u, ok);
      && Harmless(s.data, f.write) && f.reg.table == s.reg.table && f.reg.Valid()
      && SuspendFine(s.data, f.call)
  {
  }

  lemma ResolveStepFine(w: World, s: State, c: nat, r: Resolve, luck: Luck)
    requires ResolveFine(s.data, s.reg.table, r) && s.reg.Valid()
    requires forall e :: e in s.reg.table ==> e in s.data.endpoints && !s.data.endpoints[e].state.EndpointCreating?
    ensures var f := ResolveStep(w, s, c, r, luck);
      && Harmless(s.data, f.write) && f.reg.table == s.reg.table && f.reg.Valid()
      && ResolveFine(s.data, s.reg.table, f.call)
  {
    if r.pc.RLookup? || r.pc.RState? || r.pc.RAddr? || r.pc.WRef? || r.pc.RDone? {
      EarlyStepFine(w, s, c, r, luck);
    } else {
      WakeStepFine(w, s, c, r, luck);
    }
  }

  lemma EarlyStepFine(w: World, s: State, c: nat, r: Resolve, luck: Luck)
    requires ResolveFine(s.data, s.reg.table, r) && s.reg.Valid()
    requires r.pc.RLookup? || r.pc.RState? || r.pc.RAddr? || r.pc.WRef? || r.pc.RDone?
    requires forall e :: e in s.reg.table ==> e in s.data.endpoints
    ensures var f := ResolveStep(w, s, c, r, luck);
      f.write == NoWrite && f.reg == s.reg && ResolveFine(s.data, s.reg.table, f.call)
  {
  }

  lemma WakeStepFine(w: World, s: State, c: nat, r: Resolve, luck: Luck)
    requires ResolveFine(s.data, s.reg.table, r) && s.reg.Valid()
    requires r.pc.WAcquire? || r.pc.WAttach? || r.pc.WActivate? || r.pc.WAddr? || r.pc.WState?
    requires r.ep in s.data.endpoints && !s.data.endpoints[r.ep].state.EndpointCreating?
    ensures var f := ResolveStep(w, s, c, r, luck);
      && Harmless(s.data, f.write) && f.reg.table == s.reg.table && f.reg.Valid()
      && ResolveFine(s.data, s.reg.table, f.call)
  {
  }

  lemma RegisteredFine(s: State)
    requires Inv(s)
    ensures forall e :: e in s.reg.table ==>
      e in s.data.endpoints && (s.data.endpoints[e].state.EndpointActive? || s.data.endpoints[e].state.EndpointSuspended?)
  {
    forall e | e in s.reg.table ensures s.data.endpoints[e].state.EndpointActive? || s.data.endpoints[e].state.EndpointSuspended? {
      assert EndpointFine(s.data, s.reg.table, s.jobs, s.maker, e);
    }
  }

  lemma SuspendKeeps(s: State, c: nat, ok: bool)
    requires Inv(s) && c in s.suspends
    ensures Inv(CommitSuspend(s, c, SuspendStep(s, s.suspends[c], ok)))
  {
    assert SuspendFine(s.data, s.suspends[c]);
    var f := SuspendStep(s, s.suspends[c], ok);
    SuspendStepFine(s, s.suspends[c], ok);
    HarmlessKeeps(s, f.write, f.reg);
    CallsStay(s, Written(s.data, f.write), f.reg.table);
  }

  lemma ResolveKeeps(w: World, s: State, c: nat, luck: Luck)
    requires Inv(s) && c in s.resolves
    ensures Inv(CommitResolve(s, c, ResolveStep(w, s, c, s.resolves[c], luck)))
  {
    assert ResolveFine(s.data, s.reg.table, s.resolves[c]);
    var f := ResolveStep(w, s, c, s.resolves[c], luck);
    RegisteredFine(s);
    ResolveStepFine(w, s, c, s.resolves[c], luck);
    HarmlessKeeps(s, f.write, f.reg);
    CallsStay(s, Written(s.data, f.write), f.reg.table);
  }

  lemma BeginKeeps(w: World, s: State, op: Id, org: Id, req: Request)
    requires Ledger.Inv(w, s.data, s.jobs, s.maker) && Inv(s) && Unused(s, op)
    ensures Inv(BeginJob(s, op, org, req))
  {
    var t := BeginJob(s, op, org, req);
    forall e | e in t.data.endpoints ensures EndpointFine(t.data, t.reg.table, t.jobs, t.maker, e) {
      assert EndpointFine(s.data, s.reg.table, s.jobs, s.maker, e);
    }
    CallsStay(s, t.data, t.reg.table);
  }

  /** A new suspend or resolve call, or a Drain, changes nothing here. */
  lemma OthersKeep(w: World, s: State, e: Event)
    requires Inv(s) && Enabled(s, e) && (e.BeginSuspend? || e.BeginResolve? || e.DrainPool?)
    ensures Inv(Apply(w, s, e))
  {
  }
}
