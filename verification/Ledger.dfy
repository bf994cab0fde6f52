/** The store is exactly what the goroutines have written so far: every record belongs to one
    operation, and how much of it exists is told by that operation's program counter. */
module Ledger {
  import opened Model
  import opened WarmPools
  import opened Stores
  import opened Routing
  import opened ControlPlane

  // ---- How far a job has come ----

  predicate PcFits(j: Job) {
    match j.pc
    case ProjStorage | ProjPut | ProjPutBranch | ProjMeter | ProjComplete => j.req.ForProject?
    case BrFind | BrStorage | BrPut | BrReady | BrMeter | BrComplete => j.req.ForBranch?
    case EpFind | EpAcquire | EpAttach | EpCredential | EpPut | EpActivate | EpRegister | EpMeter | EpComplete => j.req.ForEndpoint?
    case Failing => true
    case Finished(_) => true
  }

  predicate Won(j: Job) { j.pc == Finished(true) }

  predicate ProjectStored(j: Job) {
    j.req.ForProject? && (j.pc.ProjPutBranch? || j.pc.ProjMeter? || j.pc.ProjComplete? || Won(j))
  }

  predicate BranchNamed(j: Job) {
    j.pc.ProjPut? || j.pc.ProjPutBranch? || j.pc.BrPut? || BranchStored(j)
  }

  predicate BranchStored(j: Job) {
    j.pc.ProjMeter? || j.pc.ProjComplete? || j.pc.BrReady? || j.pc.BrMeter? || j.pc.BrComplete? || (Won(j) && !j.req.ForEndpoint?)
  }

  predicate EndpointNamed(j: Job) {
    j.pc.EpPut? || EndpointStored(j)
  }

  predicate EndpointStored(j: Job) {
    j.pc.EpActivate? || j.pc.EpRegister? || j.pc.EpMeter? || j.pc.EpComplete? || (Won(j) && j.req.ForEndpoint?)
  }

  /** The project or branch the request names has been looked up. */
  predicate ParentFound(j: Job) {
    !j.req.ForProject? && !j.pc.BrFind? && !j.pc.EpFind? && !j.pc.Failing? && j.pc != Finished(false)
  }

  // ---- The records a job accounts for ----

  function StatusOf(pc: JobPc): OpStatus {
    match pc
    case Finished(ok) => if ok then Succeeded else Failed
    case _ => Running
  }

  function OpOf(op: Id, j: Job): Operation {
    Operation(op, j.org, j.req.Kind(), StatusOf(j.pc), if j.pc == Finished(true) then ResultOf(j) else NoResult)
  }

  function ProjectOf(w: World, j: Job): Project
    requires j.req.ForProject?
  {
    Project(j.project, j.org, j.req.name, w.region, j.branch)
  }

  function ProjectIdOf(j: Job): Id
    requires !j.req.ForEndpoint?
  {
    if j.req.ForProject? then j.project else j.req.parentProject
  }

  function BranchOf(j: Job): Branch
    requires !j.req.ForEndpoint?
  {
    Branch(j.branch, j.org, ProjectIdOf(j), if j.req.ForProject? then "" else j.req.parent,
           if j.pc == BrReady then BranchCreating else BranchReady)
  }

  predicate EndpointOf(j: Job, e: Endpoint)
    requires j.req.ForEndpoint?
  {
    e.id == j.ep && e.org == j.org && e.branch == j.req.onBranch
  }

  // ---- The invariant ----

  type Jobs = map<Id, Job>
  type Makers = map<Id, Id>

  ghost predicate JobOk(d: Data, maker: Makers, op: Id, j: Job) {
    && PcFits(j)
    && op in d.ops && d.ops[op] == OpOf(op, j)
    && (ProjectStored(j) ==> j.project in maker && maker[j.project] == op && j.project in d.projects)
    && (BranchNamed(j) ==> j.branch in maker && maker[j.branch] == op)
    && (BranchStored(j) ==> j.branch in d.branches)
    && (EndpointNamed(j) ==> j.ep in maker && maker[j.ep] == op)
    && (EndpointStored(j) ==> j.ep in d.endpoints)
    && (ParentFound(j) && j.req.ForBranch? ==> GetProject(d, j.org, j.req.parentProject).Some?)
    && (ParentFound(j) && j.req.ForEndpoint? ==> GetBranch(d, j.org, j.req.onBranch).Some?)
  }

  /** A stored record is the one its maker's job accounts for. */
  predicate ProjectBy(w: World, j: Job, p: Project) {
    ProjectStored(j) && p == ProjectOf(w, j)
  }

  predicate BranchBy(j: Job, b: Branch) {
    BranchStored(j) && !j.req.ForEndpoint? && b == BranchOf(j)
  }

  predicate EndpointBy(j: Job, e: Endpoint) {
    EndpointStored(j) && j.req.ForEndpoint? && EndpointOf(j, e)
  }

  ghost predicate ProjectOk(w: World, d: Data, jobs: Jobs, maker: Makers, p: Id)
    requires p in d.projects
  {
    p in maker && maker[p] in jobs && d.projects[p].id == p && ProjectBy(w, jobs[maker[p]], d.projects[p])
  }

  ghost predicate BranchOk(d: Data, jobs: Jobs, maker: Makers, b: Id)
    requires b in d.branches
  {
    b in maker && maker[b] in jobs && d.branches[b].id == b && BranchBy(jobs[maker[b]], d.branches[b])
  }

  ghost predicate EndpointOk(d: Data, jobs: Jobs, maker: Makers, e: Id)
    requires e in d.endpoints
  {
    e in maker && maker[e] in jobs && d.endpoints[e].id == e && EndpointBy(jobs[maker[e]], d.endpoints[e])
  }

  ghost predicate Inv(w: World, d: Data, jobs: Jobs, maker: Makers) {
    && d.ops.Keys == jobs.Keys
    && (forall op {:trigger JobOk(d, maker, op, jobs[op])} :: op in jobs ==> JobOk(d, maker, op, jobs[op]))
    && (forall p {:trigger ProjectOk(w, d, jobs, maker, p)} :: p in d.projects ==> ProjectOk(w, d, jobs, maker, p))
    && (forall b {:trigger BranchOk(d, jobs, maker, b)} :: b in d.branches ==> BranchOk(d, jobs, maker, b))
    && (forall e {:trigger EndpointOk(d, jobs, maker, e)} :: e in d.endpoints ==> EndpointOk(d, jobs, maker, e))
  }

  // ---- Every step keeps it ----

  /** Records of others only appear, and only `p`, `b` and `e` are new or rewritten. Endpoint
      states are not looked at here. */
  ghost predicate Grows(d: Data, d': Data, op: Id, p: Id, b: Id, e: Id) {
    && (forall o :: o in d.ops && o != op ==> o in d'.ops && d'.ops[o] == d.ops[o])
    && (forall x :: x in d.projects ==> x in d'.projects && d'.projects[x] == d.projects[x])
    && (forall x :: x in d.branches ==> x in d'.branches && d'.branches[x].org == d.branches[x].org)
    && (forall x :: x in d.endpoints ==> x in d'.endpoints && SameButState(d'.endpoints[x], d.endpoints[x]))
    && (forall x :: x in d'.projects ==> x == p || x in d.projects)
    && (forall x :: x in d'.branches ==> x == b || (x in d.branches && d'.branches[x] == d.branches[x]))
    && (forall x :: x in d'.endpoints ==> x == e || x in d.endpoints)
  }

  ghost predicate SameButState(e: Endpoint, f: Endpoint) {
    e == f.(state := e.state)
  }

  /** How one step of a job may change its locals, and what it writes along with that. */
  ghost predicate Lawful(w: World, op: Id, i: Job, j: Job, wr: Write, made: Option<Id>) {
    && j.org == i.org && j.req == i.req && PcFits(j)
    // ids and records stay, and are new when they first appear
    && (ProjectStored(i) ==> ProjectStored(j) && j.project == i.project && j.branch == i.branch)
    && (ProjectStored(j) && !ProjectStored(i) ==> made == Some(j.project) && BranchNamed(i) && wr == Insert(ProjectRecord(ProjectOf(w, j))))
    && (BranchNamed(i) ==> BranchNamed(j) && j.branch == i.branch)
    && (BranchNamed(j) && !BranchNamed(i) ==> made == Some(j.branch) && !BranchStored(j))
    && (BranchStored(i) ==> BranchStored(j) && (!i.pc.BrReady? ==> !j.pc.BrReady?))
    && (BranchStored(j) && !BranchStored(i) ==> BranchNamed(i) && wr == Insert(BranchRecord(BranchOf(j))))
    && (EndpointNamed(i) ==> EndpointNamed(j) && j.ep == i.ep)
    && (EndpointNamed(j) && !EndpointNamed(i) ==> made == Some(j.ep) && !EndpointStored(j))
    && (EndpointStored(i) ==> EndpointStored(j))
    && (EndpointStored(j) && !EndpointStored(i) ==> EndpointNamed(i) && wr == Insert(EndpointRecord(NewEndpoint(j))))
    // and nothing else is written
    && (match wr
        case Insert(ProjectRecord(_)) => ProjectStored(j) && !ProjectStored(i)
        case Insert(BranchRecord(_)) => BranchStored(j) && !BranchStored(i)
        case Insert(EndpointRecord(_)) => EndpointStored(j) && !EndpointStored(i)
        case Insert(OperationRecord(_)) => false
        case Complete(o, r) => o == op && r == ResultOf(j)
        case Fail(o) => o == op
        case MoveBranch(_, id, to) => i.pc.BrReady? && id == j.branch && to == BranchReady
        case _ => true)
    && (wr.Complete? <==> j.pc == Finished(true))
    && (wr.Fail? <==> j.pc == Finished(false))
    && (i.pc.BrReady? ==> j.pc.BrMeter? && wr == MoveBranch(j.org, j.branch, BranchReady))
  }

  lemma ProjectJobLawful(w: World, s: State, op: Id, j: Job, luck: Luck)
    requires j.req.ForProject? && PcFits(j) && !j.pc.Finished? && !j.pc.Failing?
    ensures var f := CreateProjectStep(w, s, op, j, luck); Lawful(w, op, j, f.job, f.write, f.made)
  {
  }

  lemma BranchJobLawful(w: World, s: State, op: Id, j: Job, luck: Luck)
    requires j.req.ForBranch? && PcFits(j) && !j.pc.Finished? && !j.pc.Failing?
    ensures var f := CreateBranchStep(s, op, j, luck); Lawful(w, op, j, f.job, f.write, f.made)
  {
  }

  predicate Booting(pc: JobPc) {
    pc.EpFind? || pc.EpAcquire? || pc.EpAttach? || pc.EpCredential?
  }

  lemma FindingJobLawful(w: World, s: State, op: Id, j: Job, luck: Luck)
    requires j.req.ForEndpoint? && (j.pc.EpFind? || j.pc.EpAcquire?)
    ensures var f := StartEndpointStep(w, s, op, j, luck); Lawful(w, op, j, f.job, f.write, f.made)
  {
  }

  lemma HoldingJobLawful(w: World, s: State, op: Id, j: Job, luck: Luck)
    requires j.req.ForEndpoint? && (j.pc.EpAttach? || j.pc.EpCredential?)
    ensures var f := StartEndpointStep(w, s, op, j, luck); Lawful(w, op, j, f.job, f.write, f.made)
  {
  }

  lemma BootingJobLawful(w: World, s: State, op: Id, j: Job, luck: Luck)
    requires j.req.ForEndpoint? && Booting(j.pc)
    ensures var f := StartEndpointStep(w, s, op, j, luck); Lawful(w, op, j, f.job, f.write, f.made)
  {
    if j.pc.EpFind? || j.pc.EpAcquire? {
      FindingJobLawful(w, s, op, j, luck);
    } else {
      HoldingJobLawful(w, s, op, j, luck);
    }
  }

  lemma EndpointJobLawful(w: World, s: State, op: Id, j: Job, luck: Luck)
    requires j.req.ForEndpoint? && PcFits(j) && !j.pc.Finished? && !j.pc.Failing? && !Booting(j.pc)
    ensures var f := StartEndpointStep(w, s, op, j, luck); Lawful(w, op, j, f.job, f.write, f.made)
  {
  }

  /** What the invariant says about one job and the ids it may still use. */
  ghost predicate Local(w: World, d: Data, maker: Makers, op: Id, j: Job) {
    && JobOk(d, maker, op, j)
    && (ProjectStored(j) ==> d.projects[j.project] == ProjectOf(w, j))
    && (BranchStored(j) ==> d.branches[j.branch] == BranchOf(j))
    && (EndpointStored(j) ==> EndpointOf(j, d.endpoints[j.ep]))
    && (BranchNamed(j) && !BranchStored(j) ==> j.branch !in d.branches)
    && (EndpointNamed(j) && !EndpointStored(j) ==> j.ep !in d.endpoints)
    && (forall id :: id in d.projects ==> id in maker)
  }

  lemma LocalHolds(w: World, d: Data, jobs: Jobs, maker: Makers, op: Id)
    requires Inv(w, d, jobs, maker) && op in jobs
    ensures Local(w, d, maker, op, jobs[op])
  {
    var j := jobs[op];
    assert JobOk(d, maker, op, j);
    if j.project in d.projects {
      assert ProjectOk(w, d, jobs, maker, j.project);
    }
    if j.branch in d.branches {
      assert BranchOk(d, jobs, maker, j.branch);
    }
    if j.ep in d.endpoints {
      assert EndpointOk(d, jobs, maker, j.ep);
    }
    forall id | id in d.projects ensures id in maker {
      assert ProjectOk(w, d, jobs, maker, id);
    }
  }

  lemma InsertGrows(d: Data, r: Record, op: Id, p: Id, b: Id, e: Id)
    requires match r
      case ProjectRecord(x) => x.id == p && p !in d.projects
      case BranchRecord(x) => x.id == b && b !in d.branches
      case EndpointRecord(x) => x.id == e && e !in d.endpoints
      case OperationRecord(x) => x.id == op
    ensures Grows(d, Put(d, r), op, p, b, e)
  {
  }

  lemma SettleGrows(d: Data, wr: Write, op: Id, p: Id, b: Id, e: Id)
    requires wr.NoWrite? || wr.Meter? || (wr.Complete? && wr.op == op) || (wr.Fail? && wr.op == op)
    ensures Grows(d, Written(d, wr), op, p, b, e)
  {
  }

  lemma MoveGrows(d: Data, wr: Write, op: Id, p: Id, b: Id, e: Id)
    requires (wr.MoveBranch? && wr.id == b) || wr.MoveEndpoint?
    ensures Grows(d, Written(d, wr), op, p, b, e)
  {
    if wr.MoveBranch? {
      MoveBranchGrows(d, wr.org, wr.branchTo, op, p, b, e);
    } else {
      MoveEndpointGrows(d, wr.org, wr.id, wr.endpointTo, op, p, b, e);
    }
  }

  lemma MoveBranchGrows(d: Data, org: Id, to: BranchState, op: Id, p: Id, b: Id, e: Id)
    ensures Grows(d, TransitionBranch(d, org, b, to), op, p, b, e)
  {
  }

  lemma MoveEndpointGrows(d: Data, org: Id, id: Id, to: EndpointState, op: Id, p: Id, b: Id, e: Id)
    ensures Grows(d, TransitionEndpoint(d, org, id, to), op, p, b, e)
  {
  }

  /** One lawful step of job `op` from locals `i` to `j`, its parent looked up, its id fresh. */
  ghost predicate Step(w: World, d: Data, maker: Makers, op: Id, i: Job, j: Job, wr: Write, made: Option<Id>) {
    && Local(w, d, maker, op, i) && !i.pc.Finished?
    && Lawful(w, op, i, j, wr, made) && FindsParent(d, i, j)
    && (made.Some? ==> made.value !in maker)
  }

  /** The looked-up parent that lets a job go on. */
  predicate FindsParent(d: Data, i: Job, j: Job) {
    ParentFound(j) && !ParentFound(i) ==>
      if j.req.ForBranch? then GetProject(d, j.org, j.req.parentProject).Some?
      else j.req.ForEndpoint? && GetBranch(d, j.org, j.req.onBranch).Some?
  }

  function Making(maker: Makers, made: Option<Id>, op: Id): Makers {
    if made.Some? then maker[made.value := op] else maker
  }

  lemma WriteGrows(w: World, d: Data, maker: Makers, op: Id, i: Job, j: Job, wr: Write, made: Option<Id>)
    requires Step(w, d, maker, op, i, j, wr, made)
    ensures Grows(d, Written(d, wr), op, j.project, j.branch, j.ep)
  {
    match wr
    case Insert(r) => InsertGrows(d, r, op, j.project, j.branch, j.ep);
    case MoveBranch(_, _, _) => MoveGrows(d, wr, op, j.project, j.branch, j.ep);
    case MoveEndpoint(_, _, _) => MoveGrows(d, wr, op, j.project, j.branch, j.ep);
    case _ => SettleGrows(d, wr, op, j.project, j.branch, j.ep);
  }

  // What a step leaves of the job's own records, kind by kind.

  lemma OpWritten(w: World, d: Data, maker: Makers, op: Id, i: Job, j: Job, wr: Write, made: Option<Id>)
    requires Step(w, d, maker, op, i, j, wr, made)
    ensures var d' := Written(d, wr);
      d'.ops.Keys == d.ops.Keys && d'.ops[op] == OpOf(op, j)
  {
    OpPart(d, wr);
    OpFollows(w, d.ops[op], op, i, j, wr, made);
  }

  /** The operation part of a write. */
  lemma OpPart(d: Data, wr: Write)
    ensures var d' := Written(d, wr);
      match wr
      case Insert(OperationRecord(o)) => d'.ops == d.ops[o.id := o]
      case Complete(o, r) => d'.ops == if o in d.ops then d.ops[o := d.ops[o].(status := Succeeded, result := r)] else d.ops
      case Fail(o) => d'.ops == if o in d.ops then d.ops[o := d.ops[o].(status := Failed)] else d.ops
      case _ => d'.ops == d.ops
  {
  }

  lemma OpFollows(w: World, o: Operation, op: Id, i: Job, j: Job, wr: Write, made: Option<Id>)
    requires Lawful(w, op, i, j, wr, made) && !i.pc.Finished? && o == OpOf(op, i)
    ensures OpOf(op, j) ==
      match wr case Complete(_, r) => o.(status := Succeeded, result := r) case Fail(_) => o.(status := Failed) case _ => o
  {
  }

  lemma ProjectWritten(w: World, d: Data, maker: Makers, op: Id, i: Job, j: Job, wr: Write, made: Option<Id>)
    requires Step(w, d, maker, op, i, j, wr, made)
    ensures var d' := Written(d, wr);
      if ProjectStored(j) then j.project in d'.projects && d'.projects[j.project] == ProjectOf(w, j) else d'.projects == d.projects
  {
  }

  lemma BranchWritten(w: World, d: Data, maker: Makers, op: Id, i: Job, j: Job, wr: Write, made: Option<Id>)
    requires Step(w, d, maker, op, i, j, wr, made)
    ensures var d' := Written(d, wr);
      if BranchStored(j) then j.branch in d'.branches && d'.branches[j.branch] == BranchOf(j) else d'.branches == d.branches
  {
    BranchPart(d, wr);
  }

  /** The branch part of a write. */
  lemma BranchPart(d: Data, wr: Write)
    ensures var d' := Written(d, wr);
      match wr
      case Insert(BranchRecord(b)) => d'.branches == d.branches[b.id := b]
      case MoveBranch(org, id, to) =>
        d'.branches == if MayMoveBranch(d, org, id, to) then d.branches[id := d.branches[id].(state := to)] else d.branches
      case _ => d'.branches == d.branches
  {
  }

  lemma EndpointWritten(w: World, d: Data, maker: Makers, op: Id, i: Job, j: Job, wr: Write, made: Option<Id>)
    requires Step(w, d, maker, op, i, j, wr, made)
    ensures var d' := Written(d, wr);
      if EndpointStored(j) then j.ep in d'.endpoints && EndpointOf(j, d'.endpoints[j.ep]) else d'.endpoints.Keys == d.endpoints.Keys
  {
    EndpointPart(d, wr);
  }

  /** The endpoint part of a write. */
  lemma EndpointPart(d: Data, wr: Write)
    ensures var d' := Written(d, wr);
      match wr
      case Insert(EndpointRecord(e)) => d'.endpoints == d.endpoints[e.id := e]
      case MoveEndpoint(org, id, to) =>
        d'.endpoints == if MayMoveEndpoint(d, org, id, to) then d.endpoints[id := d.endpoints[id].(state := to)] else d.endpoints
      case _ => d'.endpoints == d.endpoints
  {
  }

  lemma IdsMade(w: World, d: Data, maker: Makers, op: Id, i: Job, j: Job, wr: Write, made: Option<Id>)
    requires Step(w, d, maker, op, i, j, wr, made)
    ensures var maker' := Making(maker, made, op);
      && (forall id :: id in maker ==> id in maker' && maker'[id] == maker[id])
      && (ProjectStored(j) ==> j.project in maker' && maker'[j.project] == op)
      && (BranchNamed(j) ==> j.branch in maker' && maker'[j.branch] == op)
      && (EndpointNamed(j) ==> j.ep in maker' && maker'[j.ep] == op)
      && PcFits(j)
  {
  }

  lemma ParentStays(w: World, d: Data, maker: Makers, op: Id, i: Job, j: Job, wr: Write, made: Option<Id>)
    requires Step(w, d, maker, op, i, j, wr, made)
    ensures var d' := Written(d, wr);
      && (ParentFound(j) && j.req.ForBranch? ==> GetProject(d', j.org, j.req.parentProject).Some?)
      && (ParentFound(j) && j.req.ForEndpoint? ==> GetBranch(d', j.org, j.req.onBranch).Some?)
  {
    WriteGrows(w, d, maker, op, i, j, wr, made);
  }

  // ---- Lifting to all jobs and records ----

  /** The books before and after a step of job `op`, in the terms the invariant needs. */
  ghost predicate Onward(w: World, d: Data, d': Data, maker: Makers, maker': Makers, op: Id, i: Job, j: Job) {
    && d'.ops.Keys == d.ops.Keys
    && Grows(d, d', op, j.project, j.branch, j.ep)
    && (forall id :: id in maker ==> id in maker' && maker'[id] == maker[id])
    && JobOk(d', maker', op, j)
    && (ProjectStored(i) ==> ProjectStored(j)) && (BranchStored(i) ==> BranchStored(j)) && (EndpointStored(i) ==> EndpointStored(j))
    && (if ProjectStored(j) then d'.projects[j.project] == ProjectOf(w, j) else d'.projects == d.projects)
    && (if BranchStored(j) then d'.branches[j.branch] == BranchOf(j) else d'.branches == d.branches)
    && (if EndpointStored(j) then EndpointOf(j, d'.endpoints[j.ep]) else d'.endpoints.Keys == d.endpoints.Keys)
    && (ProjectStored(i) ==> i.project == j.project)
    && (BranchStored(i) ==> i.branch == j.branch)
    && (EndpointStored(i) ==> i.ep == j.ep)
  }

  lemma StepIsOnward(w: World, d: Data, maker: Makers, op: Id, i: Job, j: Job, wr: Write, made: Option<Id>)
    requires Step(w, d, maker, op, i, j, wr, made)
    ensures Onward(w, d, Written(d, wr), maker, Making(maker, made, op), op, i, j)
  {
    WriteGrows(w, d, maker, op, i, j, wr, made);
    OpWritten(w, d, maker, op, i, j, wr, made);
    ProjectWritten(w, d, maker, op, i, j, wr, made);
    BranchWritten(w, d, maker, op, i, j, wr, made);
    EndpointWritten(w, d, maker, op, i, j, wr, made);
    IdsMade(w, d, maker, op, i, j, wr, made);
    ParentStays(w, d, maker, op, i, j, wr, made);
  }

  lemma OtherJobs(w: World, d: Data, jobs: Jobs, maker: Makers, d': Data, maker': Makers, op: Id, p: Id, b: Id, e: Id)
    requires Inv(w, d, jobs, maker) && Grows(d, d', op, p, b, e)
    requires forall id :: id in maker ==> id in maker' && maker'[id] == maker[id]
    ensures forall o {:trigger JobOk(d', maker', o, jobs[o])} :: o in jobs && o != op ==> JobOk(d', maker', o, jobs[o])
  {
    forall o | o in jobs && o != op ensures JobOk(d', maker', o, jobs[o]) {
      assert JobOk(d, maker, o, jobs[o]);
    }
  }

  lemma ProjectsAfter(w: World, d: Data, d': Data, jobs: Jobs, maker: Makers, maker': Makers, op: Id, j: Job)
    requires Inv(w, d, jobs, maker) && op in jobs && Onward(w, d, d', maker, maker', op, jobs[op], j)
    ensures forall p {:trigger ProjectOk(w, d', jobs[op := j], maker', p)} :: p in d'.projects ==> ProjectOk(w, d', jobs[op := j], maker', p)
  {
    forall p | p in d'.projects ensures ProjectOk(w, d', jobs[op := j], maker', p) {
      if p in d.projects {
        assert ProjectOk(w, d, jobs, maker, p);
      }
    }
  }

  lemma BranchesAfter(w: World, d: Data, d': Data, jobs: Jobs, maker: Makers, maker': Makers, op: Id, j: Job)
    requires Inv(w, d, jobs, maker) && op in jobs && Onward(w, d, d', maker, maker', op, jobs[op], j)
    ensures forall b {:trigger BranchOk(d', jobs[op := j], maker', b)} :: b in d'.branches ==> BranchOk(d', jobs[op := j], maker', b)
  {
    forall b | b in d'.branches ensures BranchOk(d', jobs[op := j], maker', b) {
      if b in d.branches {
        assert BranchOk(d, jobs, maker, b);
      }
    }
  }

  lemma EndpointsAfter(w: World, d: Data, d': Data, jobs: Jobs, maker: Makers, maker': Makers, op: Id, j: Job)
    requires Inv(w, d, jobs, maker) && op in jobs && Onward(w, d, d', maker, maker', op, jobs[op], j)
    ensures forall e {:trigger EndpointOk(d', jobs[op := j], maker', e)} :: e in d'.endpoints ==> EndpointOk(d', jobs[op := j], maker', e)
  {
    forall e | e in d'.endpoints ensures EndpointOk(d', jobs[op := j], maker', e) {
      if e in d.endpoints {
        assert EndpointOk(d, jobs, maker, e);
      }
    }
  }

  lemma OnwardKeeps(w: World, d: Data, d': Data, jobs: Jobs, maker: Makers, maker': Makers, op: Id, j: Job)
    requires Inv(w, d, jobs, maker) && op in jobs && Onward(w, d, d', maker, maker', op, jobs[op], j)
    ensures Inv(w, d', jobs[op := j], maker')
  {
    OtherJobs(w, d, jobs, maker, d', maker', op, j.project, j.branch, j.ep);
    ProjectsAfter(w, d, d', jobs, maker, maker', op, j);
    BranchesAfter(w, d, d', jobs, maker, maker', op, j);
    EndpointsAfter(w, d, d', jobs, maker, maker', op, j);
  }

  lemma JobLawful(w: World, s: State, op: Id, j: Job, luck: Luck)
    requires PcFits(j) && !j.pc.Finished?
    ensures var f := JobEffect(w, s, op, j, luck); Lawful(w, op, j, f.job, f.write, f.made)
  {
    if j.pc.Failing? {
    } else if j.req.ForProject? {
      ProjectJobLawful(w, s, op, j, luck);
    } else if j.req.ForBranch? {
      BranchJobLawful(w, s, op, j, luck);
    } else if Booting(j.pc) {
      BootingJobLawful(w, s, op, j, luck);
    } else {
      EndpointJobLawful(w, s, op, j, luck);
    }
  }

  lemma JobFinds(w: World, s: State, op: Id, j: Job, luck: Luck)
    requires PcFits(j) && !j.pc.Finished?
    ensures var f := JobEffect(w, s, op, j, luck);
      FindsParent(s.data, j, f.job) && (f.made.Some? ==> f.made.value == luck.id && MakesId(j.pc, luck))
  {
  }

  // Operations are only put when they begin.

  predicate WritesOp(wr: Write) {
    wr.Insert? && wr.record.OperationRecord?
  }

  lemma JobWritesNoOp(w: World, s: State, op: Id, j: Job, luck: Luck)
    ensures !WritesOp(JobEffect(w, s, op, j, luck).write)
  {
  }

  lemma WriteKeepsOps(d: Data, wr: Write)
    requires !WritesOp(wr)
    ensures var d' := Written(d, wr);
      d'.ops.Keys == d.ops.Keys && forall op :: op in d.ops ==> d'.ops[op].org == d.ops[op].org
  {
  }

  lemma SuspendKeepsOps(s: State, u: Suspend, ok: bool)
    ensures Written(s.data, SuspendStep(s, u, ok).write).ops == s.data.ops
  {
  }

  lemma ResolveKeepsOps(w: World, s: State, c: nat, r: Resolve, luck: Luck)
    ensures Written(s.data, ResolveStep(w, s, c, r, luck).write).ops == s.data.ops
  {
  }

  lemma JobKeeps(w: World, s: State, op: Id, luck: Luck)
    requires Inv(w, s.data, s.jobs, s.maker) && Enabled(s, Advance(op, luck))
    ensures var f := JobEffect(w, s, op, s.jobs[op], luck);
      Inv(w, Written(s.data, f.write), s.jobs[op := f.job], Making(s.maker, f.made, op))
  {
    var j := s.jobs[op];
    var f := JobEffect(w, s, op, j, luck);
    LocalHolds(w, s.data, s.jobs, s.maker, op);
    JobLawful(w, s, op, j, luck);
    JobFinds(w, s, op, j, luck);
    StepIsOnward(w, s.data, s.maker, op, j, f.job, f.write, f.made);
    OnwardKeeps(w, s.data, Written(s.data, f.write), s.jobs, s.maker, Making(s.maker, f.made, op), op, f.job);
  }

  lemma NewJobKeepsRecords(w: World, d: Data, jobs: Jobs, maker: Makers, d': Data, op: Id, j: Job)
    requires Inv(w, d, jobs, maker) && op !in jobs
    requires d'.projects == d.projects && d'.branches == d.branches && d'.endpoints == d.endpoints
    ensures forall p {:trigger ProjectOk(w, d', jobs[op := j], maker, p)} :: p in d'.projects ==> ProjectOk(w, d', jobs[op := j], maker, p)
    ensures forall b {:trigger BranchOk(d', jobs[op := j], maker, b)} :: b in d'.branches ==> BranchOk(d', jobs[op := j], maker, b)
    ensures forall e {:trigger EndpointOk(d', jobs[op := j], maker, e)} :: e in d'.endpoints ==> EndpointOk(d', jobs[op := j], maker, e)
  {
    forall p | p in d'.projects ensures ProjectOk(w, d', jobs[op := j], maker, p) {
      assert ProjectOk(w, d, jobs, maker, p);
    }
    forall b | b in d'.branches ensures BranchOk(d', jobs[op := j], maker, b) {
      assert BranchOk(d, jobs, maker, b);
    }
    forall e | e in d'.endpoints ensures EndpointOk(d', jobs[op := j], maker, e) {
      assert EndpointOk(d, jobs, maker, e);
    }
  }

  lemma NewJobKeeps(w: World, d: Data, jobs: Jobs, maker: Makers, op: Id, j: Job)
    requires Inv(w, d, jobs, maker) && op !in jobs && j.pc == FirstPc(j.req)
    ensures Inv(w, Put(d, OperationRecord(OpOf(op, j))), jobs[op := j], maker)
  {
    var d' := Put(d, OperationRecord(OpOf(op, j)));
    InsertGrows(d, OperationRecord(OpOf(op, j)), op, "", "", "");
    OtherJobs(w, d, jobs, maker, d', maker, op, "", "", "");
    NewJobKeepsRecords(w, d, jobs, maker, d', op, j);
  }

  lemma BeginKeeps(w: World, s: State, op: Id, org: Id, req: Request)
    requires Inv(w, s.data, s.jobs, s.maker) && Unused(s, op)
    ensures var t := BeginJob(s, op, org, req); Inv(w, t.data, t.jobs, t.maker)
  {
    NewJobKeeps(w, s.data, s.jobs, s.maker, op, Job(org, req, FirstPc(req), "", "", "", NO_COMPUTE));
  }

  /** Suspend calls and wakes only move endpoint states. */
  lemma MoveKeeps(w: World, d: Data, jobs: Jobs, maker: Makers, org: Id, ep: Id, to: EndpointState)
    requires Inv(w, d, jobs, maker)
    ensures Inv(w, TransitionEndpoint(d, org, ep, to), jobs, maker)
  {
    var d' := TransitionEndpoint(d, org, ep, to);
    forall o | o in jobs ensures JobOk(d', maker, o, jobs[o]) {
      assert JobOk(d, maker, o, jobs[o]);
    }
    forall p | p in d'.projects ensures ProjectOk(w, d', jobs, maker, p) {
      assert ProjectOk(w, d, jobs, maker, p);
    }
    forall b | b in d'.branches ensures BranchOk(d', jobs, maker, b) {
      assert BranchOk(d, jobs, maker, b);
    }
    forall e | e in d'.endpoints ensures EndpointOk(d', jobs, maker, e) {
      assert EndpointOk(d, jobs, maker, e);
    }
  }

  lemma WriteKeeps(w: World, d: Data, jobs: Jobs, maker: Makers, wr: Write)
    requires Inv(w, d, jobs, maker) && (wr.NoWrite? || wr.MoveEndpoint?)
    ensures Inv(w, Written(d, wr), jobs, maker)
  {
    if wr.MoveEndpoint? {
      MoveKeeps(w, d, jobs, maker, wr.org, wr.id, wr.endpointTo);
    }
  }

  lemma SuspendKeeps(w: World, s: State, c: nat, ok: bool)
    requires Inv(w, s.data, s.jobs, s.maker) && c in s.suspends
    ensures Inv(w, Written(s.data, SuspendStep(s, s.suspends[c], ok).write), s.jobs, s.maker)
  {
    WriteKeeps(w, s.data, s.jobs, s.maker, SuspendStep(s, s.suspends[c], ok).write);
  }

  lemma ResolveKeeps(w: World, s: State, c: nat, luck: Luck)
    requires Inv(w, s.data, s.jobs, s.maker) && c in s.resolves
    ensures Inv(w, Written(s.data, ResolveStep(w, s, c, s.resolves[c], luck).write), s.jobs, s.maker)
  {
    WriteKeeps(w, s.data, s.jobs, s.maker, ResolveStep(w, s, c, s.resolves[c], luck).write);
  }

  lemma Keeps(w: World, s: State, e: Event)
    requires Inv(w, s.data, s.jobs, s.maker) && Enabled(s, e)
    ensures var t := Apply(w, s, e); Inv(w, t.data, t.jobs, t.maker)
  {
    match e
    case Begin(op, org, req) => BeginKeeps(w, s, op, org, req);
    case Advance(op, luck) => JobKeeps(w, s, op, luck);
    case AdvanceSuspend(c, ok) => SuspendKeeps(w, s, c, ok);
    case AdvanceResolve(c, luck) => ResolveKeeps(w, s, c, luck);
    case _ =>
  }
}
