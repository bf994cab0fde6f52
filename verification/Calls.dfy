/** One call of the application at a time: what it does as a whole, and that every run of the machine which
    advances that call alone, from its beginning to its end, does just that. */
module Calls {
  import opened Model
  import opened WarmPools
  import opened Stores
  import opened Routing
  import opened ControlPlane
  import opened Runs
  import EndpointIds
  import Ledger

  // ---- A call and its steps ----

  datatype Call = OfJob(op: Id) | OfSuspend(suspend: nat) | OfResolve(resolve: nat) | Nobody

  datatype Stage = JobAt(job: JobPc) | SuspendAt(suspend: SuspendPc) | ResolveAt(resolve: ResolvePc) | NoStage

  /** What each step of a call draws. */
  type Lucks = Stage -> Luck

  predicate Begun(s: State, call: Call) {
    match call
    case OfJob(op) => op in s.jobs
    case OfSuspend(c) => c in s.suspends
    case OfResolve(c) => c in s.resolves
    case Nobody => false
  }

  function StageOf(s: State, call: Call): Stage
    requires Begun(s, call)
  {
    match call
    case OfJob(op) => JobAt(s.jobs[op].pc)
    case OfSuspend(c) => SuspendAt(s.suspends[c].pc)
    case OfResolve(c) => ResolveAt(s.resolves[c].pc)
    case Nobody => NoStage
  }

  /** How many steps are left at most. */
  function Left(stage: Stage): nat {
    match stage
    case NoStage => 0
    case SuspendAt(pc) => (match pc case SCheck => 4 case SStorage => 3 case SRoute => 2 case SStore => 1 case SDone(_) => 0)
    case ResolveAt(pc) =>
      (match pc
       case RLookup => 9 case RState => 8 case RAddr => 1 case WRef => 6 case WAcquire => 5 case WAttach => 4
       case WActivate => 3 case WAddr => 2 case WState => 1 case RDone(_) => 0)
    case JobAt(pc) =>
      (match pc
       case ProjStorage => 6 case ProjPut => 5 case ProjPutBranch => 4 case ProjMeter => 3 case ProjComplete => 2
       case BrFind => 7 case BrStorage => 6 case BrPut => 5 case BrReady => 4 case BrMeter => 3 case BrComplete => 2
       case EpFind => 10 case EpAcquire => 9 case EpAttach => 8 case EpCredential => 7 case EpPut => 6 case EpActivate => 5
       case EpRegister => 4 case EpMeter => 3 case EpComplete => 2
       case Failing => 1 case Finished(_) => 0)
  }

  predicate Ended(s: State, call: Call)
    requires Begun(s, call)
  {
    Left(StageOf(s, call)) == 0
  }

  function EventOf(call: Call, luck: Luck): Event {
    match call
    case OfJob(op) => Advance(op, luck)
    case OfSuspend(c) => AdvanceSuspend(c, luck.ok)
    case OfResolve(c) => AdvanceResolve(c, luck)
    case Nobody => DrainPool
  }

  function Step(w: World, s: State, call: Call, luck: Luck): State
    requires Begun(s, call)
  {
    match call
    case OfJob(op) => JobStep(w, s, op, luck)
    case OfSuspend(c) => CommitSuspend(s, c, SuspendStep(s, s.suspends[c], luck.ok))
    case OfResolve(c) => CommitResolve(s, c, ResolveStep(w, s, c, s.resolves[c], luck))
    case Nobody => s
  }

  /** A call at a step that uses its instance has one. */
  predicate JobGoing(j: Job) {
    && Ledger.PcFits(j)
    && (j.pc.EpAttach? || j.pc.EpCredential? || j.pc.EpPut? || j.pc.EpActivate? || j.pc.EpRegister? ==> j.got.Ok())
  }

  predicate ResolveGoing(r: Resolve) {
    r.pc.WAttach? || r.pc.WActivate? || r.pc.WAddr? || r.pc.WState? ==> r.got.Ok()
  }

  predicate Going(s: State, call: Call)
    requires Begun(s, call)
  {
    match call
    case OfJob(op) => JobGoing(s.jobs[op])
    case OfResolve(c) => ResolveGoing(s.resolves[c])
    case _ => true
  }

  predicate Nearer(i: Job, j: Job) {
    JobGoing(j) && Left(JobAt(j.pc)) < Left(JobAt(i.pc))
  }

  lemma ProjectNearer(w: World, s: State, op: Id, j: Job, luck: Luck)
    requires JobGoing(j) && j.req.ForProject? && !j.pc.Failing? && !j.pc.Finished?
    ensures Nearer(j, CreateProjectStep(w, s, op, j, luck).job)
  {
  }

  lemma BranchNearer(s: State, op: Id, j: Job, luck: Luck)
    requires JobGoing(j) && j.req.ForBranch? && !j.pc.Failing? && !j.pc.Finished?
    ensures Nearer(j, CreateBranchStep(s, op, j, luck).job)
  {
  }

  lemma BootingNearer(w: World, s: State, op: Id, j: Job, luck: Luck)
    requires JobGoing(j) && j.req.ForEndpoint? && Ledger.Booting(j.pc)
    ensures Nearer(j, StartEndpointStep(w, s, op, j, luck).job)
  {
  }

  lemma EndpointNearer(w: World, s: State, op: Id, j: Job, luck: Luck)
    requires JobGoing(j) && j.req.ForEndpoint? && !j.pc.Failing? && !j.pc.Finished?
    ensures Nearer(j, StartEndpointStep(w, s, op, j, luck).job)
  {
    if Ledger.Booting(j.pc) {
      BootingNearer(w, s, op, j, luck);
    }
  }

  lemma JobNearer(w: World, s: State, op: Id, j: Job, luck: Luck)
    requires JobGoing(j) && !j.pc.Finished?
    ensures Nearer(j, JobEffect(w, s, op, j, luck).job)
  {
    if j.pc != Failing {
      match j.req
      case ForProject(_) => ProjectNearer(w, s, op, j, luck);
      case ForBranch(_, _) => BranchNearer(s, op, j, luck);
      case ForEndpoint(_, _, _) => EndpointNearer(w, s, op, j, luck);
    }
  }

  lemma ResolveNearer(w: World, s: State, c: nat, r: Resolve, luck: Luck)
    requires ResolveGoing(r) && !r.pc.RDone?
    ensures var r' := ResolveStep(w, s, c, r, luck).call; ResolveGoing(r') && Left(ResolveAt(r'.pc)) < Left(ResolveAt(r.pc))
  {
  }

  lemma SuspendNearer(s: State, u: Suspend, ok: bool)
    requires !u.pc.SDone?
    ensures Left(SuspendAt(SuspendStep(s, u, ok).call.pc)) < Left(SuspendAt(u.pc))
  {
  }

  lemma StepNearer(w: World, s: State, call: Call, luck: Luck)
    requires Begun(s, call) && Going(s, call) && !Ended(s, call)
    ensures var t := Step(w, s, call, luck);
      Begun(t, call) && Going(t, call) && Left(StageOf(t, call)) < Left(StageOf(s, call))
  {
    match call
    case OfJob(op) => JobNearer(w, s, op, s.jobs[op], luck);
    case OfSuspend(c) => SuspendNearer(s, s.suspends[c], luck.ok);
    case OfResolve(c) => ResolveNearer(w, s, c, s.resolves[c], luck);
  }

  /** The call run to its end, with nothing between its steps. */
  function Solo(w: World, s: State, call: Call, lucks: Lucks): State
    requires Begun(s, call) && Going(s, call)
    decreases Left(StageOf(s, call))
  {
    if Ended(s, call) then s
    else
      StepNearer(w, s, call, lucks(StageOf(s, call)));
      Solo(w, Step(w, s, call, lucks(StageOf(s, call))), call, lucks)
  }

  // ---- Runs that advance one call alone ----

  predicate Mine(call: Call, e: Event) {
    match call
    case OfJob(op) => e.Advance? && e.job == op
    case OfSuspend(c) => e.AdvanceSuspend? && e.suspend == c
    case OfResolve(c) => e.AdvanceResolve? && e.resolve == c
    case Nobody => false
  }

  predicate AllMine(call: Call, events: seq<Event>) {
    forall e :: e in events ==> Mine(call, e)
  }

  function LuckOf(e: Event): Luck {
    match e
    case Advance(_, luck) => luck
    case AdvanceResolve(_, luck) => luck
    case AdvanceSuspend(_, ok) => Luck(ok, "", 0, 0)
    case _ => Luck(false, "", 0, 0)
  }

  lemma MineIsStep(w: World, s: State, call: Call, e: Event)
    requires Enabled(s, e) && Mine(call, e)
    ensures Begun(s, call) && !Ended(s, call) && Apply(w, s, e) == Step(w, s, call, LuckOf(e))
  {
  }

  /** The events of the run drew these lucks. */
  ghost predicate Drew(w: World, s: State, call: Call, events: seq<Event>, lucks: Lucks)
    requires CanDo(w, s, events) && AllMine(call, events)
    decreases events
  {
    events == [] ||
    (MineIsStep(w, s, call, events[0]);
     lucks(StageOf(s, call)) == LuckOf(events[0]) && Drew(w, Apply(w, s, events[0]), call, events[1..], lucks))
  }

  /** A run draws at most one luck at each step, so what it drew is a function of the step. */
  lemma {:induction false} DrawsOnce(w: World, s: State, call: Call, events: seq<Event>) returns (lucks: Lucks)
    requires Begun(s, call) && Going(s, call) && CanDo(w, s, events) && AllMine(call, events)
    ensures Drew(w, s, call, events, lucks)
    decreases events
  {
    if events == [] {
      lucks := (stage: Stage) => Luck(false, "", 0, 0);
    } else {
      MineIsStep(w, s, call, events[0]);
      StepNearer(w, s, call, LuckOf(events[0]));
      var later := DrawsOnce(w, Apply(w, s, events[0]), call, events[1..]);
      var here, luck := StageOf(s, call), LuckOf(events[0]);
      lucks := (stage: Stage) => if stage == here then luck else later(stage);
      DrewLater(w, Apply(w, s, events[0]), call, events[1..], later, lucks, Left(here));
    }
  }

  lemma {:induction false} DrewLater(w: World, s: State, call: Call, events: seq<Event>, a: Lucks, b: Lucks, bound: nat)
    requires Begun(s, call) && Going(s, call) && CanDo(w, s, events) && AllMine(call, events) && Drew(w, s, call, events, a)
    requires Left(StageOf(s, call)) < bound && forall stage :: Left(stage) < bound ==> a(stage) == b(stage)
    ensures Drew(w, s, call, events, b)
    decreases events
  {
    if events != [] {
      MineIsStep(w, s, call, events[0]);
      StepNearer(w, s, call, LuckOf(events[0]));
      DrewLater(w, Apply(w, s, events[0]), call, events[1..], a, b, bound);
    }
  }

  /** So every run that takes a call alone to its end is the solo run of what it drew. */
  lemma {:induction false} RunsAreSolo(w: World, s: State, call: Call, events: seq<Event>, lucks: Lucks)
    requires Begun(s, call) && Going(s, call) && CanDo(w, s, events) && AllMine(call, events) && Drew(w, s, call, events, lucks)
    ensures Begun(After(w, s, events), call)
    ensures Ended(After(w, s, events), call) ==> After(w, s, events) == Solo(w, s, call, lucks)
    decreases events
  {
    if events != [] {
      MineIsStep(w, s, call, events[0]);
      StepNearer(w, s, call, LuckOf(events[0]));
      RunsAreSolo(w, Apply(w, s, events[0]), call, events[1..], lucks);
    }
  }

  // ---- Ids ----

  /** The ids a request's goroutine makes when it draws these lucks. */
  function IdsDrawn(req: Request, lucks: Lucks): set<Id> {
    match req
    case ForProject(_) =>
      {lucks(JobAt(ProjPut)).id} + if lucks(JobAt(ProjStorage)).ok then {lucks(JobAt(ProjStorage)).id} else {}
    case ForBranch(_, _) => if lucks(JobAt(BrStorage)).ok then {lucks(JobAt(BrStorage)).id} else {}
    case ForEndpoint(_, _, _) => if lucks(JobAt(EpCredential)).ok then {lucks(JobAt(EpCredential)).id} else {}
  }

  /** The ids drawn are unused, different, and in the form newID gives them. */
  ghost predicate GoodIds(s: State, op: Id, req: Request, lucks: Lucks) {
    && (forall id :: id in IdsDrawn(req, lucks) ==> id != op && Unused(s, id))
    && (req.ForProject? && lucks(JobAt(ProjStorage)).ok ==> lucks(JobAt(ProjStorage)).id != lucks(JobAt(ProjPut)).id)
    && (req.ForEndpoint? && lucks(JobAt(EpCredential)).ok ==> EndpointIds.IsNewId("ep", lucks(JobAt(EpCredential)).id))
  }

  /** The ids the rest of a job still has to make are unused. */
  ghost predicate Ready(s: State, j: Job, lucks: Lucks) {
    match j.req
    case ForProject(_) =>
      && (j.pc.ProjStorage? && lucks(JobAt(ProjStorage)).ok ==>
            Unused(s, lucks(JobAt(ProjStorage)).id) && lucks(JobAt(ProjStorage)).id != lucks(JobAt(ProjPut)).id)
      && (j.pc.ProjStorage? || j.pc.ProjPut? ==> Unused(s, lucks(JobAt(ProjPut)).id))
    case ForBranch(_, _) =>
      (j.pc.BrFind? || j.pc.BrStorage?) && lucks(JobAt(BrStorage)).ok ==> Unused(s, lucks(JobAt(BrStorage)).id)
    case ForEndpoint(_, _, _) =>
      (j.pc.EpFind? || j.pc.EpAcquire? || j.pc.EpAttach? || j.pc.EpCredential?) && lucks(JobAt(EpCredential)).ok ==>
        Unused(s, lucks(JobAt(EpCredential)).id) && EndpointIds.IsNewId("ep", lucks(JobAt(EpCredential)).id)
  }

  /** A step of a job uses up no id but the one it makes. */
  lemma StepUnused(w: World, s: State, op: Id, luck: Luck, id: Id)
    requires op in s.jobs && Ledger.PcFits(s.jobs[op]) && !s.jobs[op].pc.Finished?
    requires Unused(s, id) && (MakesId(s.jobs[op].pc, luck) ==> id != luck.id)
    ensures Unused(JobStep(w, s, op, luck), id)
  {
    Ledger.JobFinds(w, s, op, s.jobs[op], luck);
    Ledger.JobWritesNoOp(w, s, op, s.jobs[op], luck);
    Ledger.WriteKeepsOps(s.data, JobEffect(w, s, op, s.jobs[op], luck).write);
  }

  lemma {:induction false} SoloUnused(w: World, s: State, op: Id, lucks: Lucks, id: Id)
    requires op in s.jobs && JobGoing(s.jobs[op]) && Unused(s, id) && id !in IdsDrawn(s.jobs[op].req, lucks)
    ensures Unused(Solo(w, s, OfJob(op), lucks), id)
    decreases Left(JobAt(s.jobs[op].pc))
  {
    if !s.jobs[op].pc.Finished? {
      var luck := lucks(JobAt(s.jobs[op].pc));
      StepNearer(w, s, OfJob(op), luck);
      StepUnused(w, s, op, luck, id);
      SameRequest(w, s, op, s.jobs[op], luck);
      SoloUnused(w, JobStep(w, s, op, luck), op, lucks, id);
    }
  }

  lemma SameRequest(w: World, s: State, op: Id, j: Job, luck: Luck)
    ensures JobEffect(w, s, op, j, luck).job.req == j.req
  {
  }

  lemma ReadyStep(w: World, s: State, op: Id, j: Job, lucks: Lucks)
    requires op in s.jobs && s.jobs[op] == j && JobGoing(j) && !j.pc.Finished? && Ready(s, j, lucks)
    ensures var luck := lucks(JobAt(j.pc));
      Enabled(s, Advance(op, luck)) && Ready(JobStep(w, s, op, luck), JobEffect(w, s, op, j, luck).job, lucks)
  {
    var luck := lucks(JobAt(j.pc));
    var t := JobStep(w, s, op, luck);
    forall id | Unused(s, id) && (MakesId(j.pc, luck) ==> id != luck.id) ensures Unused(t, id) {
      StepUnused(w, s, op, luck, id);
    }
  }

  // ---- The solo run is a run ----

  ghost predicate MayGo(s: State, call: Call, lucks: Lucks)
    requires Begun(s, call)
  {
    call.OfJob? ==> Ready(s, s.jobs[call.op], lucks)
  }

  lemma MayStep(w: World, s: State, call: Call, lucks: Lucks)
    requires Begun(s, call) && Going(s, call) && !Ended(s, call) && MayGo(s, call, lucks)
    ensures var luck := lucks(StageOf(s, call));
      && Enabled(s, EventOf(call, luck)) && Mine(call, EventOf(call, luck))
      && Apply(w, s, EventOf(call, luck)) == Step(w, s, call, luck)
      && Begun(Step(w, s, call, luck), call) && MayGo(Step(w, s, call, luck), call, lucks)
  {
    if call.OfJob? {
      ReadyStep(w, s, call.op, s.jobs[call.op], lucks);
    }
  }

  lemma {:induction false} SoloIsRun(w: World, s: State, call: Call, lucks: Lucks) returns (events: seq<Event>)
    requires Begun(s, call) && Going(s, call) && MayGo(s, call, lucks)
    ensures CanDo(w, s, events) && AllMine(call, events) && After(w, s, events) == Solo(w, s, call, lucks)
    decreases Left(StageOf(s, call))
  {
    if Ended(s, call) {
      events := [];
    } else {
      var luck := lucks(StageOf(s, call));
      StepNearer(w, s, call, luck);
      MayStep(w, s, call, lucks);
      var rest := SoloIsRun(w, Step(w, s, call, luck), call, lucks);
      events := [EventOf(call, luck)] + rest;
      DoFirst(w, s, EventOf(call, luck), rest);
    }
  }

  // ---- Following a solo run, step by step, for any property the steps preserve ----

  ghost predicate KeptBy(w: World, call: Call, lucks: Lucks, keep: State -> bool, s: State) {
    keep(s) && Begun(s, call) && !Ended(s, call) ==> keep(Step(w, s, call, lucks(StageOf(s, call))))
  }

  ghost predicate Kept(w: World, call: Call, lucks: Lucks, keep: State -> bool) {
    forall s :: KeptBy(w, call, lucks, keep, s)
  }

  ghost predicate EndAt(call: Call, keep: State -> bool, goal: State, t: State) {
    keep(t) && Begun(t, call) && Ended(t, call) ==> t == goal
  }

  /** The property that the solo run from here ends where the one from `s` does. */
  lemma EndsIn(w: World, call: Call, lucks: Lucks, s: State) returns (keep: State -> bool)
    requires Begun(s, call) && Going(s, call)
    ensures Kept(w, call, lucks, keep) && keep(s)
    ensures forall t :: EndAt(call, keep, Solo(w, s, call, lucks), t)
  {
    var goal := Solo(w, s, call, lucks);
    keep := t => Begun(t, call) && Going(t, call) && Solo(w, t, call, lucks) == goal;
    forall t ensures KeptBy(w, call, lucks, keep, t) {
      if keep(t) && !Ended(t, call) {
        StepNearer(w, t, call, lucks(StageOf(t, call)));
      }
    }
  }

  ghost predicate At(w: World, lucks: Lucks, keep: State -> bool, s: State, op: Id, j: Job) {
    Kept(w, OfJob(op), lucks, keep) && keep(s) && op in s.jobs && s.jobs[op] == j
  }

  /** Operation `op` is now at job `j`, which is all that is new among the calls. */
  ghost predicate Moved(keep: State -> bool, s: State, t: State, op: Id, j: Job) {
    keep(t) && op in t.jobs && t.jobs == s.jobs[op := j] && t.suspends == s.suspends && t.resolves == s.resolves
  }

  lemma CommitParts(s: State, op: Id, f: Effect, t: State)
    requires t == Commit(s, op, f)
    ensures t.data == Written(s.data, f.write) && t.pool == f.pool && t.reg == f.reg
    ensures t.jobs == s.jobs[op := f.job] && t.suspends == s.suspends && t.resolves == s.resolves
  {
  }

  /** One step of an operation. */
  lemma Goes1(w: World, lucks: Lucks, keep: State -> bool, s: State, op: Id, j: Job) returns (t: State)
    requires At(w, lucks, keep, s, op, j) && !j.pc.Finished?
    ensures var f := JobEffect(w, s, op, j, lucks(JobAt(j.pc)));
      Moved(keep, s, t, op, f.job) && t.data == Written(s.data, f.write) && t.pool == f.pool && t.reg == f.reg
  {
    var f := JobEffect(w, s, op, j, lucks(JobAt(j.pc)));
    t := Commit(s, op, f);
    CommitParts(s, op, f, t);
    assert KeptBy(w, OfJob(op), lucks, keep, s);
  }

  lemma Fails(w: World, lucks: Lucks, keep: State -> bool, s: State, op: Id, j: Job) returns (t: State)
    requires At(w, lucks, keep, s, op, j) && j.pc == Failing
    ensures Moved(keep, s, t, op, j.(pc := Finished(false)))
    ensures t.data == FailOp(s.data, op) && t.pool == s.pool && t.reg == s.reg
  {
    t := Goes1(w, lucks, keep, s, op, j);
  }

  function Drawn(luck: Luck): Option<Id> {
    if luck.ok then Some(luck.id) else None
  }

  // ---- CreateProject ----

  /** What the goroutine of CreateProject does to the store, and the job it ends as. */
  function ProjectCall(w: World, d: Data, op: Id, j: Job, branch: Option<Id>, project: Id): (Data, Job)
    requires j.req.ForProject?
  {
    match branch
    case None => (FailOp(d, op), j.(pc := Finished(false)))
    case Some(b) =>
      var stored := Put(Put(d, ProjectRecord(Project(project, j.org, j.req.name, w.region, b))),
                        BranchRecord(Branch(b, j.org, project, "", BranchReady)));
      (CompleteOp(AddMetering(stored, MeteringEvent(j.org, BranchOps, 1.0)), op, ProjectResult(project, b)),
       j.(branch := b, project := project, pc := Finished(true)))
  }

  lemma ProjectStored(w: World, lucks: Lucks, keep: State -> bool, s: State, op: Id, j: Job) returns (t: State)
    requires At(w, lucks, keep, s, op, j) && j.req.ForProject? && j.pc == ProjPut
    ensures var project := lucks(JobAt(ProjPut)).id;
      && t.data == Put(Put(s.data, ProjectRecord(Project(project, j.org, j.req.name, w.region, j.branch))),
                       BranchRecord(Branch(j.branch, j.org, project, "", BranchReady)))
      && Moved(keep, s, t, op, j.(project := project, pc := ProjMeter))
    ensures t.pool == s.pool && t.reg == s.reg
  {
    t := Goes1(w, lucks, keep, s, op, j);
    t := Goes1(w, lucks, keep, t, op, t.jobs[op]);
  }

  lemma ProjectDone(w: World, lucks: Lucks, keep: State -> bool, s: State, op: Id, j: Job) returns (t: State)
    requires At(w, lucks, keep, s, op, j) && j.req.ForProject? && j.pc == ProjMeter
    ensures t.data == CompleteOp(AddMetering(s.data, MeteringEvent(j.org, BranchOps, 1.0)), op, ProjectResult(j.project, j.branch))
    ensures Moved(keep, s, t, op, j.(pc := Finished(true))) && t.pool == s.pool && t.reg == s.reg
  {
    t := Goes1(w, lucks, keep, s, op, j);
    t := Goes1(w, lucks, keep, t, op, t.jobs[op]);
  }

  lemma ProjectRun(w: World, lucks: Lucks, keep: State -> bool, s: State, op: Id, j: Job) returns (t: State)
    requires At(w, lucks, keep, s, op, j) && j.req.ForProject? && j.pc == ProjStorage
    ensures var (d, j') := ProjectCall(w, s.data, op, j, Drawn(lucks(JobAt(ProjStorage))), lucks(JobAt(ProjPut)).id);
      t.data == d && Moved(keep, s, t, op, j')
    ensures t.pool == s.pool && t.reg == s.reg
  {
    t := Goes1(w, lucks, keep, s, op, j);
    if t.jobs[op].pc == Failing {
      t := Fails(w, lucks, keep, t, op, t.jobs[op]);
    } else {
      t := ProjectStored(w, lucks, keep, t, op, t.jobs[op]);
      t := ProjectDone(w, lucks, keep, t, op, t.jobs[op]);
    }
  }

  // ---- CreateBranch ----

  function BranchCall(d: Data, op: Id, j: Job, branch: Option<Id>): (Data, Job)
    requires j.req.ForBranch?
  {
    if GetProject(d, j.org, j.req.parentProject).None? || branch.None? then (FailOp(d, op), j.(pc := Finished(false)))
    else
      var b := branch.value;
      var stored := Put(d, BranchRecord(Branch(b, j.org, j.req.parentProject, j.req.parent, BranchCreating)));
      var ready := TransitionBranch(stored, j.org, b, BranchReady);
      (CompleteOp(AddMetering(ready, MeteringEvent(j.org, BranchOps, 1.0)), op, BranchResult(b)),
       j.(branch := b, pc := Finished(true)))
  }

  lemma BranchStored(w: World, lucks: Lucks, keep: State -> bool, s: State, op: Id, j: Job) returns (t: State)
    requires At(w, lucks, keep, s, op, j) && j.req.ForBranch? && j.pc == BrPut
    ensures t.data == TransitionBranch(
      Put(s.data, BranchRecord(Branch(j.branch, j.org, j.req.parentProject, j.req.parent, BranchCreating))), j.org, j.branch, BranchReady)
    ensures Moved(keep, s, t, op, j.(pc := BrMeter)) && t.pool == s.pool && t.reg == s.reg
  {
    t := Goes1(w, lucks, keep, s, op, j);
    t := Goes1(w, lucks, keep, t, op, t.jobs[op]);
  }

  lemma BranchDone(w: World, lucks: Lucks, keep: State -> bool, s: State, op: Id, j: Job) returns (t: State)
    requires At(w, lucks, keep, s, op, j) && j.req.ForBranch? && j.pc == BrMeter
    ensures t.data == CompleteOp(AddMetering(s.data, MeteringEvent(j.org, BranchOps, 1.0)), op, BranchResult(j.branch))
    ensures Moved(keep, s, t, op, j.(pc := Finished(true))) && t.pool == s.pool && t.reg == s.reg
  {
    t := Goes1(w, lucks, keep, s, op, j);
    t := Goes1(w, lucks, keep, t, op, t.jobs[op]);
  }

  lemma BranchFinished(w: World, lucks: Lucks, keep: State -> bool, s: State, op: Id, j: Job) returns (t: State)
    requires At(w, lucks, keep, s, op, j) && j.req.ForBranch? && j.pc == BrPut
    ensures t.data == CompleteOp(AddMetering(TransitionBranch(
      Put(s.data, BranchRecord(Branch(j.branch, j.org, j.req.parentProject, j.req.parent, BranchCreating))), j.org, j.branch, BranchReady),
      MeteringEvent(j.org, BranchOps, 1.0)), op, BranchResult(j.branch))
    ensures Moved(keep, s, t, op, j.(pc := Finished(true))) && t.pool == s.pool && t.reg == s.reg
  {
    t := BranchStored(w, lucks, keep, s, op, j);
    t := BranchDone(w, lucks, keep, t, op, t.jobs[op]);
  }

  lemma BranchMade(w: World, lucks: Lucks, keep: State -> bool, s: State, op: Id, j: Job) returns (t: State)
    requires At(w, lucks, keep, s, op, j) && j.req.ForBranch? && j.pc == BrStorage
    requires GetProject(s.data, j.org, j.req.parentProject).Some?
    ensures var (d, j') := BranchCall(s.data, op, j, Drawn(lucks(JobAt(BrStorage))));
      t.data == d && Moved(keep, s, t, op, j')
    ensures t.pool == s.pool && t.reg == s.reg
  {
    t := Goes1(w, lucks, keep, s, op, j);
    if t.jobs[op].pc == Failing {
      t := Fails(w, lucks, keep, t, op, t.jobs[op]);
    } else {
      t := BranchFinished(w, lucks, keep, t, op, t.jobs[op]);
    }
  }

  lemma BranchRun(w: World, lucks: Lucks, keep: State -> bool, s: State, op: Id, j: Job) returns (t: State)
    requires At(w, lucks, keep, s, op, j) && j.req.ForBranch? && j.pc == BrFind
    ensures var (d, j') := BranchCall(s.data, op, j, Drawn(lucks(JobAt(BrStorage))));
      t.data == d && Moved(keep, s, t, op, j')
    ensures t.pool == s.pool && t.reg == s.reg
  {
    t := Goes1(w, lucks, keep, s, op, j);
    if t.jobs[op].pc == Failing {
      t := Fails(w, lucks, keep, t, op, t.jobs[op]);
    } else {
      t := BranchMade(w, lucks, keep, t, op, t.jobs[op]);
    }
  }

  // ---- StartEndpoint ----

  /** What the ports and the clock answer during one StartEndpoint. */
  datatype StartPorts = StartPorts(stamp: int, now: int, attached: bool, issued: bool)

  function StartPortsOf(lucks: Lucks): StartPorts {
    var got := lucks(JobAt(EpAcquire));
    StartPorts(got.stamp, got.now, lucks(JobAt(EpAttach)).ok, lucks(JobAt(EpCredential)).ok)
  }

  datatype Parts = Parts(data: Data, pool: Pool, reg: Registry)

  function PartsOf(s: State): Parts {
    Parts(s.data, s.pool, s.reg)
  }

  function EndpointCall(w: World, p: Parts, op: Id, j: Job, ports: StartPorts, ep: Id): (Parts, Job)
    requires j.req.ForEndpoint?
  {
    if GetBranch(p.data, j.org, j.req.onBranch).None? then (p.(data := FailOp(p.data, op)), j.(pc := Finished(false)))
    else
      var (pool, a) := AcquireFrom(p.pool, w.boots, w.policy, ports.stamp, ports.now);
      if a.Ok() then EndpointHeld(p.(pool := pool), op, j.(got := a), ports.attached && ports.issued, ep)
      else (Parts(FailOp(p.data, op), pool, p.reg), j.(got := a, pc := Finished(false)))
  }

  /** The rest of the call once it holds an instance. */
  function EndpointHeld(p: Parts, op: Id, j: Job, issued: bool, ep: Id): (Parts, Job)
    requires j.req.ForEndpoint? && j.got.Ok()
  {
    if !issued then (p.(data := FailOp(p.data, op)), j.(pc := Finished(false)))
    else
      var stored := Put(p.data, EndpointRecord(Endpoint(ep, j.org, j.req.onBranch, EndpointCreating, j.req.minCU, j.req.maxCU)));
      var active := TransitionEndpoint(stored, j.org, ep, EndpointActive);
      var done := CompleteOp(AddMetering(active, MeteringEvent(j.org, CuHours, 0.0)), op, EndpointResult(ep, j.got.BootMs(), j.got.Hit?));
      (Parts(done, p.pool, AddRoute(p.reg, ep, j.got.inst.host, RouteActive)), j.(ep := ep, pc := Finished(true)))
  }

  lemma EndpointStored(w: World, lucks: Lucks, keep: State -> bool, s: State, op: Id, j: Job) returns (t: State)
    requires At(w, lucks, keep, s, op, j) && j.req.ForEndpoint? && j.pc == EpPut
    ensures t.data == TransitionEndpoint(
      Put(s.data, EndpointRecord(Endpoint(j.ep, j.org, j.req.onBranch, EndpointCreating, j.req.minCU, j.req.maxCU))), j.org, j.ep, EndpointActive)
    ensures Moved(keep, s, t, op, j.(pc := EpRegister)) && t.pool == s.pool && t.reg == s.reg
  {
    t := Goes1(w, lucks, keep, s, op, j);
    t := Goes1(w, lucks, keep, t, op, t.jobs[op]);
  }

  lemma EndpointRegistered(w: World, lucks: Lucks, keep: State -> bool, s: State, op: Id, j: Job) returns (t: State)
    requires At(w, lucks, keep, s, op, j) && j.req.ForEndpoint? && j.pc == EpRegister && j.got.Ok()
    ensures t.data == AddMetering(s.data, MeteringEvent(j.org, CuHours, 0.0))
    ensures t.pool == s.pool && t.reg == AddRoute(s.reg, j.ep, j.got.inst.host, RouteActive)
    ensures Moved(keep, s, t, op, j.(pc := EpComplete))
  {
    t := Goes1(w, lucks, keep, s, op, j);
    t := Goes1(w, lucks, keep, t, op, t.jobs[op]);
  }

  lemma EndpointFinishes(w: World, lucks: Lucks, keep: State -> bool, s: State, op: Id, j: Job) returns (t: State)
    requires At(w, lucks, keep, s, op, j) && j.req.ForEndpoint? && j.pc == EpRegister && j.got.Ok()
    ensures t.data == CompleteOp(AddMetering(s.data, MeteringEvent(j.org, CuHours, 0.0)), op, EndpointResult(j.ep, j.got.BootMs(), j.got.Hit?))
    ensures t.pool == s.pool && t.reg == AddRoute(s.reg, j.ep, j.got.inst.host, RouteActive)
    ensures Moved(keep, s, t, op, j.(pc := Finished(true)))
  {
    t := EndpointRegistered(w, lucks, keep, s, op, j);
    t := Goes1(w, lucks, keep, t, op, t.jobs[op]);
  }

  lemma EndpointCompleted(w: World, lucks: Lucks, keep: State -> bool, s: State, op: Id, j: Job) returns (t: State)
    requires At(w, lucks, keep, s, op, j) && j.req.ForEndpoint? && j.pc == EpPut && j.got.Ok()
    ensures t.data == CompleteOp(AddMetering(TransitionEndpoint(
      Put(s.data, EndpointRecord(Endpoint(j.ep, j.org, j.req.onBranch, EndpointCreating, j.req.minCU, j.req.maxCU))), j.org, j.ep, EndpointActive),
      MeteringEvent(j.org, CuHours, 0.0)), op, EndpointResult(j.ep, j.got.BootMs(), j.got.Hit?))
    ensures t.pool == s.pool && t.reg == AddRoute(s.reg, j.ep, j.got.inst.host, RouteActive)
    ensures Moved(keep, s, t, op, j.(pc := Finished(true)))
  {
    t := EndpointStored(w, lucks, keep, s, op, j);
    t := EndpointFinishes(w, lucks, keep, t, op, t.jobs[op]);
  }

  lemma EndpointIssues(w: World, lucks: Lucks, keep: State -> bool, s: State, op: Id, j: Job) returns (t: State)
    requires At(w, lucks, keep, s, op, j) && j.req.ForEndpoint? && j.pc == EpCredential && j.got.Ok()
    ensures var luck := lucks(JobAt(EpCredential));
      var (p, j') := EndpointHeld(PartsOf(s), op, j, luck.ok, luck.id);
      PartsOf(t) == p && Moved(keep, s, t, op, j')
  {
    t := Goes1(w, lucks, keep, s, op, j);
    if t.jobs[op].pc == Failing {
      t := Fails(w, lucks, keep, t, op, t.jobs[op]);
    } else {
      t := EndpointCompleted(w, lucks, keep, t, op, t.jobs[op]);
    }
  }

  lemma EndpointAttaches(w: World, lucks: Lucks, keep: State -> bool, s: State, op: Id, j: Job) returns (t: State)
    requires At(w, lucks, keep, s, op, j) && j.req.ForEndpoint? && j.pc == EpAttach && j.got.Ok()
    ensures var ports := StartPortsOf(lucks);
      var (p, j') := EndpointHeld(PartsOf(s), op, j, ports.attached && ports.issued, lucks(JobAt(EpCredential)).id);
      PartsOf(t) == p && Moved(keep, s, t, op, j')
  {
    t := Goes1(w, lucks, keep, s, op, j);
    if t.jobs[op].pc == Failing {
      t := Fails(w, lucks, keep, t, op, t.jobs[op]);
    } else {
      t := EndpointIssues(w, lucks, keep, t, op, t.jobs[op]);
    }
  }

  lemma EndpointAcquires(w: World, lucks: Lucks, keep: State -> bool, s: State, op: Id, j: Job) returns (t: State)
    requires At(w, lucks, keep, s, op, j) && j.req.ForEndpoint? && j.pc == EpAcquire
    ensures var ports := StartPortsOf(lucks);
      var (pool, a) := AcquireFrom(s.pool, w.boots, w.policy, ports.stamp, ports.now);
      var (p, j') :=
        if a.Ok() then EndpointHeld(Parts(s.data, pool, s.reg), op, j.(got := a), ports.attached && ports.issued, lucks(JobAt(EpCredential)).id)
        else (Parts(FailOp(s.data, op), pool, s.reg), j.(got := a, pc := Finished(false)));
      PartsOf(t) == p && Moved(keep, s, t, op, j')
  {
    t := Goes1(w, lucks, keep, s, op, j);
    if t.jobs[op].pc == Failing {
      t := Fails(w, lucks, keep, t, op, t.jobs[op]);
    } else {
      t := EndpointAttaches(w, lucks, keep, t, op, t.jobs[op]);
    }
  }

  lemma EndpointRun(w: World, lucks: Lucks, keep: State -> bool, s: State, op: Id, j: Job) returns (t: State)
    requires At(w, lucks, keep, s, op, j) && j.req.ForEndpoint? && j.pc == EpFind
    ensures var (p, j') := EndpointCall(w, PartsOf(s), op, j, StartPortsOf(lucks), lucks(JobAt(EpCredential)).id);
      PartsOf(t) == p && Moved(keep, s, t, op, j')
  {
    t := Goes1(w, lucks, keep, s, op, j);
    if t.jobs[op].pc == Failing {
      t := Fails(w, lucks, keep, t, op, t.jobs[op]);
    } else {
      t := EndpointAcquires(w, lucks, keep, t, op, t.jobs[op]);
    }
  }

  // ---- Any of the three ----

  function JobCall(w: World, p: Parts, op: Id, j: Job, lucks: Lucks): (Parts, Job) {
    match j.req
    case ForProject(_) =>
      var (d, j') := ProjectCall(w, p.data, op, j, Drawn(lucks(JobAt(ProjStorage))), lucks(JobAt(ProjPut)).id);
      (p.(data := d), j')
    case ForBranch(_, _) =>
      var (d, j') := BranchCall(p.data, op, j, Drawn(lucks(JobAt(BrStorage))));
      (p.(data := d), j')
    case ForEndpoint(_, _, _) => EndpointCall(w, p, op, j, StartPortsOf(lucks), lucks(JobAt(EpCredential)).id)
  }

  lemma JobRun(w: World, lucks: Lucks, keep: State -> bool, s: State, op: Id, j: Job) returns (t: State)
    requires At(w, lucks, keep, s, op, j) && j.pc == FirstPc(j.req)
    ensures var (p, j') := JobCall(w, PartsOf(s), op, j, lucks);
      PartsOf(t) == p && Moved(keep, s, t, op, j') && j'.pc.Finished?
  {
    match j.req
    case ForProject(_) => t := ProjectRun(w, lucks, keep, s, op, j);
    case ForBranch(_, _) => t := BranchRun(w, lucks, keep, s, op, j);
    case ForEndpoint(_, _, _) => t := EndpointRun(w, lucks, keep, s, op, j);
  }

  lemma JobEnd(keep: State -> bool, s: State, t: State, op: Id, j: Job, goal: State)
    requires Moved(keep, s, t, op, j) && j.pc.Finished? && forall u :: EndAt(OfJob(op), keep, goal, u)
    ensures t == goal
  {
    assert EndAt(OfJob(op), keep, goal, t);
  }

  /** The solo run of a goroutine ends as the call does: with its data, its pool and its table. */
  lemma SoloJob(w: World, s: State, op: Id, j: Job, lucks: Lucks)
    requires op in s.jobs && s.jobs[op] == j && j.pc == FirstPc(j.req)
    ensures JobGoing(j)
    ensures var t := Solo(w, s, OfJob(op), lucks);
      var (p, j') := JobCall(w, PartsOf(s), op, j, lucks);
      && PartsOf(t) == p && j'.pc.Finished?
      && t.jobs == s.jobs[op := j'] && t.suspends == s.suspends && t.resolves == s.resolves
  {
    var keep := EndsIn(w, OfJob(op), lucks, s);
    var t := JobRun(w, lucks, keep, s, op, j);
    JobEnd(keep, s, t, op, JobCall(w, PartsOf(s), op, j, lucks).1, Solo(w, s, OfJob(op), lucks));
  }

  // ---- SuspendEndpoint ----

  /** What SuspendEndpoint does to store and table, and whether it succeeds. */
  function SuspendCall(d: Data, reg: Registry, org: Id, ep: Id, ok: bool): (Data, Registry, bool) {
    if GetEndpoint(d, org, ep).None? || !ok then (d, reg, false)
    else (TransitionEndpoint(d, org, ep, EndpointSuspended), SetRouteState(reg, ep, RouteSuspended), MayMoveEndpoint(d, org, ep, EndpointSuspended))
  }

  ghost predicate SuspendAtStep(w: World, lucks: Lucks, keep: State -> bool, s: State, c: nat, u: Suspend) {
    Kept(w, OfSuspend(c), lucks, keep) && keep(s) && c in s.suspends && s.suspends[c] == u
  }

  ghost predicate SuspendMoved(keep: State -> bool, s: State, t: State, c: nat, u: Suspend) {
    && keep(t) && c in t.suspends && t.suspends == s.suspends[c := u] && t.jobs == s.jobs && t.resolves == s.resolves
    && t.pool == s.pool && t.maker == s.maker && t.data.ops == s.data.ops
  }

  lemma SuspendGoes(w: World, lucks: Lucks, keep: State -> bool, s: State, c: nat, u: Suspend) returns (t: State)
    requires SuspendAtStep(w, lucks, keep, s, c, u) && !u.pc.SDone?
    ensures var f := SuspendStep(s, u, lucks(SuspendAt(u.pc)).ok);
      SuspendMoved(keep, s, t, c, f.call) && t.data == Written(s.data, f.write) && t.reg == f.reg
  {
    var ok := lucks(SuspendAt(u.pc)).ok;
    t := CommitSuspend(s, c, SuspendStep(s, u, ok));
    Ledger.SuspendKeepsOps(s, u, ok);
    assert KeptBy(w, OfSuspend(c), lucks, keep, s);
  }

  lemma SuspendWrites(w: World, lucks: Lucks, keep: State -> bool, s: State, c: nat, u: Suspend) returns (t: State)
    requires SuspendAtStep(w, lucks, keep, s, c, u) && u.pc == SRoute
    ensures t.data == TransitionEndpoint(s.data, u.org, u.ep, EndpointSuspended) && t.reg == SetRouteState(s.reg, u.ep, RouteSuspended)
    ensures SuspendMoved(keep, s, t, c, u.(pc := SDone(MayMoveEndpoint(s.data, u.org, u.ep, EndpointSuspended))))
  {
    t := SuspendGoes(w, lucks, keep, s, c, u);
    t := SuspendGoes(w, lucks, keep, t, c, t.suspends[c]);
  }

  lemma SuspendRun(w: World, lucks: Lucks, keep: State -> bool, s: State, c: nat, u: Suspend) returns (t: State)
    requires SuspendAtStep(w, lucks, keep, s, c, u) && u.pc == SCheck
    ensures var (d, reg, done) := SuspendCall(s.data, s.reg, u.org, u.ep, lucks(SuspendAt(SStorage)).ok);
      t.data == d && t.reg == reg && SuspendMoved(keep, s, t, c, u.(pc := SDone(done)))
  {
    t := SuspendGoes(w, lucks, keep, s, c, u);
    if t.suspends[c].pc == SStorage {
      t := SuspendGoes(w, lucks, keep, t, c, t.suspends[c]);
      if t.suspends[c].pc == SRoute {
        t := SuspendWrites(w, lucks, keep, t, c, t.suspends[c]);
      }
    }
  }

  /** The solo run of a suspend ends as the call does. */
  lemma SoloSuspend(w: World, s: State, c: nat, u: Suspend, lucks: Lucks)
    requires c in s.suspends && s.suspends[c] == u && u.pc == SCheck
    ensures var t := Solo(w, s, OfSuspend(c), lucks);
      var (d, reg, done) := SuspendCall(s.data, s.reg, u.org, u.ep, lucks(SuspendAt(SStorage)).ok);
      && t.data == d && t.reg == reg && t.pool == s.pool && t.jobs == s.jobs && t.resolves == s.resolves
      && t.suspends == s.suspends[c := u.(pc := SDone(done))] && t.maker == s.maker && t.data.ops == s.data.ops
  {
    var keep := EndsIn(w, OfSuspend(c), lucks, s);
    var t := SuspendRun(w, lucks, keep, s, c, u);
    assert EndAt(OfSuspend(c), keep, Solo(w, s, OfSuspend(c), lucks), t);
  }

  // ---- Resolve ----

  datatype WakePorts = WakePorts(stamp: int, now: int, attached: bool)

  function WakePortsOf(lucks: Lucks): WakePorts {
    var got := lucks(ResolveAt(WAcquire));
    WakePorts(got.stamp, got.now, lucks(ResolveAt(WAttach)).ok)
  }

  /** The wake hook: the address it returns, if any, and how long the boot took. */
  function WakeCall(w: World, d: Data, pool: Pool, ep: Id, ports: WakePorts): (Data, Pool, Outcome) {
    var e := EndpointRef(d, ep);
    if e.None? then (d, pool, Gone)
    else
      var (pool', a) := AcquireFrom(pool, w.boots, w.policy, ports.stamp, ports.now);
      if !a.Ok() || !ports.attached then (d, pool', WakeFailed)
      else (TransitionEndpoint(d, e.value.org, ep, EndpointActive), pool', Outcome.Answered(a.inst.host, a.BootMs()))
  }

  function ResolveCall(w: World, p: Parts, ep: Id, ports: WakePorts): (Parts, Outcome) {
    if ep !in p.reg.table then (p, NotFound)
    else
      var ref := p.reg.table[ep];
      var route := RouteAt(p.reg, ref);
      if route.state == RouteActive then (p, Outcome.Answered(route.addr, 0))
      else
        var (d, pool, o) := WakeCall(w, p.data, p.pool, ep, ports);
        if o.Answered? then (Parts(d, pool, WriteState(WriteAddr(p.reg, ref, o.addr), ref, RouteActive)), o)
        else (Parts(d, pool, p.reg), o)
  }

  ghost predicate ResolveAtStep(w: World, lucks: Lucks, keep: State -> bool, s: State, c: nat, r: Resolve) {
    Kept(w, OfResolve(c), lucks, keep) && keep(s) && c in s.resolves && s.resolves[c] == r
  }

  ghost predicate ResolveMoved(keep: State -> bool, s: State, t: State, c: nat) {
    && keep(t) && c in t.resolves && t.resolves == s.resolves[c := t.resolves[c]]
    && t.jobs == s.jobs && t.suspends == s.suspends && t.maker == s.maker && t.data.ops == s.data.ops
  }

  lemma ResolveGoes(w: World, lucks: Lucks, keep: State -> bool, s: State, c: nat, r: Resolve) returns (t: State)
    requires ResolveAtStep(w, lucks, keep, s, c, r) && !r.pc.RDone?
    ensures var f := ResolveStep(w, s, c, r, lucks(ResolveAt(r.pc)));
      && ResolveMoved(keep, s, t, c) && t.resolves[c] == f.call
      && t.data == Written(s.data, f.write) && t.pool == f.pool && t.reg == f.reg
  {
    var luck := lucks(ResolveAt(r.pc));
    t := CommitResolve(s, c, ResolveStep(w, s, c, r, luck));
    Ledger.ResolveKeepsOps(w, s, c, r, luck);
    assert KeptBy(w, OfResolve(c), lucks, keep, s);
  }

  lemma WakeInstalls(w: World, lucks: Lucks, keep: State -> bool, s: State, c: nat, r: Resolve) returns (t: State)
    requires ResolveAtStep(w, lucks, keep, s, c, r) && r.pc == WAddr && r.got.Ok()
    ensures t.data == s.data && t.pool == s.pool
    ensures t.reg == WriteState(WriteAddr(s.reg, r.ref, r.got.inst.host), r.ref, RouteActive)
    ensures ResolveMoved(keep, s, t, c) && t.resolves[c].pc == RDone(Outcome.Answered(r.got.inst.host, r.got.BootMs()))
  {
    t := ResolveGoes(w, lucks, keep, s, c, r);
    t := ResolveGoes(w, lucks, keep, t, c, t.resolves[c]);
  }

  lemma WakeAttaches(w: World, lucks: Lucks, keep: State -> bool, s: State, c: nat, r: Resolve) returns (t: State)
    requires ResolveAtStep(w, lucks, keep, s, c, r) && r.pc == WAttach && r.got.Ok()
    ensures var attached := lucks(ResolveAt(WAttach)).ok;
      && t.data == (if attached then TransitionEndpoint(s.data, r.org, r.ep, EndpointActive) else s.data)
      && t.reg == (if attached then WriteState(WriteAddr(s.reg, r.ref, r.got.inst.host), r.ref, RouteActive) else s.reg)
      && t.pool == s.pool && ResolveMoved(keep, s, t, c)
      && t.resolves[c].pc == RDone(if attached then Outcome.Answered(r.got.inst.host, r.got.BootMs()) else WakeFailed)
  {
    t := ResolveGoes(w, lucks, keep, s, c, r);
    if t.resolves[c].pc == WActivate {
      t := ResolveGoes(w, lucks, keep, t, c, t.resolves[c]);
      t := WakeInstalls(w, lucks, keep, t, c, t.resolves[c]);
    }
  }

  lemma WakeAcquires(w: World, lucks: Lucks, keep: State -> bool, s: State, c: nat, r: Resolve) returns (t: State)
    requires ResolveAtStep(w, lucks, keep, s, c, r) && r.pc == WAcquire
    ensures var ports := WakePortsOf(lucks);
      var (pool, a) := AcquireFrom(s.pool, w.boots, w.policy, ports.stamp, ports.now);
      var woken := a.Ok() && ports.attached;
      && t.data == (if woken then TransitionEndpoint(s.data, r.org, r.ep, EndpointActive) else s.data)
      && t.reg == (if woken then WriteState(WriteAddr(s.reg, r.ref, a.inst.host), r.ref, RouteActive) else s.reg)
      && t.pool == pool && ResolveMoved(keep, s, t, c)
      && t.resolves[c].pc == RDone(if woken then Outcome.Answered(a.inst.host, a.BootMs()) else WakeFailed)
  {
    t := ResolveGoes(w, lucks, keep, s, c, r);
    if t.resolves[c].pc == WAttach {
      t := WakeAttaches(w, lucks, keep, t, c, t.resolves[c]);
    }
  }

  lemma WakeRun(w: World, lucks: Lucks, keep: State -> bool, s: State, c: nat, r: Resolve) returns (t: State)
    requires ResolveAtStep(w, lucks, keep, s, c, r) && r.pc == WRef
    ensures var (d, pool, o) := WakeCall(w, s.data, s.pool, r.ep, WakePortsOf(lucks));
      && t.data == d && t.pool == pool && ResolveMoved(keep, s, t, c) && t.resolves[c].pc == RDone(o)
      && t.reg == if o.Answered? then WriteState(WriteAddr(s.reg, r.ref, o.addr), r.ref, RouteActive) else s.reg
  {
    t := ResolveGoes(w, lucks, keep, s, c, r);
    if t.resolves[c].pc == WAcquire {
      t := WakeAcquires(w, lucks, keep, t, c, t.resolves[c]);
    }
  }

  lemma ResolveRun(w: World, lucks: Lucks, keep: State -> bool, s: State, c: nat, r: Resolve) returns (t: State)
    requires ResolveAtStep(w, lucks, keep, s, c, r) && r.pc == RLookup
    ensures var (p, o) := ResolveCall(w, PartsOf(s), r.ep, WakePortsOf(lucks));
      PartsOf(t) == p && ResolveMoved(keep, s, t, c) && t.resolves[c].pc == RDone(o)
  {
    t := ResolveGoes(w, lucks, keep, s, c, r);
    if t.resolves[c].pc == RState {
      t := ResolveGoes(w, lucks, keep, t, c, t.resolves[c]);
      if t.resolves[c].pc == RAddr {
        t := ResolveGoes(w, lucks, keep, t, c, t.resolves[c]);
      } else {
        t := WakeRun(w, lucks, keep, t, c, t.resolves[c]);
      }
    }
  }

  /** The solo run of a Resolve ends as the call does. */
  lemma SoloResolve(w: World, s: State, c: nat, r: Resolve, lucks: Lucks)
    requires c in s.resolves && s.resolves[c] == r && r.pc == RLookup
    ensures var t := Solo(w, s, OfResolve(c), lucks);
      var (p, o) := ResolveCall(w, PartsOf(s), r.ep, WakePortsOf(lucks));
      && PartsOf(t) == p && c in t.resolves && t.resolves[c].pc == RDone(o) && t.resolves == s.resolves[c := t.resolves[c]]
      && t.jobs == s.jobs && t.suspends == s.suspends && t.maker == s.maker && t.data.ops == s.data.ops
  {
    var keep := EndsIn(w, OfResolve(c), lucks, s);
    var t := ResolveRun(w, lucks, keep, s, c, r);
    assert EndAt(OfResolve(c), keep, Solo(w, s, OfResolve(c), lucks), t);
  }
}
