/** The control plane as a step machine. One critical section, or one call of a port, is one
    atomic step; the steps of all calls in flight interleave freely. */
module ControlPlane {
  import opened Model
  import opened WarmPools
  import opened Stores
  import opened Routing
  import EndpointIds

  /** What stays the same over a run. The outcomes of BootInstance are any function; the other
      ports, the ids and the clock are chosen step by step. */
  datatype World = World(boots: Boots, policy: Policy, region: string)

  // ---- Calls in flight ----

  datatype Request =
    | ForProject(name: string)
    | ForBranch(parentProject: Id, parent: Id)
    | ForEndpoint(onBranch: Id, minCU: real, maxCU: real)
  {
    function Kind(): OpKind {
      match this
      case ForProject(_) => CreateProject
      case ForBranch(_, _) => CreateBranch
      case ForEndpoint(_, _, _) => StartEndpoint
    }
  }

  datatype JobPc =
    | ProjStorage | ProjPut | ProjPutBranch | ProjMeter | ProjComplete
    | BrFind | BrStorage | BrPut | BrReady | BrMeter | BrComplete
    | EpFind | EpAcquire | EpAttach | EpCredential | EpPut | EpActivate | EpRegister | EpMeter | EpComplete
    | Failing
    | Finished(ok: bool)

  /** The goroutine of one operation: its arguments, program counter and locals. */
  datatype Job = Job(org: Id, req: Request, pc: JobPc, project: Id, branch: Id, ep: Id, got: Acquired)

  datatype SuspendPc = SCheck | SStorage | SRoute | SStore | SDone(ok: bool)

  datatype Suspend = Suspend(org: Id, ep: Id, pc: SuspendPc)

  datatype Outcome = NotFound | Gone | WakeFailed | Answered(addr: string, ms: int)

  /** Resolve reads the backend's state and address after it has released the lock, so those are
      steps of their own; so are its two writes at the end. */
  datatype ResolvePc = RLookup | RState | RAddr | WRef | WAcquire | WAttach | WActivate | WAddr | WState | RDone(outcome: Outcome)

  datatype Resolve = Resolve(ep: Id, pc: ResolvePc, ref: nat, org: Id, branch: Id, got: Acquired)

  // ---- History kept beside the state ----

  datatype Caller = ByJob(op: Id) | ByResolve(call: nat)

  /** Where a booted instance is: retired means its routing entry was given another address. */
  datatype Place = Ready | Held(caller: Caller) | Routed(ref: nat) | Retired(ref: nat) | Stranded | Dropped

  datatype State = State(
    data: Data,
    pool: Pool,
    reg: Registry,
    jobs: map<Id, Job>,
    suspends: map<nat, Suspend>,
    resolves: map<nat, Resolve>,
    maker: map<Id, Id>,              // which operation an id was made for
    place: map<string, Place>,       // by host
    answers: set<(Id, string)>       // every endpoint and address Resolve has returned
  )

  function Initial(w: World, now: int): State {
    var pool := NewPool(w.boots, w.policy, now);
    State(EMPTY, pool, Registry(map[], []), map[], map[], map[], map[], PutReady(map[], pool.ready), {})
  }

  // ---- Events ----

  /** What a step leaves open: a port's success, a fresh id, two readings of the clock. */
  datatype Luck = Luck(ok: bool, id: Id, stamp: int, now: int)

  datatype Event =
    | Begin(op: Id, org: Id, req: Request)
    | Advance(job: Id, luck: Luck)
    | BeginSuspend(suspend: nat, org: Id, ep: Id)
    | AdvanceSuspend(suspend: nat, ok: bool)
    | BeginResolve(resolve: nat, ep: Id)
    | AdvanceResolve(resolve: nat, luck: Luck)
    | DrainPool

  predicate Unused(s: State, id: Id) {
    id !in s.data.ops && id !in s.maker
  }

  /** A port that fails makes no id. */
  predicate MakesId(pc: JobPc, luck: Luck) {
    pc == ProjPut || (luck.ok && (pc == ProjStorage || pc == BrStorage || pc == EpCredential))
  }

  /** Ids are fresh, calls in flight have steps left; nothing else restricts a step. */
  ghost predicate Enabled(s: State, e: Event) {
    match e
    case Begin(op, _, _) => Unused(s, op)
    case Advance(op, luck) =>
      && op in s.jobs && !s.jobs[op].pc.Finished?
      && (MakesId(s.jobs[op].pc, luck) ==> Unused(s, luck.id))
      && (s.jobs[op].pc == EpCredential && luck.ok ==> EndpointIds.IsNewId("ep", luck.id))
    case BeginSuspend(c, _, _) => c !in s.suspends
    case AdvanceSuspend(c, _) => c in s.suspends && !s.suspends[c].pc.SDone?
    case BeginResolve(c, _) => c !in s.resolves
    case AdvanceResolve(c, _) => c in s.resolves && !s.resolves[c].pc.RDone?
    case DrainPool => true
  }

  // ---- Steps ----

  function PutReady(place: map<string, Place>, ready: seq<WarmInstance>): map<string, Place> {
    place + map i | i in ready :: i.host := Ready
  }

  function PutDropped(place: map<string, Place>, ready: seq<WarmInstance>): map<string, Place> {
    place + map i | i in ready :: i.host := Dropped
  }

  function HandOut(place: map<string, Place>, ready: seq<WarmInstance>, a: Acquired, caller: Caller): map<string, Place> {
    if a.Ok() then PutReady(place, ready)[a.inst.host := Held(caller)] else place
  }

  /** A call gives up an instance it holds: nobody will ever use or return it. */
  function Strand(place: map<string, Place>, a: Acquired): map<string, Place> {
    if a.Ok() then place[a.inst.host := Stranded] else place
  }

  function FirstPc(req: Request): JobPc {
    match req
    case ForProject(_) => ProjStorage
    case ForBranch(_, _) => BrFind
    case ForEndpoint(_, _, _) => EpFind
  }

  function ResultOf(j: Job): OpResult {
    match j.req
    case ForProject(_) => ProjectResult(j.project, j.branch)
    case ForBranch(_, _) => BranchResult(j.branch)
    case ForEndpoint(_, _, _) => EndpointResult(j.ep, j.got.BootMs(), j.got.Hit?)
  }

  const NO_COMPUTE := NoCompute(0)

  function BeginJob(s: State, op: Id, org: Id, req: Request): State {
    s.(data := Put(s.data, OperationRecord(Operation(op, org, req.Kind(), Running, NoResult))),
       jobs := s.jobs[op := Job(org, req, FirstPc(req), "", "", "", NO_COMPUTE)])
  }

  /** What one step of a goroutine does: its new locals, its write to the store, the id it
      made, and the pool, registry and places it leaves. */
  datatype Effect = Effect(job: Job, write: Write, made: Option<Id>, pool: Pool, reg: Registry, place: map<string, Place>)

  function Goes(s: State, j: Job, pc: JobPc): Effect {
    Effect(j.(pc := pc), NoWrite, None, s.pool, s.reg, s.place)
  }

  function CreateProjectStep(w: World, s: State, op: Id, j: Job, luck: Luck): Effect
    requires j.req.ForProject?
  {
    match j.pc
    case ProjStorage =>
      if luck.ok then Goes(s, j.(branch := luck.id), ProjPut).(made := Some(luck.id)) else Goes(s, j, Failing)
    case ProjPut =>
      Goes(s, j.(project := luck.id), ProjPutBranch).(
        made := Some(luck.id), write := Insert(ProjectRecord(Project(luck.id, j.org, j.req.name, w.region, j.branch))))
    case ProjPutBranch =>
      Goes(s, j, ProjMeter).(write := Insert(BranchRecord(Branch(j.branch, j.org, j.project, "", BranchReady))))
    case ProjMeter =>
      Goes(s, j, ProjComplete).(write := Meter(MeteringEvent(j.org, BranchOps, 1.0)))
    case ProjComplete =>
      Goes(s, j, Finished(true)).(write := Complete(op, ResultOf(j)))
    case _ => Goes(s, j, j.pc)
  }

  function CreateBranchStep(s: State, op: Id, j: Job, luck: Luck): Effect
    requires j.req.ForBranch?
  {
    match j.pc
    case BrFind =>
      Goes(s, j, if GetProject(s.data, j.org, j.req.parentProject).Some? then BrStorage else Failing)
    case BrStorage =>
      if luck.ok then Goes(s, j.(branch := luck.id), BrPut).(made := Some(luck.id)) else Goes(s, j, Failing)
    case BrPut =>
      Goes(s, j, BrReady).(write := Insert(BranchRecord(Branch(j.branch, j.org, j.req.parentProject, j.req.parent, BranchCreating))))
    case BrReady =>
      Goes(s, j, BrMeter).(write := MoveBranch(j.org, j.branch, BranchReady))
    case BrMeter =>
      Goes(s, j, BrComplete).(write := Meter(MeteringEvent(j.org, BranchOps, 1.0)))
    case BrComplete =>
      Goes(s, j, Finished(true)).(write := Complete(op, ResultOf(j)))
    case _ => Goes(s, j, j.pc)
  }

  function NewEndpoint(j: Job): Endpoint
    requires j.req.ForEndpoint?
  {
    Endpoint(j.ep, j.org, j.req.onBranch, EndpointCreating, j.req.minCU, j.req.maxCU)
  }

  function StartEndpointStep(w: World, s: State, op: Id, j: Job, luck: Luck): Effect
    requires j.req.ForEndpoint?
  {
    match j.pc
    case EpFind =>
      Goes(s, j, if GetBranch(s.data, j.org, j.req.onBranch).Some? then EpAcquire else Failing)
    case EpAcquire =>
      var (pool, a) := AcquireFrom(s.pool, w.boots, w.policy, luck.stamp, luck.now);
      Goes(s, j.(got := a), if a.Ok() then EpAttach else Failing).(pool := pool, place := HandOut(s.place, pool.ready, a, ByJob(op)))
    case EpAttach =>
      if luck.ok then Goes(s, j, EpCredential) else Goes(s, j, Failing).(place := Strand(s.place, j.got))
    case EpCredential =>
      if luck.ok then Goes(s, j.(ep := luck.id), EpPut).(made := Some(luck.id))
      else Goes(s, j, Failing).(place := Strand(s.place, j.got))
    case EpPut =>
      Goes(s, j, EpActivate).(write := Insert(EndpointRecord(NewEndpoint(j))))
    case EpActivate =>
      Goes(s, j, EpRegister).(write := MoveEndpoint(j.org, j.ep, EndpointActive))
    case EpRegister =>
      if j.got.Ok() then
        Goes(s, j, EpMeter).(
          reg := AddRoute(s.reg, j.ep, j.got.inst.host, RouteActive),
          place := s.place[j.got.inst.host := Routed(|s.reg.cells|)])
      else Goes(s, j, j.pc)
    case EpMeter =>
      Goes(s, j, EpComplete).(write := Meter(MeteringEvent(j.org, CuHours, 0.0)))
    case EpComplete =>
      Goes(s, j, Finished(true)).(write := Complete(op, ResultOf(j)))
    case _ => Goes(s, j, j.pc)
  }

  function JobEffect(w: World, s: State, op: Id, j: Job, luck: Luck): Effect {
    if j.pc == Failing then Goes(s, j, Finished(false)).(write := Fail(op))
    else match j.req
      case ForProject(_) => CreateProjectStep(w, s, op, j, luck)
      case ForBranch(_, _) => CreateBranchStep(s, op, j, luck)
      case ForEndpoint(_, _, _) => StartEndpointStep(w, s, op, j, luck)
  }

  function Commit(s: State, op: Id, f: Effect): State {
    State(Written(s.data, f.write), f.pool, f.reg, s.jobs[op := f.job], s.suspends, s.resolves,
          if f.made.Some? then s.maker[f.made.value := op] else s.maker, f.place, s.answers)
  }

  function JobStep(w: World, s: State, op: Id, luck: Luck): State
    requires op in s.jobs
  {
    Commit(s, op, JobEffect(w, s, op, s.jobs[op], luck))
  }

  datatype SuspendEffect = SuspendEffect(call: Suspend, write: Write, reg: Registry)

  function SuspendStep(s: State, u: Suspend, ok: bool): SuspendEffect {
    match u.pc
    case SCheck => SuspendEffect(u.(pc := if GetEndpoint(s.data, u.org, u.ep).Some? then SStorage else SDone(false)), NoWrite, s.reg)
    case SStorage => SuspendEffect(u.(pc := if ok then SRoute else SDone(false)), NoWrite, s.reg)
    case SRoute => SuspendEffect(u.(pc := SStore), NoWrite, SetRouteState(s.reg, u.ep, RouteSuspended))
    case SStore =>
      SuspendEffect(u.(pc := SDone(MayMoveEndpoint(s.data, u.org, u.ep, EndpointSuspended))),
                    MoveEndpoint(u.org, u.ep, EndpointSuspended), s.reg)
    case SDone(_) => SuspendEffect(u, NoWrite, s.reg)
  }

  function RouteAt(r: Registry, ref: nat): Route {
    if ref < |r.cells| then r.cells[ref] else Route("", RouteSuspended)
  }

  datatype ResolveEffect = ResolveEffect(
    call: Resolve, write: Write, pool: Pool, reg: Registry, place: map<string, Place>, answers: set<(Id, string)>)

  function Now(s: State, r: Resolve, pc: ResolvePc): ResolveEffect {
    ResolveEffect(r.(pc := pc), NoWrite, s.pool, s.reg, s.place, s.answers)
  }

  function ResolveStep(w: World, s: State, c: nat, r: Resolve, luck: Luck): ResolveEffect {
    match r.pc
    case RLookup =>
      if r.ep in s.reg.table then Now(s, r.(ref := s.reg.table[r.ep]), RState) else Now(s, r, RDone(NotFound))
    case RState =>
      Now(s, r, if RouteAt(s.reg, r.ref).state == RouteActive then RAddr else WRef)
    case RAddr =>
      var addr := RouteAt(s.reg, r.ref).addr;
      Now(s, r, RDone(Answered(addr, 0))).(answers := s.answers + {(r.ep, addr)})
    case WRef =>
      var e := EndpointRef(s.data, r.ep);
      if e.Some? then Now(s, r.(org := e.value.org, branch := e.value.branch), WAcquire) else Now(s, r, RDone(Gone))
    case WAcquire =>
      var (pool, a) := AcquireFrom(s.pool, w.boots, w.policy, luck.stamp, luck.now);
      Now(s, r.(got := a), if a.Ok() then WAttach else RDone(WakeFailed)).(
        pool := pool, place := HandOut(s.place, pool.ready, a, ByResolve(c)))
    case WAttach =>
      if luck.ok then Now(s, r, WActivate) else Now(s, r, RDone(WakeFailed)).(place := Strand(s.place, r.got))
    case WActivate =>
      Now(s, r, WAddr).(write := MoveEndpoint(r.org, r.ep, EndpointActive))
    case WAddr =>
      if r.got.Ok() then
        Now(s, r, WState).(
          reg := WriteAddr(s.reg, r.ref, r.got.inst.host),
          place := s.place[RouteAt(s.reg, r.ref).addr := Retired(r.ref)][r.got.inst.host := Routed(r.ref)])
      else Now(s, r, r.pc)
    case WState =>
      if r.got.Ok() then
        Now(s, r, RDone(Answered(r.got.inst.host, r.got.BootMs()))).(
          reg := WriteState(s.reg, r.ref, RouteActive),
          answers := s.answers + {(r.ep, r.got.inst.host)})
      else Now(s, r, r.pc)
    case RDone(_) => Now(s, r, r.pc)
  }

  function CommitSuspend(s: State, c: nat, f: SuspendEffect): State {
    s.(data := Written(s.data, f.write), reg := f.reg, suspends := s.suspends[c := f.call])
  }

  function CommitResolve(s: State, c: nat, f: ResolveEffect): State {
    State(Written(s.data, f.write), f.pool, f.reg, s.jobs, s.suspends, s.resolves[c := f.call], s.maker, f.place, f.answers)
  }

  ghost function Apply(w: World, s: State, e: Event): State
    requires Enabled(s, e)
  {
    match e
    case Begin(op, org, req) => BeginJob(s, op, org, req)
    case Advance(op, luck) => JobStep(w, s, op, luck)
    case BeginSuspend(c, org, ep) => s.(suspends := s.suspends[c := Suspend(org, ep, SCheck)])
    case AdvanceSuspend(c, ok) => CommitSuspend(s, c, SuspendStep(s, s.suspends[c], ok))
    case BeginResolve(c, ep) => s.(resolves := s.resolves[c := Resolve(ep, RLookup, 0, "", "", NO_COMPUTE)])
    case AdvanceResolve(c, luck) => CommitResolve(s, c, ResolveStep(w, s, c, s.resolves[c], luck))
    case DrainPool => s.(pool := Drained(s.pool), place := PutDropped(s.place, s.pool.ready))
  }

  // ---- Runs ----

  /** A run: its states, each reached from the one before by an enabled event. */
  ghost predicate IsRun(w: World, run: seq<State>) {
    && run != []
    && (exists now :: run[0] == Initial(w, now))
    && (forall i :: 0 <= i < |run| - 1 ==> StepAt(w, run, i))
  }

  ghost predicate StepAt(w: World, run: seq<State>, i: int)
    requires 0 <= i < |run| - 1
  {
    Steps(w, run[i], run[i + 1])
  }

  ghost predicate Steps(w: World, s: State, s': State) {
    exists e :: Enabled(s, e) && s' == Apply(w, s, e)
  }

  ghost predicate Reachable(w: World, s: State) {
    exists run :: IsRun(w, run) && run[|run| - 1] == s
  }

  /** Whether a list of events can happen one after the other from `s`, and the state it leads to. */
  ghost predicate CanDo(w: World, s: State, events: seq<Event>)
    decreases events
  {
    events == [] || (Enabled(s, events[0]) && CanDo(w, Apply(w, s, events[0]), events[1..]))
  }

  ghost function After(w: World, s: State, events: seq<Event>): State
    requires CanDo(w, s, events)
    decreases events
  {
    if events == [] then s else After(w, Apply(w, s, events[0]), events[1..])
  }
}
