/** The application's calls one after the other: every call, whole, and what holds between calls. */
module Serial {
  import opened Model
  import opened WarmPools
  import PoolLaws
  import opened Stores
  import opened Routing
  import opened ControlPlane
  import opened Runs
  import opened Calls
  import EndpointIds
  import Sync

  // ---- Soundness while one call is under way ----

  ghost predicate JobsRest(jobs: map<Id, Job>, call: Call) {
    forall o :: o in jobs && call != OfJob(o) ==> jobs[o].pc.Finished?
  }

  ghost predicate SuspendsRest(suspends: map<nat, Suspend>, call: Call) {
    forall c :: c in suspends && call != OfSuspend(c) ==> suspends[c].pc.SDone?
  }

  ghost predicate ResolvesRest(resolves: map<nat, Resolve>, call: Call) {
    forall c :: c in resolves && call != OfResolve(c) ==> resolves[c].pc.RDone?
  }

  ghost predicate OnlyUnderWay(s: State, call: Call) {
    JobsRest(s.jobs, call) && SuspendsRest(s.suspends, call) && ResolvesRest(s.resolves, call)
  }

  /** Reachable, nothing but `call` under way, and no endpoint's table and store state apart. */
  ghost predicate Alone(w: World, call: Call, s: State) {
    && PoolLaws.Fresh(w.boots) && Reachable(w, s) && OnlyUnderWay(s, call)
    && (forall x: Id :: Sync.InSync(Sync.TwinOf(s, x)))
  }

  lemma NeverMeet(s: State, call: Call, x: Id)
    requires OnlyUnderWay(s, call)
    ensures !Sync.Overlap(s, x)
  {
  }

  lemma AloneStep(w: World, s: State, e: Event, call: Call)
    requires Alone(w, call, s) && Enabled(s, e) && OnlyUnderWay(Apply(w, s, e), call)
    ensures Alone(w, call, Apply(w, s, e))
  {
    ReachesMore(w, s, e);
    forall x: Id ensures Sync.InSync(Sync.TwinOf(Apply(w, s, e), x)) {
      assert Sync.InSync(Sync.TwinOf(s, x));
      NeverMeet(s, call, x);
      NeverMeet(Apply(w, s, e), call, x);
      Sync.StepSync(w, s, e, x);
    }
  }

  lemma StillOnly(w: World, s: State, e: Event, call: Call)
    requires OnlyUnderWay(s, call) && Enabled(s, e) && Mine(call, e)
    ensures OnlyUnderWay(Apply(w, s, e), call)
  {
  }

  lemma {:induction false} AloneAfter(w: World, s: State, events: seq<Event>, call: Call)
    requires Alone(w, call, s) && CanDo(w, s, events) && AllMine(call, events)
    ensures Alone(w, call, After(w, s, events))
    decreases events
  {
    if events != [] {
      StillOnly(w, s, events[0], call);
      AloneStep(w, s, events[0], call);
      AloneAfter(w, Apply(w, s, events[0]), events[1..], call);
    }
  }

  lemma Starts(w: World, now: int)
    requires PoolLaws.Fresh(w.boots)
    ensures Alone(w, Nobody, Initial(w, now))
  {
    ReachesStart(w, now);
    assert forall x: Id :: Sync.InSync(Sync.TwinOf(Initial(w, now), x));
  }

  // ---- Whole calls: nothing under way before, nothing after ----

  function NewJob(org: Id, req: Request): Job {
    Job(org, req, FirstPc(req), "", "", "", NO_COMPUTE)
  }

  /** The store once the operation is recorded. */
  function WithOp(d: Data, op: Id, org: Id, req: Request): Data {
    Put(d, OperationRecord(Operation(op, org, req.Kind(), Running, NoResult)))
  }

  /** `t` is reached from `s` by `first` and then by events of `call` alone. */
  ghost predicate RunsCall(w: World, s: State, first: Event, call: Call, events: seq<Event>, t: State) {
    && Enabled(s, first) && CanDo(w, Apply(w, s, first), events) && AllMine(call, events)
    && t == After(w, Apply(w, s, first), events)
  }

  ghost predicate Ran(w: World, s: State, first: Event, call: Call, t: State) {
    exists events :: RunsCall(w, s, first, call, events, t)
  }

  lemma RanTo(w: World, s: State, first: Event, call: Call, t: State) returns (events: seq<Event>)
    requires Ran(w, s, first, call, t)
    ensures EventsTo(w, s, t, events)
  {
    var rest :| RunsCall(w, s, first, call, rest, t);
    DoFirst(w, s, first, rest);
    events := [first] + rest;
  }

  /** What a run of operation `op` alone, from its beginning to its end, leaves when it draws `lucks`. */
  ghost predicate JobDone(w: World, s: State, op: Id, org: Id, req: Request, lucks: Lucks, t: State) {
    var (p, j) := JobCall(w, Parts(WithOp(s.data, op, org, req), s.pool, s.reg), op, NewJob(org, req), lucks);
    && PartsOf(t) == p && j.pc.Finished?
    && t.jobs == s.jobs[op := j] && t.suspends == s.suspends && t.resolves == s.resolves
  }

  lemma JobSolo(w: World, s: State, op: Id, org: Id, req: Request, lucks: Lucks)
    ensures var b := BeginJob(s, op, org, req);
      Begun(b, OfJob(op)) && Going(b, OfJob(op)) && JobDone(w, s, op, org, req, lucks, Solo(w, b, OfJob(op), lucks))
  {
    SoloJob(w, BeginJob(s, op, org, req), op, NewJob(org, req), lucks);
  }

  lemma JobBegins(s: State, op: Id, org: Id, req: Request)
    ensures var b := BeginJob(s, op, org, req); Begun(b, OfJob(op)) && Going(b, OfJob(op))
  {
  }

  lemma JobEnds(t: State, op: Id)
    requires op in t.jobs && t.jobs[op].pc.Finished?
    ensures Begun(t, OfJob(op)) && Ended(t, OfJob(op))
  {
  }

  /** Every run of the machine that begins an operation and advances it alone to its end leaves exactly what
      the call does, for the lucks it drew. */
  lemma EveryJobRun(w: World, s: State, op: Id, org: Id, req: Request, events: seq<Event>, t: State) returns (lucks: Lucks)
    requires RunsCall(w, s, Begin(op, org, req), OfJob(op), events, t) && op in t.jobs && t.jobs[op].pc.Finished?
    ensures Drew(w, BeginJob(s, op, org, req), OfJob(op), events, lucks) && JobDone(w, s, op, org, req, lucks, t)
  {
    JobBegins(s, op, org, req);
    JobEnds(t, op);
    lucks := SoloOfRun(w, s, Begin(op, org, req), OfJob(op), events, t, BeginJob(s, op, org, req));
    JobSoloAt(w, s, op, org, req, lucks, t);
  }

  lemma SoloOf(w: World, b: State, call: Call, events: seq<Event>, t: State) returns (lucks: Lucks)
    requires Begun(b, call) && Going(b, call) && CanDo(w, b, events) && AllMine(call, events)
    requires t == After(w, b, events) && Begun(t, call) && Ended(t, call)
    ensures Drew(w, b, call, events, lucks) && t == Solo(w, b, call, lucks)
  {
    lucks := DrawsOnce(w, b, call, events);
    RunsAreSolo(w, b, call, events, lucks);
  }

  lemma SoloOfRun(w: World, s: State, first: Event, call: Call, events: seq<Event>, t: State, b: State) returns (lucks: Lucks)
    requires RunsCall(w, s, first, call, events, t) && b == Apply(w, s, first)
    requires Begun(b, call) && Going(b, call) && Begun(t, call) && Ended(t, call)
    ensures Drew(w, b, call, events, lucks) && t == Solo(w, b, call, lucks)
  {
    lucks := SoloOf(w, b, call, events, t);
  }

  lemma JobSoloAt(w: World, s: State, op: Id, org: Id, req: Request, lucks: Lucks, t: State)
    requires var b := BeginJob(s, op, org, req);
      Begun(b, OfJob(op)) && Going(b, OfJob(op)) && t == Solo(w, b, OfJob(op), lucks)
    ensures JobDone(w, s, op, org, req, lucks, t)
  {
    JobSolo(w, s, op, org, req, lucks);
  }

  lemma BeginsAlone(w: World, s: State, e: Event, call: Call)
    requires Alone(w, Nobody, s) && Enabled(s, e)
    requires match e case Begin(op, _, _) => call == OfJob(op) case BeginSuspend(c, _, _) => call == OfSuspend(c)
      case BeginResolve(c, _) => call == OfResolve(c) case _ => false
    ensures Alone(w, call, Apply(w, s, e))
  {
    assert Alone(w, call, s);
    AloneStep(w, s, e, call);
  }

  lemma EndsAlone(w: World, t: State, call: Call)
    requires Alone(w, call, t) && Begun(t, call) && Ended(t, call)
    ensures Alone(w, Nobody, t)
  {
  }

  lemma ReadyAtFirst(w: World, s: State, op: Id, org: Id, req: Request, lucks: Lucks)
    requires GoodIds(s, op, req, lucks)
    ensures var b := BeginJob(s, op, org, req);
      && MayGo(b, OfJob(op), lucks)
      && (forall id :: Unused(s, id) && id != op ==> Unused(b, id))
  {
    var b := BeginJob(s, op, org, req);
    forall id | Unused(s, id) && id != op ensures Unused(b, id) {
    }
    match req
    case ForProject(_) => assert lucks(JobAt(ProjPut)).id in IdsDrawn(req, lucks);
    case ForBranch(_, _) => assert lucks(JobAt(BrStorage)).ok ==> lucks(JobAt(BrStorage)).id in IdsDrawn(req, lucks);
    case ForEndpoint(_, _, _) => assert lucks(JobAt(EpCredential)).ok ==> lucks(JobAt(EpCredential)).id in IdsDrawn(req, lucks);
  }

  /** The ids that are still to be had after the call. */
  ghost predicate SparesIds(s: State, op: Id, req: Request, lucks: Lucks, t: State) {
    forall id :: Unused(s, id) && id != op && id !in IdsDrawn(req, lucks) ==> Unused(t, id)
  }

  lemma JobSparesIds(w: World, s: State, op: Id, org: Id, req: Request, lucks: Lucks)
    requires GoodIds(s, op, req, lucks)
    ensures var b := BeginJob(s, op, org, req);
      Begun(b, OfJob(op)) && Going(b, OfJob(op)) && SparesIds(s, op, req, lucks, Solo(w, b, OfJob(op), lucks))
  {
    var b := BeginJob(s, op, org, req);
    ReadyAtFirst(w, s, op, org, req, lucks);
    forall id | Unused(s, id) && id != op && id !in IdsDrawn(req, lucks) ensures Unused(Solo(w, b, OfJob(op), lucks), id) {
      SoloUnused(w, b, op, lucks, id);
    }
  }

  lemma JobRuns(w: World, s: State, op: Id, org: Id, req: Request, lucks: Lucks)
    requires Unused(s, op) && GoodIds(s, op, req, lucks)
    ensures var b := BeginJob(s, op, org, req);
      && Begun(b, OfJob(op)) && Going(b, OfJob(op))
      && Ran(w, s, Begin(op, org, req), OfJob(op), Solo(w, b, OfJob(op), lucks))
  {
    var b, call := BeginJob(s, op, org, req), OfJob(op);
    ReadyAtFirst(w, s, op, org, req, lucks);
    var events := SoloIsRun(w, b, call, lucks);
    assert RunsCall(w, s, Begin(op, org, req), call, events, After(w, b, events));
  }

  lemma RestAfter(w: World, s: State, first: Event, call: Call, t: State)
    requires Alone(w, Nobody, s) && Ran(w, s, first, call, t) && Begun(t, call) && Ended(t, call)
    requires match first case Begin(op, _, _) => call == OfJob(op) case BeginSuspend(c, _, _) => call == OfSuspend(c)
      case BeginResolve(c, _) => call == OfResolve(c) case _ => false
    ensures Alone(w, Nobody, t)
  {
    var events :| RunsCall(w, s, first, call, events, t);
    BeginsAlone(w, s, first, call);
    AloneAfter(w, Apply(w, s, first), events, call);
    EndsAlone(w, t, call);
  }

  /** From rest, for all lucks with good ids, there is such a run, and it ends at rest; it uses up no id but
      the operation's and those it drew. */
  lemma WholeJob(w: World, s: State, op: Id, org: Id, req: Request, lucks: Lucks) returns (t: State)
    requires Alone(w, Nobody, s) && Unused(s, op) && GoodIds(s, op, req, lucks)
    ensures Ran(w, s, Begin(op, org, req), OfJob(op), t) && JobDone(w, s, op, org, req, lucks, t)
    ensures Alone(w, Nobody, t) && SparesIds(s, op, req, lucks, t)
  {
    JobSolo(w, s, op, org, req, lucks);
    JobRuns(w, s, op, org, req, lucks);
    JobSparesIds(w, s, op, org, req, lucks);
    t := Solo(w, BeginJob(s, op, org, req), OfJob(op), lucks);
    DoneIsEnd(w, s, op, org, req, lucks, t);
    RestAfter(w, s, Begin(op, org, req), OfJob(op), t);
  }

  lemma DoneIsEnd(w: World, s: State, op: Id, org: Id, req: Request, lucks: Lucks, t: State)
    requires JobDone(w, s, op, org, req, lucks, t)
    ensures Begun(t, OfJob(op)) && Ended(t, OfJob(op))
  {
  }

  // What the ports answer, as lucks.

  function ProjectLucks(branch: Option<Id>, project: Id): Lucks {
    (stage: Stage) =>
      if stage == JobAt(ProjPut) then Luck(true, project, 0, 0)
      else if branch.Some? then Luck(true, branch.value, 0, 0) else Luck(false, "", 0, 0)
  }

  function BranchLucks(branch: Option<Id>): Lucks {
    (stage: Stage) => if branch.Some? then Luck(true, branch.value, 0, 0) else Luck(false, "", 0, 0)
  }

  function EndpointLucks(ports: StartPorts, ep: Id): Lucks {
    (stage: Stage) => Luck(if stage == JobAt(EpAttach) then ports.attached else ports.issued, ep, ports.stamp, ports.now)
  }

  lemma ProjectIds(s: State, op: Id, name: string, branch: Option<Id>, project: Id)
    requires Unused(s, project) && project != op
    requires branch.Some? ==> Unused(s, branch.value) && branch.value != op && branch.value != project
    ensures var lucks := ProjectLucks(branch, project);
      && Drawn(lucks(JobAt(ProjStorage))) == branch && lucks(JobAt(ProjPut)).id == project
      && GoodIds(s, op, ForProject(name), lucks)
      && IdsDrawn(ForProject(name), lucks) == {project} + if branch.Some? then {branch.value} else {}
  {
  }

  /** WholeJob for each of the three, told by what the ports answer. */
  lemma WholeProject(w: World, s: State, op: Id, org: Id, name: string, branch: Option<Id>, project: Id) returns (t: State)
    requires Alone(w, Nobody, s) && Unused(s, op) && Unused(s, project) && project != op
    requires branch.Some? ==> Unused(s, branch.value) && branch.value != op && branch.value != project
    ensures Ran(w, s, Begin(op, org, ForProject(name)), OfJob(op), t) && Alone(w, Nobody, t)
    ensures var req := ForProject(name);
      var (d, j) := ProjectCall(w, WithOp(s.data, op, org, req), op, NewJob(org, req), branch, project);
      && PartsOf(t) == Parts(d, s.pool, s.reg) && j.pc.Finished?
      && t.jobs == s.jobs[op := j] && t.suspends == s.suspends && t.resolves == s.resolves
    ensures forall id :: Unused(s, id) && id != op && id != project && branch != Some(id) ==> Unused(t, id)
  {
    ProjectIds(s, op, name, branch, project);
    t := WholeJob(w, s, op, org, ForProject(name), ProjectLucks(branch, project));
  }

  lemma WholeBranch(w: World, s: State, op: Id, org: Id, parentProject: Id, parent: Id, branch: Option<Id>) returns (t: State)
    requires Alone(w, Nobody, s) && Unused(s, op)
    requires branch.Some? ==> Unused(s, branch.value) && branch.value != op
    ensures Ran(w, s, Begin(op, org, ForBranch(parentProject, parent)), OfJob(op), t) && Alone(w, Nobody, t)
    ensures var req := ForBranch(parentProject, parent);
      var (d, j) := BranchCall(WithOp(s.data, op, org, req), op, NewJob(org, req), branch);
      && PartsOf(t) == Parts(d, s.pool, s.reg) && j.pc.Finished?
      && t.jobs == s.jobs[op := j] && t.suspends == s.suspends && t.resolves == s.resolves
    ensures forall id :: Unused(s, id) && id != op && branch != Some(id) ==> Unused(t, id)
  {
    t := WholeJob(w, s, op, org, ForBranch(parentProject, parent), BranchLucks(branch));
  }

  lemma WholeEndpoint(w: World, s: State, op: Id, org: Id, onBranch: Id, minCU: real, maxCU: real, ports: StartPorts, ep: Id) returns (t: State)
    requires Alone(w, Nobody, s) && Unused(s, op) && Unused(s, ep) && ep != op && EndpointIds.IsNewId("ep", ep)
    ensures Ran(w, s, Begin(op, org, ForEndpoint(onBranch, minCU, maxCU)), OfJob(op), t) && Alone(w, Nobody, t)
    ensures var req := ForEndpoint(onBranch, minCU, maxCU);
      var (p, j) := EndpointCall(w, Parts(WithOp(s.data, op, org, req), s.pool, s.reg), op, NewJob(org, req), ports, ep);
      && PartsOf(t) == p && j.pc.Finished?
      && t.jobs == s.jobs[op := j] && t.suspends == s.suspends && t.resolves == s.resolves
    ensures forall id :: Unused(s, id) && id != op && id != ep ==> Unused(t, id)
  {
    t := WholeJob(w, s, op, org, ForEndpoint(onBranch, minCU, maxCU), EndpointLucks(ports, ep));
  }

  /** Suspend and resolve calls make no ids. */
  ghost predicate SameIds(s: State, t: State) {
    t.maker == s.maker && t.data.ops == s.data.ops
  }

  ghost predicate SuspendDone(s: State, c: nat, org: Id, ep: Id, ok: bool, t: State) {
    var (d, reg, done) := SuspendCall(s.data, s.reg, org, ep, ok);
    && t.data == d && t.reg == reg && t.pool == s.pool && t.jobs == s.jobs && t.resolves == s.resolves
    && t.suspends == s.suspends[c := Suspend(org, ep, SDone(done))]
  }

  function SuspendLucks(ok: bool): Lucks {
    (stage: Stage) => Luck(ok, "", 0, 0)
  }

  lemma SuspendSolo(w: World, s: State, c: nat, org: Id, ep: Id, lucks: Lucks)
    ensures var b := s.(suspends := s.suspends[c := Suspend(org, ep, SCheck)]);
      var t := Solo(w, b, OfSuspend(c), lucks);
      SuspendDone(s, c, org, ep, lucks(SuspendAt(SStorage)).ok, t) && SameIds(s, t)
  {
    SoloSuspend(w, s.(suspends := s.suspends[c := Suspend(org, ep, SCheck)]), c, Suspend(org, ep, SCheck), lucks);
  }

  /** The same for SuspendEndpoint. */
  lemma EverySuspendRun(w: World, s: State, c: nat, org: Id, ep: Id, events: seq<Event>, t: State) returns (lucks: Lucks)
    requires RunsCall(w, s, BeginSuspend(c, org, ep), OfSuspend(c), events, t) && c in t.suspends && t.suspends[c].pc.SDone?
    ensures Drew(w, Apply(w, s, BeginSuspend(c, org, ep)), OfSuspend(c), events, lucks)
    ensures SuspendDone(s, c, org, ep, lucks(SuspendAt(SStorage)).ok, t) && SameIds(s, t)
  {
    var b := Apply(w, s, BeginSuspend(c, org, ep));
    lucks := SoloOf(w, b, OfSuspend(c), events, t);
    SuspendSolo(w, s, c, org, ep, lucks);
  }

  lemma SuspendRuns(w: World, s: State, c: nat, org: Id, ep: Id, lucks: Lucks)
    requires c !in s.suspends
    ensures var b := s.(suspends := s.suspends[c := Suspend(org, ep, SCheck)]);
      Ran(w, s, BeginSuspend(c, org, ep), OfSuspend(c), Solo(w, b, OfSuspend(c), lucks))
  {
    var b := s.(suspends := s.suspends[c := Suspend(org, ep, SCheck)]);
    var events := SoloIsRun(w, b, OfSuspend(c), lucks);
    assert RunsCall(w, s, BeginSuspend(c, org, ep), OfSuspend(c), events, After(w, b, events));
  }

  lemma WholeSuspend(w: World, s: State, c: nat, org: Id, ep: Id, ok: bool) returns (t: State)
    requires Alone(w, Nobody, s) && c !in s.suspends
    ensures Ran(w, s, BeginSuspend(c, org, ep), OfSuspend(c), t) && SuspendDone(s, c, org, ep, ok, t)
    ensures Alone(w, Nobody, t) && SameIds(s, t)
  {
    var lucks := SuspendLucks(ok);
    SuspendSolo(w, s, c, org, ep, lucks);
    SuspendRuns(w, s, c, org, ep, lucks);
    t := Solo(w, s.(suspends := s.suspends[c := Suspend(org, ep, SCheck)]), OfSuspend(c), lucks);
    RestAfter(w, s, BeginSuspend(c, org, ep), OfSuspend(c), t);
  }

  ghost predicate ResolveDone(w: World, s: State, c: nat, ep: Id, ports: WakePorts, t: State) {
    var (p, o) := ResolveCall(w, PartsOf(s), ep, ports);
    && PartsOf(t) == p && t.jobs == s.jobs && t.suspends == s.suspends
    && c in t.resolves && t.resolves[c].pc == RDone(o) && t.resolves == s.resolves[c := t.resolves[c]]
  }

  function WakeLucks(ports: WakePorts): Lucks {
    (stage: Stage) => Luck(ports.attached, "", ports.stamp, ports.now)
  }

  lemma ResolveSolo(w: World, s: State, c: nat, ep: Id, lucks: Lucks)
    ensures var b := s.(resolves := s.resolves[c := Resolve(ep, RLookup, 0, "", "", NO_COMPUTE)]);
      var t := Solo(w, b, OfResolve(c), lucks);
      ResolveDone(w, s, c, ep, WakePortsOf(lucks), t) && SameIds(s, t)
  {
    var r := Resolve(ep, RLookup, 0, "", "", NO_COMPUTE);
    SoloResolve(w, s.(resolves := s.resolves[c := r]), c, r, lucks);
  }

  /** The same for Resolve. */
  lemma EveryResolveRun(w: World, s: State, c: nat, ep: Id, events: seq<Event>, t: State) returns (lucks: Lucks)
    requires RunsCall(w, s, BeginResolve(c, ep), OfResolve(c), events, t) && c in t.resolves && t.resolves[c].pc.RDone?
    ensures Drew(w, Apply(w, s, BeginResolve(c, ep)), OfResolve(c), events, lucks)
    ensures ResolveDone(w, s, c, ep, WakePortsOf(lucks), t) && SameIds(s, t)
  {
    var b := Apply(w, s, BeginResolve(c, ep));
    lucks := SoloOf(w, b, OfResolve(c), events, t);
    ResolveSolo(w, s, c, ep, lucks);
  }

  lemma ResolveRuns(w: World, s: State, c: nat, ep: Id, lucks: Lucks)
    requires c !in s.resolves
    ensures var b := s.(resolves := s.resolves[c := Resolve(ep, RLookup, 0, "", "", NO_COMPUTE)]);
      Ran(w, s, BeginResolve(c, ep), OfResolve(c), Solo(w, b, OfResolve(c), lucks))
  {
    var b := s.(resolves := s.resolves[c := Resolve(ep, RLookup, 0, "", "", NO_COMPUTE)]);
    var events := SoloIsRun(w, b, OfResolve(c), lucks);
    assert RunsCall(w, s, BeginResolve(c, ep), OfResolve(c), events, After(w, b, events));
  }

  lemma WholeResolve(w: World, s: State, c: nat, ep: Id, ports: WakePorts) returns (t: State)
    requires Alone(w, Nobody, s) && c !in s.resolves
    ensures Ran(w, s, BeginResolve(c, ep), OfResolve(c), t) && ResolveDone(w, s, c, ep, ports, t)
    ensures Alone(w, Nobody, t) && SameIds(s, t)
  {
    var lucks := WakeLucks(ports);
    assert WakePortsOf(lucks) == ports;
    ResolveSolo(w, s, c, ep, lucks);
    ResolveRuns(w, s, c, ep, lucks);
    t := Solo(w, s.(resolves := s.resolves[c := Resolve(ep, RLookup, 0, "", "", NO_COMPUTE)]), OfResolve(c), lucks);
    ResolveDoneIsEnd(w, s, c, ep, ports, t);
    RestAfter(w, s, BeginResolve(c, ep), OfResolve(c), t);
  }

  lemma ResolveDoneIsEnd(w: World, s: State, c: nat, ep: Id, ports: WakePorts, t: State)
    requires ResolveDone(w, s, c, ep, ports, t)
    ensures Begun(t, OfResolve(c)) && Ended(t, OfResolve(c))
  {
  }

  // ---- Between calls ----

  /** At rest, table and store tell the same state of every registered endpoint. */
  lemma RestAgrees(w: World, s: State, x: Id)
    requires Alone(w, Nobody, s)
    ensures Sync.Agree(s, x)
    ensures x in s.reg.table ==>
      && s.reg.table[x] < |s.reg.cells| && x in s.data.endpoints
      && (s.reg.cells[s.reg.table[x]].state == RouteActive <==> s.data.endpoints[x].state == EndpointActive)
      && (s.reg.cells[s.reg.table[x]].state == RouteSuspended <==> s.data.endpoints[x].state == EndpointSuspended)
  {
    assert Sync.InSync(Sync.TwinOf(s, x));
    assert !Sync.Suspending(s, x) && !Sync.Activating(s, x);
    Sync.KnownState(w, s, x);
  }

  /** At rest the wake hook always finds its endpoint. */
  lemma WakeFindsEndpoint(w: World, s: State, ep: Id, ports: WakePorts)
    requires Alone(w, Nobody, s) && ep in s.reg.table
    ensures ResolveCall(w, PartsOf(s), ep, ports).1 != Gone
  {
    Sync.KnownState(w, s, ep);
  }

  lemma WakeRestores(d: Data, org: Id, ep: Id)
    requires GetEndpoint(d, org, ep).Some? && (d.endpoints[ep].state == EndpointActive || d.endpoints[ep].state == EndpointSuspended)
    ensures MayMoveEndpoint(d, org, ep, EndpointSuspended) <==> d.endpoints[ep].state == EndpointActive
    ensures var after := TransitionEndpoint(TransitionEndpoint(d, org, ep, EndpointSuspended), org, ep, EndpointActive);
      after == d.(endpoints := d.endpoints[ep := d.endpoints[ep].(state := EndpointActive)])
    ensures EndpointRef(TransitionEndpoint(d, org, ep, EndpointSuspended), ep).Some?
    ensures TransitionEndpoint(d, org, ep, EndpointSuspended).endpoints[ep].org == org
  {
  }

  lemma WakeReroutes(reg: Registry, ep: Id, host: string)
    requires reg.Valid() && ep in reg.table
    ensures var suspended := SetRouteState(reg, ep, RouteSuspended);
      && suspended.table == reg.table && RouteAt(suspended, reg.table[ep]).state == RouteSuspended
      && WriteState(WriteAddr(suspended, reg.table[ep], host), reg.table[ep], RouteActive)
           == reg.(cells := reg.cells[reg.table[ep] := Route(host, RouteActive)])
  {
  }

  lemma RegisteredIsSettled(w: World, s: State, ep: Id)
    requires Alone(w, Nobody, s) && ep in s.reg.table
    ensures s.reg.Valid() && ep in s.data.endpoints
    ensures s.data.endpoints[ep].state == EndpointActive || s.data.endpoints[ep].state == EndpointSuspended
  {
    Sync.KnownState(w, s, ep);
  }

  /** Suspending an endpoint and connecting to it: it is suspended exactly when it was active, it wakes exactly
      when the pool gives an instance and the branch attaches, and after the wake the store is as it was
      with the endpoint active, and the table but for the endpoint's entry, at the new instance's address. */
  lemma WakeUndoesSuspend(w: World, s: State, org: Id, ep: Id, ports: WakePorts)
    requires Alone(w, Nobody, s) && ep in s.reg.table && GetEndpoint(s.data, org, ep).Some?
    ensures s.reg.Valid()
    ensures var (d, reg, done) := SuspendCall(s.data, s.reg, org, ep, true);
      var (p, o) := ResolveCall(w, Parts(d, s.pool, reg), ep, ports);
      var a := AcquireFrom(s.pool, w.boots, w.policy, ports.stamp, ports.now).1;
      && (done <==> s.data.endpoints[ep].state == EndpointActive)
      && o == (if a.Ok() && ports.attached then Outcome.Answered(a.inst.host, a.BootMs()) else WakeFailed)
      && p.data == (if o.Answered? then s.data.(endpoints := s.data.endpoints[ep := s.data.endpoints[ep].(state := EndpointActive)]) else d)
      && p.reg == (if o.Answered? then s.reg.(cells := s.reg.cells[s.reg.table[ep] := Route(a.inst.host, RouteActive)]) else reg)
  {
    RegisteredIsSettled(w, s, ep);
    WakeRestores(s.data, org, ep);
    var a := AcquireFrom(s.pool, w.boots, w.policy, ports.stamp, ports.now).1;
    WakeReroutes(s.reg, ep, if a.Ok() then a.inst.host else "");
  }
}
