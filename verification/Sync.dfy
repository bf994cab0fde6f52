/** When the routing table and the store agree on an endpoint's state, and when they come apart. */
module Sync {
  import opened Model
  import opened PoolLaws
  import opened Stores
  import opened Routing
  import opened ControlPlane
  import opened Runs
  import Ledger
  import Routes
  import Safety

  // ---- The two states of one endpoint ----

  function StoreState(d: Data, e: Id): Option<EndpointState> {
    if e in d.endpoints then Some(d.endpoints[e].state) else None
  }

  function RouteStateOf(r: Registry, e: Id): Option<RouteState> {
    if e in r.table && r.table[e] < |r.cells| then Some(r.cells[r.table[e]].state) else None
  }

  predicate Same(store: Option<EndpointState>, route: Option<RouteState>) {
    route.Some? ==> store == Some(if route.value.RouteActive? then EndpointActive else EndpointSuspended)
  }

  predicate Agree(s: State, e: Id) {
    Same(StoreState(s.data, e), RouteStateOf(s.reg, e))
  }

  // ---- Windows: a call has written one of the two states of its endpoint and not yet the other ----

  datatype Writer = Suspender(suspend: nat) | Waker(resolve: nat) | Starter(op: Id)

  predicate SuspendOpen(u: Suspend, e: Id) { u.pc.SStore? && u.ep == e }

  predicate WakeOpen(r: Resolve, e: Id) { (r.pc.WAddr? || r.pc.WState?) && r.ep == e }

  predicate StartOpen(j: Job, e: Id) { j.pc.EpRegister? && j.ep == e }

  predicate IsOpen(suspends: map<nat, Suspend>, resolves: map<nat, Resolve>, jobs: map<Id, Job>, e: Id, c: Writer) {
    match c
    case Suspender(n) => n in suspends && SuspendOpen(suspends[n], e)
    case Waker(n) => n in resolves && WakeOpen(resolves[n], e)
    case Starter(o) => o in jobs && StartOpen(jobs[o], e)
  }

  ghost function Open(suspends: map<nat, Suspend>, resolves: map<nat, Resolve>, jobs: map<Id, Job>, e: Id): iset<Writer> {
    iset c: Writer | IsOpen(suspends, resolves, jobs, e, c)
  }

  /** The calls in a window of the endpoint. */
  ghost function OpenIn(s: State, e: Id): iset<Writer> {
    Open(s.suspends, s.resolves, s.jobs, e)
  }

  ghost predicate Suspending(s: State, e: Id) {
    exists c :: c in OpenIn(s, e) && c.Suspender?
  }

  ghost predicate Activating(s: State, e: Id) {
    exists c :: c in OpenIn(s, e) && !c.Suspender?
  }

  /** A suspend and a wake, or the end of a start, of the same endpoint are in their windows at once. */
  ghost predicate Overlap(s: State, e: Id) {
    Suspending(s, e) && Activating(s, e)
  }

  /** All that matters here of a state: the endpoint's two states and who is in a window. */
  datatype Twin = Twin(store: Option<EndpointState>, route: Option<RouteState>, open: iset<Writer>)

  ghost function TwinOf(s: State, e: Id): Twin {
    Twin(StoreState(s.data, e), RouteStateOf(s.reg, e), OpenIn(s, e))
  }

  // ---- What an event means for one endpoint ----

  datatype Act =
    | Nothing
    | CreateRecord
    | SuspendTable(who: Writer)     // opens a window
    | SuspendStore(who: Writer)     // closes it
    | ActivateStore(who: Writer)    // opens a window
    | ActivateTable(who: Writer)    // closes it

  ghost function ActOf(s: State, ev: Event, e: Id): Act
    requires Enabled(s, ev)
  {
    match ev
    case Advance(o, _) =>
      var i := s.jobs[o];
      if i.ep != e then Nothing
      else if i.pc.EpPut? then CreateRecord
      else if i.pc.EpActivate? then ActivateStore(Starter(o))
      else if i.pc.EpRegister? then ActivateTable(Starter(o))
      else Nothing
    case AdvanceSuspend(n, _) =>
      var u := s.suspends[n];
      if u.ep != e then Nothing
      else if u.pc.SRoute? then SuspendTable(Suspender(n))
      else if u.pc.SStore? then SuspendStore(Suspender(n))
      else Nothing
    case AdvanceResolve(n, _) =>
      var r := s.resolves[n];
      if r.ep != e then Nothing
      else if r.pc.WActivate? then ActivateStore(Waker(n))
      else if r.pc.WState? then ActivateTable(Waker(n))
      else Nothing
    case _ => Nothing
  }

  ghost function Next(t: Twin, a: Act): Twin {
    match a
    case Nothing => t
    case CreateRecord => t.(store := Some(EndpointCreating))
    case SuspendTable(c) => t.(route := if t.route.Some? then Some(RouteSuspended) else None, open := t.open + iset{c})
    case SuspendStore(c) =>
      t.(store := if t.store == Some(EndpointActive) then Some(EndpointSuspended) else t.store, open := t.open - iset{c})
    case ActivateStore(c) => t.(store := Some(EndpointActive), open := t.open + iset{c})
    case ActivateTable(c) => t.(route := Some(RouteActive), open := t.open - iset{c})
  }

  predicate Alive(store: Option<EndpointState>) {
    store == Some(EndpointActive) || store == Some(EndpointSuspended)
  }

  /** Only the call in a window closes it; a registered endpoint is active or suspended. */
  ghost predicate Legal(t: Twin, a: Act) {
    && (t.route.Some? ==> Alive(t.store))
    && (a.CreateRecord? ==> t.store.None? && t.route.None?)
    && (a.SuspendTable? ==> a.who.Suspender?)
    && (a.SuspendStore? ==> a.who.Suspender? && a.who in t.open)
    && (a.ActivateStore? ==> !a.who.Suspender? && (t.store == Some(EndpointCreating) || Alive(t.store)))
    && (a.ActivateTable? ==> !a.who.Suspender? && a.who in t.open && Alive(t.store))
  }

  // ---- Facts of reachable states ----

  lemma KnownState(w: World, s: State, e: Id)
    requires Fresh(w.boots) && Reachable(w, s)
    ensures s.reg.Valid() && StoreState(s.data, e) != Some(EndpointDeleted)
    ensures e in s.reg.table ==> Alive(StoreState(s.data, e))
  {
    Safety.RoutesHold(w, s);
    if e in s.data.endpoints {
      assert Routes.EndpointFine(s.data, s.reg.table, s.jobs, s.maker, e);
    }
  }

  lemma SuspendFacts(w: World, s: State, c: nat)
    requires Fresh(w.boots) && Reachable(w, s) && c in s.suspends
    ensures Routes.SuspendFine(s.data, s.suspends[c])
  {
    Safety.RoutesHold(w, s);
  }

  lemma WakeFacts(w: World, s: State, n: nat)
    requires Fresh(w.boots) && Reachable(w, s) && n in s.resolves
    ensures var r := s.resolves[n];
      Routes.ResolveFine(s.data, s.reg.table, r) && (r.pc.WAddr? || r.pc.WState? ==> r.got.Ok())
  {
    Safety.RoutesHold(w, s);
    Safety.PlacesHold(w, s);
  }

  lemma StartFacts(w: World, s: State, o: Id, luck: Luck)
    requires Fresh(w.boots) && Reachable(w, s) && Enabled(s, Advance(o, luck))
    ensures var i := s.jobs[o];
      var f := JobEffect(w, s, o, i, luck);
      && Routes.Own(s.data, s.reg.table, i) && Ledger.PcFits(i)
      && Routes.EndpointLaw(i, f.job, f.write, s.reg, f.reg)
  {
    Safety.JobHolds(w, s, o);
    Safety.PlacesHold(w, s);
    OwnFacts(w, s, o);
    Routes.JobLaw(w, s, o, s.jobs[o], luck);
  }

  lemma OwnFacts(w: World, s: State, o: Id)
    requires Fresh(w.boots) && Reachable(w, s) && o in s.jobs
    ensures Routes.Own(s.data, s.reg.table, s.jobs[o])
  {
    Safety.LedgerHolds(w, s);
    Safety.RoutesHold(w, s);
    Routes.OwnHolds(w, s, o);
  }

  // ---- Every event is one of these acts ----

  lemma SuspendStates(s: State, u: Suspend, ok: bool, e: Id)
    requires s.reg.Valid() && Routes.SuspendFine(s.data, u)
    requires StoreState(s.data, e) != Some(EndpointDeleted)
    ensures var f := SuspendStep(s, u, ok);
      var store, route := StoreState(s.data, e), RouteStateOf(s.reg, e);
      && StoreState(Written(s.data, f.write), e) ==
           (if u.ep == e && u.pc.SStore? && store == Some(EndpointActive) then Some(EndpointSuspended) else store)
      && RouteStateOf(f.reg, e) == (if u.ep == e && u.pc.SRoute? && route.Some? then Some(RouteSuspended) else route)
      && f.call.ep == u.ep && (f.call.pc.SStore? <==> u.pc.SRoute?)
  {
  }

  lemma WakeWrites(w: World, s: State, c: nat, r: Resolve, luck: Luck)
    requires r.pc.WAddr? || r.pc.WState? ==> r.got.Ok()
    ensures var f := ResolveStep(w, s, c, r, luck);
      && f.write == (if r.pc.WActivate? then MoveEndpoint(r.org, r.ep, EndpointActive) else NoWrite)
      && f.call.ep == r.ep && (f.call.pc.WAddr? <==> r.pc.WActivate?)
      && (r.pc.WAddr? ==> f.reg == WriteAddr(s.reg, r.ref, r.got.inst.host) && f.call.pc.WState?)
      && (r.pc.WState? ==> f.reg == WriteState(s.reg, r.ref, RouteActive) && !f.call.pc.WState?)
      && (!r.pc.WAddr? && !r.pc.WState? ==> f.reg == s.reg && !f.call.pc.WState?)
  {
  }

  lemma WakeStates(w: World, s: State, c: nat, r: Resolve, luck: Luck, e: Id)
    requires s.reg.Valid() && Routes.ResolveFine(s.data, s.reg.table, r)
    requires r.pc.WActivate? && r.ep == e ==> Alive(StoreState(s.data, e))
    requires r.pc.WAddr? || r.pc.WState? ==> r.got.Ok()
    ensures var f := ResolveStep(w, s, c, r, luck);
      var store, route := StoreState(s.data, e), RouteStateOf(s.reg, e);
      && StoreState(Written(s.data, f.write), e) == (if r.ep == e && r.pc.WActivate? then Some(EndpointActive) else store)
      && RouteStateOf(f.reg, e) == (if r.ep == e && r.pc.WState? then Some(RouteActive) else route)
      && f.call.ep == r.ep && (f.call.pc.WAddr? <==> r.pc.WActivate?) && (f.call.pc.WState? <==> r.pc.WAddr?)
  {
    WakeWrites(w, s, c, r, luck);
    Ledger.EndpointPart(s.data, ResolveStep(w, s, c, r, luck).write);
  }

  lemma StartStates(d: Data, reg: Registry, reg': Registry, i: Job, j: Job, wr: Write, e: Id)
    requires reg.Valid() && Routes.Own(d, reg.table, i) && Routes.EndpointLaw(i, j, wr, reg, reg')
    requires Ledger.PcFits(i)
    ensures var store, route := StoreState(d, e), RouteStateOf(reg, e);
      && StoreState(Written(d, wr), e) ==
           (if i.ep == e && i.pc.EpActivate? then Some(EndpointActive)
            else if i.ep == e && i.pc.EpPut? then Some(EndpointCreating) else store)
      && RouteStateOf(reg', e) == (if i.ep == e && i.pc.EpRegister? then Some(RouteActive) else route)
      && (StartOpen(j, e) <==> i.pc.EpActivate? && i.ep == e)
  {
    Ledger.EndpointPart(d, wr);
  }

  /** The machine follows the acts. */
  ghost predicate Follows(w: World, s: State, ev: Event, e: Id)
    requires Enabled(s, ev)
  {
    var a := ActOf(s, ev, e);
    Legal(TwinOf(s, e), a) && TwinOf(Apply(w, s, ev), e) == Next(TwinOf(s, e), a)
  }

  /** A window opens or closes with its own call. */
  ghost function Turned(open: iset<Writer>, c: Writer, now: bool): iset<Writer> {
    if now then open + iset{c} else open - iset{c}
  }

  lemma SuspendTurns(s: State, n: nat, u: Suspend, e: Id)
    ensures Open(s.suspends[n := u], s.resolves, s.jobs, e) == Turned(OpenIn(s, e), Suspender(n), SuspendOpen(u, e))
  {
  }

  lemma WakeTurns(s: State, n: nat, r: Resolve, e: Id)
    ensures Open(s.suspends, s.resolves[n := r], s.jobs, e) == Turned(OpenIn(s, e), Waker(n), WakeOpen(r, e))
  {
  }

  lemma StartTurns(s: State, o: Id, j: Job, e: Id)
    ensures Open(s.suspends, s.resolves, s.jobs[o := j], e) == Turned(OpenIn(s, e), Starter(o), StartOpen(j, e))
  {
  }

  lemma SuspendFollows(w: World, s: State, n: nat, ok: bool, e: Id)
    requires Fresh(w.boots) && Reachable(w, s) && Enabled(s, AdvanceSuspend(n, ok))
    ensures Follows(w, s, AdvanceSuspend(n, ok), e)
  {
    SuspendFacts(w, s, n);
    KnownState(w, s, e);
    SuspendTwin(s, n, s.suspends[n], ok, e);
  }

  lemma SuspendTwin(s: State, n: nat, u: Suspend, ok: bool, e: Id)
    requires n in s.suspends && s.suspends[n] == u && !u.pc.SDone?
    requires s.reg.Valid() && Routes.SuspendFine(s.data, u) && StoreState(s.data, e) != Some(EndpointDeleted)
    requires e in s.reg.table ==> Alive(StoreState(s.data, e))
    ensures var a := ActOf(s, AdvanceSuspend(n, ok), e);
      Legal(TwinOf(s, e), a) && TwinOf(CommitSuspend(s, n, SuspendStep(s, u, ok)), e) == Next(TwinOf(s, e), a)
  {
    SuspendStates(s, u, ok, e);
    SuspendTurns(s, n, SuspendStep(s, u, ok).call, e);
  }

  lemma WakeFollows(w: World, s: State, n: nat, luck: Luck, e: Id)
    requires Fresh(w.boots) && Reachable(w, s) && Enabled(s, AdvanceResolve(n, luck))
    ensures Follows(w, s, AdvanceResolve(n, luck), e)
  {
    WakeFacts(w, s, n);
    KnownState(w, s, e);
    WakeTwin(w, s, n, s.resolves[n], luck, e);
  }

  lemma WakeTwin(w: World, s: State, n: nat, r: Resolve, luck: Luck, e: Id)
    requires n in s.resolves && s.resolves[n] == r && !r.pc.RDone?
    requires s.reg.Valid() && Routes.ResolveFine(s.data, s.reg.table, r) && (r.pc.WAddr? || r.pc.WState? ==> r.got.Ok())
    requires e in s.reg.table ==> Alive(StoreState(s.data, e))
    ensures var a := ActOf(s, AdvanceResolve(n, luck), e);
      Legal(TwinOf(s, e), a) && TwinOf(CommitResolve(s, n, ResolveStep(w, s, n, r, luck)), e) == Next(TwinOf(s, e), a)
  {
    var f := ResolveStep(w, s, n, r, luck);
    WakeStates(w, s, n, r, luck, e);
    WakeTurns(s, n, f.call, e);
    WakeTwinOf(s, TwinOf(s, e), TwinOf(CommitResolve(s, n, f), e), n, r, luck, e);
  }

  lemma WakeTwinOf(s: State, before: Twin, after: Twin, n: nat, r: Resolve, luck: Luck, e: Id)
    requires Enabled(s, AdvanceResolve(n, luck)) && s.resolves[n] == r && before == TwinOf(s, e)
    requires before.route.Some? ==> Alive(before.store)
    requires (r.pc.WActivate? || r.pc.WState?) && r.ep == e ==> Alive(before.store)
    requires after.store == if r.ep == e && r.pc.WActivate? then Some(EndpointActive) else before.store
    requires after.route == if r.ep == e && r.pc.WState? then Some(RouteActive) else before.route
    requires after.open == Turned(before.open, Waker(n), (r.pc.WActivate? || r.pc.WAddr?) && r.ep == e)
    ensures Legal(before, ActOf(s, AdvanceResolve(n, luck), e)) && after == Next(before, ActOf(s, AdvanceResolve(n, luck), e))
  {
  }

  lemma StartFollows(w: World, s: State, o: Id, luck: Luck, e: Id)
    requires Fresh(w.boots) && Reachable(w, s) && Enabled(s, Advance(o, luck))
    ensures Follows(w, s, Advance(o, luck), e)
  {
    StartFacts(w, s, o, luck);
    KnownState(w, s, e);
    StartTwin(w, s, o, s.jobs[o], JobEffect(w, s, o, s.jobs[o], luck), luck, e);
  }

  /** What its own endpoint looks like to a job that is about to write it. */
  lemma StartOwns(s: State, i: Job)
    requires s.reg.Valid() && Routes.Own(s.data, s.reg.table, i) && Ledger.PcFits(i)
    ensures i.pc.EpPut? ==> StoreState(s.data, i.ep).None? && RouteStateOf(s.reg, i.ep).None?
    ensures i.pc.EpActivate? ==> StoreState(s.data, i.ep) == Some(EndpointCreating)
    ensures i.pc.EpRegister? ==> Alive(StoreState(s.data, i.ep))
  {
  }

  lemma StartTwin(w: World, s: State, o: Id, i: Job, f: Effect, luck: Luck, e: Id)
    requires Enabled(s, Advance(o, luck)) && s.jobs[o] == i
    requires s.reg.Valid() && Routes.Own(s.data, s.reg.table, i) && Ledger.PcFits(i)
    requires Routes.EndpointLaw(i, f.job, f.write, s.reg, f.reg)
    requires e in s.reg.table ==> Alive(StoreState(s.data, e))
    ensures var a := ActOf(s, Advance(o, luck), e);
      Legal(TwinOf(s, e), a) && TwinOf(Commit(s, o, f), e) == Next(TwinOf(s, e), a)
  {
    StartOwns(s, i);
    StartStates(s.data, s.reg, f.reg, i, f.job, f.write, e);
    StartTurns(s, o, f.job, e);
    StartTwinOf(s, TwinOf(s, e), TwinOf(Commit(s, o, f), e), o, i, f.job, luck, e);
  }

  lemma StartTwinOf(s: State, before: Twin, after: Twin, o: Id, i: Job, j: Job, luck: Luck, e: Id)
    requires Enabled(s, Advance(o, luck)) && s.jobs[o] == i && before == TwinOf(s, e)
    requires before.route.Some? ==> Alive(before.store)
    requires i.ep == e && i.pc.EpPut? ==> before.store.None? && before.route.None?
    requires i.ep == e && i.pc.EpActivate? ==> before.store == Some(EndpointCreating)
    requires i.ep == e && i.pc.EpRegister? ==> Alive(before.store)
    requires after.store == if i.ep == e && i.pc.EpActivate? then Some(EndpointActive)
      else if i.ep == e && i.pc.EpPut? then Some(EndpointCreating) else before.store
    requires after.route == if i.ep == e && i.pc.EpRegister? then Some(RouteActive) else before.route
    requires after.open == Turned(before.open, Starter(o), i.pc.EpActivate? && i.ep == e)
    ensures Legal(before, ActOf(s, Advance(o, luck), e)) && after == Next(before, ActOf(s, Advance(o, luck), e))
  {
  }

  lemma NewJob(w: World, s: State, op: Id)
    requires Fresh(w.boots) && Reachable(w, s) && Unused(s, op)
    ensures op !in s.jobs
  {
    Safety.LedgerHolds(w, s);
  }

  /** A call that begins is in no window. */
  lemma BeginTwin(s: State, ev: Event, e: Id)
    requires Enabled(s, ev) && (ev.Begin? ==> ev.op !in s.jobs)
    requires ev.Begin? || ev.BeginSuspend? || ev.BeginResolve?
    ensures ActOf(s, ev, e) == Nothing
    ensures match ev
      case Begin(op, org, req) => TwinOf(BeginJob(s, op, org, req), e) == TwinOf(s, e)
      case BeginSuspend(n, org, ep) => TwinOf(s.(suspends := s.suspends[n := Suspend(org, ep, SCheck)]), e) == TwinOf(s, e)
      case BeginResolve(n, ep) =>
        TwinOf(s.(resolves := s.resolves[n := Resolve(ep, RLookup, 0, "", "", NO_COMPUTE)]), e) == TwinOf(s, e)
      case _ => true
  {
    match ev
    case Begin(op, org, req) => StartTurns(s, op, Job(org, req, FirstPc(req), "", "", "", NO_COMPUTE), e);
    case BeginSuspend(n, org, ep) => SuspendTurns(s, n, Suspend(org, ep, SCheck), e);
    case BeginResolve(n, ep) => WakeTurns(s, n, Resolve(ep, RLookup, 0, "", "", NO_COMPUTE), e);
    case _ =>
  }

  lemma OthersFollow(w: World, s: State, ev: Event, e: Id)
    requires Fresh(w.boots) && Reachable(w, s) && Enabled(s, ev)
    requires ev.Begin? || ev.BeginSuspend? || ev.BeginResolve? || ev.DrainPool?
    ensures Follows(w, s, ev, e)
  {
    KnownState(w, s, e);
    if ev.Begin? {
      NewJob(w, s, ev.op);
    }
    if !ev.DrainPool? {
      BeginTwin(s, ev, e);
    }
  }

  lemma EventFollows(w: World, s: State, ev: Event, e: Id)
    requires Fresh(w.boots) && Reachable(w, s) && Enabled(s, ev)
    ensures Follows(w, s, ev, e)
  {
    match ev
    case Advance(o, luck) => StartFollows(w, s, o, luck, e);
    case AdvanceSuspend(n, ok) => SuspendFollows(w, s, n, ok, e);
    case AdvanceResolve(n, luck) => WakeFollows(w, s, n, luck, e);
    case _ => OthersFollow(w, s, ev, e);
  }

  // ---- One way apart, in every run ----

  /** A table entry is suspended only if the store is, or a call is in a window. */
  ghost predicate OneWay(t: Twin) {
    t.route == Some(RouteSuspended) ==> t.store == Some(EndpointSuspended) || t.open != iset{}
  }

  lemma OneWayNext(t: Twin, a: Act)
    requires OneWay(t) && Legal(t, a)
    ensures OneWay(Next(t, a))
  {
    if !a.Nothing? && !a.CreateRecord? {
      assert a.SuspendTable? || a.ActivateStore? ==> a.who in Next(t, a).open;
    }
  }

  lemma OneWayHolds(w: World, s: State, e: Id)
    requires Fresh(w.boots) && Reachable(w, s)
    ensures OneWay(TwinOf(s, e))
  {
    var keep := (t: State) => Reachable(w, t) && OneWay(TwinOf(t, e));
    forall now ensures keep(Initial(w, now)) {
      ReachesStart(w, now);
    }
    forall t, ev ensures KeptAt(w, keep, t, ev) {
      if keep(t) && Enabled(t, ev) {
        ReachesMore(w, t, ev);
        EventFollows(w, t, ev, e);
        OneWayNext(TwinOf(t, e), ActOf(t, ev, e));
      }
    }
    ReachableHas(w, s, keep);
  }

  ghost predicate NoWindow(s: State, e: Id) {
    OpenIn(s, e) == iset{}
  }

  /** With no call in a window the two disagree on a registered endpoint exactly when the table says active and
      the store suspended: the opposite never happens, in no run. */
  lemma ApartOneWay(w: World, s: State, e: Id)
    requires Fresh(w.boots) && Reachable(w, s) && NoWindow(s, e) && e in s.reg.table
    ensures !Agree(s, e) <==> RouteStateOf(s.reg, e) == Some(RouteActive) && StoreState(s.data, e) == Some(EndpointSuspended)
  {
    OneWayHolds(w, s, e);
    KnownState(w, s, e);
  }

  // ---- No overlap, no divergence ----

  ghost predicate InSync(t: Twin) {
    var suspending := exists c :: c in t.open && c.Suspender?;
    var activating := exists c :: c in t.open && !c.Suspender?;
    && (suspending && t.route.Some? ==> t.route.value.RouteSuspended?)
    && (activating ==> t.store == Some(EndpointActive))
    && (!suspending && !activating ==> Same(t.store, t.route))
  }

  ghost predicate Crossed(t: Twin) {
    exists c, a :: c in t.open && c.Suspender? && a in t.open && !a.Suspender?
  }

  lemma InSyncNext(t: Twin, a: Act)
    requires InSync(t) && Legal(t, a) && !Crossed(t) && !Crossed(Next(t, a))
    ensures InSync(Next(t, a))
  {
    var t' := Next(t, a);
    if a.SuspendTable? || a.ActivateStore? {
      assert a.who in t'.open;
    }
    if a.SuspendStore? || a.ActivateTable? {
      assert forall c :: c in t.open && c != a.who ==> c in t'.open;
    }
  }

  lemma StepSync(w: World, s: State, ev: Event, e: Id)
    requires Fresh(w.boots) && Reachable(w, s) && Enabled(s, ev)
    requires InSync(TwinOf(s, e)) && !Overlap(s, e) && !Overlap(Apply(w, s, ev), e)
    ensures InSync(TwinOf(Apply(w, s, ev), e))
  {
    EventFollows(w, s, ev, e);
    InSyncNext(TwinOf(s, e), ActOf(s, ev, e));
  }

  lemma NextSync(w: World, run: seq<State>, k: nat, e: Id)
    requires Fresh(w.boots) && IsRun(w, run) && k + 1 < |run|
    requires InSync(TwinOf(run[k], e)) && !Overlap(run[k], e) && !Overlap(run[k + 1], e)
    ensures InSync(TwinOf(run[k + 1], e))
  {
    ReachesRun(w, run, k);
    assert StepAt(w, run, k);
    var ev :| Enabled(run[k], ev) && run[k + 1] == Apply(w, run[k], ev);
    StepSync(w, run[k], ev, e);
  }

  lemma {:induction false} RunSync(w: World, run: seq<State>, i: nat, e: Id)
    requires Fresh(w.boots) && IsRun(w, run) && i < |run|
    requires forall k :: 0 <= k <= i ==> !Overlap(run[k], e)
    ensures InSync(TwinOf(run[i], e))
  {
    if i > 0 {
      RunSync(w, run, i - 1, e);
      NextSync(w, run, i - 1, e);
    }
  }

  /** As long as no suspend of an endpoint overlapped a wake or the end of its start, table and store
      agree on it whenever no call is between its two writes. */
  lemma NoOverlapAgrees(w: World, run: seq<State>, i: nat, e: Id)
    requires Fresh(w.boots) && IsRun(w, run) && i < |run|
    requires forall k :: 0 <= k <= i ==> !Overlap(run[k], e)
    requires !Suspending(run[i], e) && !Activating(run[i], e)
    ensures Agree(run[i], e)
  {
    RunSync(w, run, i, e);
  }

  // ---- Calls one at a time ----

  predicate JobInFlight(j: Job) { !j.pc.Finished? }
  predicate SuspendInFlight(u: Suspend) { !u.pc.SDone? }
  predicate ResolveInFlight(r: Resolve) { !r.pc.RDone? }

  ghost predicate Idle(s: State) {
    && (forall o :: o in s.jobs ==> !JobInFlight(s.jobs[o]))
    && (forall c :: c in s.suspends ==> !SuspendInFlight(s.suspends[c]))
    && (forall c :: c in s.resolves ==> !ResolveInFlight(s.resolves[c]))
  }

  lemma IdleNoWindow(s: State, e: Id)
    requires Idle(s)
    ensures NoWindow(s, e)
  {
  }

  /** So in every reachable state with nothing in flight a registered endpoint is either in the same state in
      both places, or active in the table and suspended in the store. */
  lemma IdleApart(w: World, s: State, e: Id)
    requires Fresh(w.boots) && Reachable(w, s) && Idle(s) && e in s.reg.table
    ensures !Agree(s, e) <==> RouteStateOf(s.reg, e) == Some(RouteActive) && StoreState(s.data, e) == Some(EndpointSuspended)
    ensures s.reg.table[e] < |s.reg.cells| && e in s.data.endpoints
    ensures var store, table := s.data.endpoints[e].state, s.reg.cells[s.reg.table[e]].state;
      || (store == EndpointActive && table == RouteActive)
      || (store == EndpointSuspended && table == RouteSuspended)
      || (store == EndpointSuspended && table == RouteActive)
  {
    IdleNoWindow(s, e);
    ApartOneWay(w, s, e);
    KnownState(w, s, e);
  }

  /** Never a suspend in flight together with another call that can activate an endpoint. */
  ghost predicate OneAtATime(s: State) {
    forall c :: c in s.suspends && SuspendInFlight(s.suspends[c]) ==>
      && (forall o :: o in s.jobs ==> !JobInFlight(s.jobs[o]))
      && (forall d :: d in s.resolves ==> !ResolveInFlight(s.resolves[d]))
  }

  lemma OneAtATimeNoOverlap(s: State, e: Id)
    requires OneAtATime(s)
    ensures !Overlap(s, e)
  {
  }

  /** When calls run one at a time, port failures included, every registered endpoint is in the same
      state in table and store between calls. */
  lemma SerialAgrees(w: World, run: seq<State>, i: nat, e: Id)
    requires Fresh(w.boots) && IsRun(w, run) && i < |run|
    requires forall k :: 0 <= k <= i ==> OneAtATime(run[k])
    requires Idle(run[i])
    ensures Agree(run[i], e)
  {
    forall k | 0 <= k <= i ensures !Overlap(run[k], e) {
      assert OneAtATime(run[k]);
      OneAtATimeNoOverlap(run[k], e);
    }
    NoOverlapAgrees(w, run, i, e);
  }

  // ---- The exact condition, for every run ----

  /** Who wrote the store state and who the table state last, and which suspends and activating calls have
      been in their windows at the same time. */
  datatype History = History(store: Option<Writer>, table: Option<Writer>, met: iset<(Writer, Writer)>)

  const NO_HISTORY := History(None, None, iset{})

  ghost function Met(t: Twin): iset<(Writer, Writer)> {
    iset c, a | c in t.open && c.Suspender? && a in t.open && !a.Suspender? :: (c, a)
  }

  ghost function Noted(h: History, t: Twin, a: Act): History {
    History(if a.SuspendStore? || a.ActivateStore? then Some(a.who) else h.store,
            if a.SuspendTable? || a.ActivateTable? then Some(a.who) else h.table,
            h.met + Met(t))
  }

  ghost predicate By(c: Option<Writer>, suspended: bool) {
    c.Some? && (c.value.Suspender? <==> suspended)
  }

  /** Suspend `c` wrote the store last, or has yet to; `a` wrote the table last, or has yet to; not both have yet to. */
  ghost predicate Crossing(t: Twin, h: History, c: Writer, a: Writer) {
    && c.Suspender? && !a.Suspender?
    && (c in t.open || h.store == Some(c)) && (a in t.open || h.table == Some(a))
    && !(c in t.open && a in t.open)
  }

  /** The last writers explain the states, and calls that cross have met. */
  ghost predicate Told(t: Twin, h: History) {
    && (Alive(t.store) ==> By(h.store, t.store == Some(EndpointSuspended)))
    && (t.route.Some? ==> By(h.table, t.route == Some(RouteSuspended)))
    && (forall c, a :: Crossing(t, h, c, a) ==> (c, a) in h.met)
  }

  lemma ToldNext(t: Twin, h: History, a: Act)
    requires Told(t, h) && Legal(t, a)
    ensures Told(Next(t, a), Noted(h, t, a))
  {
    var t', h' := Next(t, a), Noted(h, t, a);
    forall c, b | Crossing(t', h', c, b) ensures (c, b) in h'.met {
      if c in t.open && b in t.open {
        assert (c, b) in Met(t);
      } else {
        assert Crossing(t, h, c, b);
      }
    }
  }

  ghost function HistoryFrom(w: World, s: State, events: seq<Event>, e: Id, h: History): History
    requires CanDo(w, s, events)
    decreases events
  {
    if events == [] then h
    else HistoryFrom(w, Apply(w, s, events[0]), events[1..], e, Noted(h, TwinOf(s, e), ActOf(s, events[0], e)))
  }

  lemma {:induction false} ToldAfter(w: World, s: State, events: seq<Event>, e: Id, h: History)
    requires Fresh(w.boots) && Reachable(w, s) && CanDo(w, s, events) && Told(TwinOf(s, e), h)
    ensures Told(TwinOf(After(w, s, events), e), HistoryFrom(w, s, events, e, h))
    decreases events
  {
    if events != [] {
      EventFollows(w, s, events[0], e);
      ToldNext(TwinOf(s, e), h, ActOf(s, events[0], e));
      ReachesMore(w, s, events[0]);
      ToldAfter(w, Apply(w, s, events[0]), events[1..], e, Noted(h, TwinOf(s, e), ActOf(s, events[0], e)));
    }
  }

  /** Two calls were in their windows at the same time at some moment of the run. */
  ghost predicate MetAt(w: World, s: State, events: seq<Event>, e: Id, c: Writer, a: Writer, k: nat)
    requires CanDo(w, s, events)
  {
    k <= |events| && CanDo(w, s, events[..k]) && c in OpenIn(After(w, s, events[..k]), e) && a in OpenIn(After(w, s, events[..k]), e)
  }

  lemma {:induction false} MetHappened(w: World, s: State, events: seq<Event>, e: Id, h: History, c: Writer, a: Writer) returns (k: nat)
    requires CanDo(w, s, events) && (c, a) in HistoryFrom(w, s, events, e, h).met && (c, a) !in h.met
    ensures MetAt(w, s, events, e, c, a, k)
    decreases events
  {
    if (c, a) in Met(TwinOf(s, e)) {
      k := 0;
      assert events[..0] == [];
    } else {
      var m := MetHappened(w, Apply(w, s, events[0]), events[1..], e, Noted(h, TwinOf(s, e), ActOf(s, events[0], e)), c, a);
      k := m + 1;
      assert events[..k][1..] == events[1..][..m];
    }
  }

  lemma ToldAtStart(w: World, now: int, e: Id)
    ensures Told(TwinOf(Initial(w, now), e), NO_HISTORY)
  {
  }

  lemma ApartTold(w: World, t: State, e: Id, h: History)
    requires Fresh(w.boots) && Reachable(w, t) && Told(TwinOf(t, e), h) && NoWindow(t, e) && e in t.reg.table
    ensures !Agree(t, e) <==> By(h.store, true) && By(h.table, false)
    ensures !Agree(t, e) ==> (h.store.value, h.table.value) in h.met
  {
    KnownState(w, t, e);
    ApartOneWay(w, t, e);
    if !Agree(t, e) {
      assert Crossing(TwinOf(t, e), h, h.store.value, h.table.value);
    }
  }

  /** For every run, third calls included: once no call is in a window of a registered endpoint, table and store
      disagree on it exactly when the store was last written by a suspend and the table by a wake or the
      end of the start; and then those two calls were in their windows at the same time. */
  lemma ApartExactly(w: World, now: int, events: seq<Event>, e: Id) returns (k: nat)
    requires Fresh(w.boots) && CanDo(w, Initial(w, now), events)
    requires var t := After(w, Initial(w, now), events); NoWindow(t, e) && e in t.reg.table
    ensures var t, h := After(w, Initial(w, now), events), HistoryFrom(w, Initial(w, now), events, e, NO_HISTORY);
      && (!Agree(t, e) <==> By(h.store, true) && By(h.table, false))
      && (!Agree(t, e) ==> MetAt(w, Initial(w, now), events, e, h.store.value, h.table.value, k))
  {
    var s := Initial(w, now);
    var t, h := After(w, s, events), HistoryFrom(w, s, events, e, NO_HISTORY);
    ReachesStart(w, now);
    ToldAtStart(w, now, e);
    ToldAfter(w, s, events, e, NO_HISTORY);
    ReachesAfter(w, s, events);
    ApartTold(w, t, e, h);
    k := 0;
    if !Agree(t, e) {
      k := MetHappened(w, s, events, e, NO_HISTORY, h.store.value, h.table.value);
    }
  }
}
