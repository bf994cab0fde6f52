/** What callers are told about compute: which instance they got, and how long its boot took. */
module Reports {
  import opened Model
  import opened WarmPools
  import opened PoolLaws
  import opened Stores
  import opened Routing
  import opened ControlPlane
  import opened Runs
  import Ledger
  import Places
  import Routes
  import Safety
  import Sync
  import Theorems

  // ---- Instances come from the port ----

  predicate GaveIn(boots: Boots, n: nat, inst: WarmInstance, ms: int) {
    boots(n) == Booted(inst, ms)
  }

  /** What a call has acquired: a ready instance the port once booted, or one booted for it, with the time that took. */
  ghost predicate GotFine(w: World, a: Acquired) {
    match a
    case Hit(inst) => exists n, ms :: GaveIn(w.boots, n, inst, ms)
    case Miss(inst, ms) => exists n :: GaveIn(w.boots, n, inst, ms)
    case NoCompute(_) => true
  }

  lemma ReadyWasBooted(w: World, s: State, k: nat) returns (n: nat)
    requires Reachable(w, s) && k < |s.pool.ready|
    ensures GaveIn(w.boots, n, s.pool.ready[k], w.boots(n).ms)
  {
    var calls, start := Theorems.ReachablePool(w, s);
    var r := RunOf(calls, w.boots, w.policy, start);
    FirstInFirstOut(calls, w.boots, w.policy, start);
    var all := BootedIn(w.boots, 0, s.pool.calls);
    assert Insts(r.exits) + s.pool.ready == all;
    assert all[|Insts(r.exits)| + k] == s.pool.ready[k];
    n := BootedFrom(w.boots, 0, s.pool.calls, |Insts(r.exits)| + k);
  }

  lemma AcquiredWasBooted(w: World, s: State, luck: Luck)
    requires Reachable(w, s)
    ensures GotFine(w, AcquireFrom(s.pool, w.boots, w.policy, luck.stamp, luck.now).1)
  {
    if s.pool.ready != [] {
      var n := ReadyWasBooted(w, s, 0);
    } else if w.boots(s.pool.calls).Booted? {
      assert GaveIn(w.boots, s.pool.calls, w.boots(s.pool.calls).inst, w.boots(s.pool.calls).ms);
    }
  }

  /** An answer of Resolve: at once, or in the time some boot took that gave the address answered. */
  ghost predicate OutcomeFine(w: World, pc: ResolvePc) {
    pc.RDone? && pc.outcome.Answered? && pc.outcome.ms != 0 ==>
      exists n, inst :: GaveIn(w.boots, n, inst, pc.outcome.ms) && inst.host == pc.outcome.addr
  }

  ghost predicate ResolveGotFine(w: World, r: Resolve) {
    GotFine(w, r.got) && OutcomeFine(w, r.pc)
  }

  ghost predicate AllGotFine(w: World, s: State) {
    && (forall op :: op in s.jobs ==> GotFine(w, s.jobs[op].got))
    && (forall c :: c in s.resolves ==> ResolveGotFine(w, s.resolves[c]))
  }

  lemma JobGot(w: World, s: State, op: Id, j: Job, luck: Luck)
    ensures var got := JobEffect(w, s, op, j, luck).job.got;
      got == j.got || got == AcquireFrom(s.pool, w.boots, w.policy, luck.stamp, luck.now).1
  {
  }

  lemma ResolveGot(w: World, s: State, c: nat, r: Resolve, luck: Luck)
    requires !r.pc.RDone?
    ensures var r' := ResolveStep(w, s, c, r, luck).call;
      && (r'.got == r.got || r'.got == AcquireFrom(s.pool, w.boots, w.policy, luck.stamp, luck.now).1)
      && (r'.pc.RDone? && r'.pc.outcome.Answered? ==>
           r'.pc.outcome.ms == 0 || (r.got.Ok() && r'.pc.outcome == Outcome.Answered(r.got.inst.host, r.got.BootMs())))
  {
  }

  lemma AnswerWasBooted(w: World, s: State, c: nat, r: Resolve, luck: Luck)
    requires Reachable(w, s) && !r.pc.RDone? && ResolveGotFine(w, r)
    ensures ResolveGotFine(w, ResolveStep(w, s, c, r, luck).call)
  {
    ResolveGot(w, s, c, r, luck);
    AcquiredWasBooted(w, s, luck);
  }

  lemma GotKeeps(w: World, s: State, e: Event)
    requires Reachable(w, s) && Enabled(s, e) && AllGotFine(w, s)
    ensures AllGotFine(w, Apply(w, s, e))
  {
    match e
    case Advance(op, luck) =>
      JobGot(w, s, op, s.jobs[op], luck);
      AcquiredWasBooted(w, s, luck);
    case AdvanceResolve(c, luck) =>
      AnswerWasBooted(w, s, c, s.resolves[c], luck);
    case _ =>
  }

  lemma GotHolds(w: World, s: State)
    requires Reachable(w, s)
    ensures AllGotFine(w, s)
  {
    var keep := (t: State) => Reachable(w, t) && AllGotFine(w, t);
    forall now ensures keep(Initial(w, now)) {
      ReachesStart(w, now);
    }
    forall t, e ensures KeptAt(w, keep, t, e) {
      if keep(t) && Enabled(t, e) {
        ReachesMore(w, t, e);
        GotKeeps(w, t, e);
      }
    }
    ReachableHas(w, s, keep);
  }

  /** An answer of Resolve that took time took as long as the port said the boot of that very instance took. */
  lemma AnswersAreTimed(w: World, s: State, c: nat) returns (n: nat)
    requires Reachable(w, s) && c in s.resolves && s.resolves[c].pc.RDone? && s.resolves[c].pc.outcome.Answered?
    ensures var o := s.resolves[c].pc.outcome;
      o.ms == 0 || (w.boots(n).Booted? && w.boots(n).inst.host == o.addr && w.boots(n).ms == o.ms)
  {
    GotHolds(w, s);
    assert ResolveGotFine(w, s.resolves[c]);
    var o := s.resolves[c].pc.outcome;
    n := 0;
    if o.ms != 0 {
      var m, inst :| GaveIn(w.boots, m, inst, o.ms) && inst.host == o.addr;
      n := m;
    }
  }

  // ---- A started endpoint runs on the instance its operation took ----

  ghost predicate OnItsInstance(s: State, j: Job) {
    Routes.Registered(j) ==> j.got.Ok() && j.ep in s.reg.table && Places.ServedAt(s.place, j.got.inst.host, s.reg.table[j.ep])
  }

  ghost predicate AllOnTheirs(s: State) {
    forall op :: op in s.jobs ==> OnItsInstance(s, s.jobs[op])
  }

  lemma TableStays(w: World, s: State, e: Event)
    requires Fresh(w.boots) && Reachable(w, s) && Enabled(s, e)
    ensures forall x :: x in s.reg.table ==> x in Apply(w, s, e).reg.table && Apply(w, s, e).reg.table[x] == s.reg.table[x]
  {
    match e
    case Advance(op, luck) => JobTable(w, s, op, luck);
    case AdvanceResolve(c, luck) => Safety.ResolveTable(w, s, c, s.resolves[c], luck);
    case _ =>
  }

  lemma JobTable(w: World, s: State, op: Id, luck: Luck)
    requires Fresh(w.boots) && Reachable(w, s) && Enabled(s, Advance(op, luck))
    ensures var table := JobEffect(w, s, op, s.jobs[op], luck).reg.table;
      forall x :: x in s.reg.table ==> x in table && table[x] == s.reg.table[x]
  {
    Sync.StartFacts(w, s, op, luck);
  }

  lemma ServedStays(w: World, s: State, e: Event, h: string, ref: nat)
    requires Fresh(w.boots) && Reachable(w, s) && Enabled(s, e) && Places.ServedAt(s.place, h, ref)
    ensures Places.ServedAt(Apply(w, s, e).place, h, ref)
  {
    Theorems.PlaceOnward(w, s, e, h);
  }

  lemma StillOnIts(w: World, s: State, e: Event, j: Job)
    requires Fresh(w.boots) && Reachable(w, s) && Enabled(s, e) && OnItsInstance(s, j)
    ensures OnItsInstance(Apply(w, s, e), j)
  {
    if Routes.Registered(j) {
      TableStays(w, s, e);
      ServedStays(w, s, e, j.got.inst.host, s.reg.table[j.ep]);
    }
  }

  /** A job's step after Register keeps its endpoint and its instance; Register puts the one at the other. */
  lemma RegisterStep(w: World, s: State, op: Id, j: Job, luck: Luck)
    requires Ledger.PcFits(j) && !j.pc.Finished? && (j.pc.EpRegister? ==> j.got.Ok())
    ensures var f := JobEffect(w, s, op, j, luck);
      && (Routes.Registered(f.job) ==> f.job.ep == j.ep && f.job.got == j.got && (Routes.Registered(j) || j.pc.EpRegister?))
      && (j.pc.EpRegister? ==>
           f.reg.table == s.reg.table[j.ep := |s.reg.cells|] && f.place == s.place[j.got.inst.host := Routed(|s.reg.cells|)])
  {
  }

  lemma JobOnIts(w: World, s: State, op: Id, luck: Luck)
    requires Fresh(w.boots) && Reachable(w, s) && Enabled(s, Advance(op, luck)) && AllOnTheirs(s)
    ensures var t := JobStep(w, s, op, luck); OnItsInstance(t, t.jobs[op])
  {
    var j, e := s.jobs[op], Advance(op, luck);
    Safety.JobHolds(w, s, op);
    HoldsCompute(w, s, op);
    RegisterStep(w, s, op, j, luck);
    if Routes.Registered(j) {
      StillOnIts(w, s, e, j);
    }
  }

  lemma HoldsCompute(w: World, s: State, op: Id)
    requires Fresh(w.boots) && Reachable(w, s) && op in s.jobs
    ensures s.jobs[op].pc.EpRegister? ==> s.jobs[op].got.Ok()
  {
    Safety.PlacesHold(w, s);
  }

  lemma OnTheirsKeeps(w: World, s: State, e: Event)
    requires Fresh(w.boots) && Reachable(w, s) && Enabled(s, e) && AllOnTheirs(s)
    ensures AllOnTheirs(Apply(w, s, e))
  {
    var t := Apply(w, s, e);
    forall op | op in t.jobs ensures OnItsInstance(t, t.jobs[op]) {
      if e.Advance? && e.job == op {
        JobOnIts(w, s, op, e.luck);
      } else if op in s.jobs && t.jobs[op] == s.jobs[op] {
        StillOnIts(w, s, e, s.jobs[op]);
      }
    }
  }

  lemma OnTheirsHolds(w: World, s: State)
    requires Fresh(w.boots) && Reachable(w, s)
    ensures AllOnTheirs(s)
  {
    var keep := (t: State) => Reachable(w, t) && AllOnTheirs(t);
    forall now ensures keep(Initial(w, now)) {
      ReachesStart(w, now);
    }
    forall t, e ensures KeptAt(w, keep, t, e) {
      if keep(t) && Enabled(t, e) {
        ReachesMore(w, t, e);
        OnTheirsKeeps(w, t, e);
      }
    }
    ReachableHas(w, s, keep);
  }

  /** The result of a succeeded start names an endpoint that is registered; some boot of the port gave the instance
      it was first routed to, and the result reports a warm hit with boot time 0, or a miss with the time that
      very boot took. */
  lemma StartsAreTimed(w: World, s: State, op: Id) returns (n: nat)
    requires Fresh(w.boots) && Reachable(w, s)
    requires op in s.data.ops && s.data.ops[op].status == Succeeded && s.data.ops[op].kind == StartEndpoint
    ensures s.data.ops[op].result.EndpointResult? && w.boots(n).Booted?
    ensures var r, host := s.data.ops[op].result, w.boots(n).inst.host;
      && r.bootMs == (if r.warmHit then 0 else w.boots(n).ms)
      && r.endpoint in s.reg.table && host in s.place
      && (s.place[host] == Routed(s.reg.table[r.endpoint]) || s.place[host] == Retired(s.reg.table[r.endpoint]))
  {
    Theorems.StatusFollowsJob(w, s, op);
    var j := s.jobs[op];
    Theorems.ResultsResolve(w, s, op);
    Safety.JobHolds(w, s, op);
    GotHolds(w, s);
    OnTheirsHolds(w, s);
    assert OnItsInstance(s, j) && GotFine(w, j.got);
    match j.got
    case Hit(inst) =>
      var m, ms :| GaveIn(w.boots, m, inst, ms);
      n := m;
    case Miss(inst, ms) =>
      var m :| GaveIn(w.boots, m, inst, ms);
      n := m;
  }
}
