/** The whole invariant, kept by every event, and so true in every reachable state. */
module Safety {
  import opened Model
  import opened WarmPools
  import opened PoolLaws
  import opened Stores
  import opened Routing
  import opened ControlPlane
  import EndpointIds
  import Ledger
  import Metering
  import Places
  import Routes
  import opened Runs

  // ---- Answers of Resolve ----

  ghost predicate AnswerFine(s: State, p: (Id, string)) {
    p.0 in s.reg.table && Places.ServedAt(s.place, p.1, s.reg.table[p.0])
  }

  ghost predicate CallFine(s: State, r: Resolve) {
    && (r.pc.WState? ==> r.got.Ok() && Places.ServedAt(s.place, r.got.inst.host, r.ref))
    && (r.pc.RDone? && r.pc.outcome.Answered? ==> (r.ep, r.pc.outcome.addr) in s.answers)
  }

  ghost predicate AnswersFine(s: State) {
    && (forall p {:trigger AnswerFine(s, p)} :: p in s.answers ==> AnswerFine(s, p))
    && (forall c {:trigger CallFine(s, s.resolves[c])} :: c in s.resolves ==> CallFine(s, s.resolves[c]))
  }

  ghost predicate NamesFine(jobs: map<Id, Job>) {
    forall op :: op in jobs && Ledger.EndpointNamed(jobs[op]) ==> EndpointIds.IsNewId("ep", jobs[op].ep)
  }

  ghost predicate Inv(w: World, s: State) {
    && Ledger.Inv(w, s.data, s.jobs, s.maker)
    && Metering.Inv(s.data, s.jobs)
    && Places.Inv(w, s)
    && Routes.Inv(s)
    && AnswersFine(s)
    && NamesFine(s.jobs)
  }

  /** The table only grows and addresses stay with their entries. */
  ghost predicate Serves(s: State, t: State) {
    && (forall e :: e in s.reg.table ==> e in t.reg.table && t.reg.table[e] == s.reg.table[e])
    && (forall h, ref: nat :: Places.ServedAt(s.place, h, ref) ==> Places.ServedAt(t.place, h, ref))
  }

  lemma AnswersStay(s: State, t: State)
    requires AnswersFine(s) && Serves(s, t) && s.answers <= t.answers
    ensures forall p {:trigger AnswerFine(t, p)} :: p in s.answers ==> AnswerFine(t, p)
    ensures forall c {:trigger CallFine(t, s.resolves[c])} :: c in s.resolves ==> CallFine(t, s.resolves[c])
  {
    forall p | p in s.answers ensures AnswerFine(t, p) {
      assert AnswerFine(s, p);
    }
    forall c | c in s.resolves ensures CallFine(t, s.resolves[c]) {
      assert CallFine(s, s.resolves[c]);
    }
  }

  lemma JobAnswers(w: World, s: State, op: Id, luck: Luck)
    requires Fresh(w.boots) && Inv(w, s) && Enabled(s, Advance(op, luck))
    ensures AnswersFine(JobStep(w, s, op, luck))
  {
    var t := JobStep(w, s, op, luck);
    assert Ledger.JobOk(s.data, s.maker, op, s.jobs[op]);
    Routes.OwnHolds(w, s, op);
    Routes.JobLaw(w, s, op, s.jobs[op], luck);
    var f := JobEffect(w, s, op, s.jobs[op], luck);
    Routes.KeepAfter(s.data, s.reg, f.reg, s.jobs[op], f.job, f.write);
    forall h, ref: nat | Places.ServedAt(s.place, h, ref) ensures Places.ServedAt(t.place, h, ref) {
      Places.JobServes(w, s, op, luck, h, ref);
    }
    AnswersStay(s, t);
  }

  lemma ResolveTable(w: World, s: State, c: nat, r: Resolve, luck: Luck)
    ensures var f := ResolveStep(w, s, c, r, luck);
      f.reg.table == s.reg.table && s.answers <= f.answers && f.call.ep == r.ep
  {
  }

  /** What a step of Resolve returns is an address of the endpoint asked for. */
  lemma ResolveAnswer(w: World, s: State, c: nat, r: Resolve, luck: Luck)
    requires Places.Inv(w, s) && s.reg.Valid()
    requires Routes.ResolveFine(s.data, s.reg.table, r) && CallFine(s, r) && !r.pc.RDone?
    requires Places.ResolveHolds(r) ==> r.got.Ok()
    ensures var f := ResolveStep(w, s, c, r, luck);
      && (forall p :: p in f.answers ==> p in s.answers || (p.0 == r.ep && r.ep in s.reg.table && Places.ServedAt(s.place, p.1, s.reg.table[r.ep])))
      && (f.call.pc.RDone? && f.call.pc.outcome.Answered? ==> (r.ep, f.call.pc.outcome.addr) in f.answers)
      && (f.call.pc.WState? ==> r.pc.WAddr? && f.call.got == r.got && f.call.ref == r.ref && Places.ServedAt(f.place, r.got.inst.host, r.ref))
  {
  }

  lemma ResolveAnswers(w: World, s: State, c: nat, luck: Luck)
    requires Fresh(w.boots) && Inv(w, s) && Enabled(s, AdvanceResolve(c, luck))
    ensures AnswersFine(CommitResolve(s, c, ResolveStep(w, s, c, s.resolves[c], luck)))
  {
    var r := s.resolves[c];
    var f := ResolveStep(w, s, c, r, luck);
    var t := CommitResolve(s, c, f);
    assert Routes.ResolveFine(s.data, s.reg.table, r) && CallFine(s, r);
    ResolveTable(w, s, c, r, luck);
    ResolveAnswer(w, s, c, r, luck);
    forall h, ref: nat | Places.ServedAt(s.place, h, ref) ensures Places.ServedAt(t.place, h, ref) {
      Places.ResolveServes(w, s, c, luck, h, ref);
    }
    AnswersStay(s, t);
    forall p | p in t.answers ensures AnswerFine(t, p) {
    }
    forall d | d in t.resolves ensures CallFine(t, t.resolves[d]) {
      if d != c {
        assert CallFine(t, s.resolves[d]);
      }
    }
  }

  lemma OtherAnswers(w: World, s: State, e: Event)
    requires Inv(w, s) && Enabled(s, e) && !e.Advance? && !e.AdvanceResolve?
    ensures AnswersFine(Apply(w, s, e))
  {
    var t := Apply(w, s, e);
    if e.DrainPool? {
      forall h, ref: nat | Places.ServedAt(s.place, h, ref) ensures Places.ServedAt(t.place, h, ref) {
        Places.DrainServes(s, h, ref, Places.Holdings(s.jobs, s.resolves), Places.Addrs(s.reg.cells));
      }
    }
    AnswersStay(s, t);
    forall d | d in t.resolves ensures CallFine(t, t.resolves[d]) {
      if d in s.resolves {
        assert CallFine(t, s.resolves[d]);
      }
    }
  }

  lemma JobNames(w: World, s: State, op: Id, j: Job, luck: Luck)
    requires !j.pc.Finished?
    ensures var f := JobEffect(w, s, op, j, luck);
      Ledger.EndpointNamed(f.job) && j.req.ForEndpoint? ==>
        if j.pc.EpCredential? then f.job.ep == luck.id else f.job.ep == j.ep && Ledger.EndpointNamed(j)
  {
  }

  lemma NamesKeep(w: World, s: State, op: Id, luck: Luck)
    requires Ledger.Inv(w, s.data, s.jobs, s.maker) && NamesFine(s.jobs) && Enabled(s, Advance(op, luck))
    ensures NamesFine(JobStep(w, s, op, luck).jobs)
  {
    assert Ledger.JobOk(s.data, s.maker, op, s.jobs[op]);
    Ledger.JobLawful(w, s, op, s.jobs[op], luck);
    JobNames(w, s, op, s.jobs[op], luck);
  }

  // ---- All of it ----

  lemma JobKeeps(w: World, s: State, op: Id, luck: Luck)
    requires Fresh(w.boots) && Inv(w, s) && Enabled(s, Advance(op, luck))
    ensures Inv(w, Apply(w, s, Advance(op, luck)))
  {
    assert Ledger.JobOk(s.data, s.maker, op, s.jobs[op]);
    Ledger.Keeps(w, s, Advance(op, luck));
    Metering.Keeps(w, s, Advance(op, luck));
    Places.JobKeeps(w, s, op, luck);
    Routes.JobKeeps(w, s, op, luck);
    JobAnswers(w, s, op, luck);
    NamesKeep(w, s, op, luck);
  }

  lemma ResolveKeeps(w: World, s: State, c: nat, luck: Luck)
    requires Fresh(w.boots) && Inv(w, s) && Enabled(s, AdvanceResolve(c, luck))
    ensures Inv(w, Apply(w, s, AdvanceResolve(c, luck)))
  {
    assert Routes.ResolveFine(s.data, s.reg.table, s.resolves[c]);
    Ledger.Keeps(w, s, AdvanceResolve(c, luck));
    Metering.Keeps(w, s, AdvanceResolve(c, luck));
    Places.ResolveKeeps(w, s, c, luck);
    Routes.ResolveKeeps(w, s, c, luck);
    ResolveAnswers(w, s, c, luck);
  }

  lemma BeginKeeps(w: World, s: State, op: Id, org: Id, req: Request)
    requires Fresh(w.boots) && Inv(w, s) && Enabled(s, Begin(op, org, req))
    ensures Inv(w, BeginJob(s, op, org, req))
  {
    var e := Begin(op, org, req);
    Ledger.Keeps(w, s, e);
    Metering.Keeps(w, s, e);
    Places.BeginJobKeeps(w, s, op, org, req);
    Routes.BeginKeeps(w, s, op, org, req);
    OtherAnswers(w, s, e);
  }

  lemma SuspendKeeps(w: World, s: State, c: nat, ok: bool)
    requires Fresh(w.boots) && Inv(w, s) && Enabled(s, AdvanceSuspend(c, ok))
    ensures Inv(w, Apply(w, s, AdvanceSuspend(c, ok)))
  {
    var e := AdvanceSuspend(c, ok);
    Ledger.Keeps(w, s, e);
    Metering.Keeps(w, s, e);
    Places.SuspendKeeps(w, s, c, ok);
    Routes.SuspendKeeps(s, c, ok);
    OtherAnswers(w, s, e);
  }

  lemma OthersKeep(w: World, s: State, e: Event)
    requires Fresh(w.boots) && Inv(w, s) && Enabled(s, e) && (e.BeginSuspend? || e.BeginResolve? || e.DrainPool?)
    ensures Inv(w, Apply(w, s, e))
  {
    Ledger.Keeps(w, s, e);
    Metering.Keeps(w, s, e);
    Places.OthersKeep(w, s, e);
    Routes.OthersKeep(w, s, e);
    OtherAnswers(w, s, e);
  }

  lemma Keeps(w: World, s: State, e: Event)
    requires Fresh(w.boots) && Inv(w, s) && Enabled(s, e)
    ensures Inv(w, Apply(w, s, e))
  {
    match e
    case Advance(op, luck) => JobKeeps(w, s, op, luck);
    case AdvanceResolve(c, luck) => ResolveKeeps(w, s, c, luck);
    case Begin(op, org, req) => BeginKeeps(w, s, op, org, req);
    case AdvanceSuspend(c, ok) => SuspendKeeps(w, s, c, ok);
    case _ => OthersKeep(w, s, e);
  }

  lemma Starts(w: World, now: int)
    requires Fresh(w.boots)
    ensures Inv(w, Initial(w, now))
  {
    Places.InitiallyWhole(w, now);
    forall org ensures Usage([], org, BranchOps) == |Metering.MeteredJobs(map[], org)| as real {
      assert Metering.MeteredJobs(map[], org) == {};
    }
  }

  /** Every state any interleaving can reach satisfies the invariant. */
  lemma ReachableSafe(w: World, s: State)
    requires Fresh(w.boots) && Reachable(w, s)
    ensures Inv(w, s)
  {
    var keep := (t: State) => Inv(w, t);
    forall now ensures keep(Initial(w, now)) {
      Starts(w, now);
    }
    forall t, e ensures KeptAt(w, keep, t, e) {
      if Inv(w, t) && Enabled(t, e) {
        Keeps(w, t, e);
      }
    }
    ReachableHas(w, s, keep);
  }

  // ---- Its parts ----

  lemma LedgerHolds(w: World, s: State)
    requires Fresh(w.boots) && Reachable(w, s)
    ensures Ledger.Inv(w, s.data, s.jobs, s.maker)
  {
    ReachableSafe(w, s);
  }

  lemma MeteringHolds(w: World, s: State)
    requires Fresh(w.boots) && Reachable(w, s)
    ensures Metering.Inv(s.data, s.jobs)
  {
    ReachableSafe(w, s);
  }

  lemma PlacesHold(w: World, s: State)
    requires Fresh(w.boots) && Reachable(w, s)
    ensures Places.Inv(w, s)
  {
    ReachableSafe(w, s);
  }

  lemma RoutesHold(w: World, s: State)
    requires Fresh(w.boots) && Reachable(w, s)
    ensures Routes.Inv(s)
  {
    ReachableSafe(w, s);
  }

  lemma AnswersHold(w: World, s: State)
    requires Fresh(w.boots) && Reachable(w, s)
    ensures AnswersFine(s)
  {
    ReachableSafe(w, s);
  }

  lemma NamesHold(w: World, s: State)
    requires Fresh(w.boots) && Reachable(w, s)
    ensures NamesFine(s.jobs)
  {
    ReachableSafe(w, s);
  }

  lemma JobHolds(w: World, s: State, op: Id)
    requires Fresh(w.boots) && Reachable(w, s) && op in s.jobs
    ensures Ledger.JobOk(s.data, s.maker, op, s.jobs[op])
  {
    LedgerHolds(w, s);
  }
}
