/** Metering conservation: branch usage counts branches and finished operations, whatever is in flight. */
module Metering {
  import opened Model
  import opened WarmPools
  import opened Stores
  import opened ControlPlane
  import Ledger

  /** Create operations of `org` that have written their metering event. */
  predicate HasMetered(j: Job, org: Id) {
    j.org == org && !j.req.ForEndpoint? && (j.pc.ProjComplete? || j.pc.BrComplete? || Ledger.Won(j))
  }

  /** Create jobs of `org` between putting the branch and metering it. */
  predicate Unmetered(j: Job, org: Id) {
    j.org == org && !j.req.ForEndpoint? && (j.pc.ProjMeter? || j.pc.BrReady? || j.pc.BrMeter?)
  }

  /** Create jobs of `org` between metering and completing the operation. */
  predicate Completing(j: Job, org: Id) {
    j.org == org && (j.pc.ProjComplete? || j.pc.BrComplete?)
  }

  predicate SucceededCreate(o: Operation, org: Id) {
    o.org == org && o.status == Succeeded && (o.kind == CreateProject || o.kind == CreateBranch)
  }

  ghost function MeteredJobs(jobs: map<Id, Job>, org: Id): set<Id> {
    set o | o in jobs && HasMetered(jobs[o], org)
  }

  ghost function UnmeteredJobs(jobs: map<Id, Job>, org: Id): set<Id> {
    set o | o in jobs && Unmetered(jobs[o], org)
  }

  ghost function CompletingJobs(jobs: map<Id, Job>, org: Id): set<Id> {
    set o | o in jobs && Completing(jobs[o], org)
  }

  ghost function BranchesOf(d: Data, org: Id): set<Id> {
    set b | b in d.branches && d.branches[b].org == org
  }

  ghost function SucceededCreates(d: Data, org: Id): set<Id> {
    set o | o in d.ops && SucceededCreate(d.ops[o], org)
  }

  ghost predicate Inv(d: Data, jobs: map<Id, Job>) {
    forall org :: Usage(d.metering, org, BranchOps) == |MeteredJobs(jobs, org)| as real
  }

  // ---- Every step keeps it ----

  /** A step meters one branch exactly when the job passes its metering point. */
  ghost predicate Counts(i: Job, j: Job, wr: Write) {
    && (forall org :: HasMetered(i, org) ==> HasMetered(j, org))
    && (match wr
        case Meter(e) => e.kind == BranchOps ==> e.value == 1.0 && HasMetered(j, e.org) && !HasMetered(i, e.org)
        case _ => true)
    && (forall org :: HasMetered(j, org) && !HasMetered(i, org) ==> wr == Meter(MeteringEvent(org, BranchOps, 1.0)))
  }

  lemma JobCounts(w: World, s: State, op: Id, j: Job, luck: Luck)
    requires Ledger.PcFits(j) && !j.pc.Finished?
    ensures Counts(j, JobEffect(w, s, op, j, luck).job, JobEffect(w, s, op, j, luck).write)
  {
  }

  lemma UsageAppend(events: seq<MeteringEvent>, e: MeteringEvent, org: Id)
    ensures Usage(events + [e], org, BranchOps)
         == Usage(events, org, BranchOps) + (if e.org == org && e.kind == BranchOps then e.value else 0.0)
  {
    assert (events + [e])[..|events|] == events;
  }

  lemma MeteredMore(jobs: map<Id, Job>, op: Id, j: Job, org: Id)
    requires op in jobs && (HasMetered(jobs[op], org) ==> HasMetered(j, org))
    ensures |MeteredJobs(jobs[op := j], org)| == |MeteredJobs(jobs, org)| + if HasMetered(j, org) && !HasMetered(jobs[op], org) then 1 else 0
  {
    if HasMetered(j, org) && !HasMetered(jobs[op], org) {
      assert MeteredJobs(jobs[op := j], org) == MeteredJobs(jobs, org) + {op};
    } else {
      assert MeteredJobs(jobs[op := j], org) == MeteredJobs(jobs, org);
    }
  }

  function MeteredBy(wr: Write, org: Id): real {
    if wr.Meter? && wr.event.org == org && wr.event.kind == BranchOps then wr.event.value else 0.0
  }

  lemma UsageWritten(d: Data, wr: Write, org: Id)
    ensures Usage(Written(d, wr).metering, org, BranchOps) == Usage(d.metering, org, BranchOps) + MeteredBy(wr, org)
  {
    if wr.Meter? {
      UsageAppend(d.metering, wr.event, org);
    }
  }

  lemma CountsOne(i: Job, j: Job, wr: Write, org: Id)
    requires Counts(i, j, wr)
    ensures HasMetered(i, org) ==> HasMetered(j, org)
    ensures MeteredBy(wr, org) == if HasMetered(j, org) && !HasMetered(i, org) then 1.0 else 0.0
  {
  }

  lemma CountsKeep(d: Data, jobs: map<Id, Job>, op: Id, j: Job, wr: Write)
    requires Inv(d, jobs) && op in jobs && Counts(jobs[op], j, wr)
    ensures Inv(Written(d, wr), jobs[op := j])
  {
    var d', jobs' := Written(d, wr), jobs[op := j];
    forall org ensures Usage(d'.metering, org, BranchOps) == |MeteredJobs(jobs', org)| as real {
      assert Usage(d.metering, org, BranchOps) == |MeteredJobs(jobs, org)| as real;
      UsageWritten(d, wr, org);
      CountsOne(jobs[op], j, wr, org);
      MeteredMore(jobs, op, j, org);
    }
  }

  lemma BeginKeeps(s: State, op: Id, org: Id, req: Request)
    requires Inv(s.data, s.jobs) && op !in s.jobs
    ensures var t := BeginJob(s, op, org, req); Inv(t.data, t.jobs)
  {
    var t := BeginJob(s, op, org, req);
    forall org' ensures Usage(t.data.metering, org', BranchOps) == |MeteredJobs(t.jobs, org')| as real {
      assert MeteredJobs(t.jobs, org') == MeteredJobs(s.jobs, org');
    }
  }

  lemma SuspendKeeps(s: State, c: nat, ok: bool)
    requires c in s.suspends
    ensures Written(s.data, SuspendStep(s, s.suspends[c], ok).write).metering == s.data.metering
  {
  }

  lemma ResolveKeeps(w: World, s: State, c: nat, luck: Luck)
    requires c in s.resolves
    ensures Written(s.data, ResolveStep(w, s, c, s.resolves[c], luck).write).metering == s.data.metering
  {
  }

  lemma Keeps(w: World, s: State, e: Event)
    requires Ledger.Inv(w, s.data, s.jobs, s.maker) && Inv(s.data, s.jobs) && Enabled(s, e)
    ensures var t := Apply(w, s, e); Inv(t.data, t.jobs)
  {
    match e
    case Begin(op, org, req) => BeginKeeps(s, op, org, req);
    case Advance(op, luck) =>
      assert Ledger.JobOk(s.data, s.maker, op, s.jobs[op]);
      JobCounts(w, s, op, s.jobs[op], luck);
      var f := JobEffect(w, s, op, s.jobs[op], luck);
      CountsKeep(s.data, s.jobs, op, f.job, f.write);
    case AdvanceSuspend(c, ok) => SuspendKeeps(s, c, ok);
    case AdvanceResolve(c, luck) => ResolveKeeps(w, s, c, luck);
    case _ =>
  }

  // ---- What it says about branches and operations ----

  /** Two sets are equally large when two functions take each into the other and undo each other. */
  lemma {:induction false} SameSize(a: set<Id>, b: set<Id>, f: map<Id, Id>, g: map<Id, Id>)
    requires forall x :: x in a ==> x in f && f[x] in b && f[x] in g && g[f[x]] == x
    requires forall y :: y in b ==> y in g && g[y] in a && g[y] in f && f[g[y]] == y
    ensures |a| == |b|
    decreases a
  {
    if x :| x in a {
      SameSize(a - {x}, b - {f[x]}, f, g);
    }
  }

  lemma BranchOfJob(w: World, d: Data, jobs: map<Id, Job>, maker: map<Id, Id>, org: Id, o: Id)
    requires Ledger.Inv(w, d, jobs, maker)
    requires o in MeteredJobs(jobs, org) + UnmeteredJobs(jobs, org)
    ensures var b := jobs[o].branch; b in BranchesOf(d, org) && b in maker && maker[b] == o
  {
    assert Ledger.JobOk(d, maker, o, jobs[o]);
    assert Ledger.BranchOk(d, jobs, maker, jobs[o].branch);
  }

  lemma JobOfBranch(w: World, d: Data, jobs: map<Id, Job>, maker: map<Id, Id>, org: Id, b: Id)
    requires Ledger.Inv(w, d, jobs, maker)
    requires b in BranchesOf(d, org)
    ensures b in maker && maker[b] in jobs && jobs[maker[b]].branch == b
    ensures maker[b] in MeteredJobs(jobs, org) + UnmeteredJobs(jobs, org)
  {
    assert Ledger.BranchOk(d, jobs, maker, b);
    var o := maker[b];
    assert Ledger.JobOk(d, maker, o, jobs[o]);
    assert HasMetered(jobs[o], org) || Unmetered(jobs[o], org);
  }

  /** The stored branches of an organisation are exactly those of the create jobs past their put. */
  lemma BranchesAreJobs(w: World, d: Data, jobs: map<Id, Job>, maker: map<Id, Id>, org: Id)
    requires Ledger.Inv(w, d, jobs, maker)
    ensures |BranchesOf(d, org)| == |MeteredJobs(jobs, org)| + |UnmeteredJobs(jobs, org)|
  {
    var stored := MeteredJobs(jobs, org) + UnmeteredJobs(jobs, org);
    var toBranch := map o | o in jobs :: jobs[o].branch;
    forall o | o in stored ensures toBranch[o] in BranchesOf(d, org) && toBranch[o] in maker && maker[toBranch[o]] == o {
      BranchOfJob(w, d, jobs, maker, org, o);
    }
    forall b | b in BranchesOf(d, org) ensures b in maker && maker[b] in stored && toBranch[maker[b]] == b {
      JobOfBranch(w, d, jobs, maker, org, b);
    }
    SameSize(stored, BranchesOf(d, org), toBranch, maker);
    assert MeteredJobs(jobs, org) !! UnmeteredJobs(jobs, org);
  }

  lemma SuccessOfJob(w: World, d: Data, jobs: map<Id, Job>, maker: map<Id, Id>, org: Id, o: Id)
    requires Ledger.Inv(w, d, jobs, maker)
    ensures o in MeteredJobs(jobs, org) <==> o in SucceededCreates(d, org) || o in CompletingJobs(jobs, org)
    ensures !(o in SucceededCreates(d, org) && o in CompletingJobs(jobs, org))
  {
    if o in jobs {
      assert Ledger.JobOk(d, maker, o, jobs[o]);
    }
  }

  lemma SuccessesAreJobs(w: World, d: Data, jobs: map<Id, Job>, maker: map<Id, Id>, org: Id)
    requires Ledger.Inv(w, d, jobs, maker)
    ensures |MeteredJobs(jobs, org)| == |SucceededCreates(d, org)| + |CompletingJobs(jobs, org)|
  {
    var m, s, c := MeteredJobs(jobs, org), SucceededCreates(d, org), CompletingJobs(jobs, org);
    forall o ensures (o in m <==> o in s || o in c) && !(o in s && o in c) {
      SuccessOfJob(w, d, jobs, maker, org, o);
    }
    assert m == s + c && s !! c;
  }

  /** Per organisation: usage is the stored branches less the jobs not yet at their metering step,
      and it is the succeeded create operations plus the jobs about to complete. */
  lemma UsageConserved(w: World, d: Data, jobs: map<Id, Job>, maker: map<Id, Id>, org: Id)
    requires Ledger.Inv(w, d, jobs, maker) && Inv(d, jobs)
    ensures Usage(d.metering, org, BranchOps) == (|BranchesOf(d, org)| - |UnmeteredJobs(jobs, org)|) as real
    ensures Usage(d.metering, org, BranchOps) == (|SucceededCreates(d, org)| + |CompletingJobs(jobs, org)|) as real
  {
    BranchesAreJobs(w, d, jobs, maker, org);
    SuccessesAreJobs(w, d, jobs, maker, org);
  }
}
