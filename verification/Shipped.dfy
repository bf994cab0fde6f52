/** The pipeline with the solver plugged in, and with the adapters it ships. */
module Shipped {
  import opened Changes
  import opened Solvers
  import opened Pipelines
  import opened Texts

  // ---- The solver as planner ----

  /** Small enough a change in density, and reversible. */
  predicate Harmless(c: Candidate) {
    c.reversible && !Fin(0.5).Less(c.densityDelta.Abs())
  }

  predicate AgentCode(req: ChangeRequest) {
    req.origin == AutoAgent && req.kind == CodeChange
  }

  /** Exactly which requests are approved when the solver plans: those that are attested, outside the hard
      rail and allowed, for which the solver has a choice that is harmless, and that do not claim to be code
      from an automatic agent. */
  lemma SolverApproves(a: Adapters, w: Weights, gen: Generator, req: ChangeRequest)
    requires a.plan == SolverPlanner(w, gen)
    ensures a.Approved(req) <==>
      && a.PolicyAllows(req) && !AgentCode(req)
      && Choice(w, gen(req)) >= 0 && Harmless(gen(req)[Choice(w, gen(req))])
  {
    var i := Choice(w, gen(req));
    if i >= 0 {
      assert PlanFor(w, gen(req), i).risk == RiskOf(gen(req)[i]);
    }
  }

  /** A harmless candidate, in its own fields. */
  lemma HarmlessExactly(c: Candidate)
    ensures var d := c.densityDelta;
      Harmless(c) <==> c.reversible && d != PosInf && d != NegInf && (d.Fin? ==> -0.5 <= d.r <= 0.5)
  {
  }

  /** What is executed is the plan of the best candidate within the hard constraints, reversible and small, with all
      its steps; never a change of infrastructure by the development engine, never code an automatic agent claims. */
  lemma ExecutedIsBest(a: Adapters, w: Weights, gen: Generator, behave: (Plan, seq<Entry>) -> ExecResult, req: ChangeRequest)
    requires a.plan == SolverPlanner(w, gen) && Verdict(a, behave, req).outcome == Executed
    ensures var cands, i := gen(req), Choice(w, gen(req));
      && IsChoice(w, cands, i) && Feasible(cands[i]) && Harmless(cands[i])
      && Verdict(a, behave, req).ran == [PlanFor(w, cands, i)] && IsPlanOf(PlanFor(w, cands, i), w, |cands|, cands[i])
      && (req.purpose == PurposeDev ==> req.kind != ResourceOp && !exists rest :: req.proposal.target == "infra/" + rest)
      && !AgentCode(req)
  {
    OutcomesExact(a, behave, req);
    SolverApproves(a, w, gen, req);
    PlanTold(w, gen(req), Choice(w, gen(req)));
  }

  /** With the shipped executor the log of such a request tells of every step of the chosen candidate, in order,
      between the gates passed and the rollout. */
  lemma StepsAreLogged(a: Adapters, w: Weights, gen: Generator, req: ChangeRequest)
    requires a.plan == SolverPlanner(w, gen) && Verdict(a, ShippedBehave, req).outcome == Executed
    ensures var log, c := Verdict(a, ShippedBehave, req).log, gen(req)[Choice(w, gen(req))];
      && |log| == 7 + |c.steps|
      && log[5].note == StepDone(Chose(|gen(req)|, c.name, Score(w, c)))
      && (forall k :: 6 <= k < |log| - 1 ==> log[k] == Entry(Execute, StepDone(Do(c.steps[k - 6]))))
      && log[|log| - 1] == Entry(Execute, RolledOut)
  {
    ExecutedIsBest(a, w, gen, ShippedBehave, req);
    RanIsLogged(a, req);
  }

  lemma RanIsLogged(a: Adapters, req: ChangeRequest)
    requires Verdict(a, ShippedBehave, req).outcome == Executed
    ensures var v := Verdict(a, ShippedBehave, req);
      && |v.ran| == 1 && |v.log| == 6 + |v.ran[0].steps| && v.log[|v.log| - 1] == Entry(Execute, RolledOut)
      && forall k :: 5 <= k < |v.log| - 1 ==> v.log[k] == Entry(Execute, StepDone(v.ran[0].steps[k - 5]))
  {
    OutcomesExact(a, ShippedBehave, req);
    ExecutedExactly(a, ShippedBehave, req);
  }

  /** The owner gate looks at the origin a request claims. Of code changes attested to come from an automatic
      agent, planned with little risk, exactly those that claim another origin pass without the owner. */
  lemma ClaimedOriginDecides(a: Adapters, w: Weights, gen: Generator, req: ChangeRequest)
    requires a.plan == SolverPlanner(w, gen)
    requires a.attest(req) == Some(AutoAgent) && req.kind == CodeChange
    requires a.PolicyAllows(req) && Choice(w, gen(req)) >= 0 && Harmless(gen(req)[Choice(w, gen(req))])
    ensures a.Approved(req) <==> req.origin != a.attest(req).value
  {
    SolverApproves(a, w, gen, req);
  }

  /** Such a request exists: the attestation does not close the gap. */
  lemma ClaimedOriginExample(t: Labels) returns (a: Adapters, req: ChangeRequest)
    ensures a.attest(req) == Some(AutoAgent) && req.kind == CodeChange
    ensures Verdict(a, ShippedBehave, req).outcome == Executed
  {
    a := Adapters(
      (r: ChangeRequest) => Some(AutoAgent),
      (r: ChangeRequest) => PolicyDecision(true, false, []),
      SolverPlanner(DEFAULT_WEIGHTS, ShippedGenerate(t)));
    req := ChangeRequest("r", Owner, PurposeOps, CodeChange, Diff("", "", true), []);
    SolverApproves(a, DEFAULT_WEIGHTS, ShippedGenerate(t), req);
    ShippedChoice(t, req);
    ExecutedExactly(a, ShippedBehave, req);
  }

  // ---- The shipped adapters ----

  predicate OccursAt(s: string, sub: string, i: int) {
    0 <= i <= |s| - |sub| && s[i..i + |sub|] == sub
  }

  /** The first place `sub` occurs, or -1. */
  method IndexOf(s: string, sub: string) returns (at: int)
    ensures at >= 0 ==> OccursAt(s, sub, at) && forall i :: 0 <= i < at ==> !OccursAt(s, sub, i)
    ensures at < 0 ==> at == -1 && forall i :: !OccursAt(s, sub, i)
  {
    var i := 0;
    while i + |sub| <= |s|
      invariant 0 <= i
      invariant forall k :: 0 <= k < i ==> !OccursAt(s, sub, k)
    {
      if s[i..i + |sub|] == sub {
        return i;
      }
      i := i + 1;
    }
    return -1;
  }

  predicate Occurs(s: string, sub: string) {
    |sub| > 0 && exists i :: 0 <= i <= |s| && OccursAt(s, sub, i)
  }

  method Contains(s: string, sub: string) returns (yes: bool)
    ensures yes <==> Occurs(s, sub)
  {
    if |sub| == 0 || |s| < |sub| {
      return false;
    }
    var at := IndexOf(s, sub);
    return at >= 0;
  }

  /** A text occurs in another that is something, the text, and something. */
  lemma OccursExactly(s: string, sub: string)
    ensures Occurs(s, sub) <==> sub != "" && exists before, after :: s == before + sub + after
  {
    if Occurs(s, sub) {
      var i :| 0 <= i <= |s| && OccursAt(s, sub, i);
      assert s == s[..i] + sub + s[i + |sub|..];
    }
    if before, after :| sub != "" && s == before + sub + after {
      assert OccursAt(s, sub, |before|);
    }
  }

  const CROSS_REGION_KEY := "cross-region-key"
  const DISABLE_ISOLATION := "disable-isolation"

  predicate MovesKey(req: ChangeRequest) {
    req.kind == ResourceOp && Occurs(req.proposal.summary, CROSS_REGION_KEY)
  }

  predicate BreaksIsolation(req: ChangeRequest) {
    Occurs(req.proposal.summary, DISABLE_ISOLATION)
  }

  function ShippedAttest(req: ChangeRequest): Option<Provenance> {
    if req.origin == NoOrigin then None else Some(req.origin)
  }

  function ShippedPolicy(req: ChangeRequest): PolicyDecision {
    if MovesKey(req) then PolicyDecision(false, true, ["key would leave region boundary (D24/25)"])
    else if BreaksIsolation(req) then PolicyDecision(false, true, ["would breach minimum isolation tier (66)"])
    else PolicyDecision(true, false, [])
  }

  /** Appends one entry a step and never fails. */
  function ShippedBehave(plan: Plan, log: seq<Entry>): ExecResult {
    ExecResult(log + StepEntries(plan.steps), false)
  }

  function StepEntries(steps: seq<Step>): (entries: seq<Entry>)
    ensures |entries| == |steps| && forall i :: 0 <= i < |steps| ==> entries[i] == Entry(Execute, StepDone(steps[i]))
  {
    seq(|steps|, i requires 0 <= i < |steps| => Entry(Execute, StepDone(steps[i])))
  }

  method RunSteps(plan: Plan, audit: AuditLog) returns (failed: bool)
    modifies audit
    ensures ExecResult(audit.entries, failed) == ShippedBehave(plan, old(audit.entries))
  {
    for i := 0 to |plan.steps|
      invariant audit.entries == old(audit.entries) + StepEntries(plan.steps)[..i]
    {
      audit.Append(Execute, StepDone(plan.steps[i]));
    }
    return false;
  }

  const DEFAULT_WEIGHTS := Weights(Fin(1.0), Fin(0.6), Fin(0.4), Fin(0.5))

  /** The name and the steps of a candidate: texts no decision depends on. */
  datatype Label = Label(name: string, steps: seq<string>)

  datatype Labels = Labels(aggressive: Label, safe: Label, conservative: Label, direct: Label)

  function Labelled(l: Label, cost: real, density: real, gpu: real, idle: real, sla: real, isolated: bool, rev: bool): Candidate {
    Candidate(l.name, l.steps, Fin(cost), Fin(density), Fin(gpu), Fin(idle), Fin(sla), isolated, true, rev)
  }

  function AggressivePack(l: Label, rev: bool): Candidate { Labelled(l, -30.0, 0.9, 0.2, -0.3, 0.1, false, rev) }

  function SafePack(l: Label, rev: bool): Candidate { Labelled(l, -18.0, 0.4, 0.15, -0.2, 0.3, true, rev) }

  function Conservative(l: Label, rev: bool): Candidate { Labelled(l, -5.0, 0.1, 0.05, 0.0, 0.5, true, rev) }

  function Direct(l: Label, rev: bool): Candidate { Labelled(l, -8.0, 0.1, 0.0, 0.0, 0.4, true, rev) }

  function ShippedGenerate(t: Labels): Generator {
    (req: ChangeRequest) =>
      var rev := req.proposal.reversible;
      if req.kind == SelfImprove then [AggressivePack(t.aggressive, rev), SafePack(t.safe, rev), Conservative(t.conservative, rev)]
      else [Direct(t.direct, rev)]
  }

  lemma DefaultScore(c: Candidate)
    requires Finite(c)
    ensures Score(DEFAULT_WEIGHTS, c) ==
      Fin(0.6 * c.densityDelta.r + 0.4 * c.gpuUtilDelta.r - c.costDelta.r - 0.5 * c.idleDelta.r)
  {
    ScoreIsReal(DEFAULT_WEIGHTS, c);
  }

  lemma PackGrades(t: Labels, rev: bool)
    ensures !Feasible(AggressivePack(t.aggressive, rev)) && Feasible(SafePack(t.safe, rev)) && Feasible(Conservative(t.conservative, rev))
    ensures Score(DEFAULT_WEIGHTS, SafePack(t.safe, rev)) == Fin(18.4)
    ensures Score(DEFAULT_WEIGHTS, Conservative(t.conservative, rev)) == Fin(5.08)
    ensures Harmless(SafePack(t.safe, rev)) == rev
  {
    DefaultScore(SafePack(t.safe, rev));
    DefaultScore(Conservative(t.conservative, rev));
  }

  lemma DirectGrade(l: Label, rev: bool)
    ensures Feasible(Direct(l, rev)) && Score(DEFAULT_WEIGHTS, Direct(l, rev)) == Fin(8.06)
    ensures Harmless(Direct(l, rev)) == rev
  {
    DefaultScore(Direct(l, rev));
  }

  lemma SecondIsBest(g: seq<Grade>)
    requires |g| == 3 && !g[0].feasible && g[1] == Grade(true, Fin(18.4)) && g[2] == Grade(true, Fin(5.08))
    ensures IsBest(g, 1)
  {
  }

  lemma ChosenIs(w: Weights, cands: seq<Candidate>, i: nat)
    requires IsChoice(w, cands, i)
    ensures Choice(w, cands) == i
  {
    BestIsEligible(Grades(w, cands));
    BestUnique(Grades(w, cands), i, Choice(w, cands));
  }

  lemma PacksChoice(w: Weights, x: Candidate, y: Candidate, z: Candidate)
    requires !Feasible(x) && Feasible(y) && Feasible(z)
    requires Score(w, y) == Fin(18.4) && Score(w, z) == Fin(5.08)
    ensures Choice(w, [x, y, z]) == 1
  {
    SecondIsBest(Grades(w, [x, y, z]));
    ChosenIs(w, [x, y, z], 1);
  }

  lemma SingleChoice(w: Weights, c: Candidate)
    requires Feasible(c) && Score(w, c).Fin?
    ensures Choice(w, [c]) == 0
  {
    assert IsBest(Grades(w, [c]), 0);
    ChosenIs(w, [c], 0);
  }

  /** A self-improvement takes the second candidate, any other change its only one. */
  lemma ShippedChoice(t: Labels, req: ChangeRequest)
    ensures var i := Choice(DEFAULT_WEIGHTS, ShippedGenerate(t)(req));
      && i == (if req.kind == SelfImprove then 1 else 0)
      && var c := ShippedGenerate(t)(req)[i];
        && Harmless(c) == c.reversible == req.proposal.reversible && c.isolationOk && c.sovereigntyOk
        && c.name == (if req.kind == SelfImprove then t.safe.name else t.direct.name)
        && c.steps == (if req.kind == SelfImprove then t.safe.steps else t.direct.steps)
        && c.costDelta == (if req.kind == SelfImprove then Fin(-18.0) else Fin(-8.0))
        && c.slaHeadroom == (if req.kind == SelfImprove then Fin(0.3) else Fin(0.4))
  {
    var rev := req.proposal.reversible;
    if req.kind == SelfImprove {
      PackGrades(t, rev);
      PacksChoice(DEFAULT_WEIGHTS, AggressivePack(t.aggressive, rev), SafePack(t.safe, rev), Conservative(t.conservative, rev));
    } else {
      DirectGrade(t.direct, rev);
      SingleChoice(DEFAULT_WEIGHTS, Direct(t.direct, rev));
    }
  }

  function ShippedAdapters(t: Labels): Adapters {
    Adapters(ShippedAttest, ShippedPolicy, SolverPlanner(DEFAULT_WEIGHTS, ShippedGenerate(t)))
  }

  /** The shipped executor keeps to the rule under which the log is faithful. */
  lemma ShippedIsTame()
    ensures Tame(ShippedBehave)
  {
    forall plan, log ensures log <= ShippedBehave(plan, log).log {
    }
  }

  /** The shipped policy in the request's own words. */
  lemma ShippedDecisions(req: ChangeRequest)
    ensures var dec, text := ShippedPolicy(req), req.proposal.summary;
      var moves := req.kind == ResourceOp && Occurs(text, "cross-region-key");
      var breaks := Occurs(text, "disable-isolation");
      && (dec.hardRailViolated <==> moves || breaks) && (dec.allowed <==> !moves && !breaks)
      && |dec.reasons| == (if moves || breaks then 1 else 0)
  {
  }

  /** With the shipped adapters the log of an authentic request names the origin it claims, with its standing:
      claimed and attested origin agree, so none slips past the owner by claiming another. */
  lemma ShippedOrigin(t: Labels, req: ChangeRequest)
    requires req.id != "" && req.kind != NoKind && req.origin != NoOrigin
    ensures var log := Verdict(ShippedAdapters(t), ShippedBehave, req).log;
      var standing := if req.origin == CAgent then Improvement
                      else if req.origin == Owner || req.origin == OwnerClient then OwnerRequest else Scoped;
      |log| >= 3 && log[0] == Entry(Normalize, Envelope(req.kind, req.scope)) && log[1] == Entry(Authn, Origin(req.origin, standing))
    ensures ShippedAdapters(t).attest(req) == Some(req.origin)
  {
    ShippedIsTame();
    LogOpens(ShippedAdapters(t), ShippedBehave, req);
  }

  /** With the shipped adapters the outcome of every request is decided by the request alone, and no request
      ends in failure. */
  lemma ShippedOutcomes(t: Labels, req: ChangeRequest)
    ensures var outcome, text := Verdict(ShippedAdapters(t), ShippedBehave, req).outcome, req.proposal.summary;
      var authentic := req.id != "" && req.kind != NoKind && req.origin != NoOrigin;
      var railed := req.purpose == PurposeDev && (req.kind == ResourceOp || exists rest :: req.proposal.target == "infra/" + rest);
      var barred := (req.kind == ResourceOp && Occurs(text, "cross-region-key")) || Occurs(text, "disable-isolation");
      var agentCode := req.origin == AutoAgent && req.kind == CodeChange;
      outcome ==
        if !authentic then RejectedAuth
        else if railed || barred then RejectedPolicy
        else if !req.proposal.reversible || agentCode then AwaitingOwner
        else Executed
  {
    ExecutedExactly(ShippedAdapters(t), ShippedBehave, req);
    OutcomesExact(ShippedAdapters(t), ShippedBehave, req);
    SolverApproves(ShippedAdapters(t), DEFAULT_WEIGHTS, ShippedGenerate(t), req);
    ShippedChoice(t, req);
    ShippedDecisions(req);
  }
}
