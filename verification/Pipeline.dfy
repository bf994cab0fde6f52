/** The change pipeline: seven gates in order, and an append-only audit log. */
module Pipelines {
  import opened Changes
  import opened Texts

  // ---- The audit log ----

  datatype Gate = Normalize | Authn | Policy | Planning | Approve | Execute | Rollback {
    function Number(): int {
      match this
      case Normalize => 1 case Authn => 2 case Policy => 3 case Planning => 4 case Approve => 5 case Execute => 6 case Rollback => 7
    }
  }

  datatype Note =
    | Malformed | Envelope(kind: ChangeKind, scope: seq<string>)
    | AttestFailed | Origin(origin: Provenance, standing: Standing)
    | Structural | HardRail(reasons: seq<string>) | Denied(reasons: seq<string>) | Satisfied
    | NoPlan | PlanOf(risk: Risk, costDelta: Num)
    | NeedsApproval | AutoApproved
    | StepDone(step: Step) | RolledBack | RolledOut
    | Other(text: string)

  datatype Standing = Improvement | OwnerRequest | Scoped

  datatype Entry = Entry(gate: Gate, note: Note)

  class AuditLog {
    var entries: seq<Entry>

    constructor ()
      ensures entries == []
    {
      entries := [];
    }

    method Append(gate: Gate, note: Note)
      modifies this
      ensures entries == old(entries) + [Entry(gate, note)]
    {
      entries := entries + [Entry(gate, note)];
    }
  }

  // ---- Decisions the pipeline takes itself ----

  const INFRA := "infra/"

  /** The development engine may not touch infrastructure, whatever the policy adapter says. */
  predicate DevInfraHardRail(req: ChangeRequest) {
    req.purpose == PurposeDev && (req.kind == ResourceOp || HasPrefix(req.proposal.target, INFRA))
  }

  function Classify(o: Provenance): Standing {
    match o
    case CAgent => Improvement
    case Owner => OwnerRequest
    case OwnerClient => OwnerRequest
    case _ => Scoped
  }

  /** Reads the origin the request claims, not the attested one. */
  predicate NeedsOwner(req: ChangeRequest, plan: Plan) {
    || plan.risk == RiskIrreversible || plan.risk == RiskHigh
    || (req.origin == AutoAgent && req.kind == CodeChange)
  }

  // ---- The pipeline ----

  datatype Outcome = Executed | RejectedPolicy | AwaitingOwner | Failed | RejectedAuth

  /** What an executor does to the log, and whether it reports an error. */
  datatype ExecResult = ExecResult(log: seq<Entry>, failed: bool)

  class Executor {
    const behave: (Plan, seq<Entry>) -> ExecResult
    var executed: seq<Plan>

    constructor (behave: (Plan, seq<Entry>) -> ExecResult)
      ensures this.behave == behave && executed == []
    {
      this.behave, executed := behave, [];
    }

    method Run(plan: Plan, audit: AuditLog) returns (failed: bool)
      modifies this, audit
      ensures executed == old(executed) + [plan]
      ensures audit.entries == behave(plan, old(audit.entries)).log && failed == behave(plan, old(audit.entries)).failed
    {
      executed := executed + [plan];
      var r := behave(plan, audit.entries);
      audit.entries := r.log;
      failed := r.failed;
    }
  }

  /** The deciding adapters: any functions of what they are given. */
  datatype Adapters = Adapters(
    attest: ChangeRequest -> Option<Provenance>,
    evaluate: ChangeRequest -> PolicyDecision,
    plan: (ChangeRequest, PolicyDecision) -> Option<Plan>)
  {
    predicate WellFormed(req: ChangeRequest) {
      req.id != "" && req.kind != NoKind
    }

    predicate Authentic(req: ChangeRequest) {
      WellFormed(req) && attest(req).Some?
    }

    predicate PolicyAllows(req: ChangeRequest) {
      && Authentic(req) && !DevInfraHardRail(req)
      && !evaluate(req).hardRailViolated && evaluate(req).allowed
    }

    predicate Plannable(req: ChangeRequest) {
      PolicyAllows(req) && plan(req, evaluate(req)).Some?
    }

    /** Gates 1 to 5 let the request through. */
    predicate Approved(req: ChangeRequest) {
      Plannable(req) && !NeedsOwner(req, plan(req, evaluate(req)).value)
    }
  }

  /** An executor that only appends, and tags what it appends with gate 6. */
  ghost predicate Tame(behave: (Plan, seq<Entry>) -> ExecResult) {
    forall plan, log {:trigger behave(plan, log)} ::
      log <= behave(plan, log).log && forall i :: |log| <= i < |behave(plan, log).log| ==> behave(plan, log).log[i].gate == Execute
  }

  predicate Ordered(log: seq<Entry>) {
    forall i, j :: 0 <= i < j < |log| ==> log[i].gate.Number() <= log[j].gate.Number()
  }

  /** The gate of the last entry tells the outcome. */
  function Told(last: Gate): Outcome {
    match last
    case Normalize => RejectedAuth
    case Authn => RejectedAuth
    case Policy => RejectedPolicy
    case Planning => Failed
    case Approve => AwaitingOwner
    case Execute => Executed
    case Rollback => Failed
  }

  datatype Result = Result(outcome: Outcome, log: seq<Entry>, ran: seq<Plan>)

  function Stop(outcome: Outcome, log: seq<Entry>): Result {
    Result(outcome, log, [])
  }

  /** Gates 6 and 7. */
  function Rollout(behave: (Plan, seq<Entry>) -> ExecResult, plan: Plan, log: seq<Entry>): Result {
    var r := behave(plan, log);
    if r.failed then Result(Failed, r.log + [Entry(Rollback, RolledBack)], [plan])
    else Result(Executed, r.log + [Entry(Execute, RolledOut)], [plan])
  }

  /** Gates 4 and 5. */
  function Planned(a: Adapters, behave: (Plan, seq<Entry>) -> ExecResult, req: ChangeRequest, log: seq<Entry>): Result {
    var plan := a.plan(req, a.evaluate(req));
    if plan.None? then Stop(Failed, log + [Entry(Planning, NoPlan)])
    else
      var log4 := log + [Entry(Planning, PlanOf(plan.value.risk, plan.value.costDelta))];
      if NeedsOwner(req, plan.value) then Stop(AwaitingOwner, log4 + [Entry(Approve, NeedsApproval)])
      else Rollout(behave, plan.value, log4 + [Entry(Approve, AutoApproved)])
  }

  /** Gate 3. */
  function Checked(a: Adapters, behave: (Plan, seq<Entry>) -> ExecResult, req: ChangeRequest, log: seq<Entry>): Result {
    var dec := a.evaluate(req);
    if DevInfraHardRail(req) then Stop(RejectedPolicy, log + [Entry(Policy, Structural)])
    else if dec.hardRailViolated then Stop(RejectedPolicy, log + [Entry(Policy, HardRail(dec.reasons))])
    else if !dec.allowed then Stop(RejectedPolicy, log + [Entry(Policy, Denied(dec.reasons))])
    else Planned(a, behave, req, log + [Entry(Policy, Satisfied)])
  }

  /** The whole way of a request through the gates. */
  function Verdict(a: Adapters, behave: (Plan, seq<Entry>) -> ExecResult, req: ChangeRequest): Result {
    if !a.WellFormed(req) then Stop(RejectedAuth, [Entry(Normalize, Malformed)])
    else
      var log1 := [Entry(Normalize, Envelope(req.kind, req.scope))];
      var origin := a.attest(req);
      if origin.None? then Stop(RejectedAuth, log1 + [Entry(Authn, AttestFailed)])
      else Checked(a, behave, req, log1 + [Entry(Authn, Origin(origin.value, Classify(origin.value)))])
  }

  class Pipeline {
    const adapters: Adapters
    const exec: Executor

    constructor (adapters: Adapters, exec: Executor)
      ensures this.adapters == adapters && this.exec == exec
    {
      this.adapters, this.exec := adapters, exec;
    }

    method Handle(req: ChangeRequest) returns (outcome: Outcome, audit: AuditLog)
      modifies exec
      ensures fresh(audit)
      ensures var v := Verdict(adapters, exec.behave, req);
        outcome == v.outcome && audit.entries == v.log && exec.executed == old(exec.executed) + v.ran
    {
      audit := new AuditLog();
      if req.id == "" || req.kind == NoKind {
        audit.Append(Normalize, Malformed);
        return RejectedAuth, audit;
      }
      audit.Append(Normalize, Envelope(req.kind, req.scope));

      var origin := adapters.attest(req);
      if origin.None? {
        audit.Append(Authn, AttestFailed);
        return RejectedAuth, audit;
      }
      audit.Append(Authn, Origin(origin.value, Classify(origin.value)));

      if DevInfraHardRail(req) {
        audit.Append(Policy, Structural);
        return RejectedPolicy, audit;
      }
      var dec := adapters.evaluate(req);
      if dec.hardRailViolated {
        audit.Append(Policy, HardRail(dec.reasons));
        return RejectedPolicy, audit;
      }
      if !dec.allowed {
        audit.Append(Policy, Denied(dec.reasons));
        return RejectedPolicy, audit;
      }
      audit.Append(Policy, Satisfied);

      var plan := adapters.plan(req, dec);
      if plan.None? {
        audit.Append(Planning, NoPlan);
        return Failed, audit;
      }
      audit.Append(Planning, PlanOf(plan.value.risk, plan.value.costDelta));

      if NeedsOwner(req, plan.value) {
        audit.Append(Approve, NeedsApproval);
        return AwaitingOwner, audit;
      }
      audit.Append(Approve, AutoApproved);

      assert audit.entries == GateLog(adapters, req);
      ApprovedRollsOut(adapters, exec.behave, req);
      var failed := exec.Run(plan.value, audit);
      if failed {
        audit.Append(Rollback, RolledBack);
        return Failed, audit;
      }
      audit.Append(Execute, RolledOut);
      return Executed, audit;
    }
  }

  // ---- Soundness and completeness for any adapters ----

  /** The structural rail in the request's own fields: a development request for a resource, or for a target
      under "infra/". Requests of other purposes never meet it. */
  lemma RailExactly(req: ChangeRequest)
    ensures DevInfraHardRail(req) <==>
      req.purpose == PurposeDev && (req.kind == ResourceOp || exists rest :: req.proposal.target == "infra/" + rest)
  {
    AffixExactly(req.proposal.target, INFRA);
    assert forall rest :: INFRA + rest == "infra/" + rest;
  }

  /** Every outcome but the executor's own failure has its own exact condition, told by what the request says and
      what the adapters answer; the executor runs at most once, with the plan of gate 4, and exactly when
      gates 1 to 5 pass. */
  lemma OutcomesExact(a: Adapters, behave: (Plan, seq<Entry>) -> ExecResult, req: ChangeRequest)
    ensures var v, dec := Verdict(a, behave, req), a.evaluate(req);
      var plan := a.plan(req, dec);
      var authentic := req.id != "" && req.kind != NoKind && a.attest(req).Some?;
      var railed := req.purpose == PurposeDev && (req.kind == ResourceOp || exists rest :: req.proposal.target == "infra/" + rest);
      var passed := authentic && !railed && !dec.hardRailViolated && dec.allowed;
      var owner := plan.Some? && (plan.value.risk == RiskIrreversible || plan.value.risk == RiskHigh
                                  || (req.origin == AutoAgent && req.kind == CodeChange));
      && (v.outcome == RejectedAuth <==> !authentic)
      && (v.outcome == RejectedPolicy <==> authentic && !passed)
      && (v.outcome == AwaitingOwner <==> passed && owner)
      && (v.outcome == Executed ==> passed && plan.Some? && !owner)
      && (passed && plan.None? ==> v.outcome == Failed)
      && v.ran == (if passed && plan.Some? && !owner then [plan.value] else [])
      && (a.Approved(req) <==> passed && plan.Some? && !owner)
  {
    RailExactly(req);
  }

  /** What the log of a request holds that does not reach the executor, entry by entry. */
  lemma StoppedLogExact(a: Adapters, behave: (Plan, seq<Entry>) -> ExecResult, req: ChangeRequest)
    ensures var log, dec := Verdict(a, behave, req).log, a.evaluate(req);
      var plan := a.plan(req, dec);
      var railed := req.purpose == PurposeDev && (req.kind == ResourceOp || exists rest :: req.proposal.target == "infra/" + rest);
      if req.id == "" || req.kind == NoKind then log == [Entry(Normalize, Malformed)]
      else
        var first := Entry(Normalize, Envelope(req.kind, req.scope));
        match a.attest(req)
        case None => log == [first, Entry(Authn, AttestFailed)]
        case Some(o) =>
          var standing := if o == CAgent then Improvement else if o == Owner || o == OwnerClient then OwnerRequest else Scoped;
          var second := Entry(Authn, Origin(o, standing));
          if railed then log == [first, second, Entry(Policy, Structural)]
          else if dec.hardRailViolated then log == [first, second, Entry(Policy, HardRail(dec.reasons))]
          else if !dec.allowed then log == [first, second, Entry(Policy, Denied(dec.reasons))]
          else if plan.None? then log == [first, second, Entry(Policy, Satisfied), Entry(Planning, NoPlan)]
          else if !a.Approved(req) then
            log == [first, second, Entry(Policy, Satisfied), Entry(Planning, PlanOf(plan.value.risk, plan.value.costDelta)), Entry(Approve, NeedsApproval)]
          else
            GateLog(a, req) == [first, second, Entry(Policy, Satisfied),
                                Entry(Planning, PlanOf(plan.value.risk, plan.value.costDelta)), Entry(Approve, AutoApproved)]
  {
    RailExactly(req);
  }

  /** The log the executor is given: one entry for each gate passed. */
  function GateLog(a: Adapters, req: ChangeRequest): seq<Entry>
    requires a.Approved(req)
  {
    var origin, plan := a.attest(req).value, a.plan(req, a.evaluate(req)).value;
    [Entry(Normalize, Envelope(req.kind, req.scope)), Entry(Authn, Origin(origin, Classify(origin))), Entry(Policy, Satisfied),
     Entry(Planning, PlanOf(plan.risk, plan.costDelta)), Entry(Approve, AutoApproved)]
  }

  lemma ApprovedRollsOut(a: Adapters, behave: (Plan, seq<Entry>) -> ExecResult, req: ChangeRequest)
    requires a.Approved(req)
    ensures Verdict(a, behave, req) == Rollout(behave, a.plan(req, a.evaluate(req)).value, GateLog(a, req))
  {
    var origin, plan := a.attest(req).value, a.plan(req, a.evaluate(req)).value;
    assert GateLog(a, req) == [Entry(Normalize, Envelope(req.kind, req.scope))] + [Entry(Authn, Origin(origin, Classify(origin)))]
      + [Entry(Policy, Satisfied)] + [Entry(Planning, PlanOf(plan.risk, plan.costDelta))] + [Entry(Approve, AutoApproved)];
  }

  /** A request is executed exactly when gates 1 to 5 pass and the executor, given the log of those gates,
      reports no failure; it fails exactly when planning fails, or gates 1 to 5 pass and the executor fails. The log
      is what the executor leaves, closed by a rollout or a rollback. */
  lemma ExecutedExactly(a: Adapters, behave: (Plan, seq<Entry>) -> ExecResult, req: ChangeRequest)
    ensures var v := Verdict(a, behave, req);
      && (v.outcome == Executed <==> a.Approved(req) && !behave(a.plan(req, a.evaluate(req)).value, GateLog(a, req)).failed)
      && (v.outcome == Failed <==>
           (a.PolicyAllows(req) && !a.Plannable(req))
           || (a.Approved(req) && behave(a.plan(req, a.evaluate(req)).value, GateLog(a, req)).failed))
    ensures a.Approved(req) ==>
      var r := behave(a.plan(req, a.evaluate(req)).value, GateLog(a, req));
      Verdict(a, behave, req).log == r.log + [if r.failed then Entry(Rollback, RolledBack) else Entry(Execute, RolledOut)]
  {
    OutcomesExact(a, behave, req);
    if a.Approved(req) {
      ApprovedRollsOut(a, behave, req);
    }
  }

  // ---- The audit log ----

  /** Every gate that stops a request leaves its own mark last. */
  lemma StoppedLog(a: Adapters, behave: (Plan, seq<Entry>) -> ExecResult, req: ChangeRequest)
    requires !a.Approved(req)
    ensures var v := Verdict(a, behave, req);
      v.log != [] && Ordered(v.log) && v.outcome == Told(v.log[|v.log| - 1].gate)
  {
  }

  lemma RolloutLog(behave: (Plan, seq<Entry>) -> ExecResult, plan: Plan, log: seq<Entry>)
    requires Tame(behave) && Ordered(log) && (forall i :: 0 <= i < |log| ==> log[i].gate.Number() <= 6)
    ensures var v := Rollout(behave, plan, log);
      v.log != [] && Ordered(v.log) && v.outcome == Told(v.log[|v.log| - 1].gate) && log <= v.log
  {
  }

  /** With an executor that only appends entries of gate 6, gate numbers never go back, the gates passed stay
      at the front, and the last entry's gate alone tells the outcome. */
  lemma LogFaithful(a: Adapters, behave: (Plan, seq<Entry>) -> ExecResult, req: ChangeRequest)
    requires Tame(behave)
    ensures var v := Verdict(a, behave, req);
      && v.log != [] && Ordered(v.log) && v.outcome == Told(v.log[|v.log| - 1].gate)
      && (a.Approved(req) ==> GateLog(a, req) <= v.log)
  {
    if a.Approved(req) {
      ApprovedRollsOut(a, behave, req);
      RolloutLog(behave, a.plan(req, a.evaluate(req)).value, GateLog(a, req));
    } else {
      StoppedLog(a, behave, req);
    }
  }
  /** The log of an authentic request opens with its envelope and its attested origin. */
  lemma LogOpens(a: Adapters, behave: (Plan, seq<Entry>) -> ExecResult, req: ChangeRequest)
    requires Tame(behave) && a.Authentic(req)
    ensures var log, o := Verdict(a, behave, req).log, a.attest(req).value;
      var standing := if o == CAgent then Improvement else if o == Owner || o == OwnerClient then OwnerRequest else Scoped;
      |log| >= 3 && log[0] == Entry(Normalize, Envelope(req.kind, req.scope)) && log[1] == Entry(Authn, Origin(o, standing))
  {
    LogFaithful(a, behave, req);
    StoppedLogExact(a, behave, req);
  }
}
