/** Change requests, candidates and plans of the change pipeline. */
module Changes {

  datatype Option<+T> = None | Some(value: T)

  // ---- Numbers as the candidates carry them: reals, infinities and not-a-number, without rounding ----

  datatype Num = NaN | NegInf | PosInf | Fin(r: real) {

    predicate Less(other: Num) {
      match (this, other)
      case (NaN, _) => false
      case (_, NaN) => false
      case (Fin(x), Fin(y)) => x < y
      case (NegInf, _) => !other.NegInf?
      case (_, PosInf) => !PosInf?
      case _ => false
    }

    function Neg(): Num {
      match this
      case NaN => NaN
      case NegInf => PosInf
      case PosInf => NegInf
      case Fin(x) => Fin(-x)
    }

    function Plus(other: Num): Num {
      match (this, other)
      case (NaN, _) => NaN
      case (_, NaN) => NaN
      case (Fin(x), Fin(y)) => Fin(x + y)
      case (Fin(_), _) => other
      case (_, Fin(_)) => this
      case _ => if this == other then this else NaN
    }

    function Minus(other: Num): Num {
      this.Plus(other.Neg())
    }

    /** -1, 0 or 1. */
    function Sign(): int
      requires !NaN?
    {
      match this
      case NegInf => -1
      case PosInf => 1
      case Fin(x) => if x < 0.0 then -1 else if x > 0.0 then 1 else 0
    }

    function Times(other: Num): Num {
      match (this, other)
      case (NaN, _) => NaN
      case (_, NaN) => NaN
      case (Fin(x), Fin(y)) => Fin(x * y)
      case _ =>
        var sign := this.Sign() * other.Sign();
        if sign == 0 then NaN else if sign > 0 then PosInf else NegInf
    }

    function Abs(): Num {
      match this
      case NegInf => PosInf
      case Fin(x) => if x < 0.0 then Fin(-x) else this
      case _ => this
    }
  }

  /** The order is total but for not-a-number, which is below and above nothing; negation turns it round. */
  lemma OrderLaws(x: Num, y: Num)
    ensures !x.NaN? && !y.NaN? ==> x.Less(y) || x == y || y.Less(x)
    ensures x.Less(y) ==> !x.NaN? && !y.NaN? && x != y && !y.Less(x)
    ensures x.Less(y) <==> y.Neg().Less(x.Neg())
    ensures x.Fin? ==> NegInf.Less(x) && x.Less(PosInf)
    ensures x.Fin? && y.Fin? ==> (x.Less(y) <==> x.r < y.r)
  {
  }

  lemma Commute(x: Num, y: Num)
    ensures x.Plus(y) == y.Plus(x) && x.Times(y) == y.Times(x)
  {
  }

  /** Infinities absorb numbers, and have no difference and no product with zero. */
  lemma InfinityLaws(x: Num, y: Num)
    ensures x.Fin? ==> PosInf.Plus(x) == PosInf && NegInf.Plus(x) == NegInf
    ensures PosInf.Plus(PosInf) == PosInf && NegInf.Plus(NegInf) == NegInf && PosInf.Plus(NegInf) == NaN
    ensures PosInf.Times(PosInf) == PosInf && PosInf.Times(NegInf) == NegInf && NegInf.Times(NegInf) == PosInf
    ensures x.Fin? ==> PosInf.Times(x) == if x.r == 0.0 then NaN else if x.r > 0.0 then PosInf else NegInf
    ensures x.Fin? ==> NegInf.Times(x) == if x.r == 0.0 then NaN else if x.r > 0.0 then NegInf else PosInf
    ensures x.NaN? ==> x.Plus(y) == NaN && x.Times(y) == NaN && x.Neg() == NaN
    ensures x.Minus(y) == x.Plus(y.Neg())
    ensures x.Fin? && y.Fin? ==> x.Plus(y) == Fin(x.r + y.r) && x.Times(y) == Fin(x.r * y.r)
  {
  }

  // ---- Requests ----

  datatype Provenance = NoOrigin | Owner | OwnerClient | CAgent | Timeline | AutoAgent | OtherOrigin(name: string)

  datatype ChangeKind = NoKind | CodeChange | FeatureToggle | OptionSet | ResourceOp | SelfImprove | OtherKind(name: string)

  datatype Purpose = NoPurpose | PurposeOps | PurposeDev | OtherPurpose(name: string)

  datatype Diff = Diff(summary: string, target: string, reversible: bool)

  datatype ChangeRequest = ChangeRequest(
    id: string, origin: Provenance, purpose: Purpose, kind: ChangeKind, proposal: Diff, scope: seq<string>)

  datatype PolicyDecision = PolicyDecision(allowed: bool, hardRailViolated: bool, reasons: seq<string>)

  // ---- Plans ----

  datatype Risk = RiskLow | RiskMedium | RiskHigh | RiskIrreversible

  datatype Step =
    | Chose(candidates: nat, name: string, score: Num)
    | Do(text: string)

  datatype Plan = Plan(steps: seq<Step>, costDelta: Num, slaHeadroom: Num, isolationOk: bool, risk: Risk)

  datatype Candidate = Candidate(
    name: string, steps: seq<string>,
    costDelta: Num, densityDelta: Num, gpuUtilDelta: Num, idleDelta: Num,
    slaHeadroom: Num, isolationOk: bool, sovereigntyOk: bool, reversible: bool)

  datatype Weights = Weights(cost: Num, density: Num, gpuUtil: Num, idlePenalty: Num)
}
