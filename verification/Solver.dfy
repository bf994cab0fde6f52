/** The solver: the best candidate within the hard constraints. */
module Solvers {
  import opened Changes

  // ---- Objective and constraints ----

  function Score(w: Weights, c: Candidate): Num {
    w.cost.Times(c.costDelta.Neg())
      .Plus(w.density.Times(c.densityDelta))
      .Plus(w.gpuUtil.Times(c.gpuUtilDelta))
      .Minus(w.idlePenalty.Times(c.idleDelta))
  }

  datatype Violation = SlaBroken | IsolationBroken | SovereigntyBroken

  /** The first hard constraint a candidate breaks. */
  function FirstViolation(c: Candidate): Option<Violation> {
    if c.slaHeadroom.Less(Fin(0.0)) then Some(SlaBroken)
    else if !c.isolationOk then Some(IsolationBroken)
    else if !c.sovereigntyOk then Some(SovereigntyBroken)
    else None
  }

  predicate Feasible(c: Candidate) {
    FirstViolation(c).None?
  }

  function RiskOf(c: Candidate): Risk {
    if !c.reversible then RiskIrreversible
    else if Fin(0.5).Less(c.densityDelta.Abs()) then RiskHigh
    else RiskLow
  }

  // ---- What a correct choice is ----

  datatype Grade = Grade(feasible: bool, score: Num) {
    predicate Eligible() { feasible && NegInf.Less(score) }
  }

  function Grades(w: Weights, cands: seq<Candidate>): (g: seq<Grade>)
    ensures |g| == |cands| && forall i :: 0 <= i < |cands| ==> g[i] == Grade(Feasible(cands[i]), Score(w, cands[i]))
  {
    seq(|cands|, i requires 0 <= i < |cands| => Grade(Feasible(cands[i]), Score(w, cands[i])))
  }

  /** Position `i` is feasible, scores above minus infinity, no feasible one scores more, and no earlier
      feasible one as much. */
  predicate IsBest(g: seq<Grade>, i: int) {
    && 0 <= i < |g| && g[i].Eligible()
    && (forall j :: 0 <= j < |g| && g[j].feasible ==> !g[i].score.Less(g[j].score))
    && (forall j :: 0 <= j < i && g[j].feasible ==> g[j].score != g[i].score)
  }

  predicate SomeEligible(g: seq<Grade>) {
    exists j :: 0 <= j < |g| && g[j].Eligible()
  }

  /** The correct choice among candidates: the first best one within the hard constraints. */
  predicate IsChoice(w: Weights, cands: seq<Candidate>, i: int) {
    IsBest(Grades(w, cands), i)
  }

  /** Whether there is anything to choose. */
  predicate Choosable(w: Weights, cands: seq<Candidate>) {
    SomeEligible(Grades(w, cands))
  }

  /** One more candidate: it becomes the best exactly when it is eligible and beats the best so far. */
  lemma BestExtends(g: seq<Grade>, best: int, x: Grade)
    requires if best >= 0 then IsBest(g, best) else !SomeEligible(g)
    ensures var all := g + [x];
      if x.feasible && (if best >= 0 then g[best].score else NegInf).Less(x.score) then IsBest(all, |g|)
      else if best >= 0 then IsBest(all, best)
      else !SomeEligible(all)
  {
    var all := g + [x];
    assert all[|g|] == x;
    assert forall j :: 0 <= j < |g| ==> all[j] == g[j];
    if x.feasible && (if best >= 0 then g[best].score else NegInf).Less(x.score) && best < 0 {
      forall j | 0 <= j < |g| && g[j].feasible ensures g[j].score.NaN? || g[j].score.NegInf? {
        assert !g[j].Eligible();
      }
    }
  }

  /** What the scan knows of the candidates behind it. */
  predicate Leads(g: seq<Grade>, best: int, score: Num) {
    && -1 <= best < |g| && score == (if best >= 0 then g[best].score else NegInf)
    && if best >= 0 then IsBest(g, best) else !SomeEligible(g)
  }

  lemma LeadsOn(g: seq<Grade>, best: int, score: Num, x: Grade)
    requires Leads(g, best, score)
    ensures if x.feasible && score.Less(x.score) then Leads(g + [x], |g|, x.score) else Leads(g + [x], best, score)
  {
    BestExtends(g, best, x);
  }

  // ---- The choice is unique and always there ----

  lemma BestUnique(g: seq<Grade>, i: int, j: int)
    requires IsBest(g, i) && IsBest(g, j)
    ensures i == j
  {
  }

  lemma {:induction false} BestExists(g: seq<Grade>) returns (i: int)
    ensures i >= -1
    ensures if i >= 0 then IsBest(g, i) else !SomeEligible(g)
  {
    i := -1;
    if g != [] {
      var front, x := g[..|g| - 1], g[|g| - 1];
      i := BestExists(front);
      BestExtends(front, i, x);
      assert front + [x] == g;
      if x.feasible && (if i >= 0 then front[i].score else NegInf).Less(x.score) {
        i := |g| - 1;
      }
    }
  }

  lemma BestIsEligible(g: seq<Grade>)
    ensures SomeEligible(g) <==> exists i :: IsBest(g, i)
  {
    var i := BestExists(g);
  }

  /** The index the solver picks, or -1. */
  function Choice(w: Weights, cands: seq<Candidate>): (i: int)
    ensures i >= -1 && (i >= 0 <==> Choosable(w, cands))
    ensures i >= 0 ==> i < |cands| && IsChoice(w, cands, i)
  {
    BestIsEligible(Grades(w, cands));
    assert forall k :: IsBest(Grades(w, cands), k) ==> 0 <= k < |cands| && IsChoice(w, cands, k);
    if exists k :: 0 <= k < |cands| && IsChoice(w, cands, k) then TheChoice(w, cands) else -1
  }

  function TheChoice(w: Weights, cands: seq<Candidate>): (i: nat)
    requires exists k :: 0 <= k < |cands| && IsChoice(w, cands, k)
    ensures i < |cands| && IsChoice(w, cands, i)
  {
    assert forall j, k :: IsChoice(w, cands, j) && IsChoice(w, cands, k) ==> j == k;
    var k :| 0 <= k < |cands| && IsChoice(w, cands, k);
    k
  }

  // ---- Planning ----

  datatype Rejection = Rejection(name: string, violation: Violation)

  function Rejections(cands: seq<Candidate>): seq<Rejection> {
    if cands == [] then []
    else
      var c := cands[|cands| - 1];
      Rejections(cands[..|cands| - 1]) + (if Feasible(c) then [] else [Rejection(c.name, FirstViolation(c).value)])
  }

  function Steps(texts: seq<string>): (steps: seq<Step>)
    ensures |steps| == |texts| && forall i :: 0 <= i < |texts| ==> steps[i] == Do(texts[i])
  {
    seq(|texts|, i requires 0 <= i < |texts| => Do(texts[i]))
  }

  function PlanFor(w: Weights, cands: seq<Candidate>, i: nat): Plan
    requires i < |cands|
  {
    var c := cands[i];
    Plan([Chose(|cands|, c.name, Score(w, c))] + Steps(c.steps), c.costDelta, c.slaHeadroom, c.isolationOk, RiskOf(c))
  }

  datatype PlanResult =
    | Planned(plan: Plan)
    | NoCandidates
    | AllRejected(rejected: seq<Rejection>)

  type Generator = ChangeRequest -> seq<Candidate>

  /** What the solver answers, as the pipeline sees it. */
  function SolverPlanner(w: Weights, gen: Generator): (ChangeRequest, PolicyDecision) -> Option<Plan> {
    (req: ChangeRequest, dec: PolicyDecision) =>
      var i := Choice(w, gen(req)); if i >= 0 then Some(PlanFor(w, gen(req), i)) else None
  }

  /** A solver: its weights and its way to generate candidates. */
  class Solver {
    const weights: Weights
    const gen: Generator

    constructor (weights: Weights, gen: Generator)
      ensures this.weights == weights && this.gen == gen
    {
      this.weights, this.gen := weights, gen;
    }

    /** Plans the one correct choice; fails exactly when there is none, and then names every
        infeasible candidate in order with the first constraint it breaks. */
    method Plan(req: ChangeRequest, dec: PolicyDecision) returns (r: PlanResult)
      ensures r.NoCandidates? <==> gen(req) == []
      ensures r.Planned? <==> Choice(weights, gen(req)) >= 0
      ensures r.Planned? ==> var cands, i := gen(req), Choice(weights, gen(req));
        r.plan == PlanFor(weights, cands, i) && IsPlanOf(r.plan, weights, |cands|, cands[i])
      ensures SolverPlanner(weights, gen)(req, dec) == if r.Planned? then Some(r.plan) else None
      ensures r.AllRejected? ==> r.rejected == Rejections(gen(req))
    {
      var cands := gen(req);
      ghost var grades := Grades(weights, cands);
      if |cands| == 0 {
        return NoCandidates;
      }
      var best := -1;
      var bestScore := NegInf;
      var rejected: seq<Rejection> := [];
      for i := 0 to |cands|
        invariant rejected == Rejections(cands[..i])
        invariant Leads(grades[..i], best, bestScore)
      {
        var c := cands[i];
        assert cands[..i + 1][..i] == cands[..i];
        LeadsOn(grades[..i], best, bestScore, grades[i]);
        assert grades[..i] + [grades[i]] == grades[..i + 1];
        var why := FirstViolation(c);
        if why.Some? {
          rejected := rejected + [Rejection(c.name, why.value)];
        } else {
          var sc := Score(weights, c);
          if bestScore.Less(sc) {
            bestScore, best := sc, i;
          }
        }
      }
      assert cands[..|cands|] == cands && grades[..|cands|] == grades;
      if best < 0 {
        return AllRejected(rejected);
      }
      BestUnique(grades, best, Choice(weights, cands));
      PlanTold(weights, cands, best);
      r := Planned(PlanFor(weights, cands, best));
    }
  }

  // ---- In the candidates' own fields ----

  /** The plan's first step notes the choice, and the others are the candidate's own, in order. */
  predicate IsPlanOf(plan: Plan, w: Weights, among: nat, c: Candidate) {
    && |plan.steps| == 1 + |c.steps| && plan.steps[0] == Chose(among, c.name, Score(w, c))
    && (forall k :: 1 <= k < |plan.steps| ==> plan.steps[k] == Do(c.steps[k - 1]))
    && plan.costDelta == c.costDelta && plan.slaHeadroom == c.slaHeadroom && plan.isolationOk == c.isolationOk
    && plan.risk == RiskOf(c)
  }

  lemma PlanTold(w: Weights, cands: seq<Candidate>, i: nat)
    requires i < |cands|
    ensures IsPlanOf(PlanFor(w, cands, i), w, |cands|, cands[i])
  {
  }

  /** A candidate is feasible unless its headroom is below zero, its isolation broken or its sovereignty; the
      first of these that applies, in this order, is its violation. Headroom that is not a number passes. */
  lemma FeasibleExactly(c: Candidate)
    ensures var broken := c.slaHeadroom == NegInf || (c.slaHeadroom.Fin? && c.slaHeadroom.r < 0.0);
      && (Feasible(c) <==> !broken && c.isolationOk && c.sovereigntyOk)
      && (FirstViolation(c) == Some(SlaBroken) <==> broken)
      && (FirstViolation(c) == Some(IsolationBroken) <==> !broken && !c.isolationOk)
      && (FirstViolation(c) == Some(SovereigntyBroken) <==> !broken && c.isolationOk && !c.sovereigntyOk)
  {
  }

  /** Irreversible before high before low; high is a density change beyond a half, either way. */
  lemma RiskExactly(c: Candidate)
    ensures var d := c.densityDelta;
      var large := d == PosInf || d == NegInf || (d.Fin? && (d.r > 0.5 || d.r < -0.5));
      && (RiskOf(c) == RiskIrreversible <==> !c.reversible)
      && (RiskOf(c) == RiskHigh <==> c.reversible && large)
      && (RiskOf(c) == RiskLow <==> c.reversible && !large)
  {
  }

  /** The choice is feasible, its score beats minus infinity, no feasible candidate's score beats it, and no
      earlier feasible one equals it. */
  lemma ChoiceExactly(w: Weights, cands: seq<Candidate>, i: nat)
    requires i < |cands|
    ensures Choice(w, cands) == i <==>
      && Feasible(cands[i]) && NegInf.Less(Score(w, cands[i]))
      && (forall j :: 0 <= j < |cands| && Feasible(cands[j]) ==> !Score(w, cands[i]).Less(Score(w, cands[j])))
      && (forall j :: 0 <= j < i && Feasible(cands[j]) ==> Score(w, cands[j]) != Score(w, cands[i]))
  {
    var g := Grades(w, cands);
    BestIsEligible(g);
    if IsBest(g, i) {
      BestUnique(g, i, Choice(w, cands));
    } else {
      assert Choice(w, cands) != i;
    }
  }

  /** Each infeasible candidate has its entry in the error, in the candidates' order. */
  lemma {:induction false} RejectionsExactly(cands: seq<Candidate>, i: nat)
    requires i < |cands| && !Feasible(cands[i])
    ensures var k := i - |FeasibleOnly(cands[..i])|;
      && k < |Rejections(cands)| && Rejections(cands)[k].name == cands[i].name
      && FirstViolation(cands[i]) == Some(Rejections(cands)[k].violation)
  {
    var n := |cands| - 1;
    RejectionsCount(cands[..n]);
    if i < n {
      RejectionsExactly(cands[..n], i);
      assert cands[..n][..i] == cands[..i];
    }
  }

  // ---- Finite data ----

  predicate Finite(c: Candidate) {
    c.costDelta.Fin? && c.densityDelta.Fin? && c.gpuUtilDelta.Fin? && c.idleDelta.Fin?
  }

  predicate FiniteWeights(w: Weights) {
    w.cost.Fin? && w.density.Fin? && w.gpuUtil.Fin? && w.idlePenalty.Fin?
  }

  /** With finite data planning fails exactly when no candidate is feasible, and then every candidate is
      named with its own first violation. */
  lemma FiniteFailure(w: Weights, cands: seq<Candidate>)
    requires FiniteWeights(w) && forall c :: c in cands ==> Finite(c)
    ensures Choice(w, cands) >= 0 <==> exists c :: c in cands && Feasible(c)
    ensures Choice(w, cands) < 0 ==> Rejections(cands) == NameAll(cands)
  {
    forall i | 0 <= i < |cands| ensures Grades(w, cands)[i].Eligible() <==> Feasible(cands[i]) {
      ScoreIsReal(w, cands[i]);
    }
    if Choice(w, cands) < 0 {
      AllNamed(cands);
    }
  }

  function ViolationOf(c: Candidate): Violation {
    var v := FirstViolation(c);
    if v.Some? then v.value else SlaBroken
  }

  function NameAll(cands: seq<Candidate>): seq<Rejection> {
    seq(|cands|, i requires 0 <= i < |cands| => Rejection(cands[i].name, ViolationOf(cands[i])))
  }

  lemma {:induction false} AllNamed(cands: seq<Candidate>)
    requires forall c :: c in cands ==> !Feasible(c)
    ensures Rejections(cands) == NameAll(cands)
  {
    if cands != [] {
      AllNamed(cands[..|cands| - 1]);
    }
  }

  predicate Unscored(w: Weights, c: Candidate) {
    Score(w, c).NaN? || Score(w, c).NegInf?
  }

  /** In any list a candidate whose score is not a number, or minus infinity, is never chosen. */
  lemma UnscoredIsNeverChosen(w: Weights, cands: seq<Candidate>, i: nat)
    requires i < |cands| && Unscored(w, cands[i])
    ensures Choice(w, cands) != i
  {
    assert !Grades(w, cands)[i].Eligible();
  }

  /** So in general planning fails exactly when every feasible candidate is such a one. */
  lemma FailsExactly(w: Weights, cands: seq<Candidate>)
    ensures Choice(w, cands) < 0 <==> forall c :: c in cands && Feasible(c) ==> Unscored(w, c)
  {
    var g := Grades(w, cands);
    forall i | 0 <= i < |cands| ensures g[i].Eligible() <==> Feasible(cands[i]) && !Unscored(w, cands[i]) {
    }
    if Choice(w, cands) >= 0 {
      assert cands[Choice(w, cands)] in cands;
    } else {
      forall c | c in cands && Feasible(c) ensures Unscored(w, c) {
        var i :| 0 <= i < |cands| && cands[i] == c;
        assert !g[i].Eligible();
      }
    }
  }

  /** The error has as many entries as there are infeasible candidates. */
  lemma {:induction false} RejectionsCount(cands: seq<Candidate>)
    ensures |Rejections(cands)| == |cands| - |FeasibleOnly(cands)|
  {
    if cands != [] {
      RejectionsCount(cands[..|cands| - 1]);
    }
  }

  /** A feasible candidate, its cost not a number, for which planning fails and the error names nobody. */
  lemma UnscoredExample(w: Weights) returns (c: Candidate)
    ensures Feasible(c) && Score(w, c).NaN? && Choice(w, [c]) == -1 && Rejections([c]) == []
  {
    c := Candidate("", [], NaN, Fin(0.0), Fin(0.0), Fin(0.0), Fin(0.0), true, true, true);
    UnscoredIsNeverChosen(w, [c], 0);
    assert [c][..0] == [];
  }

  // ---- Stability ----

  function FeasibleOnly(cands: seq<Candidate>): (f: seq<Candidate>)
    ensures |f| <= |cands|
  {
    if cands == [] then []
    else
      var front, last := FeasibleOnly(cands[..|cands| - 1]), cands[|cands| - 1];
      if Feasible(last) then front + [last] else front
  }

  lemma {:induction false} FeasibleOnlyFrom(cands: seq<Candidate>, k: nat) returns (j: nat)
    requires k < |FeasibleOnly(cands)|
    ensures j < |cands| && cands[j] == FeasibleOnly(cands)[k] && Feasible(cands[j]) && |FeasibleOnly(cands[..j])| == k
  {
    var n := |cands| - 1;
    if k < |FeasibleOnly(cands[..n])| {
      j := FeasibleOnlyFrom(cands[..n], k);
      assert cands[..n][..j] == cands[..j];
    } else {
      j := n;
    }
  }

  lemma {:induction false} FeasibleOnlyTo(cands: seq<Candidate>, j: nat)
    requires j < |cands| && Feasible(cands[j])
    ensures var k := |FeasibleOnly(cands[..j])|; k < |FeasibleOnly(cands)| && FeasibleOnly(cands)[k] == cands[j]
  {
    var n := |cands| - 1;
    if j < n {
      FeasibleOnlyTo(cands[..n], j);
      assert cands[..n][..j] == cands[..j];
    }
  }

  lemma {:induction false} FeasibleOnlyGrows(cands: seq<Candidate>, i: nat, j: nat)
    requires i <= j <= |cands|
    ensures |FeasibleOnly(cands[..i])| <= |FeasibleOnly(cands[..j])|
  {
    if i < j {
      FeasibleOnlyGrows(cands, i, j - 1);
      assert cands[..j][..j - 1] == cands[..j - 1];
    }
  }

  /** The choice among all is the choice among the feasible ones. */
  lemma ChoiceAmongFeasible(w: Weights, cands: seq<Candidate>, i: nat)
    requires IsChoice(w, cands, i)
    ensures var k := |FeasibleOnly(cands[..i])|;
      IsChoice(w, FeasibleOnly(cands), k) && FeasibleOnly(cands)[k] == cands[i]
  {
    var f, k := FeasibleOnly(cands), |FeasibleOnly(cands[..i])|;
    var g, h := Grades(w, cands), Grades(w, f);
    FeasibleOnlyTo(cands, i);
    assert h[k] == g[i];
    forall m | 0 <= m < |h| ensures !h[k].score.Less(h[m].score) && (m < k ==> h[m].score != h[k].score) {
      var j := FeasibleOnlyFrom(cands, m);
      assert h[m] == g[j];
      if m < k && i <= j {
        FeasibleOnlyGrows(cands, i, j);
      }
    }
  }

  lemma SameChoosable(w: Weights, a: seq<Candidate>, b: seq<Candidate>)
    requires FeasibleOnly(a) == FeasibleOnly(b) && Choosable(w, a)
    ensures Choosable(w, b)
  {
    var i :| 0 <= i < |a| && Grades(w, a)[i].Eligible();
    FeasibleOnlyTo(a, i);
    var j := FeasibleOnlyFrom(b, |FeasibleOnly(a[..i])|);
    assert Grades(w, b)[j] == Grades(w, a)[i];
  }

  /** Infeasible candidates never matter: lists with the same feasible candidates in the same order, whatever
      else is inserted where, give the same candidate. */
  lemma InfeasibleIgnored(w: Weights, a: seq<Candidate>, b: seq<Candidate>)
    requires FeasibleOnly(a) == FeasibleOnly(b)
    ensures Choice(w, a) >= 0 <==> Choice(w, b) >= 0
    ensures Choice(w, a) >= 0 ==> a[Choice(w, a)] == b[Choice(w, b)]
  {
    if Choosable(w, a) {
      SameChoosable(w, a, b);
      var i, j := Choice(w, a), Choice(w, b);
      ChoiceAmongFeasible(w, a, i);
      ChoiceAmongFeasible(w, b, j);
      BestUnique(Grades(w, FeasibleOnly(a)), |FeasibleOnly(a[..i])|, |FeasibleOnly(b[..j])|);
    } else if Choosable(w, b) {
      SameChoosable(w, b, a);
    }
  }

  lemma PermutedIndex(a: seq<Candidate>, b: seq<Candidate>, i: nat) returns (j: nat)
    requires multiset(a) == multiset(b) && i < |a|
    ensures j < |b| && b[j] == a[i]
  {
    assert a[i] in multiset(b);
    j :| 0 <= j < |b| && b[j] == a[i];
  }

  lemma PermutedChoosable(w: Weights, a: seq<Candidate>, b: seq<Candidate>)
    requires multiset(a) == multiset(b) && Choosable(w, a)
    ensures Choosable(w, b)
  {
    var i :| 0 <= i < |a| && Grades(w, a)[i].Eligible();
    var j := PermutedIndex(a, b, i);
    assert Grades(w, b)[j] == Grades(w, a)[i];
  }

  /** Reordering the candidates never changes the best score. */
  lemma PermutationKeepsScore(w: Weights, a: seq<Candidate>, b: seq<Candidate>)
    requires multiset(a) == multiset(b)
    ensures Choice(w, a) >= 0 <==> Choice(w, b) >= 0
    ensures Choice(w, a) >= 0 ==> Score(w, a[Choice(w, a)]) == Score(w, b[Choice(w, b)])
  {
    if Choosable(w, a) {
      PermutedChoosable(w, a, b);
      var g, h := Grades(w, a), Grades(w, b);
      var x := PermutedIndex(a, b, Choice(w, a));
      var y := PermutedIndex(b, a, Choice(w, b));
      assert h[x] == g[Choice(w, a)] && g[y] == h[Choice(w, b)];
    } else if Choosable(w, b) {
      PermutedChoosable(w, b, a);
    }
  }

  function Scale(w: Weights, k: real): Weights {
    Weights(Fin(k).Times(w.cost), Fin(k).Times(w.density), Fin(k).Times(w.gpuUtil), Fin(k).Times(w.idlePenalty))
  }

  function RealScore(w: Weights, c: Candidate): real
    requires FiniteWeights(w) && Finite(c)
  {
    w.cost.r * -c.costDelta.r + w.density.r * c.densityDelta.r + w.gpuUtil.r * c.gpuUtilDelta.r - w.idlePenalty.r * c.idleDelta.r
  }

  lemma ScoreIsReal(w: Weights, c: Candidate)
    requires FiniteWeights(w) && Finite(c)
    ensures Score(w, c) == Fin(RealScore(w, c))
    ensures Score(w, c).r ==
      w.cost.r * -c.costDelta.r + w.density.r * c.densityDelta.r + w.gpuUtil.r * c.gpuUtilDelta.r - w.idlePenalty.r * c.idleDelta.r
  {
  }

  lemma Distributes(k: real, a: real, x: real, b: real, y: real, c: real, z: real, d: real, t: real)
    ensures k * a * x + k * b * y + k * c * z - k * d * t == k * (a * x + b * y + c * z - d * t)
  {
    assert k * a * x == k * (a * x) && k * b * y == k * (b * y) && k * c * z == k * (c * z) && k * d * t == k * (d * t);
  }

  lemma ScaledScore(w: Weights, k: real, c: Candidate)
    requires FiniteWeights(w) && Finite(c)
    ensures RealScore(Scale(w, k), c) == k * RealScore(w, c)
  {
    Distributes(k, w.cost.r, -c.costDelta.r, w.density.r, c.densityDelta.r, w.gpuUtil.r, c.gpuUtilDelta.r, w.idlePenalty.r, c.idleDelta.r);
  }

  lemma OrderScales(k: real, x: real, y: real)
    requires k > 0.0
    ensures x < y <==> k * x < k * y
    ensures x == y <==> k * x == k * y
  {
    if x < y {
      assert k * (y - x) > 0.0;
    } else if y < x {
      assert k * (x - y) > 0.0;
    }
  }

  /** Only the order of the scores matters. */
  lemma OrderDecides(g: seq<Grade>, h: seq<Grade>, i: int)
    requires |g| == |h|
    requires forall j :: 0 <= j < |g| ==> g[j].feasible == h[j].feasible && g[j].score.Fin? && h[j].score.Fin?
    requires forall j, k :: 0 <= j < |g| && 0 <= k < |g| ==> (g[j].score.r < g[k].score.r <==> h[j].score.r < h[k].score.r)
    ensures IsBest(g, i) <==> IsBest(h, i)
  {
  }

  lemma ScaledGrade(w: Weights, k: real, c: Candidate)
    requires FiniteWeights(w) && Finite(c)
    ensures Score(w, c).Fin? && Score(Scale(w, k), c) == Fin(k * Score(w, c).r)
  {
    ScoreIsReal(w, c);
    ScoreIsReal(Scale(w, k), c);
    ScaledScore(w, k, c);
  }

  ghost predicate Scaled(g: seq<Grade>, h: seq<Grade>, k: real) {
    && |g| == |h|
    && (forall i :: 0 <= i < |g| ==> ScaledAt(g[i], h[i], k))
  }

  ghost predicate ScaledAt(g: Grade, h: Grade, k: real) {
    g.feasible == h.feasible && g.score.Fin? && h.score == Fin(k * g.score.r)
  }

  lemma ScaledCandidate(w: Weights, k: real, c: Candidate)
    requires FiniteWeights(w) && Finite(c)
    ensures ScaledAt(Grade(Feasible(c), Score(w, c)), Grade(Feasible(c), Score(Scale(w, k), c)), k)
  {
    ScaledGrade(w, k, c);
  }

  lemma ScaledGrades(w: Weights, k: real, cands: seq<Candidate>, g: seq<Grade>, h: seq<Grade>)
    requires FiniteWeights(w) && forall c :: c in cands ==> Finite(c)
    requires g == Grades(w, cands) && h == Grades(Scale(w, k), cands)
    ensures Scaled(g, h, k)
  {
    forall i | 0 <= i < |g| ensures ScaledAt(g[i], h[i], k) {
      ScaledCandidate(w, k, cands[i]);
    }
  }

  lemma ScaledSameBest(g: seq<Grade>, h: seq<Grade>, k: real, i: int, j: int)
    requires Scaled(g, h, k) && k > 0.0 && i >= -1 && j >= -1
    requires if i >= 0 then IsBest(g, i) else !SomeEligible(g)
    requires if j >= 0 then IsBest(h, j) else !SomeEligible(h)
    ensures i == j
  {
    forall m, n | 0 <= m < |g| && 0 <= n < |g| ensures g[m].score.r < g[n].score.r <==> h[m].score.r < h[n].score.r {
      OrderScales(k, g[m].score.r, g[n].score.r);
    }
    SameBest(g, h, i, j);
  }

  /** Multiplying all weights by a positive factor keeps the choice. */
  lemma ScalingKeepsChoice(w: Weights, k: real, cands: seq<Candidate>)
    requires FiniteWeights(w) && k > 0.0 && forall c :: c in cands ==> Finite(c)
    ensures Choice(Scale(w, k), cands) == Choice(w, cands)
  {
    var g, h := Grades(w, cands), Grades(Scale(w, k), cands);
    ScaledGrades(w, k, cands, g, h);
    ScaledSameBest(g, h, k, Choice(w, cands), Choice(Scale(w, k), cands));
  }

  lemma SameBest(g: seq<Grade>, h: seq<Grade>, i: int, j: int)
    requires |g| == |h| && i >= -1 && j >= -1
    requires forall j :: 0 <= j < |g| ==> g[j].feasible == h[j].feasible && g[j].score.Fin? && h[j].score.Fin?
    requires forall j, k :: 0 <= j < |g| && 0 <= k < |g| ==> (g[j].score.r < g[k].score.r <==> h[j].score.r < h[k].score.r)
    requires if i >= 0 then IsBest(g, i) else !SomeEligible(g)
    requires if j >= 0 then IsBest(h, j) else !SomeEligible(h)
    ensures i == j
  {
    OrderDecides(g, h, i);
    if i >= 0 && j >= 0 {
      BestUnique(h, i, j);
    }
  }

  /** At least as good on cost, density, GPU use and idleness, and better on one. */
  predicate Dominates(x: Candidate, y: Candidate)
    requires Finite(x) && Finite(y)
  {
    && x.costDelta.r <= y.costDelta.r && x.densityDelta.r >= y.densityDelta.r
    && x.gpuUtilDelta.r >= y.gpuUtilDelta.r && x.idleDelta.r <= y.idleDelta.r
    && (x.costDelta != y.costDelta || x.densityDelta != y.densityDelta || x.gpuUtilDelta != y.gpuUtilDelta || x.idleDelta != y.idleDelta)
  }

  lemma TermOrder(a: real, x: real, y: real)
    requires a > 0.0 && x <= y
    ensures a * x <= a * y && (x < y ==> a * x < a * y)
  {
    OrderScales(a, x, y);
  }

  lemma DominanceScores(w: Weights, x: Candidate, y: Candidate)
    requires FiniteWeights(w) && Finite(x) && Finite(y)
    requires w.cost.r > 0.0 && w.density.r > 0.0 && w.gpuUtil.r > 0.0 && w.idlePenalty.r > 0.0
    requires Dominates(x, y)
    ensures RealScore(w, y) < RealScore(w, x)
  {
    TermOrder(w.cost.r, -y.costDelta.r, -x.costDelta.r);
    TermOrder(w.density.r, y.densityDelta.r, x.densityDelta.r);
    TermOrder(w.gpuUtil.r, y.gpuUtilDelta.r, x.gpuUtilDelta.r);
    TermOrder(w.idlePenalty.r, x.idleDelta.r, y.idleDelta.r);
  }

  /** With positive weights no feasible candidate dominates the chosen one. */
  lemma ChoiceUndominated(w: Weights, cands: seq<Candidate>, j: nat)
    requires FiniteWeights(w) && forall c :: c in cands ==> Finite(c)
    requires w.cost.r > 0.0 && w.density.r > 0.0 && w.gpuUtil.r > 0.0 && w.idlePenalty.r > 0.0
    requires Choice(w, cands) >= 0 && j < |cands| && Feasible(cands[j])
    ensures !Dominates(cands[j], cands[Choice(w, cands)])
  {
    var g, i := Grades(w, cands), Choice(w, cands);
    ScoreIsReal(w, cands[j]);
    ScoreIsReal(w, cands[i]);
    assert !g[i].score.Less(g[j].score);
    if Dominates(cands[j], cands[i]) {
      DominanceScores(w, cands[j], cands[i]);
    }
  }
}
