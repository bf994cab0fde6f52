/** What the warm pool keeps over whole runs of calls, for any port and any policy. */
module PoolLaws {
  import opened WarmPools

  // ---- Single calls ----

  lemma {:induction false} BootedInJoins(boots: Boots, a: nat, b: nat, c: nat)
    requires a <= b <= c
    ensures BootedIn(boots, a, c) == BootedIn(boots, a, b) + BootedIn(boots, b, c)
  {
    if b < c {
      BootedInJoins(boots, a, b, c - 1);
    }
  }

  /** One filling loop appends what it boots, stops at the target, and fails at most once. */
  lemma {:induction false} FillLaw(p: Pool, boots: Boots, target: int)
    ensures var q := Fill(p, boots, target);
      && p.calls <= q.calls
      && q == p.(ready := p.ready + BootedIn(boots, p.calls, q.calls), calls := q.calls)
      && q.calls - p.calls == |q.ready| - |p.ready| + (if |q.ready| < target then 1 else 0)
      && (|q.ready| == |p.ready| || |q.ready| <= target)
    decreases target - |p.ready|
  {
    if |p.ready| < target && boots(p.calls).Booted? {
      var p1 := p.(ready := p.ready + [boots(p.calls).inst], calls := p.calls + 1);
      FillLaw(p1, boots, target);
      var q := Fill(p1, boots, target);
      BootedInJoins(boots, p.calls, p1.calls, q.calls);
      assert BootedIn(boots, p.calls, p1.calls) == [boots(p.calls).inst];
      assert p.ready + BootedIn(boots, p.calls, q.calls) == p1.ready + BootedIn(boots, p1.calls, q.calls);
    } else if |p.ready| < target {
      assert BootedIn(boots, p.calls, p.calls + 1) == [];
    }
  }

  /** First in, first out: what an Acquire hands out and keeps is the old list followed by the new boots. */
  lemma AcquireLaw(p: Pool, boots: Boots, policy: Policy, stamp: int, now: int)
    ensures var (q, a) := AcquireFrom(p, boots, policy, stamp, now);
      && p.calls <= q.calls
      && q.recent == p.recent + [stamp]
      && (a.Ok() ==> [a.inst] + q.ready == p.ready + BootedIn(boots, p.calls, q.calls))
      && (!a.Ok() ==> p.ready == q.ready == [] && q.calls == p.calls + 1 && BootedIn(boots, p.calls, q.calls) == [])
      && (a.Hit? <==> p.ready != [])
      && q.hits == p.hits + (if a.Hit? then 1 else 0)
      && q.misses == p.misses + (if a.Miss? then 1 else 0)
  {
    var p1 := p.(recent := p.recent + [stamp]);
    if |p.ready| > 0 {
      var p2 := p1.(ready := p1.ready[1..], hits := p1.hits + 1);
      FillLaw(p2, boots, policy(Demand(p2.recent, now)));
      var q := AcquireFrom(p, boots, policy, stamp, now).0;
      assert [p.ready[0]] + (p.ready[1..] + BootedIn(boots, p.calls, q.calls)) == p.ready + BootedIn(boots, p.calls, q.calls);
    } else if boots(p.calls).Booted? {
      var p2 := p1.(misses := p1.misses + 1, calls := p1.calls + 1);
      FillLaw(p2, boots, policy(Demand(p2.recent, now)));
      var q := AcquireFrom(p, boots, policy, stamp, now).0;
      BootedInJoins(boots, p.calls, p.calls + 1, q.calls);
      assert BootedIn(boots, p.calls, p.calls + 1) == [boots(p.calls).inst];
      assert p.ready + BootedIn(boots, p.calls, q.calls) == BootedIn(boots, p.calls, q.calls);
    }
  }

  // ---- Runs ----

  datatype Call =
    | Acquire(stamp: int, now: int)
    | Drain

  /** How an instance left the pool. */
  datatype Exit = HitOut(inst: WarmInstance) | MissOut(inst: WarmInstance) | DroppedOut(inst: WarmInstance)

  /** A run so far: the pool, the instances that left it in order, the answers given, and the Drain calls. */
  datatype Run = Run(pool: Pool, exits: seq<Exit>, answers: seq<Acquired>, drains: nat)

  function DropAll(ready: seq<WarmInstance>): (exits: seq<Exit>)
    ensures |exits| == |ready| && forall i :: 0 <= i < |ready| ==> exits[i] == DroppedOut(ready[i])
  {
    seq(|ready|, i requires 0 <= i < |ready| => DroppedOut(ready[i]))
  }

  function Do(r: Run, c: Call, boots: Boots, policy: Policy): Run {
    match c
    case Drain => Run(Drained(r.pool), r.exits + DropAll(r.pool.ready), r.answers, r.drains + 1)
    case Acquire(stamp, now) =>
      var (q, a) := AcquireFrom(r.pool, boots, policy, stamp, now);
      var left := match a case Hit(i) => [HitOut(i)] case Miss(i, _) => [MissOut(i)] case NoCompute(_) => [];
      Run(q, r.exits + left, r.answers + [a], r.drains)
  }

  /** The run of a call sequence on a new pool first filled at time `start`. */
  function RunOf(calls: seq<Call>, boots: Boots, policy: Policy, start: int): Run {
    if calls == [] then Run(NewPool(boots, policy, start), [], [], 0)
    else Do(RunOf(calls[..|calls| - 1], boots, policy, start), calls[|calls| - 1], boots, policy)
  }

  /** A run goes on with more calls. */
  function RunOn(r: Run, calls: seq<Call>, boots: Boots, policy: Policy): Run
    decreases |calls|
  {
    if calls == [] then r else RunOn(Do(r, calls[0], boots, policy), calls[1..], boots, policy)
  }

  lemma RunMore(past: seq<Call>, c: Call, boots: Boots, policy: Policy, start: int)
    ensures RunOf(past + [c], boots, policy, start) == Do(RunOf(past, boots, policy, start), c, boots, policy)
  {
    assert (past + [c])[..|past|] == past;
  }

  lemma {:induction false} RunOnIsRunOf(past: seq<Call>, calls: seq<Call>, boots: Boots, policy: Policy, start: int)
    ensures RunOn(RunOf(past, boots, policy, start), calls, boots, policy) == RunOf(past + calls, boots, policy, start)
    decreases |calls|
  {
    if calls == [] {
      assert past + calls == past;
    } else {
      RunMore(past, calls[0], boots, policy, start);
      RunOnIsRunOf(past + [calls[0]], calls[1..], boots, policy, start);
      assert past + [calls[0]] + calls[1..] == past + calls;
    }
  }

  function Insts(exits: seq<Exit>): (insts: seq<WarmInstance>)
    ensures |insts| == |exits| && forall i :: 0 <= i < |exits| ==> insts[i] == exits[i].inst
  {
    seq(|exits|, i requires 0 <= i < |exits| => exits[i].inst)
  }

  ghost predicate InOrder(r: Run, boots: Boots) {
    Insts(r.exits) + r.pool.ready == BootedIn(boots, 0, r.pool.calls)
  }

  lemma AcquireKeepsOrder(p: Pool, boots: Boots, policy: Policy, stamp: int, now: int, gone: seq<WarmInstance>)
    requires gone + p.ready == BootedIn(boots, 0, p.calls)
    ensures var (q, a) := AcquireFrom(p, boots, policy, stamp, now);
      gone + (if a.Ok() then [a.inst] else []) + q.ready == BootedIn(boots, 0, q.calls)
  {
    var (q, a) := AcquireFrom(p, boots, policy, stamp, now);
    AcquireLaw(p, boots, policy, stamp, now);
    BootedInJoins(boots, 0, p.calls, q.calls);
    var left := if a.Ok() then [a.inst] else [];
    var booted := BootedIn(boots, p.calls, q.calls);
    assert left + q.ready == p.ready + booted;
    assert gone + left + q.ready == gone + (left + q.ready);
    assert gone + (p.ready + booted) == (gone + p.ready) + booted;
  }

  lemma DoKeepsOrder(r: Run, c: Call, boots: Boots, policy: Policy)
    requires InOrder(r, boots)
    ensures InOrder(Do(r, c, boots, policy), boots)
  {
    var r' := Do(r, c, boots, policy);
    match c
    case Drain =>
      assert Insts(r'.exits) == Insts(r.exits) + r.pool.ready;
    case Acquire(stamp, now) =>
      AcquireKeepsOrder(r.pool, boots, policy, stamp, now, Insts(r.exits));
      var a := AcquireFrom(r.pool, boots, policy, stamp, now).1;
      assert Insts(r'.exits) == Insts(r.exits) + if a.Ok() then [a.inst] else [];
  }

  /** Every booted instance leaves in the order it was booted: the exits followed by the
      ready list are exactly the successful boots, in order. */
  lemma {:induction false} FirstInFirstOut(calls: seq<Call>, boots: Boots, policy: Policy, start: int)
    ensures var r := RunOf(calls, boots, policy, start);
      Insts(r.exits) + r.pool.ready == BootedIn(boots, 0, r.pool.calls)
  {
    if calls == [] {
      FillLaw(Pool([], 0, 0, [], 0), boots, policy(Demand([], start)));
    } else {
      FirstInFirstOut(calls[..|calls| - 1], boots, policy, start);
      DoKeepsOrder(RunOf(calls[..|calls| - 1], boots, policy, start), calls[|calls| - 1], boots, policy);
    }
  }

  /** A port that never returns the same instance, or the same host, twice. */
  ghost predicate Fresh(boots: Boots) {
    forall m: nat, n: nat :: m < n && boots(m).Booted? && boots(n).Booted? ==>
      boots(m).inst != boots(n).inst && boots(m).inst.host != boots(n).inst.host
  }

  lemma {:induction false} BootedFrom(boots: Boots, from: nat, to: nat, i: nat) returns (n: nat)
    requires i < |BootedIn(boots, from, to)|
    ensures from <= n < to && boots(n) == Booted(BootedIn(boots, from, to)[i], boots(n).ms)
  {
    var before := BootedIn(boots, from, to - 1);
    if i < |before| {
      n := BootedFrom(boots, from, to - 1, i);
    } else {
      n := to - 1;
    }
  }

  ghost predicate DistinctHosts(insts: seq<WarmInstance>) {
    forall i, j :: 0 <= i < j < |insts| ==> insts[i].host != insts[j].host
  }

  lemma {:induction false} BootedDistinct(boots: Boots, from: nat, to: nat)
    requires Fresh(boots)
    ensures DistinctHosts(BootedIn(boots, from, to))
  {
    if from < to {
      BootedDistinct(boots, from, to - 1);
      if boots(to - 1).Booted? {
        var front := BootedIn(boots, from, to - 1);
        forall i | 0 <= i < |front| ensures front[i].host != boots(to - 1).inst.host {
          var n := BootedFrom(boots, from, to - 1, i);
          assert boots(n).Booted?;
        }
      }
    }
  }

  /** With a fresh port no instance leaves the pool twice, or leaves it and stays ready. */
  lemma HandedOutOnce(calls: seq<Call>, boots: Boots, policy: Policy, start: int)
    requires Fresh(boots)
    ensures var r := RunOf(calls, boots, policy, start);
      DistinctHosts(Insts(r.exits) + r.pool.ready)
  {
    FirstInFirstOut(calls, boots, policy, start);
    BootedDistinct(boots, 0, RunOf(calls, boots, policy, start).pool.calls);
  }

  // ---- Counting ----

  function CountHits(exits: seq<Exit>): nat {
    if exits == [] then 0 else CountHits(exits[..|exits| - 1]) + (if exits[|exits| - 1].HitOut? then 1 else 0)
  }

  function CountMisses(exits: seq<Exit>): nat {
    if exits == [] then 0 else CountMisses(exits[..|exits| - 1]) + (if exits[|exits| - 1].MissOut? then 1 else 0)
  }

  function CountDropped(exits: seq<Exit>): nat {
    if exits == [] then 0 else CountDropped(exits[..|exits| - 1]) + (if exits[|exits| - 1].DroppedOut? then 1 else 0)
  }

  function CountRefused(answers: seq<Acquired>): nat {
    if answers == [] then 0 else CountRefused(answers[..|answers| - 1]) + (if answers[|answers| - 1].NoCompute? then 1 else 0)
  }

  lemma {:induction false} CountsAppend(exits: seq<Exit>, drop: seq<WarmInstance>)
    ensures var e := exits + DropAll(drop);
      && CountHits(e) == CountHits(exits) && CountMisses(e) == CountMisses(exits)
      && CountDropped(e) == CountDropped(exits) + |drop|
  {
    var e := exits + DropAll(drop);
    if drop == [] {
      assert e == exits;
    } else {
      var front := drop[..|drop| - 1];
      CountsAppend(exits, front);
      assert e[..|e| - 1] == exits + DropAll(front);
    }
  }

  lemma {:induction false} CountsSplit(exits: seq<Exit>)
    ensures |exits| == CountHits(exits) + CountMisses(exits) + CountDropped(exits)
  {
    if exits != [] {
      CountsSplit(exits[..|exits| - 1]);
    }
  }

  ghost predicate CountersAgree(r: Run) {
    && r.pool.hits == CountHits(r.exits) && r.pool.misses == CountMisses(r.exits)
    && |r.pool.recent| == r.pool.hits + r.pool.misses + CountRefused(r.answers)
  }

  lemma DoKeepsCounters(r: Run, c: Call, boots: Boots, policy: Policy)
    requires CountersAgree(r)
    ensures CountersAgree(Do(r, c, boots, policy))
  {
    match c
    case Drain => CountsAppend(r.exits, r.pool.ready);
    case Acquire(stamp, now) =>
      AcquireLaw(r.pool, boots, policy, stamp, now);
      CountOneMore(r.exits, AcquireFrom(r.pool, boots, policy, stamp, now).1, r.answers);
  }

  lemma CountOneMore(exits: seq<Exit>, a: Acquired, answers: seq<Acquired>)
    ensures var after := exits + match a { case Hit(i) => [HitOut(i)] case Miss(i, _) => [MissOut(i)] case NoCompute(_) => [] };
      && CountHits(after) == CountHits(exits) + (if a.Hit? then 1 else 0)
      && CountMisses(after) == CountMisses(exits) + (if a.Miss? then 1 else 0)
    ensures CountRefused(answers + [a]) == CountRefused(answers) + (if a.Ok() then 0 else 1)
  {
    assert (answers + [a])[..|answers|] == answers;
    match a
    case Hit(i) => assert (exits + [HitOut(i)])[..|exits|] == exits;
    case Miss(i, _) => assert (exits + [MissOut(i)])[..|exits|] == exits;
    case NoCompute(_) => assert exits + [] == exits;
  }

  lemma {:induction false} CountersAreExits(calls: seq<Call>, boots: Boots, policy: Policy, start: int)
    ensures CountersAgree(RunOf(calls, boots, policy, start))
  {
    if calls == [] {
      FillLaw(Pool([], 0, 0, [], 0), boots, policy(Demand([], start)));
    } else {
      CountersAreExits(calls[..|calls| - 1], boots, policy, start);
      DoKeepsCounters(RunOf(calls[..|calls| - 1], boots, policy, start), calls[|calls| - 1], boots, policy);
    }
  }

  /** Conservation: every successful boot is ready, was handed out, or was dropped; every Acquire left a timestamp. */
  lemma BootsConserved(calls: seq<Call>, boots: Boots, policy: Policy, start: int)
    ensures var r := RunOf(calls, boots, policy, start);
      && |BootedIn(boots, 0, r.pool.calls)| == |r.pool.ready| + r.pool.hits + r.pool.misses + CountDropped(r.exits)
      && |r.pool.recent| == r.pool.hits + r.pool.misses + CountRefused(r.answers)
  {
    var r := RunOf(calls, boots, policy, start);
    FirstInFirstOut(calls, boots, policy, start);
    CountersAreExits(calls, boots, policy, start);
    CountsSplit(r.exits);
  }

  // ---- The amortised bound on misses ----

  /** Boots that failed among the first n calls of the port. */
  function FailedBoots(boots: Boots, n: nat): nat {
    if n == 0 then 0 else FailedBoots(boots, n - 1) + (if boots(n - 1).BootFailed? then 1 else 0)
  }

  lemma {:induction false} FailuresAreTheRest(boots: Boots, from: nat, to: nat)
    requires from <= to
    ensures FailedBoots(boots, to) - FailedBoots(boots, from) == to - from - |BootedIn(boots, from, to)|
  {
    if from < to {
      FailuresAreTheRest(boots, from, to - 1);
    }
  }

  ghost predicate KeepsOne(policy: Policy) {
    forall n: nat :: policy(n) >= 1
  }

  function Dry(p: Pool): nat {
    if p.ready == [] then 1 else 0
  }

  lemma FillPays(p: Pool, boots: Boots, policy: Policy, now: int)
    requires KeepsOne(policy)
    ensures var q := Replenish(p, boots, policy, now);
      && Dry(q) <= FailedBoots(boots, q.calls) - FailedBoots(boots, p.calls)
      && q.misses == p.misses
  {
    FillLaw(p, boots, policy(Demand(p.recent, now)));
    FailuresAreTheRest(boots, p.calls, Replenish(p, boots, policy, now).calls);
  }

  ghost predicate Paid(r: Run, boots: Boots) {
    r.pool.misses + Dry(r.pool) <= r.drains + FailedBoots(boots, r.pool.calls)
  }

  lemma DoPays(r: Run, c: Call, boots: Boots, policy: Policy)
    requires KeepsOne(policy) && Paid(r, boots)
    ensures Paid(Do(r, c, boots, policy), boots)
  {
    match c
    case Drain =>
    case Acquire(stamp, now) =>
      var p1 := r.pool.(recent := r.pool.recent + [stamp]);
      if |p1.ready| > 0 {
        FillPays(p1.(ready := p1.ready[1..], hits := p1.hits + 1), boots, policy, now);
      } else if boots(p1.calls).Booted? {
        FillPays(p1.(misses := p1.misses + 1, calls := p1.calls + 1), boots, policy, now);
        assert FailedBoots(boots, p1.calls + 1) == FailedBoots(boots, p1.calls);
      }
  }

  /** Under any policy that keeps at least one instance, every miss and an empty pool
      are paid for by a Drain or a failed boot. */
  lemma {:induction false} MissesArePaid(calls: seq<Call>, boots: Boots, policy: Policy, start: int)
    requires KeepsOne(policy)
    ensures var r := RunOf(calls, boots, policy, start);
      r.pool.misses + Dry(r.pool) <= r.drains + FailedBoots(boots, r.pool.calls)
  {
    if calls == [] {
      FillPays(Pool([], 0, 0, [], 0), boots, policy, start);
    } else {
      MissesArePaid(calls[..|calls| - 1], boots, policy, start);
      DoPays(RunOf(calls[..|calls| - 1], boots, policy, start), calls[|calls| - 1], boots, policy);
    }
  }

  /** So without Drain and failed boots every Acquire is a hit with boot time 0. */
  lemma {:induction false} AlwaysWarm(calls: seq<Call>, boots: Boots, policy: Policy, start: int)
    requires KeepsOne(policy)
    requires forall c :: c in calls ==> c.Acquire?
    requires forall n: nat :: boots(n).Booted?
    ensures var r := RunOf(calls, boots, policy, start);
      && |r.answers| == |calls|
      && (forall a :: a in r.answers ==> a.Hit? && a.BootMs() == 0)
  {
    if calls != [] {
      var front := calls[..|calls| - 1];
      AlwaysWarm(front, boots, policy, start);
      var r := RunOf(front, boots, policy, start);
      NoDrains(front, boots, policy, start);
      MissesArePaid(front, boots, policy, start);
      NoFailures(boots, r.pool.calls);
    }
  }

  lemma {:induction false} NoDrains(calls: seq<Call>, boots: Boots, policy: Policy, start: int)
    requires forall c :: c in calls ==> c.Acquire?
    ensures RunOf(calls, boots, policy, start).drains == 0
  {
    if calls != [] {
      NoDrains(calls[..|calls| - 1], boots, policy, start);
    }
  }

  lemma {:induction false} NoFailures(boots: Boots, n: nat)
    requires forall n: nat :: boots(n).Booted?
    ensures FailedBoots(boots, n) == 0
  {
    if n > 0 {
      NoFailures(boots, n - 1);
    }
  }

  // ---- Sizing under the load-proportional policy ----

  /** The target lies in [min, max] and grows with demand. */
  lemma LoadTargetClamped(buffer: real, min: int, max: int, less: nat, more: nat)
    requires min <= max && buffer >= 0.0 && less <= more
    ensures min <= LoadTarget(buffer, min, max, less) <= LoadTarget(buffer, min, max, more) <= max
    ensures var wanted := (more as real * buffer).Floor;
      LoadTarget(buffer, min, max, more) == if wanted < min then min else if wanted > max then max else wanted
  {
    var x, y := less as real * buffer, more as real * buffer;
    assert 0.0 <= x <= y;
    assert x.Floor <= y.Floor;
  }

  /** A float becomes an int toward zero. */
  lemma TruncateTowardZero(x: real)
    ensures x >= 0.0 ==> Truncate(x) as real <= x < Truncate(x) as real + 1.0
    ensures x <= 0.0 ==> Truncate(x) as real - 1.0 < x <= Truncate(x) as real
  {
  }

  /** The target for any buffer and any bounds, contradictory ones included: max has the last word. */
  lemma LoadTargetExact(buffer: real, min: int, max: int, recent: nat)
    ensures var t, target := Truncate(recent as real * buffer), LoadTarget(buffer, min, max, recent);
      && (max < min ==> target == max)
      && (min <= max ==> min <= target <= max && (min <= t <= max ==> target == t) && (t < min ==> target == min) && (t > max ==> target == max))
  {
  }

  lemma AcquireFits(p: Pool, stamp: int, now: int, boots: Boots, policy: Policy, max: nat)
    requires (forall n: nat :: policy(n) <= max) && |p.ready| <= max
    ensures |AcquireFrom(p, boots, policy, stamp, now).0.ready| <= max
  {
    var p1 := p.(recent := p.recent + [stamp]);
    if |p1.ready| > 0 {
      var p2 := p1.(ready := p1.ready[1..], hits := p1.hits + 1);
      FillLaw(p2, boots, policy(Demand(p2.recent, now)));
    } else if boots(p1.calls).Booted? {
      var p2 := p1.(misses := p1.misses + 1, calls := p1.calls + 1);
      FillLaw(p2, boots, policy(Demand(p2.recent, now)));
    }
  }

  /** The ready list never grows past the policy's greatest target. */
  lemma {:induction false} NeverOverfull(calls: seq<Call>, boots: Boots, policy: Policy, start: int, max: nat)
    requires forall n: nat :: policy(n) <= max
    ensures |RunOf(calls, boots, policy, start).pool.ready| <= max
  {
    if calls == [] {
      FillLaw(Pool([], 0, 0, [], 0), boots, policy(Demand([], start)));
    } else {
      var c := calls[|calls| - 1];
      NeverOverfull(calls[..|calls| - 1], boots, policy, start, max);
      if c.Acquire? {
        AcquireFits(RunOf(calls[..|calls| - 1], boots, policy, start).pool, c.stamp, c.now, boots, policy, max);
      }
    }
  }

  /** After an Acquire none of whose boots failed the list has exactly the larger of
      what was left and the target; it only shrinks by the instance handed out. */
  lemma AcquireRefills(p: Pool, boots: Boots, policy: Policy, stamp: int, now: int)
    ensures var (q, a) := AcquireFrom(p, boots, policy, stamp, now);
      var target := policy(Demand(p.recent + [stamp], now));
      var left := if a.Hit? then |p.ready| - 1 else |p.ready|;
      && |q.ready| >= left
      && (FailedBoots(boots, q.calls) == FailedBoots(boots, p.calls) ==>
            a.Ok() && |q.ready| == if target > left then target else left)
  {
    var (q, a) := AcquireFrom(p, boots, policy, stamp, now);
    var p1 := p.(recent := p.recent + [stamp]);
    AcquireLaw(p, boots, policy, stamp, now);
    FailuresAreTheRest(boots, p.calls, q.calls);
    if |p1.ready| > 0 {
      FillLaw(p1.(ready := p1.ready[1..], hits := p1.hits + 1), boots, policy(Demand(p1.recent, now)));
    } else if boots(p1.calls).Booted? {
      FillLaw(p1.(misses := p1.misses + 1, calls := p1.calls + 1), boots, policy(Demand(p1.recent, now)));
    }
  }

  /** Under every load-proportional policy the list never exceeds max, and with min and max at least 1 its runs
      pay for every miss. */
  lemma LoadPolicyBounds(calls: seq<Call>, boots: Boots, start: int, buffer: real, min: int, max: int)
    ensures var r := RunOf(calls, boots, LoadProportionalPolicy(buffer, min, max), start);
      && |r.pool.ready| <= (if max < 0 then 0 else max)
      && (min >= 1 && max >= 1 ==> r.pool.misses + Dry(r.pool) <= r.drains + FailedBoots(boots, r.pool.calls))
  {
    var policy := LoadProportionalPolicy(buffer, min, max);
    NeverOverfull(calls, boots, policy, start, if max < 0 then 0 else max);
    if min >= 1 && max >= 1 {
      MissesArePaid(calls, boots, policy, start);
    }
  }

  /** So a new application's pool, between 2 and 64 with a half as much again as the last minute's demand,
      pays for every miss and never holds more than 64. */
  lemma ShippedPolicyBounds(calls: seq<Call>, boots: Boots, start: int)
    ensures var r := RunOf(calls, boots, LoadProportionalPolicy(1.5, 2, 64), start);
      && r.pool.misses + Dry(r.pool) <= r.drains + FailedBoots(boots, r.pool.calls)
      && |r.pool.ready| <= 64
  {
    LoadPolicyBounds(calls, boots, start, 1.5, 2, 64);
  }

  /** The fixed policy keeps the same promises for its one target. */
  lemma FixedPolicyBounds(calls: seq<Call>, boots: Boots, start: int, n: nat)
    requires n >= 1
    ensures var r := RunOf(calls, boots, FixedPolicy(n), start);
      && r.pool.misses + Dry(r.pool) <= r.drains + FailedBoots(boots, r.pool.calls)
      && |r.pool.ready| <= n
  {
    MissesArePaid(calls, boots, FixedPolicy(n), start);
    NeverOverfull(calls, boots, FixedPolicy(n), start, n);
  }

  // ---- The demand window ----

  predicate Sorted(stamps: seq<int>) {
    forall i, j :: 0 <= i < j < |stamps| ==> stamps[i] <= stamps[j]
  }

  /** The calls read a clock that never goes back, from time `t` on. */
  predicate ClockRuns(calls: seq<Call>, t: int) {
    calls == [] ||
    (match calls[0]
     case Drain => ClockRuns(calls[1..], t)
     case Acquire(stamp, now) => t <= stamp <= now && ClockRuns(calls[1..], now))
  }

  /** On a sorted list the counting loop returns the length of the suffix younger than a minute. */
  lemma {:induction false} DemandIsSuffix(stamps: seq<int>, now: int)
    requires Sorted(stamps)
    ensures Demand(stamps, now) <= |stamps|
    ensures forall i :: 0 <= i < |stamps| ==> (stamps[i] > now - MINUTE <==> i >= |stamps| - Demand(stamps, now))
  {
    if stamps != [] {
      DemandIsSuffix(stamps[..|stamps| - 1], now);
    }
  }

  /** The last reading of the clock. */
  function LastReading(calls: seq<Call>, t: int): int {
    if calls == [] then t
    else LastReading(calls[1..], if calls[0].Acquire? then calls[0].now else t)
  }

  /** A running clock runs up to the last call, which reads it then. */
  lemma {:induction false} ClockRunsOn(calls: seq<Call>, c: Call, t: int)
    requires ClockRuns(calls + [c], t)
    ensures ClockRuns(calls, t)
    ensures c.Acquire? ==> LastReading(calls, t) <= c.stamp <= c.now == LastReading(calls + [c], t)
    ensures c.Drain? ==> LastReading(calls + [c], t) == LastReading(calls, t)
  {
    if calls != [] {
      assert (calls + [c])[1..] == calls[1..] + [c];
      ClockRunsOn(calls[1..], c, if calls[0].Acquire? then calls[0].now else t);
    }
  }

  /** With a clock that never goes back the stamps of every pool stay sorted, none later than the last reading. */
  lemma {:induction false} RecentStaysSorted(calls: seq<Call>, boots: Boots, policy: Policy, start: int)
    requires ClockRuns(calls, start)
    ensures var recent := RunOf(calls, boots, policy, start).pool.recent;
      Sorted(recent) && forall i :: 0 <= i < |recent| ==> recent[i] <= LastReading(calls, start)
  {
    if calls == [] {
      FillLaw(Pool([], 0, 0, [], 0), boots, policy(Demand([], start)));
    } else {
      var front, c := calls[..|calls| - 1], calls[|calls| - 1];
      assert front + [c] == calls;
      ClockRunsOn(front, c, start);
      RecentStaysSorted(front, boots, policy, start);
      if c.Acquire? {
        AcquireLaw(RunOf(front, boots, policy, start).pool, boots, policy, c.stamp, c.now);
      }
    }
  }

  /** So in every run the counting loop returns the length of the suffix of its stamps younger than a minute. */
  lemma DemandOfRun(calls: seq<Call>, boots: Boots, policy: Policy, start: int, now: int)
    requires ClockRuns(calls, start)
    ensures var recent := RunOf(calls, boots, policy, start).pool.recent;
      var n := Demand(recent, now);
      n <= |recent| && forall i :: 0 <= i < |recent| ==> (recent[i] > now - 60_000_000_000 <==> i >= |recent| - n)
  {
    RecentStaysSorted(calls, boots, policy, start);
    DemandIsSuffix(RunOf(calls, boots, policy, start).pool.recent, now);
  }

  /** The stamps later than `cutoff`, in order. */
  function Younger(stamps: seq<int>, cutoff: int): seq<int> {
    if stamps == [] then []
    else
      var front := Younger(stamps[..|stamps| - 1], cutoff);
      if stamps[|stamps| - 1] > cutoff then front + [stamps[|stamps| - 1]] else front
  }

  lemma Appended(stamps: seq<int>, stamp: int, now: int, cutoff: int)
    ensures Demand(stamps + [stamp], now) == Demand(stamps, now) + (if stamp > now - MINUTE then 1 else 0)
    ensures Younger(stamps + [stamp], cutoff) == if stamp > cutoff then Younger(stamps, cutoff) + [stamp] else Younger(stamps, cutoff)
  {
  }

  lemma {:induction false} DemandReadsYounger(stamps: seq<int>, now: int, cutoff: int)
    requires cutoff <= now - MINUTE
    ensures Demand(stamps, now) == Demand(Younger(stamps, cutoff), now)
  {
    if stamps != [] {
      DemandReadsYounger(stamps[..|stamps| - 1], now, cutoff);
      Appended(Younger(stamps[..|stamps| - 1], cutoff), stamps[|stamps| - 1], now, cutoff);
    }
  }

  lemma {:induction false} YoungerAgain(stamps: seq<int>, early: int, late: int)
    requires early <= late
    ensures Younger(Younger(stamps, early), late) == Younger(stamps, late)
  {
    if stamps != [] {
      YoungerAgain(stamps[..|stamps| - 1], early, late);
      Appended(Younger(stamps[..|stamps| - 1], early), stamps[|stamps| - 1], 0, late);
    }
  }

  /** Two pools alike up to stamps that are at least a minute old at time `t`. */
  predicate Alike(p: Pool, q: Pool, t: int) {
    p.(recent := []) == q.(recent := []) && Younger(p.recent, t - MINUTE) == Younger(q.recent, t - MINUTE)
  }

  lemma YoungerDecides(a: seq<int>, b: seq<int>, t: int, u: int)
    requires Younger(a, t - MINUTE) == Younger(b, t - MINUTE) && t <= u
    ensures Younger(a, u - MINUTE) == Younger(b, u - MINUTE) && Demand(a, u) == Demand(b, u)
  {
    YoungerAgain(a, t - MINUTE, u - MINUTE);
    YoungerAgain(b, t - MINUTE, u - MINUTE);
    DemandReadsYounger(a, u, t - MINUTE);
    DemandReadsYounger(b, u, t - MINUTE);
  }

  lemma AlikeLater(p: Pool, q: Pool, t: int, u: int)
    requires Alike(p, q, t) && t <= u
    ensures Alike(p, q, u) && Demand(p.recent, u) == Demand(q.recent, u)
  {
    YoungerDecides(p.recent, q.recent, t, u);
  }

  lemma StampAlike(p: Pool, q: Pool, t: int, stamp: int)
    requires Alike(p, q, t)
    ensures Alike(p.(recent := p.recent + [stamp]), q.(recent := q.recent + [stamp]), t)
  {
  }

  lemma FillAlike(p: Pool, q: Pool, boots: Boots, target: int, t: int)
    requires Alike(p, q, t)
    ensures Alike(Fill(p, boots, target), Fill(q, boots, target), t)
  {
    FillLaw(p, boots, target);
    FillLaw(q, boots, target);
    FillIgnoresStamps(p, boots, target, q.recent);
    assert q == p.(recent := q.recent);
  }

  lemma {:induction false} FillIgnoresStamps(p: Pool, boots: Boots, target: int, stamps: seq<int>)
    ensures Fill(p.(recent := stamps), boots, target) == Fill(p, boots, target).(recent := stamps)
    decreases target - |p.ready|
  {
    if |p.ready| < target && boots(p.calls).Booted? {
      FillIgnoresStamps(p.(ready := p.ready + [boots(p.calls).inst], calls := p.calls + 1), boots, target, stamps);
    }
  }

  lemma AcquireAlike(p: Pool, q: Pool, boots: Boots, policy: Policy, t: int, stamp: int, now: int)
    requires Alike(p, q, t) && t <= stamp <= now
    ensures var (p', a) := AcquireFrom(p, boots, policy, stamp, now);
      var (q', b) := AcquireFrom(q, boots, policy, stamp, now);
      a == b && Alike(p', q', now)
  {
    StampAlike(p, q, t, stamp);
    var p1 := p.(recent := p.recent + [stamp]);
    var q1 := q.(recent := q.recent + [stamp]);
    AlikeLater(p1, q1, t, now);
    var target := policy(Demand(p1.recent, now));
    if |p1.ready| > 0 {
      FillAlike(p1.(ready := p1.ready[1..], hits := p1.hits + 1), q1.(ready := q1.ready[1..], hits := q1.hits + 1), boots, target, now);
    } else if boots(p1.calls).Booted? {
      FillAlike(p1.(misses := p1.misses + 1, calls := p1.calls + 1), q1.(misses := q1.misses + 1, calls := q1.calls + 1), boots, target, now);
    }
  }

  datatype Seen = Emptied | Answered(a: Acquired, size: nat, boots: nat)

  /** What is seen of a call sequence: the answers, the sizes, and how many times the port has been called. */
  function Observe(p: Pool, calls: seq<Call>, boots: Boots, policy: Policy): seq<Seen>
    decreases |calls|
  {
    if calls == [] then []
    else match calls[0]
      case Drain => [Emptied] + Observe(Drained(p), calls[1..], boots, policy)
      case Acquire(stamp, now) =>
        var (q, a) := AcquireFrom(p, boots, policy, stamp, now);
        [Answered(a, |q.ready|, q.calls)] + Observe(q, calls[1..], boots, policy)
  }

  /** Alike pools answer every later call alike, and stay alike in size and in the boots they ask for. */
  lemma {:induction false} AlikeBehave(p: Pool, q: Pool, calls: seq<Call>, boots: Boots, policy: Policy, t: int)
    requires Alike(p, q, t) && ClockRuns(calls, t)
    ensures Observe(p, calls, boots, policy) == Observe(q, calls, boots, policy)
    decreases |calls|
  {
    if calls != [] {
      match calls[0]
      case Drain => AlikeBehave(Drained(p), Drained(q), calls[1..], boots, policy, t);
      case Acquire(stamp, now) =>
        AcquireAlike(p, q, boots, policy, t, stamp, now);
        AlikeBehave(AcquireFrom(p, boots, policy, stamp, now).0, AcquireFrom(q, boots, policy, stamp, now).0, calls[1..], boots, policy, now);
    }
  }

  /** So pruning the ever-growing list at any moment would be invisible. */
  lemma PruningIsInvisible(p: Pool, calls: seq<Call>, boots: Boots, policy: Policy, t: int)
    requires ClockRuns(calls, t)
    ensures var pruned := p.(recent := Younger(p.recent, t - MINUTE));
      Observe(p, calls, boots, policy) == Observe(pruned, calls, boots, policy)
  {
    YoungerAgain(p.recent, t - MINUTE, t - MINUTE);
    AlikeBehave(p, p.(recent := Younger(p.recent, t - MINUTE)), calls, boots, policy, t);
  }
}
