/** The warm pool: instances booted ahead of demand, handed out first in, first out. */
module WarmPools {

  /** Clock readings are in nanoseconds. */
  const MINUTE: int := 60_000_000_000

  datatype WarmInstance = WarmInstance(id: string, host: string)

  datatype BootResult =
    | Booted(inst: WarmInstance, ms: int)
    | BootFailed(ms: int)

  /** The storage port seen from the pool: the outcome of its n-th BootInstance call. */
  type Boots = nat -> BootResult

  /** A pool policy: how many instances to keep ready, given the recent demand. */
  type Policy = nat -> int

  function FixedPolicy(n: int): Policy {
    (recent: nat) => n
  }

  /** Conversion of a float to an int drops the fraction, toward zero. */
  function Truncate(x: real): int {
    if x >= 0.0 then x.Floor else -((-x).Floor)
  }

  function LoadTarget(buffer: real, min: int, max: int, recent: nat): int {
    var t := Truncate(recent as real * buffer);
    var raised := if t < min then min else t;
    if raised > max then max else raised
  }

  function LoadProportionalPolicy(buffer: real, min: int, max: int): Policy {
    (recent: nat) => LoadTarget(buffer, min, max, recent)
  }

  // ---- The pool as a value ----

  /** `calls` counts the BootInstance calls made so far: the position in the port's outcomes. */
  datatype Pool = Pool(ready: seq<WarmInstance>, hits: nat, misses: nat, recent: seq<int>, calls: nat)

  /** Acquires stamped later than one minute before `now`. */
  function Demand(stamps: seq<int>, now: int): nat {
    if stamps == [] then 0
    else Demand(stamps[..|stamps| - 1], now) + (if stamps[|stamps| - 1] > now - MINUTE then 1 else 0)
  }

  /** The number of stamps of the last sixty seconds. */
  lemma {:induction false} DemandCounts(stamps: seq<int>, now: int)
    ensures Demand(stamps, now) == |set i | 0 <= i < |stamps| && stamps[i] > now - 60_000_000_000|
  {
    if stamps != [] {
      var n := |stamps| - 1;
      DemandCounts(stamps[..n], now);
      var before := set i | 0 <= i < n && stamps[..n][i] > now - 60_000_000_000;
      assert (set i | 0 <= i < |stamps| && stamps[i] > now - 60_000_000_000)
        == before + if stamps[n] > now - 60_000_000_000 then {n} else {};
    }
  }

  /** Boots until `target` instances are ready or a boot fails. */
  function Fill(p: Pool, boots: Boots, target: int): Pool
    decreases target - |p.ready|
  {
    if |p.ready| >= target then p
    else match boots(p.calls)
      case Booted(inst, _) => Fill(p.(ready := p.ready + [inst], calls := p.calls + 1), boots, target)
      case BootFailed(_) => p.(calls := p.calls + 1)
  }

  function Replenish(p: Pool, boots: Boots, policy: Policy, now: int): Pool {
    Fill(p, boots, policy(Demand(p.recent, now)))
  }

  datatype Acquired =
    | Hit(inst: WarmInstance)
    | Miss(inst: WarmInstance, ms: int)
    | NoCompute(ms: int)
  {
    predicate Ok() { !NoCompute? }

    /** The boot time reported to the caller. */
    function BootMs(): int {
      match this
      case Hit(_) => 0
      case Miss(_, ms) => ms
      case NoCompute(ms) => ms
    }
  }

  function NewPool(boots: Boots, policy: Policy, now: int): Pool {
    Replenish(Pool([], 0, 0, [], 0), boots, policy, now)
  }

  /** One Acquire: stamped at `stamp`, its demand window read at `now`. */
  function AcquireFrom(p: Pool, boots: Boots, policy: Policy, stamp: int, now: int): (Pool, Acquired) {
    var p := p.(recent := p.recent + [stamp]);
    if |p.ready| > 0 then
      (Replenish(p.(ready := p.ready[1..], hits := p.hits + 1), boots, policy, now), Hit(p.ready[0]))
    else match boots(p.calls)
      case BootFailed(ms) => (p.(calls := p.calls + 1), NoCompute(ms))
      case Booted(inst, ms) =>
        (Replenish(p.(misses := p.misses + 1, calls := p.calls + 1), boots, policy, now), Miss(inst, ms))
  }

  function Drained(p: Pool): Pool {
    p.(ready := [])
  }

  /** The instances booted by calls `from` up to `to`, in boot order. */
  function BootedIn(boots: Boots, from: nat, to: nat): seq<WarmInstance> {
    if from >= to then []
    else BootedIn(boots, from, to - 1) + (if boots(to - 1).Booted? then [boots(to - 1).inst] else [])
  }

  predicate Gave(boots: Boots, n: nat, inst: WarmInstance) {
    boots(n).Booted? && boots(n).inst == inst
  }

  /** The list has grown by what the port's calls from number `from` on booted, in order. */
  predicate Grown(boots: Boots, before: seq<WarmInstance>, after: seq<WarmInstance>, from: nat) {
    && before <= after
    && (forall i :: |before| <= i < |after| ==> Gave(boots, from + i - |before|, after[i]))
  }

  lemma GrownMore(boots: Boots, before: seq<WarmInstance>, after: seq<WarmInstance>, from: nat, r: BootResult)
    requires Grown(boots, before, after, from) && r.Booted? && boots(from + |after| - |before|) == r
    ensures Grown(boots, before, after + [r.inst], from)
  {
    var more := after + [r.inst];
    forall i | |before| <= i < |more| ensures Gave(boots, from + i - |before|, more[i]) {
      if i < |after| {
        assert more[i] == after[i];
      } else {
        assert from + i - |before| == from + |after| - |before|;
      }
    }
  }

  /** It has grown until it had `target` instances or a boot failed; `to` numbers the next call. */
  predicate Filled(boots: Boots, before: seq<WarmInstance>, after: seq<WarmInstance>, from: nat, to: nat, target: int) {
    && Grown(boots, before, after, from)
    && (after == before || |after| <= target)
    && var grown := |after| - |before|;
      if |after| >= target then to == from + grown else to == from + grown + 1 && boots(from + grown).BootFailed?
  }

  // ---- The pool as an object ----

  /** The storage port: every call returns the next of its outcomes. */
  class BootPort {
    const boots: Boots
    var calls: nat

    constructor (boots: Boots)
      ensures this.boots == boots && calls == 0
    {
      this.boots := boots;
      calls := 0;
    }

    method BootInstance() returns (r: BootResult)
      modifies this
      ensures r == boots(old(calls)) && calls == old(calls) + 1
    {
      r := boots(calls);
      calls := calls + 1;
    }
  }

  class WarmPool {
    var ready: seq<WarmInstance>
    const storage: BootPort
    const policy: Policy
    var hits: nat
    var misses: nat
    var recent: seq<int>

    ghost function View(): Pool
      reads this, storage
    {
      Pool(ready, hits, misses, recent, storage.calls)
    }

    constructor (storage: BootPort, policy: Policy, now: int)
      requires storage.calls == 0
      modifies storage
      ensures this.storage == storage && this.policy == policy
      ensures hits == 0 && misses == 0 && recent == [] && Filled(storage.boots, [], ready, 0, storage.calls, policy(0))
      ensures View() == NewPool(storage.boots, policy, now)
    {
      this.storage := storage;
      this.policy := policy;
      ready, hits, misses, recent := [], 0, 0, [];
      new;
      ReplenishLocked(now);
    }

    method RecentAcquiresLocked(now: int) returns (n: nat)
      ensures n == Demand(recent, now) == |set i | 0 <= i < |recent| && recent[i] > now - 60_000_000_000|
    {
      var cutoff := now - MINUTE;
      n := 0;
      for i := 0 to |recent|
        invariant n == Demand(recent[..i], now)
      {
        assert recent[..i + 1][..i] == recent[..i];
        if recent[i] > cutoff {
          n := n + 1;
        }
      }
      assert recent[..|recent|] == recent;
      DemandCounts(recent, now);
    }

    method ReplenishLocked(now: int)
      modifies this`ready, storage
      ensures Filled(storage.boots, old(ready), ready, old(storage.calls), storage.calls, policy(Demand(recent, now)))
      ensures View() == Replenish(old(View()), storage.boots, policy, now)
    {
      var demand := RecentAcquiresLocked(now);
      var target := policy(demand);
      while |ready| < target
        invariant storage.calls == old(storage.calls) + |ready| - |old(ready)|
        invariant |ready| == |old(ready)| || |ready| <= target
        invariant Grown(storage.boots, old(ready), ready, old(storage.calls))
        invariant Fill(View(), storage.boots, target) == Replenish(old(View()), storage.boots, policy, now)
        decreases target - |ready|
      {
        ghost var before := ready;
        var r := storage.BootInstance();
        if r.BootFailed? {
          return;
        }
        ready := ready + [r.inst];
        GrownMore(storage.boots, old(ready), before, old(storage.calls), r);
      }
    }

    method Acquire(stamp: int, now: int) returns (a: Acquired)
      modifies this, storage
      ensures old(ready) != [] ==> a == Hit(old(ready)[0]) && hits == old(hits) + 1 && misses == old(misses)
      ensures old(ready) == [] ==> hits == old(hits) && match storage.boots(old(storage.calls)) {
        case Booted(inst, ms) => a == Miss(inst, ms) && misses == old(misses) + 1
        case BootFailed(ms) => a == NoCompute(ms) && misses == old(misses) && ready == [] && storage.calls == old(storage.calls) + 1
      }
      ensures recent == old(recent) + [stamp]
      ensures (View(), a) == AcquireFrom(old(View()), storage.boots, policy, stamp, now)
    {
      recent := recent + [stamp];
      if |ready| > 0 {
        a := Hit(ready[0]);
        ready := ready[1..];
        hits := hits + 1;
        ReplenishLocked(now);
        return;
      }
      var r := storage.BootInstance();
      if r.BootFailed? {
        return NoCompute(r.ms);
      }
      misses := misses + 1;
      ReplenishLocked(now);
      a := Miss(r.inst, r.ms);
    }

    method Drain()
      modifies this`ready
      ensures ready == []
      ensures View() == Drained(old(View()))
    {
      ready := [];
    }
  }
}
