/** Compute exclusivity: every booted instance is in exactly one place. */
module Places {
  import opened Model
  import opened WarmPools
  import opened PoolLaws
  import opened Stores
  import opened Routing
  import opened ControlPlane
  import Ledger

  // ---- Who holds what ----

  predicate JobHolds(j: Job) {
    j.pc.EpAttach? || j.pc.EpCredential? || j.pc.EpPut? || j.pc.EpActivate? || j.pc.EpRegister?
  }

  predicate ResolveHolds(r: Resolve) {
    r.pc.WAttach? || r.pc.WActivate? || r.pc.WAddr?
  }

  function HeldHost(holding: bool, a: Acquired): Option<string> {
    if holding && a.Ok() then Some(a.inst.host) else None
  }

  /** The host a call in flight holds in its locals. */
  function HostHeldBy(jobs: map<Id, Job>, resolves: map<nat, Resolve>, c: Caller): Option<string> {
    match c
    case ByJob(op) => if op in jobs then HeldHost(JobHolds(jobs[op]), jobs[op].got) else None
    case ByResolve(n) => if n in resolves then HeldHost(ResolveHolds(resolves[n]), resolves[n].got) else None
  }

  ghost function Holdings(jobs: map<Id, Job>, resolves: map<nat, Resolve>): imap<Caller, string> {
    imap c: Caller | HostHeldBy(jobs, resolves, c).Some? :: HostHeldBy(jobs, resolves, c).value
  }

  function Addrs(cells: seq<Route>): (addrs: seq<string>)
    ensures |addrs| == |cells| && forall i :: 0 <= i < |cells| ==> addrs[i] == cells[i].addr
  {
    seq(|cells|, i requires 0 <= i < |cells| => cells[i].addr)
  }

  ghost function Hosts(insts: seq<WarmInstance>): set<string> {
    set i | i in insts :: i.host
  }

  // ---- The invariant ----

  ghost predicate PlaceOk(h: string, p: Place, ready: seq<WarmInstance>, holds: imap<Caller, string>, addrs: seq<string>) {
    match p
    case Ready => h in Hosts(ready)
    case Held(c) => c in holds && holds[c] == h
    case Routed(ref) => ref < |addrs| && addrs[ref] == h
    case Retired(ref) => ref < |addrs|
    case Stranded => true
    case Dropped => true
  }

  /** The place map and the real state say the same, in both directions. */
  ghost predicate Whole(place: map<string, Place>, ready: seq<WarmInstance>, holds: imap<Caller, string>, addrs: seq<string>) {
    && DistinctHosts(ready)
    && (forall h :: h in Hosts(ready) ==> h in place && place[h] == Ready)
    && (forall c :: c in holds ==> holds[c] in place && place[holds[c]] == Held(c))
    && (forall r :: 0 <= r < |addrs| ==> addrs[r] in place && place[addrs[r]] == Routed(r))
    && (forall h :: h in place ==> PlaceOk(h, place[h], ready, holds, addrs))
  }

  ghost predicate Known(w: World, pool: Pool, place: map<string, Place>) {
    place.Keys == Hosts(BootedIn(w.boots, 0, pool.calls))
  }

  /** A call at a step that uses its instance has one. */
  ghost predicate Equipped(jobs: map<Id, Job>, resolves: map<nat, Resolve>) {
    && (forall op :: op in jobs && JobHolds(jobs[op]) ==> jobs[op].got.Ok())
    && (forall c :: c in resolves && (ResolveHolds(resolves[c]) || resolves[c].pc.WState?) ==> resolves[c].got.Ok())
  }

  ghost predicate Inv(w: World, s: State) {
    && Whole(s.place, s.pool.ready, Holdings(s.jobs, s.resolves), Addrs(s.reg.cells))
    && Known(w, s.pool, s.place)
    && Equipped(s.jobs, s.resolves)
  }

  // ---- The five ways places change ----

  lemma HostsJoin(a: seq<WarmInstance>, b: seq<WarmInstance>)
    ensures Hosts(a + b) == Hosts(a) + Hosts(b)
  {
  }

  lemma HeadAndTail(all: seq<WarmInstance>)
    requires DistinctHosts(all) && all != []
    ensures DistinctHosts(all[1..]) && all[0].host !in Hosts(all[1..])
    ensures {all[0].host} + Hosts(all[1..]) == Hosts(all)
  {
  }

  lemma PutReadyAt(place: map<string, Place>, ready: seq<WarmInstance>)
    ensures PutReady(place, ready).Keys == place.Keys + Hosts(ready)
    ensures forall h :: h in Hosts(ready) ==> PutReady(place, ready)[h] == Ready
    ensures forall h :: h in place && h !in Hosts(ready) ==> PutReady(place, ready)[h] == place[h]
  {
  }

  /** Where hosts are after `h0` was taken from `all`, leaving `left`: what neither names stays. */
  ghost predicate Taken(place: map<string, Place>, place': map<string, Place>, all: set<string>, left: set<string>, h0: string, c: Caller) {
    && all == {h0} + left && h0 !in left
    && place'.Keys == place.Keys + all && place'[h0] == Held(c)
    && (forall h :: h in left ==> place'[h] == Ready)
    && (forall h :: h in place && h !in all ==> place'[h] == place[h])
  }

  lemma HandOutAt(place: map<string, Place>, ready: seq<WarmInstance>, a: Acquired, c: Caller)
    requires a.Ok() && a.inst.host !in Hosts(ready)
    ensures Taken(place, HandOut(place, ready, a, c), {a.inst.host} + Hosts(ready), Hosts(ready), a.inst.host, c)
  {
  }

  lemma TakenKeeps(place: map<string, Place>, place': map<string, Place>, ready: seq<WarmInstance>, booted: set<string>,
                   ready': seq<WarmInstance>, h0: string, c: Caller, holds: imap<Caller, string>, addrs: seq<string>)
    requires Whole(place, ready, holds, addrs) && c !in holds && booted !! place.Keys && DistinctHosts(ready')
    requires Taken(place, place', Hosts(ready) + booted, Hosts(ready'), h0, c)
    ensures Whole(place', ready', holds[c := h0], addrs) && place'.Keys == place.Keys + booted
  {
  }

  /** The places of an Acquire: one of the old list and the new boots goes to the caller, the rest are ready. */
  lemma HandOutKeeps(place: map<string, Place>, ready: seq<WarmInstance>, booted: set<string>, ready': seq<WarmInstance>,
                     a: Acquired, c: Caller, holds: imap<Caller, string>, addrs: seq<string>)
    requires Whole(place, ready, holds, addrs) && c !in holds
    requires a.Ok() && DistinctHosts(ready') && a.inst.host !in Hosts(ready')
    requires {a.inst.host} + Hosts(ready') == Hosts(ready) + booted && booted !! place.Keys
    ensures Whole(HandOut(place, ready', a, c), ready', holds[c := a.inst.host], addrs)
    ensures HandOut(place, ready', a, c).Keys == place.Keys + booted
  {
    HandOutAt(place, ready', a, c);
    TakenKeeps(place, HandOut(place, ready', a, c), ready, booted, ready', a.inst.host, c, holds, addrs);
  }

  lemma StrandKeeps(place: map<string, Place>, ready: seq<WarmInstance>, a: Acquired, c: Caller, holds: imap<Caller, string>, addrs: seq<string>)
    requires Whole(place, ready, holds, addrs)
    requires a.Ok() && c in holds && holds[c] == a.inst.host
    ensures Whole(Strand(place, a), ready, holds - {c}, addrs)
    ensures Strand(place, a).Keys == place.Keys
  {
  }

  lemma RouteKeeps(place: map<string, Place>, ready: seq<WarmInstance>, c: Caller, holds: imap<Caller, string>, addrs: seq<string>)
    requires Whole(place, ready, holds, addrs)
    requires c in holds
    ensures Whole(place[holds[c] := Routed(|addrs|)], ready, holds - {c}, addrs + [holds[c]])
    ensures place[holds[c] := Routed(|addrs|)].Keys == place.Keys
  {
  }

  lemma RerouteKeeps(place: map<string, Place>, ready: seq<WarmInstance>, c: Caller, holds: imap<Caller, string>, addrs: seq<string>, ref: nat)
    requires Whole(place, ready, holds, addrs)
    requires c in holds && ref < |addrs|
    ensures var place' := place[addrs[ref] := Retired(ref)][holds[c] := Routed(ref)];
      Whole(place', ready, holds - {c}, addrs[ref := holds[c]]) && place'.Keys == place.Keys
  {
  }

  lemma DrainKeeps(place: map<string, Place>, ready: seq<WarmInstance>, holds: imap<Caller, string>, addrs: seq<string>)
    requires Whole(place, ready, holds, addrs)
    ensures Whole(PutDropped(place, ready), [], holds, addrs)
    ensures PutDropped(place, ready).Keys == place.Keys
  {
  }

  // ---- Acquire ----

  lemma AcquireKeeps(w: World, pool: Pool, place: map<string, Place>, holds: imap<Caller, string>, addrs: seq<string>, c: Caller, luck: Luck)
    requires Fresh(w.boots)
    requires Whole(place, pool.ready, holds, addrs) && Known(w, pool, place) && c !in holds
    ensures var (q, a) := AcquireFrom(pool, w.boots, w.policy, luck.stamp, luck.now);
      && Whole(HandOut(place, q.ready, a, c), q.ready, if a.Ok() then holds[c := a.inst.host] else holds, addrs)
      && Known(w, q, HandOut(place, q.ready, a, c))
  {
    var (q, a) := AcquireFrom(pool, w.boots, w.policy, luck.stamp, luck.now);
    AcquireLaw(pool, w.boots, w.policy, luck.stamp, luck.now);
    var past, booted := BootedIn(w.boots, 0, pool.calls), BootedIn(w.boots, pool.calls, q.calls);
    BootedInJoins(w.boots, 0, pool.calls, q.calls);
    HostsJoin(past, booted);
    if a.Ok() {
      BootedDistinct(w.boots, 0, q.calls);
      NewBootsUnplaced(past, booted, pool.ready);
      var all := pool.ready + booted;
      assert all[0] == a.inst && all[1..] == q.ready;
      HeadAndTail(all);
      HostsJoin(pool.ready, booted);
      HandOutKeeps(place, pool.ready, Hosts(booted), q.ready, a, c, holds, addrs);
    }
  }

  /** What is booted now is different from everything booted before, the ready list included. */
  lemma NewBootsUnplaced(past: seq<WarmInstance>, booted: seq<WarmInstance>, ready: seq<WarmInstance>)
    requires DistinctHosts(past + booted)
    requires DistinctHosts(ready) && Hosts(ready) <= Hosts(past)
    ensures Hosts(booted) !! Hosts(past)
    ensures DistinctHosts(ready + booted)
  {
    var all := past + booted;
    forall i, j | 0 <= i < |past| && 0 <= j < |booted| ensures past[i].host != booted[j].host {
      assert all[i] == past[i] && all[|past| + j] == booted[j];
    }
    forall i, j | 0 <= i < j < |ready + booted| ensures (ready + booted)[i].host != (ready + booted)[j].host {
      if j >= |ready| {
        if i < |ready| {
          assert ready[i].host in Hosts(ready);
        } else {
          assert all[|past| + i - |ready|] == booted[i - |ready|];
          assert all[|past| + j - |ready|] == booted[j - |ready|];
        }
      }
    }
  }

  // ---- Steps ----

  /** The holdings after one caller changed its locals. */
  ghost function Reheld(holds: imap<Caller, string>, c: Caller, h: Option<string>): imap<Caller, string> {
    if h.Some? then holds[c := h.value] else holds - {c}
  }

  lemma JobReheld(jobs: map<Id, Job>, resolves: map<nat, Resolve>, op: Id, j: Job)
    ensures Holdings(jobs[op := j], resolves) == Reheld(Holdings(jobs, resolves), ByJob(op), HeldHost(JobHolds(j), j.got))
  {
    var jobs' := jobs[op := j];
    assert forall c: Caller :: c != ByJob(op) ==> HostHeldBy(jobs', resolves, c) == HostHeldBy(jobs, resolves, c);
  }

  lemma ResolveReheld(jobs: map<Id, Job>, resolves: map<nat, Resolve>, n: nat, r: Resolve)
    ensures Holdings(jobs, resolves[n := r]) == Reheld(Holdings(jobs, resolves), ByResolve(n), HeldHost(ResolveHolds(r), r.got))
  {
    var resolves' := resolves[n := r];
    assert forall c: Caller :: c != ByResolve(n) ==> HostHeldBy(jobs, resolves', c) == HostHeldBy(jobs, resolves, c);
  }

  /** The ways one step of a call may move instances. */
  datatype Move = Stay | Take | GiveUp | Enter | Replace(ref: nat)

  ghost predicate Moves(w: World, m: Move, c: Caller, luck: Luck, before: Option<string>, after: Option<string>, a: Acquired,
                        pool: Pool, pool': Pool, place: map<string, Place>, place': map<string, Place>, cells: seq<Route>, cells': seq<Route>)
  {
    match m
    case Stay =>
      before == after && pool' == pool && place' == place && Addrs(cells') == Addrs(cells)
    case Take =>
      && before == None && (pool', a) == AcquireFrom(pool, w.boots, w.policy, luck.stamp, luck.now)
      && after == (if a.Ok() then Some(a.inst.host) else None)
      && place' == HandOut(place, pool'.ready, a, c) && cells' == cells
    case GiveUp =>
      a.Ok() && before == Some(a.inst.host) && after == None && pool' == pool && place' == Strand(place, a) && cells' == cells
    case Enter =>
      && before.Some? && after == None && pool' == pool
      && place' == place[before.value := Routed(|cells|)] && Addrs(cells') == Addrs(cells) + [before.value]
    case Replace(ref) =>
      && before.Some? && after == None && pool' == pool && ref < |cells|
      && place' == place[cells[ref].addr := Retired(ref)][before.value := Routed(ref)]
      && Addrs(cells') == Addrs(cells)[ref := before.value]
  }

  ghost function Hold(holds: imap<Caller, string>, c: Caller): Option<string> {
    if c in holds then Some(holds[c]) else None
  }

  lemma MoveKeeps(w: World, m: Move, c: Caller, luck: Luck, after: Option<string>, a: Acquired,
                  pool: Pool, pool': Pool, place: map<string, Place>, place': map<string, Place>, cells: seq<Route>, cells': seq<Route>,
                  holds: imap<Caller, string>)
    requires Fresh(w.boots)
    requires Whole(place, pool.ready, holds, Addrs(cells)) && Known(w, pool, place)
    requires Moves(w, m, c, luck, Hold(holds, c), after, a, pool, pool', place, place', cells, cells')
    ensures Whole(place', pool'.ready, Reheld(holds, c, after), Addrs(cells')) && Known(w, pool', place')
  {
    var addrs := Addrs(cells);
    match m
    case Stay =>
      assert Reheld(holds, c, after) == holds;
    case Take =>
      AcquireKeeps(w, pool, place, holds, addrs, c, luck);
      assert !a.Ok() ==> Reheld(holds, c, after) == holds;
    case GiveUp => StrandKeeps(place, pool.ready, a, c, holds, addrs);
    case Enter => RouteKeeps(place, pool.ready, c, holds, addrs);
    case Replace(ref) => RerouteKeeps(place, pool.ready, c, holds, addrs, ref);
  }

  function JobMove(j: Job, luck: Luck): Move {
    if j.pc.EpAcquire? then Take
    else if (j.pc.EpAttach? || j.pc.EpCredential?) && !luck.ok then GiveUp
    else if j.pc.EpRegister? then Enter
    else Stay
  }

  lemma JobMoves(w: World, s: State, op: Id, j: Job, luck: Luck)
    requires Ledger.PcFits(j) && (JobHolds(j) ==> j.got.Ok())
    ensures var f := JobEffect(w, s, op, j, luck);
      && Moves(w, JobMove(j, luck), ByJob(op), luck, HeldHost(JobHolds(j), j.got), HeldHost(JobHolds(f.job), f.job.got),
               f.job.got, s.pool, f.pool, s.place, f.place, s.reg.cells, f.reg.cells)
      && (JobHolds(f.job) ==> f.job.got.Ok())
  {
    if j.req.ForEndpoint? && !j.pc.Failing? {
      EndpointMoves(w, s, op, j, luck);
    } else {
      OtherJobStays(w, s, op, j, luck);
    }
  }

  lemma OtherJobStays(w: World, s: State, op: Id, j: Job, luck: Luck)
    requires Ledger.PcFits(j) && (!j.req.ForEndpoint? || j.pc.Failing?)
    ensures var f := JobEffect(w, s, op, j, luck);
      f.pool == s.pool && f.reg == s.reg && f.place == s.place && !JobHolds(j) && !JobHolds(f.job) && JobMove(j, luck) == Stay
  {
  }

  lemma EndpointMoves(w: World, s: State, op: Id, j: Job, luck: Luck)
    requires Ledger.PcFits(j) && (JobHolds(j) ==> j.got.Ok()) && j.req.ForEndpoint?
    ensures var f := StartEndpointStep(w, s, op, j, luck);
      && Moves(w, JobMove(j, luck), ByJob(op), luck, HeldHost(JobHolds(j), j.got), HeldHost(JobHolds(f.job), f.job.got),
               f.job.got, s.pool, f.pool, s.place, f.place, s.reg.cells, f.reg.cells)
      && (JobHolds(f.job) ==> f.job.got.Ok())
  {
  }

  function ResolveMove(r: Resolve, luck: Luck): Move {
    if r.pc.WAcquire? then Take
    else if r.pc.WAttach? && !luck.ok then GiveUp
    else if r.pc.WAddr? then Replace(r.ref)
    else Stay
  }

  lemma ResolveMoves(w: World, s: State, c: nat, r: Resolve, luck: Luck)
    requires ResolveHolds(r) || r.pc.WState? ==> r.got.Ok()
    requires r.pc.WAddr? ==> r.ref < |s.reg.cells|
    ensures var f := ResolveStep(w, s, c, r, luck);
      && Moves(w, ResolveMove(r, luck), ByResolve(c), luck, HeldHost(ResolveHolds(r), r.got), HeldHost(ResolveHolds(f.call), f.call.got),
               f.call.got, s.pool, f.pool, s.place, f.place, s.reg.cells, f.reg.cells)
      && (ResolveHolds(f.call) || f.call.pc.WState? ==> f.call.got.Ok())
  {
  }

  // ---- Addresses that have been routed ----

  /** The host is, or was, the address of routing entry `ref`. */
  predicate ServedAt(place: map<string, Place>, h: string, ref: nat) {
    h in place && (place[h] == Routed(ref) || place[h] == Retired(ref))
  }

  /** Once an address of an entry, always an address of that entry and of no other. */
  lemma MoveServes(w: World, m: Move, c: Caller, luck: Luck, after: Option<string>, a: Acquired,
                   pool: Pool, pool': Pool, place: map<string, Place>, place': map<string, Place>, cells: seq<Route>, cells': seq<Route>,
                   holds: imap<Caller, string>, h: string, ref: nat)
    requires Fresh(w.boots)
    requires Whole(place, pool.ready, holds, Addrs(cells)) && Known(w, pool, place)
    requires Moves(w, m, c, luck, Hold(holds, c), after, a, pool, pool', place, place', cells, cells')
    requires ServedAt(place, h, ref)
    ensures ServedAt(place', h, ref)
  {
    if m.Take? && a.Ok() {
      AcquireLaw(pool, w.boots, w.policy, luck.stamp, luck.now);
      var past, booted := BootedIn(w.boots, 0, pool.calls), BootedIn(w.boots, pool.calls, pool'.calls);
      BootedInJoins(w.boots, 0, pool.calls, pool'.calls);
      BootedDistinct(w.boots, 0, pool'.calls);
      NewBootsUnplaced(past, booted, pool.ready);
      HostsJoin([a.inst], pool'.ready);
      HostsJoin(pool.ready, booted);
      assert h !in Hosts(pool.ready + booted);
      assert a.inst in [a.inst];
      PutReadyAt(place, pool'.ready);
    }
  }

  // ---- The way of an instance ----

  /** Where an instance may be one step later. */
  predicate Onward(p: Place, q: Place) {
    || q == p
    || (p.Ready? && (q.Held? || q.Dropped?))
    || (p.Held? && (q.Routed? || q.Stranded?))
    || (p.Routed? && q == Retired(p.ref))
  }

  lemma TakeOnward(w: World, c: Caller, luck: Luck, a: Acquired, pool: Pool, pool': Pool, place: map<string, Place>,
                   holds: imap<Caller, string>, addrs: seq<string>, h: string)
    requires Fresh(w.boots)
    requires Whole(place, pool.ready, holds, addrs) && Known(w, pool, place) && h in place
    requires (pool', a) == AcquireFrom(pool, w.boots, w.policy, luck.stamp, luck.now)
    ensures var place' := HandOut(place, pool'.ready, a, c); h in place' && Onward(place[h], place'[h])
  {
    if a.Ok() {
      AcquireLaw(pool, w.boots, w.policy, luck.stamp, luck.now);
      var past, booted := BootedIn(w.boots, 0, pool.calls), BootedIn(w.boots, pool.calls, pool'.calls);
      BootedInJoins(w.boots, 0, pool.calls, pool'.calls);
      BootedDistinct(w.boots, 0, pool'.calls);
      NewBootsUnplaced(past, booted, pool.ready);
      HostsJoin([a.inst], pool'.ready);
      HostsJoin(pool.ready, booted);
      assert h !in Hosts(booted);
      assert a.inst in [a.inst];
      PutReadyAt(place, pool'.ready);
    }
  }

  lemma MoveOnward(w: World, m: Move, c: Caller, luck: Luck, after: Option<string>, a: Acquired,
                   pool: Pool, pool': Pool, place: map<string, Place>, place': map<string, Place>, cells: seq<Route>, cells': seq<Route>,
                   holds: imap<Caller, string>, h: string)
    requires Fresh(w.boots)
    requires Whole(place, pool.ready, holds, Addrs(cells)) && Known(w, pool, place) && h in place
    requires Moves(w, m, c, luck, Hold(holds, c), after, a, pool, pool', place, place', cells, cells')
    ensures h in place' && Onward(place[h], place'[h])
  {
    if m.Take? {
      TakeOnward(w, c, luck, a, pool, pool', place, holds, Addrs(cells), h);
    } else if m.Replace? {
      assert Addrs(cells)[m.ref] == cells[m.ref].addr;
    }
  }

  lemma JobOnward(w: World, s: State, op: Id, luck: Luck, h: string)
    requires Fresh(w.boots) && Inv(w, s) && op in s.jobs && Ledger.PcFits(s.jobs[op]) && h in s.place
    ensures var t := JobStep(w, s, op, luck); h in t.place && Onward(s.place[h], t.place[h])
  {
    var j := s.jobs[op];
    var f := JobEffect(w, s, op, j, luck);
    JobMoves(w, s, op, j, luck);
    MoveOnward(w, JobMove(j, luck), ByJob(op), luck, HeldHost(JobHolds(f.job), f.job.got), f.job.got,
               s.pool, f.pool, s.place, f.place, s.reg.cells, f.reg.cells, Holdings(s.jobs, s.resolves), h);
  }

  lemma ResolveOnward(w: World, s: State, c: nat, luck: Luck, h: string)
    requires Fresh(w.boots) && Inv(w, s) && c in s.resolves && h in s.place
    requires s.resolves[c].pc.WAddr? ==> s.resolves[c].ref < |s.reg.cells|
    ensures var f := ResolveStep(w, s, c, s.resolves[c], luck); h in f.place && Onward(s.place[h], f.place[h])
  {
    var r := s.resolves[c];
    var f := ResolveStep(w, s, c, r, luck);
    ResolveMoves(w, s, c, r, luck);
    MoveOnward(w, ResolveMove(r, luck), ByResolve(c), luck, HeldHost(ResolveHolds(f.call), f.call.got), f.call.got,
               s.pool, f.pool, s.place, f.place, s.reg.cells, f.reg.cells, Holdings(s.jobs, s.resolves), h);
  }

  // ---- Keeping the invariant ----

  lemma JobKeeps(w: World, s: State, op: Id, luck: Luck)
    requires Fresh(w.boots) && Inv(w, s) && op in s.jobs && Ledger.PcFits(s.jobs[op])
    ensures Inv(w, JobStep(w, s, op, luck))
  {
    var j := s.jobs[op];
    var f := JobEffect(w, s, op, j, luck);
    var holds := Holdings(s.jobs, s.resolves);
    JobMoves(w, s, op, j, luck);
    MoveKeeps(w, JobMove(j, luck), ByJob(op), luck, HeldHost(JobHolds(f.job), f.job.got), f.job.got,
              s.pool, f.pool, s.place, f.place, s.reg.cells, f.reg.cells, holds);
    JobReheld(s.jobs, s.resolves, op, f.job);
  }

  lemma JobServes(w: World, s: State, op: Id, luck: Luck, h: string, ref: nat)
    requires Fresh(w.boots) && Inv(w, s) && op in s.jobs && Ledger.PcFits(s.jobs[op]) && ServedAt(s.place, h, ref)
    ensures ServedAt(JobStep(w, s, op, luck).place, h, ref)
  {
    var j := s.jobs[op];
    var f := JobEffect(w, s, op, j, luck);
    JobMoves(w, s, op, j, luck);
    MoveServes(w, JobMove(j, luck), ByJob(op), luck, HeldHost(JobHolds(f.job), f.job.got), f.job.got,
               s.pool, f.pool, s.place, f.place, s.reg.cells, f.reg.cells, Holdings(s.jobs, s.resolves), h, ref);
  }

  lemma ResolveKeeps(w: World, s: State, c: nat, luck: Luck)
    requires Fresh(w.boots) && Inv(w, s) && c in s.resolves
    requires s.resolves[c].pc.WAddr? ==> s.resolves[c].ref < |s.reg.cells|
    ensures Inv(w, CommitResolve(s, c, ResolveStep(w, s, c, s.resolves[c], luck)))
  {
    var r := s.resolves[c];
    var f := ResolveStep(w, s, c, r, luck);
    var holds := Holdings(s.jobs, s.resolves);
    ResolveMoves(w, s, c, r, luck);
    MoveKeeps(w, ResolveMove(r, luck), ByResolve(c), luck, HeldHost(ResolveHolds(f.call), f.call.got), f.call.got,
              s.pool, f.pool, s.place, f.place, s.reg.cells, f.reg.cells, holds);
    ResolveReheld(s.jobs, s.resolves, c, f.call);
  }

  lemma ResolveServes(w: World, s: State, c: nat, luck: Luck, h: string, ref: nat)
    requires Fresh(w.boots) && Inv(w, s) && c in s.resolves && ServedAt(s.place, h, ref)
    requires s.resolves[c].pc.WAddr? ==> s.resolves[c].ref < |s.reg.cells|
    ensures ServedAt(ResolveStep(w, s, c, s.resolves[c], luck).place, h, ref)
  {
    var r := s.resolves[c];
    var f := ResolveStep(w, s, c, r, luck);
    ResolveMoves(w, s, c, r, luck);
    MoveServes(w, ResolveMove(r, luck), ByResolve(c), luck, HeldHost(ResolveHolds(f.call), f.call.got), f.call.got,
               s.pool, f.pool, s.place, f.place, s.reg.cells, f.reg.cells, Holdings(s.jobs, s.resolves), h, ref);
  }

  lemma SuspendKeeps(w: World, s: State, c: nat, ok: bool)
    requires Inv(w, s) && c in s.suspends
    ensures Inv(w, CommitSuspend(s, c, SuspendStep(s, s.suspends[c], ok)))
  {
  }

  lemma BeginJobKeeps(w: World, s: State, op: Id, org: Id, req: Request)
    requires Inv(w, s) && op !in s.jobs
    ensures Inv(w, BeginJob(s, op, org, req))
  {
    JobReheld(s.jobs, s.resolves, op, Job(org, req, FirstPc(req), "", "", "", NO_COMPUTE));
    assert BeginJob(s, op, org, req).jobs == s.jobs[op := Job(org, req, FirstPc(req), "", "", "", NO_COMPUTE)];
    assert Holdings(s.jobs, s.resolves) == Holdings(BeginJob(s, op, org, req).jobs, s.resolves);
  }

  lemma OthersKeep(w: World, s: State, e: Event)
    requires Inv(w, s) && Enabled(s, e) && (e.BeginSuspend? || e.BeginResolve? || e.DrainPool?)
    ensures Inv(w, Apply(w, s, e))
  {
    var t := Apply(w, s, e);
    if e.BeginResolve? {
      ResolveReheld(s.jobs, s.resolves, e.resolve, Resolve(e.ep, RLookup, 0, "", "", NO_COMPUTE));
      assert Holdings(t.jobs, t.resolves) == Holdings(s.jobs, s.resolves);
    } else if e.DrainPool? {
      DrainKeeps(s.place, s.pool.ready, Holdings(s.jobs, s.resolves), Addrs(s.reg.cells));
    }
  }

  lemma DrainServes(s: State, h: string, ref: nat, holds: imap<Caller, string>, addrs: seq<string>)
    requires Whole(s.place, s.pool.ready, holds, addrs) && ServedAt(s.place, h, ref)
    ensures ServedAt(PutDropped(s.place, s.pool.ready), h, ref)
  {
  }

  lemma FirstPlaces(ready: seq<WarmInstance>)
    requires DistinctHosts(ready)
    ensures Whole(PutReady(map[], ready), ready, imap[], [])
    ensures PutReady(map[], ready).Keys == Hosts(ready)
  {
  }

  lemma FirstPool(w: World, now: int)
    ensures var p := NewPool(w.boots, w.policy, now); p.ready == BootedIn(w.boots, 0, p.calls)
  {
    FillLaw(Pool([], 0, 0, [], 0), w.boots, w.policy(Demand([], now)));
  }

  lemma InitiallyWhole(w: World, now: int)
    requires Fresh(w.boots)
    ensures Inv(w, Initial(w, now))
  {
    var p := NewPool(w.boots, w.policy, now);
    FirstPool(w, now);
    BootedDistinct(w.boots, 0, p.calls);
    FirstPlaces(p.ready);
    assert Holdings(map[], map[]) == imap[];
    assert Addrs([]) == [];
  }
}
