/** Overlaps of a suspend and an activating call: what they end in, and that they happen. */
module Divergence {
  import opened Model
  import opened WarmPools
  import opened PoolLaws
  import opened Stores
  import opened Routing
  import opened ControlPlane
  import opened Runs
  import opened Sync

  // ---- What an overlap ends in ----

  ghost predicate Pinched(t: Twin, c: Writer, a: Writer) {
    && Alive(t.store)
    && (c !in t.open ==> t.store == Some(EndpointSuspended))
    && (a !in t.open ==> t.route == Some(RouteActive))
  }

  /** An act of one of the two calls, or of another that leaves both states as they are. */
  ghost predicate OfTheTwo(t: Twin, act: Act, c: Writer, a: Writer) {
    || act == Nothing || act == SuspendStore(c) || act == ActivateTable(a)
    || (!act.CreateRecord? && act.who != c && act.who != a && Next(t, act).store == t.store && Next(t, act).route == t.route)
  }

  ghost predicate NoThirdHand(w: World, s: State, events: seq<Event>, e: Id, c: Writer, a: Writer)
    requires CanDo(w, s, events)
    decreases events
  {
    events == [] ||
    (OfTheTwo(TwinOf(s, e), ActOf(s, events[0], e), c, a) && NoThirdHand(w, Apply(w, s, events[0]), events[1..], e, c, a))
  }

  lemma PinchedNext(t: Twin, act: Act, c: Writer, a: Writer)
    requires Pinched(t, c, a) && Legal(t, act) && OfTheTwo(t, act, c, a) && c.Suspender? && !a.Suspender?
    ensures Pinched(Next(t, act), c, a)
  {
  }

  lemma {:induction false} StaysPinched(w: World, s: State, events: seq<Event>, e: Id, c: Writer, a: Writer)
    requires Fresh(w.boots) && Reachable(w, s) && CanDo(w, s, events) && c.Suspender? && !a.Suspender?
    requires Pinched(TwinOf(s, e), c, a) && NoThirdHand(w, s, events, e, c, a)
    ensures Pinched(TwinOf(After(w, s, events), e), c, a)
    decreases events
  {
    if events != [] {
      EventFollows(w, s, events[0], e);
      PinchedNext(TwinOf(s, e), ActOf(s, events[0], e), c, a);
      ReachesMore(w, s, events[0]);
      StaysPinched(w, Apply(w, s, events[0]), events[1..], e, c, a);
    }
  }

  lemma OpenIsAlive(w: World, s: State, e: Id, a: Writer)
    requires Fresh(w.boots) && Reachable(w, s) && a in OpenIn(s, e) && !a.Suspender?
    ensures Alive(StoreState(s.data, e))
  {
    KnownState(w, s, e);
    if a.Waker? {
      WakeFacts(w, s, a.resolve);
    } else {
      StartFacts(w, s, a.op, Luck(true, "", 0, 0));
      StartOwns(s, s.jobs[a.op]);
    }
  }

  /** Whichever of two overlapping calls ends first, and whatever others do meanwhile without changing the
      endpoint's states, the table ends up active and the store suspended. */
  lemma OverlapDiverges(w: World, s: State, events: seq<Event>, e: Id, c: Writer, a: Writer)
    requires Fresh(w.boots) && Reachable(w, s) && CanDo(w, s, events) && c.Suspender? && !a.Suspender?
    requires c in OpenIn(s, e) && a in OpenIn(s, e) && NoThirdHand(w, s, events, e, c, a)
    requires var open := OpenIn(After(w, s, events), e); c !in open && a !in open
    ensures var t := After(w, s, events);
      RouteStateOf(t.reg, e) == Some(RouteActive) && StoreState(t.data, e) == Some(EndpointSuspended) && !Agree(t, e)
  {
    OpenIsAlive(w, s, e, a);
    StaysPinched(w, s, events, e, c, a);
  }

  // ---- Such overlaps happen ----

  /** Between the two states only wake `n` has moved. */
  ghost predicate OnlyWake(s: State, t: State, n: nat) {
    t.jobs == s.jobs && t.suspends == s.suspends && t.resolves - {n} == s.resolves - {n}
  }

  /** Between the two states only suspend `c` has moved. */
  ghost predicate OnlySuspend(s: State, t: State, c: nat) {
    t.jobs == s.jobs && t.resolves == s.resolves && t.suspends - {c} == s.suspends - {c}
  }

  /** Between the two states only wake `n` and suspend `c` have moved. */
  ghost predicate OnlyCalls(s: State, t: State, n: nat, c: nat) {
    t.jobs == s.jobs && t.resolves - {n} == s.resolves - {n} && t.suspends - {c} == s.suspends - {c}
  }

  /** A wake of `x` on its way, both states still suspended. */
  ghost predicate WakingUp(s: State, n: nat, x: Id, pc: ResolvePc) {
    && n in s.resolves && s.resolves[n].ep == x && s.resolves[n].pc == pc
    && StoreState(s.data, x) == Some(EndpointSuspended) && RouteStateOf(s.reg, x) == Some(RouteSuspended)
  }

  function NextPc(pc: ResolvePc): ResolvePc {
    match pc
    case RLookup => RState
    case RState => WRef
    case WRef => WAcquire
    case WAcquire => WAttach
    case WAttach => WActivate
    case WActivate => WAddr
    case _ => WState
  }

  predicate CanBoot(w: World, p: Pool, luck: Luck) {
    AcquireFrom(p, w.boots, w.policy, luck.stamp, luck.now).1.Ok()
  }

  lemma WakeGoesOn(w: World, s: State, n: nat, x: Id, pc: ResolvePc, luck: Luck) returns (t: State)
    requires Fresh(w.boots) && Reachable(w, s) && WakingUp(s, n, x, pc) && luck.ok
    requires pc.RLookup? || pc.RState? || pc.WRef? || pc.WAcquire? || pc.WAttach?
    requires pc.WAcquire? ==> CanBoot(w, s.pool, luck)
    ensures Enabled(s, AdvanceResolve(n, luck)) && t == Apply(w, s, AdvanceResolve(n, luck))
    ensures Reachable(w, t) && WakingUp(t, n, x, NextPc(pc)) && OnlyWake(s, t, n) && (!pc.WAcquire? ==> t.pool == s.pool)
  {
    WakeFacts(w, s, n);
    KnownState(w, s, x);
    t := Apply(w, s, AdvanceResolve(n, luck));
    ReachesMore(w, s, AdvanceResolve(n, luck));
  }

  /** The wake has activated the endpoint in the store and not yet in the table. */
  ghost predicate HalfAwake(s: State, n: nat, x: Id) {
    n in s.resolves && s.resolves[n].ep == x && s.resolves[n].pc.WAddr?
  }

  lemma WakeActivates(w: World, s: State, n: nat, x: Id, luck: Luck) returns (t: State)
    requires Fresh(w.boots) && Reachable(w, s) && WakingUp(s, n, x, WActivate)
    ensures Enabled(s, AdvanceResolve(n, luck)) && t == Apply(w, s, AdvanceResolve(n, luck))
    ensures Reachable(w, t) && HalfAwake(t, n, x) && OnlyWake(s, t, n)
  {
    t := Apply(w, s, AdvanceResolve(n, luck));
    ReachesMore(w, s, AdvanceResolve(n, luck));
  }

  lemma {:induction false} WakeRuns(w: World, s: State, n: nat, x: Id, pc: ResolvePc, luck: Luck) returns (events: seq<Event>)
    requires Fresh(w.boots) && Reachable(w, s) && WakingUp(s, n, x, pc) && luck.ok
    requires pc.RLookup? || pc.RState? || pc.WRef? || pc.WAcquire? || pc.WAttach? || pc.WActivate?
    requires !pc.WAttach? && !pc.WActivate? ==> CanBoot(w, s.pool, luck)
    ensures CanDo(w, s, events)
    ensures var t := After(w, s, events); HalfAwake(t, n, x) && OnlyWake(s, t, n)
    decreases match pc case RLookup => 6 case RState => 5 case WRef => 4 case WAcquire => 3 case WAttach => 2 case _ => 1
  {
    var e := AdvanceResolve(n, luck);
    var rest: seq<Event> := [];
    if pc.WActivate? {
      var t := WakeActivates(w, s, n, x, luck);
    } else {
      var t := WakeGoesOn(w, s, n, x, pc, luck);
      rest := WakeRuns(w, t, n, x, NextPc(pc), luck);
    }
    events := [e] + rest;
    DoFirst(w, s, e, rest);
  }

  /** A suspend of `x` on its way, its endpoint of its organisation. */
  ghost predicate Halting(s: State, c: nat, x: Id, pc: SuspendPc) {
    && x in s.data.endpoints
    && c in s.suspends && s.suspends[c].ep == x && s.suspends[c].org == s.data.endpoints[x].org && s.suspends[c].pc == pc
  }

  function NextHalt(pc: SuspendPc): SuspendPc {
    match pc
    case SCheck => SStorage
    case SStorage => SRoute
    case _ => SStore
  }

  lemma SuspendGoesOn(w: World, s: State, c: nat, x: Id, pc: SuspendPc) returns (t: State)
    requires Halting(s, c, x, pc) && (pc.SCheck? || pc.SStorage? || pc.SRoute?)
    ensures Enabled(s, AdvanceSuspend(c, true)) && t == Apply(w, s, AdvanceSuspend(c, true))
    ensures Halting(t, c, x, NextHalt(pc)) && OnlySuspend(s, t, c)
  {
    t := Apply(w, s, AdvanceSuspend(c, true));
  }

  lemma {:induction false} SuspendRuns(w: World, s: State, c: nat, x: Id, pc: SuspendPc) returns (events: seq<Event>)
    requires Halting(s, c, x, pc) && !pc.SDone?
    ensures CanDo(w, s, events)
    ensures var t := After(w, s, events); Halting(t, c, x, SStore) && OnlySuspend(s, t, c)
    decreases match pc case SCheck => 3 case SStorage => 2 case SRoute => 1 case _ => 0
  {
    events := [];
    if !pc.SStore? {
      var t := SuspendGoesOn(w, s, c, x, pc);
      var rest := SuspendRuns(w, t, c, x, NextHalt(pc));
      events := [AdvanceSuspend(c, true)] + rest;
      DoFirst(w, s, AdvanceSuspend(c, true), rest);
    }
  }

  lemma BeginsWake(w: World, s: State, n: nat, x: Id, luck: Luck) returns (events: seq<Event>)
    requires Fresh(w.boots) && Reachable(w, s) && n !in s.resolves && luck.ok && CanBoot(w, s.pool, luck)
    requires StoreState(s.data, x) == Some(EndpointSuspended) && RouteStateOf(s.reg, x) == Some(RouteSuspended)
    ensures CanDo(w, s, events)
    ensures var t := After(w, s, events); HalfAwake(t, n, x) && OnlyWake(s, t, n)
  {
    var e := BeginResolve(n, x);
    ReachesMore(w, s, e);
    var rest := WakeRuns(w, Apply(w, s, e), n, x, RLookup, luck);
    events := [e] + rest;
    DoFirst(w, s, e, rest);
  }

  lemma BeginsSuspend(w: World, s: State, c: nat, x: Id) returns (events: seq<Event>)
    requires c !in s.suspends && x in s.data.endpoints
    ensures CanDo(w, s, events)
    ensures var t := After(w, s, events); Halting(t, c, x, SStore) && OnlySuspend(s, t, c)
  {
    var e := BeginSuspend(c, s.data.endpoints[x].org, x);
    var rest := SuspendRuns(w, Apply(w, s, e), c, x, SCheck);
    events := [e] + rest;
    DoFirst(w, s, e, rest);
  }

  /** From any reachable state, an endpoint suspended in both places and compute to be had are enough
      for one wake and one suspend to get into overlapping windows. */
  lemma OverlapHappens(w: World, s: State, n: nat, c: nat, x: Id, luck: Luck) returns (events: seq<Event>)
    requires Fresh(w.boots) && Reachable(w, s) && n !in s.resolves && c !in s.suspends && luck.ok && CanBoot(w, s.pool, luck)
    requires StoreState(s.data, x) == Some(EndpointSuspended) && RouteStateOf(s.reg, x) == Some(RouteSuspended)
    ensures CanDo(w, s, events)
    ensures var t := After(w, s, events); Overlap(t, x) && HalfAwake(t, n, x) && Halting(t, c, x, SStore) && OnlyCalls(s, t, n, c)
  {
    var a := BeginsWake(w, s, n, x, luck);
    var mid := After(w, s, a);
    ReachesAfter(w, s, a);
    WakeIsOpen(w, mid, n, x);
    var b := BeginsSuspend(w, mid, c, x);
    Join(w, s, a, b);
    events := a + b;
    BothOpen(After(w, mid, b), n, c, x);
  }

  lemma WakeIsOpen(w: World, s: State, n: nat, x: Id)
    requires Fresh(w.boots) && Reachable(w, s) && HalfAwake(s, n, x)
    ensures x in s.data.endpoints
  {
    assert Waker(n) in OpenIn(s, x);
    OpenIsAlive(w, s, x, Waker(n));
  }

  lemma BothOpen(s: State, n: nat, c: nat, x: Id)
    requires HalfAwake(s, n, x) && Halting(s, c, x, SStore)
    ensures Suspender(c) in OpenIn(s, x) && Waker(n) in OpenIn(s, x) && Overlap(s, x)
  {
  }

  // ---- How it ends ----

  lemma HaltEnds(w: World, s: State, n: nat, c: nat, x: Id) returns (t: State)
    requires HalfAwake(s, n, x) && Halting(s, c, x, SStore)
    ensures Enabled(s, AdvanceSuspend(c, true)) && t == Apply(w, s, AdvanceSuspend(c, true))
    ensures HalfAwake(t, n, x) && c in t.suspends && t.suspends[c].pc.SDone? && OnlySuspend(s, t, c)
    ensures ActOf(s, AdvanceSuspend(c, true), x) == SuspendStore(Suspender(c))
  {
    t := Apply(w, s, AdvanceSuspend(c, true));
  }

  lemma WakeEnds(w: World, s: State, n: nat, x: Id, luck: Luck) returns (mid: State, t: State)
    requires Fresh(w.boots) && Reachable(w, s) && HalfAwake(s, n, x)
    ensures var wake := AdvanceResolve(n, luck);
      && Enabled(s, wake) && mid == Apply(w, s, wake) && Enabled(mid, wake) && t == Apply(w, mid, wake)
      && ActOf(s, wake, x) == Nothing && ActOf(mid, wake, x) == ActivateTable(Waker(n))
    ensures n in t.resolves && t.resolves[n].pc.RDone? && OnlyWake(s, t, n)
  {
    WakeFacts(w, s, n);
    mid := Apply(w, s, AdvanceResolve(n, luck));
    t := Apply(w, mid, AdvanceResolve(n, luck));
  }

  lemma DoOwn(w: World, s: State, e: Event, rest: seq<Event>, x: Id, c: Writer, a: Writer)
    requires Enabled(s, e) && CanDo(w, Apply(w, s, e), rest)
    requires OfTheTwo(TwinOf(s, x), ActOf(s, e, x), c, a) && NoThirdHand(w, Apply(w, s, e), rest, x, c, a)
    ensures CanDo(w, s, [e] + rest) && After(w, s, [e] + rest) == After(w, Apply(w, s, e), rest)
    ensures NoThirdHand(w, s, [e] + rest, x, c, a)
  {
    DoFirst(w, s, e, rest);
    assert ([e] + rest)[1..] == rest;
  }

  lemma WakeFinishes(w: World, s: State, n: nat, x: Id, luck: Luck, c: Writer) returns (events: seq<Event>)
    requires Fresh(w.boots) && Reachable(w, s) && HalfAwake(s, n, x)
    ensures CanDo(w, s, events) && NoThirdHand(w, s, events, x, c, Waker(n))
    ensures var t := After(w, s, events); n in t.resolves && t.resolves[n].pc.RDone? && OnlyWake(s, t, n)
  {
    var wake := AdvanceResolve(n, luck);
    var mid, t := WakeEnds(w, s, n, x, luck);
    DoOwn(w, mid, wake, [], x, c, Waker(n));
    DoOwn(w, s, wake, [wake] + [], x, c, Waker(n));
    events := [wake] + ([wake] + []);
  }

  /** Letting first the suspend and then the wake of an overlap finish leaves the endpoint active in the
      table and suspended in the store. */
  lemma OverlapCloses(w: World, s: State, n: nat, c: nat, x: Id, luck: Luck) returns (events: seq<Event>)
    requires Fresh(w.boots) && Reachable(w, s) && HalfAwake(s, n, x) && Halting(s, c, x, SStore)
    ensures CanDo(w, s, events)
    ensures var t := After(w, s, events);
      && !Agree(t, x) && OnlyCalls(s, t, n, c)
      && c in t.suspends && t.suspends[c].pc.SDone? && n in t.resolves && t.resolves[n].pc.RDone?
  {
    var halt := AdvanceSuspend(c, true);
    var s1 := HaltEnds(w, s, n, c, x);
    ReachesMore(w, s, halt);
    var rest := WakeFinishes(w, s1, n, x, luck, Suspender(c));
    events := [halt] + rest;
    DoOwn(w, s, halt, rest, x, Suspender(c), Waker(n));
    BothOpen(s, n, c, x);
    NotOpen(After(w, s, events), n, c, x);
    OverlapDiverges(w, s, events, x, Suspender(c), Waker(n));
  }

  lemma NotOpen(t: State, n: nat, c: nat, x: Id)
    requires c in t.suspends && t.suspends[c].pc.SDone? && n in t.resolves && t.resolves[n].pc.RDone?
    ensures Suspender(c) !in OpenIn(t, x) && Waker(n) !in OpenIn(t, x)
  {
  }

  /** So from any reachable state, an endpoint suspended in both places and compute to be had are enough
      for a run of one wake and one suspend after which table and store disagree on it. */
  lemma DivergenceHappens(w: World, s: State, n: nat, c: nat, x: Id, luck: Luck) returns (events: seq<Event>)
    requires Fresh(w.boots) && Reachable(w, s) && n !in s.resolves && c !in s.suspends && luck.ok && CanBoot(w, s.pool, luck)
    requires StoreState(s.data, x) == Some(EndpointSuspended) && RouteStateOf(s.reg, x) == Some(RouteSuspended)
    ensures CanDo(w, s, events)
    ensures var t := After(w, s, events); !Agree(t, x) && OnlyCalls(s, t, n, c) && (Idle(s) ==> Idle(t))
  {
    var a := OverlapHappens(w, s, n, c, x, luck);
    var mid := After(w, s, a);
    ReachesAfter(w, s, a);
    var b := OverlapCloses(w, mid, n, c, x, luck);
    Join(w, s, a, b);
    events := a + b;
    if Idle(s) {
      StillIdle(s, After(w, mid, b), n, c);
    }
  }

  lemma StillIdle(s: State, t: State, n: nat, c: nat)
    requires Idle(s) && OnlyCalls(s, t, n, c)
    requires c in t.suspends && t.suspends[c].pc.SDone? && n in t.resolves && t.resolves[n].pc.RDone?
    ensures Idle(t)
  {
    forall d | d in t.suspends ensures !SuspendInFlight(t.suspends[d]) {
      if d != c {
        assert d in t.suspends - {c} && (t.suspends - {c})[d] == t.suspends[d];
      }
    }
    forall d | d in t.resolves ensures !ResolveInFlight(t.resolves[d]) {
      if d != n {
        assert d in t.resolves - {n} && (t.resolves - {n})[d] == t.resolves[d];
      }
    }
  }
}
