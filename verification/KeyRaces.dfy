/** Idempotency keys when calls overlap: the lookup, the creation and the storing of the key are separate
    steps, and all other events of the control plane fall between them. */
module KeyRaces {
  import opened Model
  import opened Stores
  import opened ControlPlane
  import Ledger

  // ---- The machine ----

  datatype Stage = Looking | Making | Keeping | Done(replayed: bool)

  datatype Call = Call(key: string, org: Id, req: Request, stage: Stage, op: Id) {
    /** The lookup found nothing. */
    predicate Missed() { !stage.Looking? && stage != Done(true) }

    predicate InWindow() { stage.Making? || stage.Keeping? }
  }

  /** The key map is kept beside the rest of the store, which never touches it. `maker` tells which call
      created an operation; `raced` holds the keys whose lookup failed while another call was between its
      own failed lookup and storing the key. */
  datatype Server = Server(cp: State, keys: map<string, Id>, calls: map<nat, Call>, maker: map<Id, nat>, raced: set<string>)

  function InitialServer(w: World, now: int): Server {
    Server(Initial(w, now), map[], map[], map[], {})
  }

  function Known(s: Server, key: string): Option<Id> {
    IdempLookup(s.cp.data.(idemp := s.keys), key)
  }

  function Kept(s: Server, key: string, id: Id): map<string, Id> {
    IdempStore(s.cp.data.(idemp := s.keys), key, id).idemp
  }

  ghost predicate Racing(calls: map<nat, Call>, key: string) {
    exists c :: c in calls && calls[c].key == key && calls[c].InWindow()
  }

  datatype Move =
    | Arrive(call: nat, key: string, org: Id, req: Request)
    | Look(call: nat)
    | Create(call: nat, op: Id)
    | Keep(call: nat)
    | Elsewhere(event: Event)

  ghost predicate May(s: Server, m: Move) {
    match m
    case Arrive(c, _, _, _) => c !in s.calls
    case Look(c) => c in s.calls && s.calls[c].stage.Looking?
    case Create(c, op) => c in s.calls && s.calls[c].stage.Making? && Unused(s.cp, op)
    case Keep(c) => c in s.calls && s.calls[c].stage.Keeping?
    case Elsewhere(e) => Enabled(s.cp, e) && !e.Begin?
  }

  ghost function Moved(w: World, s: Server, m: Move): Server
    requires May(s, m)
  {
    match m
    case Arrive(c, key, org, req) => s.(calls := s.calls[c := Call(key, org, req, Looking, "")])
    case Look(c) =>
      var call := s.calls[c];
      var prev := Known(s, call.key);
      if prev.Some? then s.(calls := s.calls[c := call.(stage := Done(true), op := prev.value)])
      else s.(calls := s.calls[c := call.(stage := Making)],
              raced := if call.key != "" && Racing(s.calls, call.key) then s.raced + {call.key} else s.raced)
    case Create(c, op) =>
      var call := s.calls[c];
      s.(cp := Apply(w, s.cp, Begin(op, call.org, call.req)), calls := s.calls[c := call.(stage := Keeping, op := op)],
         maker := s.maker[op := c])
    case Keep(c) =>
      var call := s.calls[c];
      s.(keys := Kept(s, call.key, call.op), calls := s.calls[c := call.(stage := Done(false))])
    case Elsewhere(e) => s.(cp := Apply(w, s.cp, e))
  }

  ghost predicate MovesTo(w: World, s: Server, s': Server) {
    exists m :: May(s, m) && s' == Moved(w, s, m)
  }

  ghost predicate IsServerRun(w: World, run: seq<Server>) {
    && run != []
    && (exists now :: run[0] == InitialServer(w, now))
    && (forall i :: 0 <= i < |run| - 1 ==> MovesTo(w, run[i], run[i + 1]))
  }

  ghost predicate CanBe(w: World, s: Server) {
    exists run :: IsServerRun(w, run) && run[|run| - 1] == s
  }

  // ---- What holds of every call, key and operation ----

  /** The operation of call `c` was created for it, and is in the store under its organisation. */
  ghost predicate Own(s: Server, c: nat) {
    && c in s.calls && (s.calls[c].stage.Keeping? || s.calls[c].stage == Done(false))
    && s.calls[c].op in s.maker && s.maker[s.calls[c].op] == c
    && s.calls[c].op in s.cp.data.ops && s.cp.data.ops[s.calls[c].op].org == s.calls[c].org
  }

  /** Operation `op` was created by a call that carried `key`. */
  ghost predicate MadeFor(s: Server, op: Id, key: string) {
    op in s.maker && Own(s, s.maker[op]) && s.calls[s.maker[op]].op == op && s.calls[s.maker[op]].key == key
  }

  /** A call that missed has its own operation; a replayed one that of a call of the same key. */
  ghost predicate CallFine(s: Server, c: nat) {
    c in s.calls ==>
      match s.calls[c].stage
      case Looking => true
      case Making => true
      case Keeping => Own(s, c)
      case Done(replayed) =>
        && (replayed ==> s.calls[c].key != "" && MadeFor(s, s.calls[c].op, s.calls[c].key))
        && (!replayed ==> Own(s, c))
        && (s.calls[c].key != "" ==> s.calls[c].key in s.keys)
  }

  ghost predicate KeyFine(s: Server, key: string) {
    key in s.keys ==> key != "" && MadeFor(s, s.keys[key], key) && s.calls[s.maker[s.keys[key]]].stage == Done(false)
  }

  ghost predicate Missing(s: Server, c: nat, key: string) {
    c in s.calls && s.calls[c].key == key && s.calls[c].Missed()
  }

  ghost predicate TwoMissing(s: Server, key: string) {
    exists c, d :: Missing(s, c, key) && Missing(s, d, key) && c != d
  }

  /** Two calls of one key have missed exactly when the key raced. */
  ghost predicate RaceFine(s: Server, key: string) {
    key != "" ==> (key in s.raced <==> TwoMissing(s, key))
  }

  ghost predicate Inv(s: Server) {
    && (forall c :: CallFine(s, c))
    && (forall key :: KeyFine(s, key))
    && (forall key :: RaceFine(s, key))
    && (forall op :: op in s.maker ==> op in s.cp.data.ops)
  }

  // ---- Every move keeps it ----

  ghost predicate OpsKept(s: State, t: State) {
    forall op :: op in s.data.ops ==> op in t.data.ops && t.data.ops[op].org == s.data.ops[op].org
  }

  lemma StepKeepsOps(w: World, s: State, e: Event)
    requires Enabled(s, e)
    ensures OpsKept(s, Apply(w, s, e))
  {
    match e
    case Begin(op, org, req) =>
    case Advance(op, luck) => JobKeepsOps(w, s, op, luck);
    case BeginSuspend(c, org, ep) =>
    case AdvanceSuspend(c, ok) => Ledger.SuspendKeepsOps(s, s.suspends[c], ok);
    case BeginResolve(c, ep) =>
    case AdvanceResolve(c, luck) => Ledger.ResolveKeepsOps(w, s, c, s.resolves[c], luck);
    case DrainPool =>
  }

  lemma JobKeepsOps(w: World, s: State, op: Id, luck: Luck)
    requires op in s.jobs
    ensures OpsKept(s, JobStep(w, s, op, luck))
  {
    Ledger.JobWritesNoOp(w, s, op, s.jobs[op], luck);
    Ledger.WriteKeepsOps(s.data, JobEffect(w, s, op, s.jobs[op], luck).write);
  }

  /** What no move takes back. */
  ghost predicate Grows(s: Server, t: Server) {
    && OpsKept(s.cp, t.cp)
    && (forall op :: op in s.maker ==> op in t.maker && t.maker[op] == s.maker[op])
    && (forall key :: key in s.keys ==> key in t.keys)
    && (forall c :: c in s.calls ==> CallGrows(s, t, c))
  }

  ghost predicate CallGrows(s: Server, t: Server, c: nat) {
    && c in s.calls && c in t.calls && t.calls[c].key == s.calls[c].key && t.calls[c].org == s.calls[c].org
    && (s.calls[c].stage.Done? ==> t.calls[c] == s.calls[c])
    && (s.calls[c].stage.Keeping? ==> t.calls[c].op == s.calls[c].op && (t.calls[c].stage.Keeping? || t.calls[c].stage == Done(false)))
  }

  lemma OwnStays(s: Server, t: Server, c: nat)
    requires Grows(s, t) && Own(s, c)
    ensures Own(t, c)
  {
  }

  lemma MadeForStays(s: Server, t: Server, op: Id, key: string)
    requires Grows(s, t) && MadeFor(s, op, key)
    ensures MadeFor(t, op, key) && (s.calls[s.maker[op]].stage == Done(false) ==> t.calls[t.maker[op]].stage == Done(false))
  {
  }

  lemma CallStays(s: Server, t: Server, c: nat)
    requires Grows(s, t) && CallFine(s, c) && c in s.calls && t.calls[c] == s.calls[c]
    ensures CallFine(t, c)
  {
  }

  lemma KeyStays(s: Server, t: Server, key: string)
    requires Grows(s, t) && KeyFine(s, key) && key in s.keys && t.keys[key] == s.keys[key]
    ensures KeyFine(t, key)
  {
  }

  lemma RaceStays(s: Server, t: Server, key: string)
    requires RaceFine(s, key) && (key in t.raced <==> key in s.raced)
    requires forall c :: Missing(s, c, key) <==> Missing(t, c, key)
    ensures RaceFine(t, key)
  {
  }

  lemma Restated(s: Server, t: Server, changed: set<nat>, keyed: set<string>)
    requires Inv(s) && Grows(s, t)
    requires forall c :: c in t.calls && c !in changed ==> c in s.calls && t.calls[c] == s.calls[c]
    requires forall c :: c in changed ==> CallFine(t, c)
    requires forall key :: key in t.keys && key !in keyed ==> key in s.keys && t.keys[key] == s.keys[key]
    requires forall key :: key in keyed ==> KeyFine(t, key)
    ensures forall c :: CallFine(t, c)
    ensures forall key :: KeyFine(t, key)
  {
    forall c ensures CallFine(t, c) {
      assert CallFine(s, c);
      if c in t.calls && c !in changed {
        CallStays(s, t, c);
      }
    }
    forall key ensures KeyFine(t, key) {
      assert KeyFine(s, key);
      if key in t.keys && key !in keyed {
        KeyStays(s, t, key);
      }
    }
  }

  lemma NobodyNew(s: Server, t: Server)
    requires (forall key :: RaceFine(s, key)) && t.raced == s.raced
    requires forall c, key :: Missing(s, c, key) <==> Missing(t, c, key)
    ensures forall key :: RaceFine(t, key)
  {
    forall key ensures RaceFine(t, key) {
      RaceStays(s, t, key);
    }
  }

  lemma ArriveKeeps(w: World, s: Server, c: nat, key: string, org: Id, req: Request)
    requires Inv(s) && May(s, Arrive(c, key, org, req))
    ensures Inv(Moved(w, s, Arrive(c, key, org, req)))
  {
    var t := Moved(w, s, Arrive(c, key, org, req));
    Restated(s, t, {c}, {});
    NobodyNew(s, t);
  }

  lemma ElsewhereKeeps(w: World, s: Server, e: Event)
    requires Inv(s) && May(s, Elsewhere(e))
    ensures Inv(Moved(w, s, Elsewhere(e)))
  {
    var t := Moved(w, s, Elsewhere(e));
    StepKeepsOps(w, s.cp, e);
    Restated(s, t, {}, {});
    NobodyNew(s, t);
  }

  lemma CreateGrows(w: World, s: Server, c: nat, op: Id)
    requires May(s, Create(c, op)) && forall o :: o in s.maker ==> o in s.cp.data.ops
    ensures var t := Moved(w, s, Create(c, op));
      Grows(s, t) && Own(t, c) && (forall o :: o in t.maker ==> o in t.cp.data.ops)
  {
    StepKeepsOps(w, s.cp, Begin(op, s.calls[c].org, s.calls[c].req));
  }

  lemma CreateKeeps(w: World, s: Server, c: nat, op: Id)
    requires Inv(s) && May(s, Create(c, op))
    ensures Inv(Moved(w, s, Create(c, op)))
  {
    var t := Moved(w, s, Create(c, op));
    CreateGrows(w, s, c, op);
    Restated(s, t, {c}, {});
    NobodyNew(s, t);
  }

  lemma KeepKeeps(w: World, s: Server, c: nat)
    requires Inv(s) && May(s, Keep(c))
    ensures Inv(Moved(w, s, Keep(c)))
  {
    var t := Moved(w, s, Keep(c));
    var call := s.calls[c];
    assert CallFine(s, c);
    assert Grows(s, t);
    OwnStays(s, t, c);
    assert call.key != "" ==> KeyFine(t, call.key);
    Restated(s, t, {c}, if call.key == "" then {} else {call.key});
    NobodyNew(s, t);
  }

  /** A failed lookup: the key raced exactly when some other call of it has missed before. */
  lemma MissRaces(s: Server, c: nat, key: string)
    requires Inv(s) && c in s.calls && s.calls[c].key == key && s.calls[c].stage.Looking?
    requires key != "" && key !in s.keys
    ensures Racing(s.calls, key) <==> exists d :: Missing(s, d, key)
  {
    if Racing(s.calls, key) {
      var d :| d in s.calls && s.calls[d].key == key && s.calls[d].InWindow();
      assert Missing(s, d, key);
    } else if d :| Missing(s, d, key) {
      assert CallFine(s, d);
    }
  }

  lemma MissKeeps(s: Server, t: Server, c: nat, key: string)
    requires Inv(s) && c in s.calls && s.calls[c].key == key && s.calls[c].stage.Looking?
    requires key != "" && key !in s.keys && t.calls == s.calls[c := s.calls[c].(stage := Making)]
    requires key in t.raced <==> key in s.raced || Racing(s.calls, key)
    ensures RaceFine(t, key)
  {
    MissRaces(s, c, key);
    assert RaceFine(s, key);
    assert Missing(t, c, key) && !Missing(s, c, key);
    if key in t.raced {
      var d :| Missing(s, d, key);
      assert Missing(t, d, key);
    } else {
      assert forall d :: Missing(t, d, key) ==> d == c || Missing(s, d, key);
    }
  }

  lemma LookKeeps(w: World, s: Server, c: nat)
    requires Inv(s) && May(s, Look(c))
    ensures Inv(Moved(w, s, Look(c)))
  {
    var t := Moved(w, s, Look(c));
    var call := s.calls[c];
    assert Grows(s, t);
    if Known(s, call.key).Some? {
      assert KeyFine(s, call.key);
      MadeForStays(s, t, s.keys[call.key], call.key);
      Restated(s, t, {c}, {});
      NobodyNew(s, t);
    } else {
      Restated(s, t, {c}, {});
      forall key ensures RaceFine(t, key) {
        if key == call.key && key != "" {
          MissKeeps(s, t, c, key);
        } else if key != "" {
          assert RaceFine(s, key);
          RaceStays(s, t, key);
        }
      }
    }
  }

  lemma Keeps(w: World, s: Server, m: Move)
    requires Inv(s) && May(s, m)
    ensures Inv(Moved(w, s, m))
  {
    match m
    case Arrive(c, key, org, req) => ArriveKeeps(w, s, c, key, org, req);
    case Look(c) => LookKeeps(w, s, c);
    case Create(c, op) => CreateKeeps(w, s, c, op);
    case Keep(c) => KeepKeeps(w, s, c);
    case Elsewhere(e) => ElsewhereKeeps(w, s, e);
  }

  lemma {:induction false} RunKeeps(w: World, run: seq<Server>, i: nat)
    requires IsServerRun(w, run) && i < |run|
    ensures Inv(run[i])
  {
    if i > 0 {
      RunKeeps(w, run, i - 1);
      assert MovesTo(w, run[i - 1], run[i - 1 + 1]);
      var m :| May(run[i - 1], m) && run[i] == Moved(w, run[i - 1], m);
      Keeps(w, run[i - 1], m);
    }
  }

  lemma Holding(w: World, s: Server)
    requires CanBe(w, s)
    ensures Inv(s)
  {
    var run :| IsServerRun(w, run) && run[|run| - 1] == s;
    RunKeeps(w, run, |run| - 1);
  }

  // ---- The control plane under the calls is the machine of its own runs ----

  lemma {:induction false} RunProjects(w: World, run: seq<Server>, i: nat) returns (below: seq<State>)
    requires IsServerRun(w, run) && i < |run|
    ensures IsRun(w, below) && below[|below| - 1] == run[i].cp
  {
    if i == 0 {
      below := [run[0].cp];
    } else {
      var front := RunProjects(w, run, i - 1);
      var s, t := run[i - 1], run[i];
      assert MovesTo(w, s, run[i - 1 + 1]);
      var m :| May(s, m) && t == Moved(w, s, m);
      if m.Create? || m.Elsewhere? {
        var e := if m.Create? then Begin(m.op, s.calls[m.call].org, s.calls[m.call].req) else m.event;
        assert Enabled(s.cp, e) && t.cp == Apply(w, s.cp, e);
        assert Steps(w, s.cp, t.cp);
        below := front + [t.cp];
        forall k | 0 <= k < |below| - 1 ensures StepAt(w, below, k) {
          assert k < |front| - 1 ==> StepAt(w, front, k);
        }
      } else {
        below := front;
      }
    }
  }

  /** Everything proved of reachable states of the control plane holds under any overlap of keyed calls. */
  lemma ServerRunsControlPlane(w: World, s: Server)
    requires CanBe(w, s)
    ensures Reachable(w, s.cp)
  {
    var run :| IsServerRun(w, run) && run[|run| - 1] == s;
    var below := RunProjects(w, run, |run| - 1);
  }

  // ---- Main results ----

  /** Whatever overlaps, every stored key names an existing operation created by a call with that key. */
  lemma StoredKeysName(w: World, s: Server, key: string)
    requires CanBe(w, s) && key in s.keys
    ensures key != "" && s.keys[key] in s.cp.data.ops && MadeFor(s, s.keys[key], key)
  {
    Holding(w, s);
    assert KeyFine(s, key);
  }

  lemma AnsweredIsMade(s: Server, c: nat)
    requires Inv(s) && c in s.calls && s.calls[c].stage.Done?
    ensures MadeFor(s, s.calls[c].op, s.calls[c].key)
    ensures Missing(s, s.maker[s.calls[c].op], s.calls[c].key)
  {
    assert CallFine(s, c);
  }

  /** Two answered calls of the same nonempty key get the same operation unless the key raced; two answered
      calls of different keys, or without a key, never do. */
  lemma ReplayUnlessRaced(w: World, s: Server, c: nat, d: nat)
    requires CanBe(w, s) && c in s.calls && d in s.calls && c != d
    requires s.calls[c].stage.Done? && s.calls[d].stage.Done?
    ensures s.calls[c].key == s.calls[d].key && s.calls[c].key != "" && s.calls[c].key !in s.raced ==> s.calls[c].op == s.calls[d].op
    ensures s.calls[c].key != s.calls[d].key || s.calls[c].key == "" ==> s.calls[c].op != s.calls[d].op
  {
    Holding(w, s);
    AnsweredIsMade(s, c);
    AnsweredIsMade(s, d);
    assert RaceFine(s, s.calls[c].key);
    assert CallFine(s, c) && CallFine(s, d);
  }

  /** Once no call of a key is under way, the key raced exactly when it created more than one operation. */
  lemma RacedExactly(w: World, s: Server, key: string)
    requires CanBe(w, s) && key != "" && !Racing(s.calls, key)
    ensures key in s.raced <==>
      exists x, y :: x != y && MadeFor(s, x, key) && MadeFor(s, y, key)
  {
    Holding(w, s);
    assert RaceFine(s, key);
    if key in s.raced {
      var c, d :| Missing(s, c, key) && Missing(s, d, key) && c != d;
      assert CallFine(s, c) && CallFine(s, d);
      assert MadeFor(s, s.calls[c].op, key) && MadeFor(s, s.calls[d].op, key);
    }
    if x, y :| x != y && MadeFor(s, x, key) && MadeFor(s, y, key) {
      assert Missing(s, s.maker[x], key) && Missing(s, s.maker[y], key);
    }
  }

  /** Keys belong to no organisation: a call can look its operation up exactly when the call that
      created it was made for the same organisation. */
  lemma ReplayVisible(w: World, s: Server, c: nat)
    requires CanBe(w, s) && c in s.calls && s.calls[c].stage.Done?
    ensures s.calls[c].op in s.maker && s.maker[s.calls[c].op] in s.calls
    ensures OpSnapshot(s.cp.data, s.calls[c].org, s.calls[c].op).Some? <==> s.calls[s.maker[s.calls[c].op]].org == s.calls[c].org
  {
    Holding(w, s);
    AnsweredIsMade(s, c);
  }

  // ---- A race that happens ----

  lemma CanMove(w: World, s: Server, m: Move)
    requires CanBe(w, s) && May(s, m)
    ensures CanBe(w, Moved(w, s, m))
  {
    var run :| IsServerRun(w, run) && run[|run| - 1] == s;
    var more := run + [Moved(w, s, m)];
    forall i | 0 <= i < |more| - 1 ensures MovesTo(w, more[i], more[i + 1]) {
      assert i < |run| - 1 ==> MovesTo(w, run[i], run[i + 1]);
    }
    assert IsServerRun(w, more);
  }

  lemma BothArrive(w: World, key: string, org: Id, req: Request, now: int) returns (s: Server)
    ensures CanBe(w, s) && s.calls == map[0 := Call(key, org, req, Looking, ""), 1 := Call(key, org, req, Looking, "")]
    ensures s.keys == map[] && s.raced == {} && s.cp.data.ops == map[] && s.cp.maker == map[]
  {
    var start := InitialServer(w, now);
    assert IsServerRun(w, [start]) && [start][|[start]| - 1] == start;
    CanMove(w, start, Arrive(0, key, org, req));
    var one := Moved(w, start, Arrive(0, key, org, req));
    CanMove(w, one, Arrive(1, key, org, req));
    s := Moved(w, one, Arrive(1, key, org, req));
  }

  lemma BothMiss(w: World, s: Server, key: string) returns (t: Server)
    requires CanBe(w, s) && key != "" && s.calls.Keys == {0, 1} && s.keys == map[]
    requires forall c :: c in s.calls ==> s.calls[c].key == key && s.calls[c].stage.Looking?
    ensures CanBe(w, t) && t.cp == s.cp && key in t.raced && t.calls.Keys == {0, 1} && t.keys == map[]
    ensures forall c :: c in t.calls ==> t.calls[c].key == key && t.calls[c].stage.Making?
  {
    CanMove(w, s, Look(0));
    var one := Moved(w, s, Look(0));
    assert one.calls[0].InWindow();
    CanMove(w, one, Look(1));
    t := Moved(w, one, Look(1));
  }

  lemma CreateAndKeep(w: World, s: Server, c: nat, op: Id) returns (t: Server)
    requires CanBe(w, s) && c in s.calls && s.calls[c].stage.Making? && Unused(s.cp, op)
    ensures CanBe(w, t) && t.raced == s.raced && t.cp.maker == s.cp.maker && t.cp.data.ops.Keys == s.cp.data.ops.Keys + {op}
    ensures t.calls == s.calls[c := s.calls[c].(stage := Done(false), op := op)]
  {
    CanMove(w, s, Create(c, op));
    var one := Moved(w, s, Create(c, op));
    CanMove(w, one, Keep(c));
    t := Moved(w, one, Keep(c));
  }

  /** Two overlapping calls of one key can each create an operation and be answered with their own. */
  lemma RaceHappens(w: World, key: string, org: Id, req: Request, now: int) returns (s: Server)
    requires key != ""
    ensures CanBe(w, s) && s.calls.Keys == {0, 1} && s.calls[0].key == key && s.calls[1].key == key
    ensures s.calls[0].stage.Done? && s.calls[1].stage.Done? && s.calls[0].op != s.calls[1].op
  {
    s := BothArrive(w, key, org, req, now);
    s := BothMiss(w, s, key);
    s := CreateAndKeep(w, s, 0, "a");
    s := CreateAndKeep(w, s, 1, "b");
  }
}
