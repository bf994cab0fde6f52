/** The metadata store: maps behind one lock, every read filtered by organisation. */
module Stores {
  import opened Model

  // ---- The store as a value ----

  datatype Data = Data(
    projects: map<Id, Project>,
    branches: map<Id, Branch>,
    endpoints: map<Id, Endpoint>,
    ops: map<Id, Operation>,
    metering: seq<MeteringEvent>,
    idemp: map<string, Id>
  )

  const EMPTY := Data(map[], map[], map[], map[], [], map[])

  // An id of another organisation reads as absent.

  function GetProject(d: Data, org: Id, id: Id): Option<Project> {
    if id in d.projects && d.projects[id].org == org then Some(d.projects[id]) else None
  }

  function GetBranch(d: Data, org: Id, id: Id): Option<Branch> {
    if id in d.branches && d.branches[id].org == org then Some(d.branches[id]) else None
  }

  function GetEndpoint(d: Data, org: Id, id: Id): Option<Endpoint> {
    if id in d.endpoints && d.endpoints[id].org == org then Some(d.endpoints[id]) else None
  }

  /** For the wake hook, which does not know the organisation. */
  function EndpointRef(d: Data, id: Id): Option<Endpoint> {
    if id in d.endpoints then Some(d.endpoints[id]) else None
  }

  function OpSnapshot(d: Data, org: Id, id: Id): Option<Operation> {
    if id in d.ops && d.ops[id].org == org then Some(d.ops[id]) else None
  }

  datatype Record =
    | ProjectRecord(project: Project)
    | BranchRecord(branch: Branch)
    | EndpointRecord(endpoint: Endpoint)
    | OperationRecord(op: Operation)

  /** put overwrites. */
  function Put(d: Data, r: Record): Data {
    match r
    case ProjectRecord(p) => d.(projects := d.projects[p.id := p])
    case BranchRecord(b) => d.(branches := d.branches[b.id := b])
    case EndpointRecord(e) => d.(endpoints := d.endpoints[e.id := e])
    case OperationRecord(o) => d.(ops := d.ops[o.id := o])
  }

  function AddMetering(d: Data, e: MeteringEvent): Data {
    d.(metering := d.metering + [e])
  }

  /** completeOp and failOp do not look at the status they replace. */
  function CompleteOp(d: Data, id: Id, result: OpResult): Data {
    if id in d.ops then d.(ops := d.ops[id := d.ops[id].(status := Succeeded, result := result)]) else d
  }

  function FailOp(d: Data, id: Id): Data {
    if id in d.ops then d.(ops := d.ops[id := d.ops[id].(status := Failed)]) else d
  }

  predicate MayMoveBranch(d: Data, org: Id, id: Id, to: BranchState) {
    GetBranch(d, org, id).Some? && to in BranchTransitions(d.branches[id].state)
  }

  function TransitionBranch(d: Data, org: Id, id: Id, to: BranchState): Data {
    if MayMoveBranch(d, org, id, to) then d.(branches := d.branches[id := d.branches[id].(state := to)]) else d
  }

  predicate MayMoveEndpoint(d: Data, org: Id, id: Id, to: EndpointState) {
    GetEndpoint(d, org, id).Some? && to in EndpointTransitions(d.endpoints[id].state)
  }

  function TransitionEndpoint(d: Data, org: Id, id: Id, to: EndpointState): Data {
    if MayMoveEndpoint(d, org, id, to) then d.(endpoints := d.endpoints[id := d.endpoints[id].(state := to)]) else d
  }

  function IdempLookup(d: Data, key: string): Option<Id> {
    if key != "" && key in d.idemp then Some(d.idemp[key]) else None
  }

  function IdempStore(d: Data, key: string, id: Id): Data {
    if key == "" then d else d.(idemp := d.idemp[key := id])
  }

  /** At most one locked write to the store: what a step of a call does to it. */
  datatype Write =
    | NoWrite
    | Insert(record: Record)
    | Meter(event: MeteringEvent)
    | Complete(op: Id, result: OpResult)
    | Fail(op: Id)
    | MoveBranch(org: Id, id: Id, branchTo: BranchState)
    | MoveEndpoint(org: Id, id: Id, endpointTo: EndpointState)

  function Written(d: Data, w: Write): Data {
    match w
    case NoWrite => d
    case Insert(r) => Put(d, r)
    case Meter(e) => AddMetering(d, e)
    case Complete(op, result) => CompleteOp(d, op, result)
    case Fail(op) => FailOp(d, op)
    case MoveBranch(org, id, to) => TransitionBranch(d, org, id, to)
    case MoveEndpoint(org, id, to) => TransitionEndpoint(d, org, id, to)
  }

  // ---- Usage ----

  /** The metered total of one kind for one organisation. */
  function Usage(events: seq<MeteringEvent>, org: Id, kind: MeterKind): real {
    if events == [] then 0.0
    else
      var e := events[|events| - 1];
      Usage(events[..|events| - 1], org, kind) + (if e.org == org && e.kind == kind then e.value else 0.0)
  }

  lemma {:induction false} UsageAdds(a: seq<MeteringEvent>, b: seq<MeteringEvent>, org: Id, kind: MeterKind)
    ensures Usage(a + b, org, kind) == Usage(a, org, kind) + Usage(b, org, kind)
  {
    if b == [] {
      assert a + b == a;
    } else {
      var n := |b| - 1;
      assert (a + b)[..|a| + n] == a + b[..n];
      UsageAdds(a, b[..n], org, kind);
    }
  }

  /** Usage is the sum of the values of the organisation's events of the kind, whatever their order. */
  lemma UsageIsSum(a: seq<MeteringEvent>, e: MeteringEvent, b: seq<MeteringEvent>, org: Id, kind: MeterKind)
    ensures Usage([], org, kind) == 0.0
    ensures Usage(a + [e] + b, org, kind) == Usage(a + b, org, kind) + if e.org == org && e.kind == kind then e.value else 0.0
  {
    UsageAdds(a + [e], b, org, kind);
    UsageAdds(a, [e], org, kind);
    UsageAdds(a, b, org, kind);
    assert [e][..0] == [];
  }

  ghost predicate Metered(events: seq<MeteringEvent>, org: Id, kind: MeterKind) {
    exists e :: e in events && e.org == org && e.kind == kind
  }

  // ---- The store as an object ----

  class Store {
    var projects: map<Id, Project>
    var branches: map<Id, Branch>
    var endpoints: map<Id, Endpoint>
    var operations: map<Id, Operation>
    var metering: seq<MeteringEvent>
    var idemp: map<string, Id>

    ghost function View(): Data
      reads this
    {
      Data(projects, branches, endpoints, operations, metering, idemp)
    }

    constructor ()
      ensures View() == EMPTY
    {
      projects, branches, endpoints, operations, metering, idemp := map[], map[], map[], map[], [], map[];
    }

    method LookupProject(org: Id, id: Id) returns (p: Option<Project>)
      ensures p == if id in projects && projects[id].org == org then Some(projects[id]) else None
      ensures p == GetProject(View(), org, id)
    {
      if id !in projects || projects[id].org != org {
        return None;
      }
      return Some(projects[id]);
    }

    method LookupBranch(org: Id, id: Id) returns (b: Option<Branch>)
      ensures b == if id in branches && branches[id].org == org then Some(branches[id]) else None
      ensures b == GetBranch(View(), org, id)
    {
      if id !in branches || branches[id].org != org {
        return None;
      }
      return Some(branches[id]);
    }

    method LookupEndpoint(org: Id, id: Id) returns (e: Option<Endpoint>)
      ensures e == if id in endpoints && endpoints[id].org == org then Some(endpoints[id]) else None
      ensures e == GetEndpoint(View(), org, id)
    {
      if id !in endpoints || endpoints[id].org != org {
        return None;
      }
      return Some(endpoints[id]);
    }

    method LookupEndpointRef(id: Id) returns (e: Option<Endpoint>)
      ensures e == if id in endpoints then Some(endpoints[id]) else None
      ensures e == EndpointRef(View(), id)
    {
      if id !in endpoints {
        return None;
      }
      return Some(endpoints[id]);
    }

    method Snapshot(org: Id, id: Id) returns (op: Option<Operation>)
      ensures op == if id in operations && operations[id].org == org then Some(operations[id]) else None
      ensures op == OpSnapshot(View(), org, id)
    {
      if id !in operations || operations[id].org != org {
        return None;
      }
      return Some(operations[id]);
    }

    method Insert(r: Record)
      modifies this
      ensures projects == if r.ProjectRecord? then old(projects)[r.project.id := r.project] else old(projects)
      ensures branches == if r.BranchRecord? then old(branches)[r.branch.id := r.branch] else old(branches)
      ensures endpoints == if r.EndpointRecord? then old(endpoints)[r.endpoint.id := r.endpoint] else old(endpoints)
      ensures operations == if r.OperationRecord? then old(operations)[r.op.id := r.op] else old(operations)
      ensures metering == old(metering) && idemp == old(idemp)
      ensures View() == Put(old(View()), r)
    {
      match r {
        case ProjectRecord(p) => projects := projects[p.id := p];
        case BranchRecord(b) => branches := branches[b.id := b];
        case EndpointRecord(e) => endpoints := endpoints[e.id := e];
        case OperationRecord(o) => operations := operations[o.id := o];
      }
    }

    method Meter(e: MeteringEvent)
      modifies this`metering
      ensures metering == old(metering) + [e]
      ensures View() == AddMetering(old(View()), e)
    {
      metering := metering + [e];
    }

    /** Kinds without an event are absent; every other kind carries its total. */
    method UsageRollup(org: Id) returns (out: map<MeterKind, real>)
      ensures forall kind :: kind in out <==> Metered(metering, org, kind)
      ensures forall kind :: kind in out ==> out[kind] == Usage(metering, org, kind)
    {
      out := map[];
      for i := 0 to |metering|
        invariant forall kind :: kind in out <==> Metered(metering[..i], org, kind)
        invariant forall kind :: (if kind in out then out[kind] else 0.0) == Usage(metering[..i], org, kind)
      {
        var e := metering[i];
        assert metering[..i + 1] == metering[..i] + [e];
        if e.org == org {
          out := out[e.kind := (if e.kind in out then out[e.kind] else 0.0) + e.value];
        }
      }
      assert metering[..|metering|] == metering;
    }

    method Complete(id: Id, result: OpResult)
      modifies this`operations
      ensures operations ==
        if id in old(operations) then old(operations)[id := old(operations[id]).(status := Succeeded, result := result)] else old(operations)
      ensures View() == CompleteOp(old(View()), id, result)
    {
      if id in operations {
        operations := operations[id := operations[id].(status := Succeeded, result := result)];
      }
    }

    method Fail(id: Id)
      modifies this`operations
      ensures operations == if id in old(operations) then old(operations)[id := old(operations[id]).(status := Failed)] else old(operations)
      ensures View() == FailOp(old(View()), id)
    {
      if id in operations {
        operations := operations[id := operations[id].(status := Failed)];
      }
    }

    method MoveBranch(org: Id, id: Id, to: BranchState) returns (ok: bool)
      modifies this`branches
      ensures id in old(branches) && old(branches[id]).org == org ==>
        (ok <==> match old(branches[id]).state {
          case BranchCreating => to == BranchReady || to == BranchDeleted
          case BranchReady => to == BranchDeleted
          case BranchDeleted => false
        })
      ensures ok ==> id in old(branches) && old(branches[id]).org == org
      ensures branches == if ok then old(branches)[id := old(branches[id]).(state := to)] else old(branches)
      ensures View() == TransitionBranch(old(View()), org, id, to)
      ensures ok == old(MayMoveBranch(View(), org, id, to))
    {
      if id !in branches || branches[id].org != org {
        return false;
      }
      if to !in BranchTransitions(branches[id].state) {
        return false;
      }
      branches := branches[id := branches[id].(state := to)];
      return true;
    }

    method MoveEndpoint(org: Id, id: Id, to: EndpointState) returns (ok: bool)
      modifies this`endpoints
      ensures id in old(endpoints) && old(endpoints[id]).org == org ==>
        (ok <==> match old(endpoints[id]).state {
          case EndpointCreating => to == EndpointActive || to == EndpointDeleted
          case EndpointActive => to == EndpointSuspended || to == EndpointDeleted
          case EndpointSuspended => to == EndpointActive || to == EndpointDeleted
          case EndpointDeleted => false
        })
      ensures ok ==> id in old(endpoints) && old(endpoints[id]).org == org
      ensures endpoints == if ok then old(endpoints)[id := old(endpoints[id]).(state := to)] else old(endpoints)
      ensures View() == TransitionEndpoint(old(View()), org, id, to)
      ensures ok == old(MayMoveEndpoint(View(), org, id, to))
    {
      if id !in endpoints || endpoints[id].org != org {
        return false;
      }
      if to !in EndpointTransitions(endpoints[id].state) {
        return false;
      }
      endpoints := endpoints[id := endpoints[id].(state := to)];
      return true;
    }

    method LookupKey(key: string) returns (id: Option<Id>)
      ensures id == if key != "" && key in idemp then Some(idemp[key]) else None
      ensures id == IdempLookup(View(), key)
    {
      if key == "" || key !in idemp {
        return None;
      }
      return Some(idemp[key]);
    }

    method StoreKey(key: string, id: Id)
      modifies this`idemp
      ensures idemp == if key == "" then old(idemp) else old(idemp)[key := id]
      ensures View() == IdempStore(old(View()), key, id)
    {
      if key == "" {
        return;
      }
      idemp := idemp[key := id];
    }
  }
}
