/** Domain records and state tables of the control plane. */
module Model {

  type Id = string

  datatype Option<+T> = None | Some(value: T)

  // ---- Node states and their transition tables ----

  datatype BranchState = BranchCreating | BranchReady | BranchDeleted

  datatype EndpointState = EndpointCreating | EndpointActive | EndpointSuspended | EndpointDeleted

  /** The states a branch may move to. */
  function BranchTransitions(from: BranchState): set<BranchState> {
    match from
    case BranchCreating => {BranchReady, BranchDeleted}
    case BranchReady => {BranchDeleted}
    case BranchDeleted => {}
  }

  /** The states an endpoint may move to; suspended to active is the wake-up. */
  function EndpointTransitions(from: EndpointState): set<EndpointState> {
    match from
    case EndpointCreating => {EndpointActive, EndpointDeleted}
    case EndpointActive => {EndpointSuspended, EndpointDeleted}
    case EndpointSuspended => {EndpointActive, EndpointDeleted}
    case EndpointDeleted => {}
  }

  // ---- Records ----

  datatype Project = Project(id: Id, org: Id, name: string, region: string, root: Id)

  datatype Branch = Branch(id: Id, org: Id, project: Id, parent: Id, state: BranchState)

  datatype Endpoint = Endpoint(id: Id, org: Id, branch: Id, state: EndpointState, minCU: real, maxCU: real)

  datatype OpKind = CreateProject | CreateBranch | StartEndpoint

  datatype OpStatus = Running | Succeeded | Failed

  /** What completeOp stores as the result of an operation. */
  datatype OpResult =
    | NoResult
    | ProjectResult(project: Id, rootBranch: Id)
    | BranchResult(branch: Id)
    | EndpointResult(endpoint: Id, bootMs: int, warmHit: bool)

  datatype Operation = Operation(id: Id, org: Id, kind: OpKind, status: OpStatus, result: OpResult)

  datatype MeterKind = CuHours | GbMonth | Egress | BranchOps

  datatype MeteringEvent = MeteringEvent(org: Id, kind: MeterKind, value: real)
}
