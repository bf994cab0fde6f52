/** The routing registry: endpoint id to backend, filled by the control plane. */
module Routing {
  import opened Model

  // ---- The registry as a value ----

  datatype RouteState = RouteActive | RouteSuspended

  datatype Route = Route(addr: string, state: RouteState)

  /** `table` holds references into `cells`: Resolve keeps a reference across the wake hook. */
  datatype Registry = Registry(table: map<Id, nat>, cells: seq<Route>) {
    predicate Valid() {
      && (forall id :: id in table ==> table[id] < |cells|)
      && (forall id1, id2 :: id1 in table && id2 in table && table[id1] == table[id2] ==> id1 == id2)
    }
  }

  function AddRoute(r: Registry, id: Id, addr: string, state: RouteState): Registry {
    Registry(r.table[id := |r.cells|], r.cells + [Route(addr, state)])
  }

  function SetRouteState(r: Registry, id: Id, state: RouteState): Registry {
    if id in r.table && r.table[id] < |r.cells|
    then r.(cells := r.cells[r.table[id] := r.cells[r.table[id]].(state := state)])
    else r
  }

  function WriteAddr(r: Registry, ref: nat, addr: string): Registry {
    if ref < |r.cells| then r.(cells := r.cells[ref := r.cells[ref].(addr := addr)]) else r
  }

  function WriteState(r: Registry, ref: nat, state: RouteState): Registry {
    if ref < |r.cells| then r.(cells := r.cells[ref := r.cells[ref].(state := state)]) else r
  }

  // ---- The registry as an object ----

  class Backend {
    var addr: string
    var state: RouteState

    constructor (addr: string, state: RouteState)
      ensures this.addr == addr && this.state == state
    {
      this.addr, this.state := addr, state;
    }

    function Get(): Route
      reads this
    {
      Route(addr, state)
    }
  }

  class RoutingRegistry {
    var tbl: map<Id, Backend>
    ghost var cells: seq<Backend>    // every backend ever registered, in order
    ghost var refs: map<Id, nat>     // the position of each table entry in `cells`

    ghost predicate Valid()
      reads this
    {
      && refs.Keys == tbl.Keys
      && (forall id :: id in tbl ==> refs[id] < |cells| && cells[refs[id]] == tbl[id])
      && (forall i, j :: 0 <= i < j < |cells| ==> cells[i] != cells[j])
    }

    ghost function View(): Registry
      reads this, cells
    {
      Registry(refs, seq(|cells|, i requires 0 <= i < |cells| reads this, cells => cells[i].Get()))
    }

    constructor ()
      ensures Valid() && fresh(cells) && View() == Registry(map[], [])
    {
      tbl, cells, refs := map[], [], map[];
    }

    method Register(id: Id, addr: string, state: RouteState)
      requires Valid()
      modifies this
      ensures Valid() && old(cells) <= cells && fresh(cells[|old(cells)|..])
      ensures tbl.Keys == old(tbl.Keys) + {id} && fresh(tbl[id]) && tbl[id].addr == addr && tbl[id].state == state
      ensures forall k :: k in old(tbl) && k != id ==> tbl[k] == old(tbl[k])
      ensures View() == AddRoute(old(View()), id, addr, state)
    {
      var b := new Backend(addr, state);
      ghost var was := View();
      tbl := tbl[id := b];
      refs := refs[id := |cells|];
      cells := cells + [b];
      assert View().cells == was.cells + [Route(addr, state)];
    }

    method SetState(id: Id, state: RouteState)
      requires Valid()
      modifies cells
      ensures id in tbl ==> tbl[id].state == state && tbl[id].addr == old(tbl[id].addr)
      ensures forall b :: b in cells && !(id in tbl && b == tbl[id]) ==> b.addr == old(b.addr) && b.state == old(b.state)
      ensures Valid() && View() == SetRouteState(old(View()), id, state)
    {
      if id in tbl {
        tbl[id].state := state;
      }
    }

    /** The first critical section of Resolve: a reference that is then used without the lock. */
    method Lookup(id: Id) returns (b: Backend?, ghost ref: nat)
      requires Valid()
      ensures if id in tbl then b == tbl[id] else b == null
      ensures (b != null) == (id in View().table)
      ensures b != null ==> ref == View().table[id] && ref < |cells| && cells[ref] == b && View().cells[ref] == b.Get()
    {
      ref := 0;
      if id in tbl {
        return tbl[id], refs[id];
      }
      return null, 0;
    }

    /** The last critical section of Resolve, through the reference taken before the wake hook ran. */
    method Install(b: Backend, ghost ref: nat, addr: string)
      requires Valid() && ref < |cells| && cells[ref] == b
      modifies b
      ensures b.addr == addr && b.state == RouteActive
      ensures Valid() && View() == WriteState(WriteAddr(old(View()), ref, addr), ref, RouteActive)
    {
      b.addr := addr;
      b.state := RouteActive;
    }
  }
}
