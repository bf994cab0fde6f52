/** Idempotency keys: looked up before an operation is created, stored after it. */
module Idempotency {
  import opened Model
  import opened Stores

  // ---- One call, and calls one after the other ----

  /** A call: its key, and the operation it creates when the key is not known. */
  datatype Call = Call(key: string, op: Operation)

  datatype Started = Started(id: Id, replayed: bool)

  function Start(d: Data, c: Call): (Data, Started) {
    match IdempLookup(d, c.key)
    case Some(prev) => (d, Started(prev, true))
    case None => (IdempStore(Put(d, OperationRecord(c.op)), c.key, c.op.id), Started(c.op.id, false))
  }

  method StartOp(store: Store, key: string, op: Operation) returns (r: Started)
    modifies store
    ensures r.replayed <==> key != "" && key in old(store.idemp)
    ensures r.id == if r.replayed then old(store.idemp)[key] else op.id
    ensures store.operations == if r.replayed then old(store.operations) else old(store.operations)[op.id := op]
    ensures store.idemp == if r.replayed || key == "" then old(store.idemp) else old(store.idemp)[key := op.id]
    ensures (store.View(), r) == Start(old(store.View()), Call(key, op))
  {
    var prev := store.LookupKey(key);
    if prev.Some? {
      return Started(prev.value, true);
    }
    store.Insert(OperationRecord(op));
    store.StoreKey(key, op.id);
    r := Started(op.id, false);
  }

  function Serve(d: Data, calls: seq<Call>): (r: (Data, seq<Id>))
    ensures |r.1| == |calls|
  {
    if calls == [] then (d, [])
    else
      var (d', answers) := Serve(d, calls[..|calls| - 1]);
      var (d'', a) := Start(d', calls[|calls| - 1]);
      (d'', answers + [a.id])
  }

  predicate FreshIds(d: Data, calls: seq<Call>) {
    && (forall i :: 0 <= i < |calls| ==> calls[i].op.id !in d.ops)
    && (forall i, j :: 0 <= i < j < |calls| ==> calls[i].op.id != calls[j].op.id)
  }

  function KeysOf(calls: seq<Call>): set<string> {
    set c | c in calls && c.key != "" :: c.key
  }

  function Keyless(calls: seq<Call>): nat {
    if calls == [] then 0
    else Keyless(calls[..|calls| - 1]) + (if calls[|calls| - 1].key == "" then 1 else 0)
  }

  /** The first call with the key, or |calls|. */
  function FirstWith(calls: seq<Call>, key: string): (k: nat)
    ensures k <= |calls| && (k < |calls| ==> calls[k].key == key)
    ensures forall j :: 0 <= j < k ==> calls[j].key != key
  {
    if calls == [] then 0
    else
      var n := |calls| - 1;
      var k := FirstWith(calls[..n], key);
      if k < n || calls[n].key == key then k else n + 1
  }

  /** The call whose operation answers call `i`: itself, or the first with its nonempty key. */
  function Maker(calls: seq<Call>, i: nat): (k: nat)
    requires i < |calls|
    ensures k <= i
  {
    if calls[i].key == "" then i else FirstWith(calls, calls[i].key)
  }

  predicate Made(calls: seq<Call>, i: nat, a: Id) {
    i < |calls| && a == calls[Maker(calls, i)].op.id
  }

  predicate Holds(calls: seq<Call>, key: string, a: Id) {
    FirstWith(calls, key) < |calls| && a == calls[FirstWith(calls, key)].op.id
  }

  ghost predicate Served(calls: seq<Call>, idemp: map<string, Id>, answers: seq<Id>) {
    && |answers| == |calls| && idemp.Keys == KeysOf(calls)
    && (forall i :: 0 <= i < |answers| ==> Made(calls, i, answers[i]))
    && (forall key :: key in idemp ==> Holds(calls, key, idemp[key]))
  }

  lemma MoreKeys(calls: seq<Call>, c: Call)
    ensures KeysOf(calls + [c]) == KeysOf(calls) + if c.key == "" then {} else {c.key}
  {
  }

  lemma StillMade(calls: seq<Call>, c: Call, i: nat, a: Id)
    requires Made(calls, i, a)
    ensures Made(calls + [c], i, a)
  {
  }

  lemma KeysServed(d: Data, calls: seq<Call>, c: Call)
    requires forall key :: key in d.idemp ==> Holds(calls, key, d.idemp[key])
    requires d.idemp.Keys == KeysOf(calls)
    ensures var after := Start(d, c).0.idemp;
      after.Keys == KeysOf(calls + [c]) && forall key :: key in after ==> Holds(calls + [c], key, after[key])
  {
  }

  lemma AnswerServed(d: Data, calls: seq<Call>, c: Call)
    requires forall key :: key in d.idemp ==> Holds(calls, key, d.idemp[key])
    requires d.idemp.Keys == KeysOf(calls)
    ensures Made(calls + [c], |calls|, Start(d, c).1.id)
  {
  }

  lemma OneMore(d: Data, calls: seq<Call>, answers: seq<Id>, c: Call)
    requires Served(calls, d.idemp, answers)
    ensures Served(calls + [c], Start(d, c).0.idemp, answers + [Start(d, c).1.id])
  {
    KeysServed(d, calls, c);
    AnswerServed(d, calls, c);
    forall i | 0 <= i < |calls| ensures Made(calls + [c], i, answers[i]) {
      StillMade(calls, c, i, answers[i]);
    }
  }

  lemma {:induction false} ServeLaw(d: Data, calls: seq<Call>)
    requires d.idemp == map[]
    ensures Served(calls, Serve(d, calls).0.idemp, Serve(d, calls).1)
  {
    if calls != [] {
      var n := |calls| - 1;
      ServeLaw(d, calls[..n]);
      OneMore(Serve(d, calls[..n]).0, calls[..n], Serve(d, calls[..n]).1, calls[n]);
      ServeMore(d, calls[..n], calls[n]);
      assert calls[..n] + [calls[n]] == calls;
    }
  }

  function OpIds(calls: seq<Call>): set<Id> {
    set c | c in calls :: c.op.id
  }

  /** As many operations as there are calls without a key and distinct keys. */
  function Wanted(calls: seq<Call>): nat {
    Keyless(calls) + |KeysOf(calls)|
  }

  ghost predicate Counted(before: map<Id, Operation>, ids: set<Id>, n: nat, ops: map<Id, Operation>) {
    ops.Keys <= before.Keys + ids && |ops| == |before| + n
  }

  lemma FreshOne(d: Data, calls: seq<Call>, c: Call)
    requires FreshIds(d, calls + [c])
    ensures FreshIds(d, calls) && c.op.id !in d.ops.Keys + OpIds(calls)
    ensures OpIds(calls + [c]) == OpIds(calls) + {c.op.id}
  {
    var all := calls + [c];
    assert all[|calls|] == c && forall i :: 0 <= i < |calls| ==> all[i] == calls[i];
  }

  lemma WantedMore(calls: seq<Call>, c: Call)
    ensures Wanted(calls + [c]) == Wanted(calls) + if c.key == "" || c.key !in KeysOf(calls) then 1 else 0
  {
    assert (calls + [c])[..|calls|] == calls;
    MoreKeys(calls, c);
    if c.key == "" || c.key in KeysOf(calls) {
      assert KeysOf(calls + [c]) == KeysOf(calls);
    }
  }

  lemma CountOne(before: map<Id, Operation>, ids: set<Id>, n: nat, s: Data, c: Call)
    requires c.op.id !in before.Keys + ids && Counted(before, ids, n, s.ops)
    ensures Counted(before, ids + {c.op.id}, n + if c.key != "" && c.key in s.idemp then 0 else 1, Start(s, c).0.ops)
  {
  }

  lemma ServeMore(d: Data, calls: seq<Call>, c: Call)
    ensures var (s, answers) := Serve(d, calls);
      Serve(d, calls + [c]) == (Start(s, c).0, answers + [Start(s, c).1.id])
  {
  }

  ghost predicate Counts(d: Data, calls: seq<Call>, s: Data, answers: seq<Id>) {
    && Counted(d.ops, OpIds(calls), Wanted(calls), s.ops)
    && (forall id :: id in answers ==> id in s.ops)
  }

  lemma AnswersStay(s: Data, answers: seq<Id>, c: Call)
    requires forall id :: id in answers ==> id in s.ops
    requires c.key in s.idemp ==> s.idemp[c.key] in answers
    ensures forall id :: id in answers + [Start(s, c).1.id] ==> id in Start(s, c).0.ops
  {
  }

  lemma CountMore(d: Data, calls: seq<Call>, s: Data, c: Call)
    requires Counted(d.ops, OpIds(calls), Wanted(calls), s.ops) && s.idemp.Keys == KeysOf(calls)
    requires c.op.id !in d.ops.Keys + OpIds(calls) && OpIds(calls + [c]) == OpIds(calls) + {c.op.id}
    ensures Counted(d.ops, OpIds(calls + [c]), Wanted(calls + [c]), Start(s, c).0.ops)
  {
    var ids, n, n' := OpIds(calls), Wanted(calls), Wanted(calls + [c]);
    WantedMore(calls, c);
    assert n' == n + if c.key != "" && c.key in s.idemp then 0 else 1;
    CountOne(d.ops, ids, n, s, c);
  }

  lemma {:induction false} ServeCounts(d: Data, calls: seq<Call>)
    requires FreshIds(d, calls) && d.idemp == map[]
    ensures Counts(d, calls, Serve(d, calls).0, Serve(d, calls).1)
  {
    if calls != [] {
      var n := |calls| - 1;
      assert calls[..n] + [calls[n]] == calls;
      ServeCounts(d, calls[..n]);
      ServeLaw(d, calls[..n]);
      var (s, answers) := Serve(d, calls[..n]);
      FreshOne(d, calls[..n], calls[n]);
      StoredIsAnswer(calls[..n], s.idemp, answers, calls[n].key);
      AnswersStay(s, answers, calls[n]);
      CountMore(d, calls[..n], s, calls[n]);
      ServeMore(d, calls[..n], calls[n]);
    }
  }

  lemma StoredIsAnswer(calls: seq<Call>, idemp: map<string, Id>, answers: seq<Id>, key: string)
    requires Served(calls, idemp, answers)
    ensures key in idemp ==> idemp[key] in answers
  {
    if key in idemp {
      assert Holds(calls, key, idemp[key]);
      assert Made(calls, FirstWith(calls, key), answers[FirstWith(calls, key)]);
    }
  }

  /** Calls one after the other: two calls get the same operation exactly when they carry the same nonempty key;
      it is the operation the first of them created; and as many operations are created as there are calls
      without a key and distinct keys. */
  lemma ReplayExact(d: Data, calls: seq<Call>)
    requires FreshIds(d, calls) && d.idemp == map[]
    ensures var (d', answers) := Serve(d, calls);
      && (forall i, j :: 0 <= i < j < |calls| ==> (answers[i] == answers[j] <==> calls[i].key == calls[j].key && calls[i].key != ""))
      && (forall i :: 0 <= i < |calls| ==> Made(calls, i, answers[i]))
      && (forall id :: id in answers ==> id in d'.ops)
      && |d'.ops| == |d.ops| + Wanted(calls)
  {
    ServeLaw(d, calls);
    ServeCounts(d, calls);
    var answers := Serve(d, calls).1;
    forall i, j | 0 <= i < j < |calls| ensures answers[i] == answers[j] <==> calls[i].key == calls[j].key && calls[i].key != "" {
      SameMaker(d, calls, i, j);
      assert Made(calls, i, answers[i]) && Made(calls, j, answers[j]);
    }
  }

  lemma SameMaker(d: Data, calls: seq<Call>, i: nat, j: nat)
    requires FreshIds(d, calls) && i < j < |calls|
    ensures calls[Maker(calls, i)].op.id == calls[Maker(calls, j)].op.id <==> calls[i].key == calls[j].key && calls[i].key != ""
  {
  }
}
