/** Induction over the runs of the control plane, and runs as lists of events. */
module Runs {
  import opened ControlPlane

  // ---- Induction over runs ----

  ghost predicate KeptAt(w: World, keep: State -> bool, s: State, e: Event) {
    keep(s) && Enabled(s, e) ==> keep(Apply(w, s, e))
  }

  /** True at the start and kept by every event. */
  ghost predicate Inductive(w: World, keep: State -> bool) {
    && (forall now :: keep(Initial(w, now)))
    && (forall s, e :: KeptAt(w, keep, s, e))
  }

  lemma {:induction false} RunHas(w: World, run: seq<State>, i: nat, keep: State -> bool)
    requires Inductive(w, keep) && IsRun(w, run) && i < |run|
    ensures keep(run[i])
  {
    if i > 0 {
      RunHas(w, run, i - 1, keep);
      assert StepAt(w, run, i - 1);
      var e :| Enabled(run[i - 1], e) && run[i] == Apply(w, run[i - 1], e);
      assert KeptAt(w, keep, run[i - 1], e);
    }
  }

  lemma ReachableHas(w: World, s: State, keep: State -> bool)
    requires Inductive(w, keep) && Reachable(w, s)
    ensures keep(s)
  {
    var run :| IsRun(w, run) && run[|run| - 1] == s;
    RunHas(w, run, |run| - 1, keep);
  }

  lemma ReachesRun(w: World, run: seq<State>, i: nat)
    requires IsRun(w, run) && i < |run|
    ensures Reachable(w, run[i])
  {
    var front := run[..i + 1];
    forall k | 0 <= k < |front| - 1 ensures StepAt(w, front, k) {
      assert StepAt(w, run, k);
    }
    assert IsRun(w, front);
  }

  lemma ReachesStart(w: World, now: int)
    ensures Reachable(w, Initial(w, now))
  {
    var s := Initial(w, now);
    assert IsRun(w, [s]) && [s][|[s]| - 1] == s;
  }

  lemma ReachesMore(w: World, s: State, e: Event)
    requires Reachable(w, s) && Enabled(s, e)
    ensures Reachable(w, Apply(w, s, e))
  {
    var run :| IsRun(w, run) && run[|run| - 1] == s;
    var more := run + [Apply(w, s, e)];
    forall i | 0 <= i < |more| - 1 ensures StepAt(w, more, i) {
      assert i < |run| - 1 ==> StepAt(w, run, i);
    }
    assert IsRun(w, more);
  }

  // ---- Lists of events ----

  lemma {:induction false} ReachesAfter(w: World, s: State, events: seq<Event>)
    requires Reachable(w, s) && CanDo(w, s, events)
    ensures Reachable(w, After(w, s, events))
    decreases events
  {
    if events != [] {
      ReachesMore(w, s, events[0]);
      ReachesAfter(w, Apply(w, s, events[0]), events[1..]);
    }
  }

  lemma {:induction false} Join(w: World, s: State, a: seq<Event>, b: seq<Event>)
    requires CanDo(w, s, a) && CanDo(w, After(w, s, a), b)
    ensures CanDo(w, s, a + b) && After(w, s, a + b) == After(w, After(w, s, a), b)
    decreases a
  {
    if a == [] {
      assert a + b == b;
    } else {
      Join(w, Apply(w, s, a[0]), a[1..], b);
      assert (a + b)[1..] == a[1..] + b;
    }
  }

  lemma DoFirst(w: World, s: State, e: Event, rest: seq<Event>)
    requires Enabled(s, e) && CanDo(w, Apply(w, s, e), rest)
    ensures CanDo(w, s, [e] + rest) && After(w, s, [e] + rest) == After(w, Apply(w, s, e), rest)
  {
    assert ([e] + rest)[1..] == rest;
  }

  lemma DoLast(w: World, s: State, events: seq<Event>, e: Event)
    requires CanDo(w, s, events) && Enabled(After(w, s, events), e)
    ensures CanDo(w, s, events + [e]) && After(w, s, events + [e]) == Apply(w, After(w, s, events), e)
  {
    var t := After(w, s, events);
    DoFirst(w, t, e, []);
    assert [e] + [] == [e];
    Join(w, s, events, [e]);
  }

  ghost predicate EventsTo(w: World, s: State, t: State, events: seq<Event>) {
    CanDo(w, s, events) && After(w, s, events) == t
  }

  ghost predicate Started(w: World, t: State) {
    exists now, events :: EventsTo(w, Initial(w, now), t, events)
  }

  /** A reachable state is the end of some list of events. */
  lemma ReachableByEvents(w: World, s: State) returns (now: int, events: seq<Event>)
    requires Reachable(w, s)
    ensures CanDo(w, Initial(w, now), events) && After(w, Initial(w, now), events) == s
  {
    var keep := (t: State) => Started(w, t);
    forall start ensures keep(Initial(w, start)) {
      assert EventsTo(w, Initial(w, start), Initial(w, start), []);
    }
    forall t, e ensures KeptAt(w, keep, t, e) {
      if keep(t) && Enabled(t, e) {
        var start, past :| EventsTo(w, Initial(w, start), t, past);
        DoLast(w, Initial(w, start), past, e);
        assert EventsTo(w, Initial(w, start), Apply(w, t, e), past + [e]);
      }
    }
    ReachableHas(w, s, keep);
    now, events :| EventsTo(w, Initial(w, now), s, events);
  }
}
