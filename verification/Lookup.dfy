/** The reverse lookup by modelbox task, in every run whose reruns succeed. */
module Lookup {
  import opened Types
  import opened Protocol
  import opened Invariants
  import opened Runs
  import opened Reachable

  /** A task that was launched has a modelbox task. */
  ghost predicate Boxed(s: State) {
    forall r | 0 <= r < |s.incs| :: s.incs[r].launched.Some? ==> s.incs[r].box.Some?
  }

  lemma BoxStaysNonNull(s: State, step: Step, r: Ref)
    requires Inv(s) && Enabled(s, step) && Boxed(s) && RerunsSucceed(s, step)
    requires r < |Next(s, step).incs| && Next(s, step).incs[r].launched.Some?
    ensures Next(s, step).incs[r].box.Some?
  {
    hide WF, IncsOk, BoxesOk, GroupsOk, TasksOk, CallbacksOk, HandlerAfter, CallbacksAfter, BeatAfter;
    hide GroupsAfter, TasksAfter, CloudAfter, BoxesAfter;
  }

  lemma {:induction false} RunKeepsBoxed(s: State, steps: seq<Step>)
    requires Inv(s) && Run(s, steps) && SteadyRun(s, steps) && Boxed(s)
    ensures Boxed(Exec(s, steps))
    decreases |steps|
  {
    hide WF, HandlerOk, IncsOk, BoxesOk, GroupsOk, TasksOk, CallbacksOk, Enabled, Next;
    if steps == [] {
    } else {
      StepKeeps(s, steps[0]);
      var s' := Next(s, steps[0]);
      forall r | 0 <= r < |s'.incs| && s'.incs[r].launched.Some? ensures s'.incs[r].box.Some? {
        BoxStaysNonNull(s, steps[0], r);
      }
      RunKeepsBoxed(s', steps[1..]);
    }
  }

  lemma EntriesBoxed(s0: State, steps: seq<Step>)
    requires SteadyTrace(s0, steps)
    ensures var s := Last(s0, steps); forall t | t in s.tasks :: s.incs[s.tasks[t]].box.Some?
  {
    hide HandlerOk, IncsOk, BoxesOk, GroupsOk, TasksOk, CallbacksOk, EndsOk, EarlyOk;
    InitialInv(s0);
    RunKeepsBoxed(s0, steps);
    TraceSound(s0, steps);
  }

  // ------------------------------------------------------------------ the lookup is exact

  /** The entry whose current modelbox task is m. */
  predicate Owner(s: State, m: BoxId, t: TaskId)
    requires forall u | u in s.tasks :: s.tasks[u] < |s.incs|
  {
    t in s.tasks && s.incs[s.tasks[t]].box == Some(m)
  }

  lemma DistinctBoxes(s: State, t: TaskId, u: TaskId)
    requires Inv(s) && t in s.tasks && u in s.tasks && t != u && s.incs[s.tasks[t]].box.Some?
    ensures s.incs[s.tasks[t]].box != s.incs[s.tasks[u]].box
  {
    hide HandlerOk, IncsOk, BoxesOk, GroupsOk, CallbacksOk;
    IncHas(s, s.tasks[t]);
    IncHas(s, s.tasks[u]);
    assert TaskOk(t, s.tasks[t], s.incs[s.tasks[t]], s.groups);
    assert TaskOk(u, s.tasks[u], s.incs[s.tasks[u]], s.groups);
  }

  /** Reverse lookup is exact.  In every run whose reruns succeed, whenever the reports come and whatever
      ids are used: all entries have distinct non-null modelbox tasks, so the scan returns an entry exactly
      when that entry's current task is m, across any number of reruns. */
  lemma ReverseLookupExact(s0: State, steps: seq<Step>, m: BoxId, hit: Option<TaskId>)
    requires SteadyTrace(s0, steps)
    ensures var s := Last(s0, steps);
            && (forall t | t in s.tasks :: s.incs[s.tasks[t]].box.Some?)
            && (forall t, u | t in s.tasks && u in s.tasks &&
               t != u :: s.incs[s.tasks[t]].box != s.incs[s.tasks[u]].box)
            && (ScanResult(s, m, hit) <==>
                  match hit
                  case Some(t) => Owner(s, m, t)
                  case None => forall t :: !Owner(s, m, t))
  {
    hide HandlerOk, IncsOk, BoxesOk, GroupsOk, CallbacksOk, TasksOk;
    EntriesBoxed(s0, steps);
    var s := Last(s0, steps);
    forall t, u | t in s.tasks && u in s.tasks && t != u ensures s.incs[s.tasks[t]].box != s.incs[s.tasks[u]].box {
      DistinctBoxes(s, t, u);
    }
    ScanOwner(s, m, hit);
  }

  lemma ScanOwner(s: State, m: BoxId, hit: Option<TaskId>)
    requires WF(s) && forall t | t in s.tasks :: s.incs[s.tasks[t]].box.Some?
    ensures ScanResult(s, m, hit) <==> match hit case Some(t) => Owner(s, m, t) case None => forall t :: !Owner(s, m, t)
  {
    assert forall t | t in s.tasks :: t in EntryBoxes(s) && EntryBoxes(s)[t] == s.incs[s.tasks[t]].box;
    if hit.None? && (forall t :: !Owner(s, m, t)) {
      forall t | t in EntryBoxes(s) ensures EntryBoxes(s)[t] != Some(m) { assert !Owner(s, m, t); }
    }
  }

  // ------------------------------------------------------------------ when the callback dereferences null

  /** In every such run the lookup of a reporting modelbox task comes back with null exactly when the
      manager's table does not hold that task's owner. */
  lemma LookupFailsExactly(s0: State, steps: seq<Step>, m: BoxId)
    requires SteadyTrace(s0, steps)
    requires var s := Last(s0, steps); !s.crashed && m in s.callbacks && s.callbacks[m].Lookup?
    ensures var s := Last(s0, steps);
            && m < |s.boxes| && s.boxes[m].owner < |s.incs|
            && var r := s.boxes[m].owner;
            && var id := s.incs[r].id;
               Enabled(s, CallbackLookup(m, None)) <==> !(id in s.tasks && s.tasks[id] == r)
  {
    hide HandlerOk, IncsOk, BoxesOk, GroupsOk, CallbacksOk, TasksOk, AnchorOf;
    var s := Last(s0, steps);
    CallbackHas(s, m);
    ReverseLookupExact(s0, steps, m, None);
    var r := s.boxes[m].owner;
    forall t ensures Owner(s, m, t) ==> t == s.incs[r].id && s.tasks[t] == r {
      if Owner(s, m, t) {
        IncHas(s, s.tasks[t]);
        assert TaskOk(t, s.tasks[t], s.incs[s.tasks[t]], s.groups) by { TaskHas(s, t); }
      }
    }
    assert Owner(s, m, s.incs[r].id) <==> s.incs[r].id in s.tasks && s.tasks[s.incs[r].id] == r by {
      OwnerBox(s, m, r);
    }
  }

  lemma TaskHas(s: State, t: TaskId)
    requires Inv(s) && t in s.tasks
    ensures TaskOk(t, s.tasks[t], s.incs[s.tasks[t]], s.groups)
  {
    hide HandlerOk, IncsOk, BoxesOk, GroupsOk, CallbacksOk;
  }

  lemma OwnerBox(s: State, m: BoxId, r: Ref)
    requires Inv(s) && r < |s.incs| && s.incs[r].box == Some(m)
    ensures Owner(s, m, s.incs[r].id) <==> s.incs[r].id in s.tasks && s.tasks[s.incs[r].id] == r
  {
    hide HandlerOk, IncsOk, BoxesOk, GroupsOk, CallbacksOk, TasksOk;
    var id := s.incs[r].id;
    if id in s.tasks && s.incs[s.tasks[id]].box == Some(m) {
      IncHas(s, r);
      IncHas(s, s.tasks[id]);
    }
  }
}
