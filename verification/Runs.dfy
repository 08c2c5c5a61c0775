/** Runs of the protocol, and what holds along all of them. */
module Runs {
  import opened Types
  import opened Protocol
  import opened Invariants

  lemma InitialInv(s: State)
    requires Initial(s)
    ensures Inv(s)
  {
  }

  /** The steps can be taken one after the other. */
  ghost predicate Run(s: State, steps: seq<Step>)
    requires Inv(s)
    decreases |steps|
  {
    steps == [] ||
    (Enabled(s, steps[0]) &&
      (assert Inv(Next(s, steps[0])) by { StepKeeps(s, steps[0]); }
       Run(Next(s, steps[0]), steps[1..])))
  }

  ghost function Exec(s: State, steps: seq<Step>): (s': State)
    requires Inv(s) && Run(s, steps)
    ensures Inv(s')
    decreases |steps|
  {
    if steps == [] then s
    else
      assert Inv(Next(s, steps[0])) by { StepKeeps(s, steps[0]); }
      Exec(Next(s, steps[0]), steps[1..])
  }

  /** Runs compose. */
  lemma {:induction false} Compose(s: State, a: seq<Step>, b: seq<Step>)
    requires Inv(s) && Run(s, a) && Run(Exec(s, a), b)
    ensures Run(s, a + b) && Exec(s, a + b) == Exec(Exec(s, a), b)
    decreases |a|
  {
    hide WF, HandlerOk, IncsOk, BoxesOk, GroupsOk, TasksOk, CallbacksOk, Enabled, Next;
    if a == [] {
      assert a + b == b;
    } else {
      StepKeeps(s, a[0]);
      Compose(Next(s, a[0]), a[1..], b);
      assert (a + b)[1..] == a[1..] + b;
    }
  }

  /** A run is its first step and the rest. */
  lemma Unfold(s: State, step: Step, rest: seq<Step>)
    requires Inv(s) && Enabled(s, step) && Inv(Next(s, step)) && Run(Next(s, step), rest)
    ensures Run(s, [step] + rest) && Exec(s, [step] + rest) == Exec(Next(s, step), rest)
  {
    hide WF, HandlerOk, IncsOk, BoxesOk, GroupsOk, TasksOk, CallbacksOk, Enabled, Next;
    assert ([step] + rest)[1..] == rest;
  }

  lemma Extend(s: State, steps: seq<Step>, step: Step)
    requires Inv(s) && Run(s, steps) && Enabled(Exec(s, steps), step)
    ensures Run(s, steps + [step]) && Exec(s, steps + [step]) == Next(Exec(s, steps), step)
  {
    hide WF, HandlerOk, IncsOk, BoxesOk, GroupsOk, TasksOk, CallbacksOk, Enabled, Next;
    var s' := Exec(s, steps);
    StepKeeps(s', step);
    assert [step][1..] == [];
    Compose(s, steps, [step]);
  }

  /** A run from the start of the service. */
  ghost predicate Trace(s0: State, steps: seq<Step>) {
    Initial(s0) && (assert Inv(s0) by { InitialInv(s0); } Run(s0, steps))
  }

  ghost function Last(s0: State, steps: seq<Step>): (s: State)
    requires Trace(s0, steps)
    ensures Inv(s)
  {
    assert Inv(s0) by { InitialInv(s0); }
    Exec(s0, steps)
  }

  // ------------------------------------------------------------------ runs whose reruns succeed

  /** Hypothesis: the reruns whose result ModelBoxTaskStatusCallBack ignores succeed. */
  ghost predicate RerunsSucceed(s: State, step: Step) {
    step.CallbackStep? && step.m in s.callbacks && s.callbacks[step.m].Rerun? ==> step.c == Ok
  }

  ghost predicate SteadyRun(s: State, steps: seq<Step>)
    requires Inv(s) && Run(s, steps)
    decreases |steps|
  {
    steps == [] ||
    (RerunsSucceed(s, steps[0]) &&
      (assert Inv(Next(s, steps[0])) by { StepKeeps(s, steps[0]); }
       SteadyRun(Next(s, steps[0]), steps[1..])))
  }

  ghost predicate SteadyTrace(s0: State, steps: seq<Step>) {
    Trace(s0, steps) && (assert Inv(s0) by { InitialInv(s0); } SteadyRun(s0, steps))
  }

  // ------------------------------------------------------------------ statuses

  predicate Moves(a: Status, b: Status) {
    a == b || (a == PENDING && b == RUNNING) || (a == RUNNING && Terminal(b))
  }

  /** RUNNING is written over PENDING by the creator, and a terminal status over RUNNING only. */
  lemma StatusAccess(s: State, step: Step)
    requires Inv(s) && Enabled(s, step) && StepAccess(s, step).WriteStatus?
    ensures var a := StepAccess(s, step);
            && a.r < |s.incs| && a.status != PENDING
            && Moves(s.incs[a.r].status, a.status) && s.incs[a.r].status != a.status
            && (a.status == RUNNING <==> s.handler.MarkRunning? && step.HandlerStep? && a.r == s.handler.r)
            && (Terminal(a.status) ==> step.CallbackStep? && step.m in s.callbacks && s.callbacks[step.m].SetStatus?)
  {
    hide IncsOk, BoxesOk, GroupsOk, TasksOk, CallbacksOk;
    if step.CallbackStep? { CallbackHas(s, step.m); }
  }

  /** One step moves a status forward by at most one move and keeps ids and listings. */
  lemma StepStatus(s: State, step: Step, r: Ref)
    requires Inv(s) && Enabled(s, step) && r < |s.incs|
    ensures var s' := Next(s, step);
            && r < |s'.incs|
            && s'.incs[r].id == s.incs[r].id
            && s'.incs[r].listing == s.incs[r].listing
            && Moves(s.incs[r].status, s'.incs[r].status)
  {
    hide WF, HandlerOk, IncsOk, BoxesOk, GroupsOk;
    hide TasksOk, CallbacksOk, Enabled, StepAccess, HandlerAfter, CallbacksAfter;
    hide BeatAfter, GroupsAfter, TasksAfter, BoxesAfter, CloudAfter;
    if StepAccess(s, step).WriteStatus? { StatusAccess(s, step); }
  }

  /** Nor does a modelbox task change its owner. */
  lemma OwnersStay(s: State, step: Step, m: BoxId)
    requires Inv(s) && Enabled(s, step) && m < |s.boxes|
    ensures m < |Next(s, step).boxes| && Next(s, step).boxes[m].owner == s.boxes[m].owner
  {
    hide WF, IncsOk, BoxesOk, GroupsOk, TasksOk, CallbacksOk, HandlerOk, GroupsAfter, TasksAfter, CloudAfter, IncsAfter;
    hide HandlerAfter, BeatAfter, CallbacksAfter, StepAccess, Enabled;
  }

  /** Ids are for good, and a new incarnation carries the id of its POST. */
  lemma IdsKept(s: State, step: Step)
    requires Inv(s) && Enabled(s, step)
    ensures var s', a := Next(s, step), StepAccess(s, step);
            && |s.incs| <= |s'.incs|
            && (forall r | 0 <= r < |s.incs| :: s'.incs[r].id == s.incs[r].id)
            && (a.Create? ==> |s'.incs| == |s.incs| + 1 && s'.incs[|s.incs|].id == a.id)
  {
    hide WF, IncsOk, BoxesOk, GroupsOk, TasksOk;
    hide CallbacksOk, HandlerOk, StepAccess, HandlerAfter, CallbacksAfter, BeatAfter;
    hide GroupsAfter, TasksAfter, CloudAfter, BoxesAfter, Enabled;
  }

  lemma SameId(s: State, step: Step, r: Ref)
    requires Inv(s) && Enabled(s, step) && r < |s.incs|
    ensures r < |Next(s, step).incs| && Next(s, step).incs[r].id == s.incs[r].id
  {
    hide WF, IncsOk, BoxesOk, GroupsOk, TasksOk, CallbacksOk, HandlerOk, Next, Enabled;
    StepStatus(s, step, r);
  }

  /** PENDING, RUNNING, then SUCCEEDED or FAILED for good. */
  predicate Later(a: Status, b: Status) {
    a == b || a == PENDING || (a == RUNNING && Terminal(b))
  }

  lemma {:induction false} StatusOrder(s: State, steps: seq<Step>, r: Ref)
    requires Inv(s) && Run(s, steps) && r < |s.incs|
    ensures var s' := Exec(s, steps);
            && r < |s'.incs|
            && s'.incs[r].id == s.incs[r].id
            && s'.incs[r].listing == s.incs[r].listing
            && Later(s.incs[r].status, s'.incs[r].status)
    decreases |steps|
  {
    hide WF, HandlerOk, IncsOk, BoxesOk, GroupsOk, TasksOk, CallbacksOk, Enabled, Next;
    if steps == [] {
    } else {
      StepKeeps(s, steps[0]);
      StepStatus(s, steps[0], r);
      StatusOrder(Next(s, steps[0]), steps[1..], r);
    }
  }

  // ------------------------------------------------------------------ the group table

  /** An insertion adds an absent key; an erasure removes the key of the callback's own group. */
  lemma GroupAccess(s: State, step: Step)
    requires Inv(s) && Enabled(s, step)
    ensures var a := StepAccess(s, step);
            && (a.InsertGroup? ==>
                  step.HandlerStep? && s.handler == AddGroup(a.r) && HandlerAfter(s, step) == ReadDetail(a.r)
                  && a.r < |s.incs| && s.incs[a.r].id !in s.groups && s.incs[a.r].status == RUNNING)
            && (a.RemoveGroup? ==>
                  step.CallbackStep? && step.m in s.callbacks && s.callbacks[step.m].EraseGroup?
                  && s.callbacks[step.m].r < |s.incs| && s.incs[s.callbacks[step.m].r].id == a.id
                  && a.id in s.groups && s.groups[a.id] == s.callbacks[step.m].r
                  && Terminal(s.incs[s.groups[a.id]].status))
  {
    hide IncsOk, BoxesOk, GroupsOk, TasksOk, CallbacksOk;
    if step.CallbackStep? { CallbackHas(s, step.m); }
  }

  /** No step replaces a published group: a key keeps its group until a callback erases it, and a
      201 answer is only ever given for an id that was not published. */
  lemma CreateNeverOverwrites(s: State, step: Step, t: TaskId)
    requires Inv(s) && Enabled(s, step)
    ensures var s' := Next(s, step);
            && (t in s.groups && t in s'.groups ==> s'.groups[t] == s.groups[t])
            && (s'.accepted != s.accepted ==>
                  s'.accepted == s.accepted + 1
                  && exists id :: id !in s.groups && s'.groups.Keys == s.groups.Keys + {id})
            && (s'.accepted == s.accepted ==> s'.groups.Keys <= s.groups.Keys)
  {
    hide WF, HandlerOk, IncsOk, BoxesOk, GroupsOk;
    hide TasksOk, CallbacksOk, Enabled, StepAccess, HandlerAfter, CallbacksAfter;
    hide BeatAfter, IncsAfter, TasksAfter, BoxesAfter, CloudAfter;
    GroupAccess(s, step);
  }

  // ------------------------------------------------------------------ conservation of tasks

  /** The callbacks that have made a group terminal and not erased it yet. */
  ghost function ClosingSet(cbs: map<BoxId, Callback>): set<BoxId> {
    set m | m in cbs && Closing(cbs[m])
  }

  lemma ClosingAfter(s: State, step: Step)
    requires Inv(s) && Enabled(s, step)
    ensures var a, before, after := StepAccess(s, step), ClosingSet(s.callbacks), ClosingSet(CallbacksAfter(s, step));
            if a.WriteStatus? && Terminal(a.status)
                then step.CallbackStep? && step.m !in before && after == before + {step.m}
            else if a.RemoveGroup? then step.CallbackStep? && step.m in before && after == before - {step.m}
            else after == before
  {
    hide IncsOk, BoxesOk, GroupsOk, TasksOk, CallbacksOk, WF, HandlerOk;
    if step.Raise? && step.m in s.callbacks { CallbackHas(s, step.m); }
    if step.Raise? || step.CallbackLookup? || step.CallbackStep? {
      forall n | n != step.m
        ensures n in ClosingSet(s.callbacks) <==> n in ClosingSet(CallbacksAfter(s, step))
      {
      }
    }
  }

  ghost predicate Conserved(s: State) {
    s.accepted + |ClosingSet(s.callbacks)| == |s.groups| + s.ended
  }

  /** The size of the group table follows the 201 answers and the erasures. */
  lemma GroupCount(s: State, step: Step)
    requires Inv(s) && Enabled(s, step)
    ensures var a, s' := StepAccess(s, step), Next(s, step);
            && |s'.groups| == (if a.InsertGroup? then |s.groups| + 1 else if a.RemoveGroup? then |s.groups| - 1
               else |s.groups|)
            && s'.accepted == (if a.InsertGroup? then s.accepted + 1 else s.accepted)
            && s'.ended == (if a.WriteStatus? && Terminal(a.status) then s.ended + 1 else s.ended)
            && s'.callbacks == CallbacksAfter(s, step)
  {
    hide WF, HandlerOk, IncsOk, BoxesOk, GroupsOk;
    hide TasksOk, CallbacksOk, Enabled, StepAccess, HandlerAfter, CallbacksAfter;
    hide BeatAfter, IncsAfter, TasksAfter, BoxesAfter, CloudAfter;
    GroupAccess(s, step);
    var a, s' := StepAccess(s, step), Next(s, step);
    if a.InsertGroup? {
      OneMoreKey(s.groups, s.incs[a.r].id, a.r);
    } else if a.RemoveGroup? {
      OneKeyLess(s.groups, a.id);
    }
  }

  lemma OneMoreKey(m: map<TaskId, Ref>, t: TaskId, g: Ref)
    requires t !in m
    ensures |m[t := g]| == |m| + 1
  {
    assert m[t := g].Keys == m.Keys + {t};
  }

  lemma OneKeyLess(m: map<TaskId, Ref>, t: TaskId)
    requires t in m
    ensures |m - {t}| == |m| - 1
  {
    assert (m - {t}).Keys == m.Keys - {t};
  }

  lemma StepConserves(s: State, step: Step)
    requires Inv(s) && Enabled(s, step) && Conserved(s)
    ensures Conserved(Next(s, step))
  {
    hide WF, HandlerOk, IncsOk, BoxesOk, GroupsOk, TasksOk;
    hide CallbacksOk, Enabled, StepAccess, CallbacksAfter, ClosingSet, Next;
    GroupCount(s, step);
    ClosingAfter(s, step);
  }

  lemma {:induction false} RunConserves(s: State, steps: seq<Step>)
    requires Inv(s) && Run(s, steps) && Conserved(s)
    ensures Conserved(Exec(s, steps))
    decreases |steps|
  {
    hide WF, HandlerOk, IncsOk, BoxesOk, GroupsOk, TasksOk, CallbacksOk, Enabled, Next, Conserved;
    if steps == [] {
    } else {
      StepKeeps(s, steps[0]);
      StepConserves(s, steps[0]);
      RunConserves(Next(s, steps[0]), steps[1..]);
    }
  }

  /** Conservation: in every reachable state where no callback is between its status update and its
      erase, the 201 answers are the published groups plus the RUNNING-to-terminal transitions. */
  lemma TasksAreConserved(s0: State, steps: seq<Step>)
    requires Trace(s0, steps)
    ensures var s := Last(s0, steps);
            (forall m | m in s.callbacks :: !Closing(s.callbacks[m])) ==> s.accepted == |s.groups| + s.ended
  {
    hide Inv;
    InitialInv(s0);
    RunConserves(s0, steps);
  }

  /** No published group is PENDING; a terminal one is about to be erased by its own callback. */
  lemma PublishedStatus(s0: State, steps: seq<Step>, t: TaskId)
    requires Trace(s0, steps) && t in Last(s0, steps).groups
    ensures var s := Last(s0, steps);
            var g := s.groups[t];
            && s.incs[g].id == t
            && (s.incs[g].status == RUNNING ||
                (Terminal(s.incs[g].status) &&
                 exists m :: m in s.callbacks && Closing(s.callbacks[m]) && s.callbacks[m].r == g))
  {
    hide HandlerOk, IncsOk, BoxesOk, CallbacksOk, TasksOk;
    var s := Last(s0, steps);
    var inc := s.incs[s.groups[t]];
    assert GroupOk(t, s.groups[t], inc, CallbackOf(s.callbacks, inc.launched));
  }
}
