/** What holds in every reachable state besides the invariant: what is_finish_ and a terminal status mean,
    what a DELETE in progress may rely on, and what a creation has not done yet. */
module Reachable {
  import opened Types
  import opened Protocol
  import opened Invariants
  import opened Runs

  /** Once launched, an incarnation keeps a modelbox task of its own that was started.  is_finish_ is set
      by that task's callback, at its last step but one; a terminal status has its callback still in
      progress, or is_finish_ set. */
  predicate EndInc(r: Ref, inc: Incarnation, boxes: seq<Box>, callbacks: map<BoxId, Callback>) {
    && (inc.launched.Some? ==>
          var b := inc.launched.value;
          && b < |boxes| && boxes[b].owner == r && boxes[b].phase != Created
          && (b in callbacks && callbacks[b].EraseTask? ==> inc.finished)
          && (inc.finished ==> boxes[b].phase == Raised && (b in callbacks ==> callbacks[b].EraseTask?)))
    && (inc.finished || Terminal(inc.status) ==> inc.launched.Some?)
    && (Terminal(inc.status) && !inc.finished ==> inc.launched.value in callbacks)
  }

  predicate EndAt(s: State, r: Ref)
    requires r < |s.incs|
  {
    EndInc(r, s.incs[r], s.boxes, s.callbacks)
  }

  ghost predicate EndsOk(s: State) {
    forall r | 0 <= r < |s.incs| :: EndAt(s, r)
  }

  /** The handler holds a group. */
  predicate Holds(h: Handler) {
    h.CheckStatus? || h.FindTaskEntry? || h.Halt? || h.Await?
  }

  /** The group that the handler holds is published under the id, or terminal. */
  predicate Found(s: State, id: TaskId, g: Ref) {
    g < |s.incs| && (id in s.groups || Terminal(s.incs[g].status))
  }

  /** Only launched tasks get an entry, and a DELETE that found an entry waits for a launched one.  The
      group that a DELETE found has left the table only by becoming terminal. */
  ghost predicate EntriesOk(s: State)
    requires WF(s)
  {
    && (forall t | t in s.tasks :: s.incs[s.tasks[t]].launched.Some?)
    && (s.handler.AddTask? || s.handler.Halt? || s.handler.Await? ==> s.incs[s.handler.r].launched.Some?)
    && (Holds(s.handler) ==> Found(s, s.handler.id, s.handler.g))
  }

  /** The creation has not inserted the manager's entry yet. */
  predicate Unentered(h: Handler, r: Ref) {
    (h.Running? && h.r == r) || h == AddTask(r)
  }

  /** Until its entry is there no entry stands for the task, and its callback cannot look it up. */
  ghost predicate EarlyOk(s: State)
    requires WF(s)
  {
    && (forall t | t in s.tasks :: !Unentered(s.handler, s.tasks[t]))
    && (forall m | m in s.callbacks && Unentered(s.handler, s.boxes[m].owner) :: s.callbacks[m].Lookup?)
  }

  ghost predicate Sound(s: State) {
    Inv(s) && EndsOk(s) && EntriesOk(s) && EarlyOk(s)
  }

  // ------------------------------------------------------------------ how a task ends

  lemma EndHas(s: State, r: Ref)
    requires EndsOk(s) && r < |s.incs|
    ensures EndAt(s, r)
  {
  }

  lemma NewEnds(s: State, step: Step, r: Ref)
    requires Inv(s) && Enabled(s, step) && |s.incs| <= r < |Next(s, step).incs|
    ensures EndAt(Next(s, step), r)
  {
    hide WF, BoxesOk, GroupsOk, TasksOk, CallbacksOk, HandlerOk, IncsOk, HandlerAfter, BeatAfter, CallbacksAfter;
    hide GroupsAfter, TasksAfter, CloudAfter, StepAccess;
  }

  /** Who may launch r: its creation, or its own callback in a rerun. */
  lemma Launcher(s: State, step: Step, r: Ref)
    requires Inv(s) && Enabled(s, step) && StepAccess(s, step) == LaunchBox(r)
    ensures r < |s.incs| && s.incs[r].box.Some? && s.incs[r].box.value < |s.boxes|
    ensures s.boxes[s.incs[r].box.value].owner == r && s.boxes[s.incs[r].box.value].phase == Created
    ensures !Terminal(s.incs[r].status)
    ensures s.incs[r].launched.None? || (step.CallbackStep? && s.incs[r].launched == Some(step.m) &&
              step.m in s.callbacks && s.callbacks[step.m].Rerun?)
  {
    hide BoxesOk, GroupsOk, TasksOk, CallbacksOk, IncsOk;
    IncHas(s, r);
    if step.CallbackStep? { CallbackHas(s, step.m); }
  }

  lemma LaunchEnds(s: State, step: Step, r: Ref)
    requires Sound(s) && Enabled(s, step) && StepAccess(s, step) == LaunchBox(r)
    ensures r < |s.incs| && EndAt(Next(s, step), r)
  {
    hide WF, BoxesOk, GroupsOk, TasksOk, CallbacksOk, IncsOk, HandlerOk, EndsOk, EntriesOk, EarlyOk;
    hide GroupsAfter, TasksAfter, CloudAfter, HandlerAfter, BeatAfter;
    Launcher(s, step, r);
    EndHas(s, r);
    var b := s.incs[r].box.value;
    if b in s.callbacks { CallbackHas(s, b); }
  }

  /** A step that neither launches r nor belongs to its callback leaves r's end alone. */
  lemma OtherInc(s: State, step: Step, r: Ref)
    requires Inv(s) && Enabled(s, step) && r < |s.incs| && StepAccess(s, step) != LaunchBox(r)
    requires step.CallbackStep? ==> s.incs[r].launched != Some(step.m)
    ensures r < |Next(s, step).incs|
    ensures var inc, inc' := s.incs[r], Next(s, step).incs[r];
            inc'.launched == inc.launched && inc'.finished == inc.finished &&
                (Terminal(inc'.status) ==> Terminal(inc.status))
  {
    hide BoxesOk, GroupsOk, TasksOk, CallbacksOk, IncsOk, BoxesAfter, GroupsAfter, TasksAfter, CloudAfter;
    hide HandlerAfter, CallbacksAfter, BeatAfter;
    hide HandlerOk, WF;
    if step.CallbackStep? { CallbackHas(s, step.m); }
  }

  lemma OtherBox(s: State, step: Step, b: BoxId)
    requires Inv(s) && Enabled(s, step) && b < |s.boxes| && s.boxes[b].phase != Created
    ensures b < |Next(s, step).boxes|
    ensures var box, box' := s.boxes[b], Next(s, step).boxes[b];
            box'.owner == box.owner && box'.phase == if step.Raise? && step.m == b then Raised else box.phase
  {
    hide WF, HandlerOk, BoxesOk, GroupsOk, TasksOk, CallbacksOk, IncsOk, IncsAfter, GroupsAfter, TasksAfter, CloudAfter;
    hide HandlerAfter, CallbacksAfter, BeatAfter, StepAccess, Enabled;
    if StepAccess(s, step).LaunchBox? { Launcher(s, step, StepAccess(s, step).r); }
    OwnRaise(s, step);
  }

  lemma OwnRaise(s: State, step: Step)
    requires Inv(s) && Enabled(s, step)
    ensures StepAccess(s, step).RaiseBox? <==> step.Raise?
    ensures step.Raise? ==> StepAccess(s, step) == RaiseBox(step.m)
  {
    hide WF, HandlerOk, BoxesOk, GroupsOk, TasksOk, CallbacksOk, IncsOk;
  }

  lemma OtherCallback(s: State, step: Step, b: BoxId)
    requires Inv(s) && Enabled(s, step) && !(step.CallbackStep? && step.m == b)
    ensures b in CallbacksAfter(s, step) <==> b in s.callbacks || (step.Raise? && step.m == b)
    ensures b in CallbacksAfter(s, step) && CallbacksAfter(s, step)[b].EraseTask? ==>
              b in s.callbacks && s.callbacks[b].EraseTask? && !(step.Raise? && step.m == b)
    ensures b in s.callbacks && s.callbacks[b].EraseTask? && !(step.Raise? && step.m == b) ==>
              CallbacksAfter(s, step)[b].EraseTask?
  {
    hide WF, HandlerOk, BoxesOk, GroupsOk, TasksOk, CallbacksOk, IncsOk;
  }

  lemma OtherEnds(s: State, step: Step, r: Ref)
    requires Sound(s) && Enabled(s, step) && r < |s.incs| && StepAccess(s, step) != LaunchBox(r)
    requires step.CallbackStep? ==> s.incs[r].launched != Some(step.m)
    ensures r < |Next(s, step).incs| && EndAt(Next(s, step), r)
  {
    EndHas(s, r);
    OtherInc(s, step, r);
    if s.incs[r].launched.Some? {
      var b := s.incs[r].launched.value;
      OtherBox(s, step, b);
      OtherCallback(s, step, b);
      assert step.Raise? ==> s.boxes[step.m].phase == Started;
    }
    hide WF, BoxesOk, GroupsOk, TasksOk, CallbacksOk, HandlerOk, IncsOk, EndsOk, EntriesOk, EarlyOk, Enabled;
    hide StepAccess;
    hide IncsAfter, BoxesAfter, GroupsAfter, TasksAfter, CloudAfter, HandlerAfter, CallbacksAfter, BeatAfter;
  }

  /** The callback of r moves: what it leaves of r. */
  lemma MoverInc(s: State, m: BoxId, c: Choice, r: Ref)
    requires Inv(s) && Enabled(s, CallbackStep(m, c)) && r < |s.incs| && !s.callbacks[m].Lookup?
    requires s.callbacks[m].r == r && !StepAccess(s, CallbackStep(m, c)).LaunchBox?
    requires s.callbacks[m].SetStatus? ==> s.callbacks[m].g == r
    ensures r < |Next(s, CallbackStep(m, c)).incs|
    ensures var cb, inc, inc' := s.callbacks[m], s.incs[r], Next(s, CallbackStep(m, c)).incs[r];
            && inc'.launched == inc.launched && inc'.finished == (inc.finished || cb.Finish?)
            && inc'.status == if cb.SetStatus? then StatusOf(cb.kind) else inc.status
  {
    hide WF, HandlerOk, BoxesOk, GroupsOk, TasksOk, CallbacksOk, IncsOk;
    hide BoxesAfter, GroupsAfter, TasksAfter, CloudAfter, HandlerAfter, CallbacksAfter, BeatAfter;
  }

  /** Where it stands next: only after Finish comes EraseTask, and only from there or a rerun it returns. */
  lemma MoverNext(s: State, m: BoxId, c: Choice)
    requires Inv(s) && Enabled(s, CallbackStep(m, c))
    ensures var cbs := CallbacksAfter(s, CallbackStep(m, c));
            && (m !in cbs ==> s.callbacks[m].EraseTask? || s.callbacks[m].Rerun?)
            && (m in cbs && cbs[m].EraseTask? <==> s.callbacks[m].Finish?)
  {
    hide WF, HandlerOk, BoxesOk, GroupsOk, TasksOk, CallbacksOk, IncsOk;
  }

  lemma MoverStatus(s: State, m: BoxId)
    requires Inv(s) && m in s.callbacks
    ensures m < |s.boxes| && s.boxes[m].owner < |s.incs| && s.incs[s.boxes[m].owner].launched == Some(m)
    ensures s.boxes[m].phase == Raised
    ensures !s.callbacks[m].Lookup? ==> s.callbacks[m].r == s.boxes[m].owner
    ensures s.callbacks[m].SetStatus? ==> s.callbacks[m].g == s.boxes[m].owner
    ensures s.callbacks[m].Rerun? ==> !Terminal(s.incs[s.boxes[m].owner].status)
  {
    hide BoxesOk, GroupsOk, TasksOk, CallbacksOk, IncsOk;
    CallbackHas(s, m);
  }

  lemma MoverEnds(s: State, m: BoxId, c: Choice, r: Ref)
    requires Sound(s) && Enabled(s, CallbackStep(m, c)) && r < |s.incs| && s.incs[r].launched == Some(m)
    requires !StepAccess(s, CallbackStep(m, c)).LaunchBox?
    ensures r < |Next(s, CallbackStep(m, c)).incs| && EndAt(Next(s, CallbackStep(m, c)), r)
  {
    EndHas(s, r);
    MoverStatus(s, m);
    MoverInc(s, m, c, r);
    MoverNext(s, m, c);
    OtherBox(s, CallbackStep(m, c), m);
    hide WF, BoxesOk, GroupsOk, TasksOk, CallbacksOk, HandlerOk, IncsOk, EndsOk, EntriesOk, EarlyOk, Enabled;
    hide StepAccess;
    hide IncsAfter, BoxesAfter, GroupsAfter, TasksAfter, CloudAfter, HandlerAfter, CallbacksAfter, BeatAfter;
  }

  lemma StepEnds(s: State, step: Step)
    requires Sound(s) && Enabled(s, step)
    ensures EndsOk(Next(s, step))
  {
    hide WF, BoxesOk, GroupsOk, TasksOk, CallbacksOk, HandlerOk, IncsOk, Next, StepAccess, Enabled, EndAt;
    forall r | 0 <= r < |Next(s, step).incs| ensures EndAt(Next(s, step), r) {
      if r >= |s.incs| { NewEnds(s, step, r); }
      else if StepAccess(s, step) == LaunchBox(r) { LaunchEnds(s, step, r); }
      else if step.CallbackStep? && s.incs[r].launched == Some(step.m) {
        LaunchedByOwner(s, step, r);
        MoverEnds(s, step.m, step.c, r);
      } else { OtherEnds(s, step, r); }
    }
  }

  /** A callback launches its own task only. */
  lemma LaunchedByOwner(s: State, step: Step, r: Ref)
    requires Sound(s) && Enabled(s, step) && step.CallbackStep? && r < |s.incs| && s.incs[r].launched == Some(step.m)
    requires StepAccess(s, step) != LaunchBox(r)
    ensures !StepAccess(s, step).LaunchBox?
  {
    EndHas(s, r);
    if StepAccess(s, step).LaunchBox? {
      var q := StepAccess(s, step).r;
      Launcher(s, step, q);
      EndHas(s, q);
    }
  }

  // ------------------------------------------------------------------ entries and waiters

  lemma LaunchStays(s: State, step: Step, r: Ref)
    requires Inv(s) && Enabled(s, step) && r < |s.incs| && s.incs[r].launched.Some?
    ensures r < |Next(s, step).incs| && Next(s, step).incs[r].launched.Some?
  {
    hide WF, HandlerOk, BoxesOk, GroupsOk, TasksOk, CallbacksOk, IncsOk, StepAccess, Enabled;
    hide BoxesAfter, GroupsAfter, TasksAfter, CloudAfter, HandlerAfter, CallbacksAfter, BeatAfter;
    if StepAccess(s, step).LaunchBox? { Launcher(s, step, StepAccess(s, step).r); }
  }

  /** An entry is inserted by the creation, for its own task. */
  lemma EntryAccess(s: State, step: Step, t: TaskId)
    requires Inv(s) && Enabled(s, step) && t in Next(s, step).tasks
    ensures (t in s.tasks && Next(s, step).tasks[t] == s.tasks[t]) ||
            (step == HandlerStep(Ok) && s.handler == AddTask(Next(s, step).tasks[t]))
  {
    hide WF, HandlerOk, BoxesOk, GroupsOk, TasksOk, CallbacksOk, IncsOk, IncsAfter, BoxesAfter, GroupsAfter, CloudAfter;
    hide HandlerAfter, CallbacksAfter, BeatAfter;
  }

  lemma EntryLaunched(s: State, step: Step, t: TaskId)
    requires Sound(s) && Enabled(s, step) && WF(Next(s, step)) && t in Next(s, step).tasks
    ensures Next(s, step).incs[Next(s, step).tasks[t]].launched.Some?
  {
    EntryAccess(s, step, t);
    assert Next(s, step).tasks[t] < |s.incs| && s.incs[Next(s, step).tasks[t]].launched.Some? by {
      hide HandlerOk, BoxesOk, GroupsOk, TasksOk, CallbacksOk, IncsOk, Next, Enabled, EndsOk, EarlyOk;
    }
    LaunchStays(s, step, Next(s, step).tasks[t]);
  }

  /** Where the handler comes from when it holds an entry. */
  lemma WaiterAccess(s: State, step: Step)
    requires Sound(s) && Enabled(s, step)
    ensures var h := HandlerAfter(s, step);
            && (h.AddTask? ==> h == s.handler || StepAccess(s, step) == LaunchBox(h.r))
            && (h.Halt? || h.Await? ==> h.r < |s.incs| && s.incs[h.r].launched.Some?)
  {
    hide BoxesOk, GroupsOk, TasksOk, CallbacksOk, IncsOk, EndsOk, EarlyOk;
  }

  lemma WaiterStays(s: State, step: Step)
    requires Sound(s) && Enabled(s, step) && WF(Next(s, step))
    ensures var s' := Next(s, step);
            && (s'.handler.AddTask? || s'.handler.Halt? || s'.handler.Await? ==> s'.incs[s'.handler.r].launched.Some?)
  {
    WaiterAccess(s, step);
    var h := HandlerAfter(s, step);
    if h.AddTask? && StepAccess(s, step) == LaunchBox(h.r) {
      Launcher(s, step, h.r);
      hide HandlerOk, BoxesOk, GroupsOk, TasksOk, CallbacksOk, IncsOk, EndsOk, EntriesOk, EarlyOk, StepAccess;
    } else if h.AddTask? || h.Halt? || h.Await? {
      assert h.r < |s.incs| && s.incs[h.r].launched.Some?;
      hide HandlerOk, BoxesOk, GroupsOk, TasksOk, CallbacksOk, IncsOk, EndsOk, EntriesOk, EarlyOk, HandlerAfter;
      hide Enabled;
      LaunchStays(s, step, h.r);
    }
  }

  lemma FoundStays(s: State, step: Step, id: TaskId, g: Ref)
    requires Inv(s) && Enabled(s, step) && Found(s, id, g) && (id in s.groups ==> s.groups[id] == g)
    ensures Found(Next(s, step), id, g)
  {
    hide HandlerOk, BoxesOk, GroupsOk, TasksOk, CallbacksOk, IncsOk, StepAccess, Enabled, IncsAfter, BoxesAfter;
    hide TasksAfter, CloudAfter, HandlerAfter, CallbacksAfter, BeatAfter;
    StepStatus(s, step, g);
    GroupAccess(s, step);
  }

  lemma HoldsFound(s: State, step: Step)
    requires Sound(s) && Enabled(s, step)
    ensures var h := Next(s, step).handler;
            Holds(h) ==> Found(s, h.id, h.g) && (h.id in s.groups ==> s.groups[h.id] == h.g)
  {
    hide BoxesOk, GroupsOk, TasksOk, CallbacksOk, IncsOk, EndsOk, EarlyOk;
    hide IncsAfter, BoxesAfter, GroupsAfter, TasksAfter, CloudAfter, CallbacksAfter, BeatAfter, StepAccess;
  }

  lemma StepEntries(s: State, step: Step)
    requires Sound(s) && Enabled(s, step) && WF(Next(s, step))
    ensures EntriesOk(Next(s, step))
  {
    hide HandlerOk, BoxesOk, GroupsOk, TasksOk, CallbacksOk, IncsOk, EndsOk, EarlyOk, Next, Enabled;
    forall t | t in Next(s, step).tasks ensures Next(s, step).incs[Next(s, step).tasks[t]].launched.Some? {
      EntryLaunched(s, step, t);
    }
    WaiterStays(s, step);
    HoldsFound(s, step);
    var h := Next(s, step).handler;
    if Holds(h) { FoundStays(s, step, h.id, h.g); }
  }

  // ------------------------------------------------------------------ before the entry is there

  lemma UnenteredBefore(s: State, step: Step, r: Ref)
    requires Inv(s) && Enabled(s, step) && r < |s.incs| && Unentered(HandlerAfter(s, step), r)
    ensures (Unentered(s.handler, r) && s.handler != AddTask(r)) || HandlerAfter(s, step) == s.handler == AddTask(r)
    ensures !(step.HandlerStep? && s.handler.AddTask?)
  {
    hide WF, HandlerOk, BoxesOk, GroupsOk, TasksOk, CallbacksOk, IncsOk;
  }

  /** A lookup that succeeds finds an entry of the callback's own task. */
  lemma LookupOwner(s: State, m: BoxId, t: TaskId)
    requires Inv(s) && Enabled(s, CallbackLookup(m, Some(t)))
    ensures t in s.tasks && s.tasks[t] == s.boxes[m].owner
  {
    hide HandlerOk, BoxesOk, GroupsOk, TasksOk, CallbacksOk, IncsOk;
    IncHas(s, s.tasks[t]);
  }

  lemma StepEarly(s: State, step: Step)
    requires Sound(s) && Enabled(s, step) && WF(Next(s, step))
    ensures EarlyOk(Next(s, step))
  {
    hide HandlerOk, BoxesOk, GroupsOk, TasksOk, CallbacksOk, IncsOk, EndsOk, EntriesOk, Next, Enabled;
    var s' := Next(s, step);
    forall t | t in s'.tasks ensures !Unentered(s'.handler, s'.tasks[t]) { EarlyEntry(s, step, t); }
    forall m | m in s'.callbacks && Unentered(s'.handler, s'.boxes[m].owner) ensures s'.callbacks[m].Lookup? {
      EarlyCallback(s, step, m);
    }
  }

  lemma EarlyEntry(s: State, step: Step, t: TaskId)
    requires Sound(s) && Enabled(s, step) && t in Next(s, step).tasks
    ensures !Unentered(Next(s, step).handler, Next(s, step).tasks[t])
  {
    hide HandlerOk, BoxesOk, GroupsOk, TasksOk, CallbacksOk, IncsOk, EndsOk, EntriesOk;
    hide IncsAfter, BoxesAfter, GroupsAfter, TasksAfter, CloudAfter, CallbacksAfter, BeatAfter;
    EntryAccess(s, step, t);
    var r := Next(s, step).tasks[t];
    if Unentered(HandlerAfter(s, step), r) && r < |s.incs| {
      UnenteredBefore(s, step, r);
    }
  }

  lemma EarlyCallback(s: State, step: Step, m: BoxId)
    requires Sound(s) && Enabled(s, step) && WF(Next(s, step)) && m in Next(s, step).callbacks
    requires Unentered(Next(s, step).handler, Next(s, step).boxes[m].owner)
    ensures Next(s, step).callbacks[m].Lookup?
  {
    hide HandlerOk, BoxesOk, GroupsOk, TasksOk, CallbacksOk, IncsOk, EndsOk, EntriesOk;
    hide IncsAfter, GroupsAfter, TasksAfter, CloudAfter, BeatAfter;
    if m in s.callbacks {
      OwnersStay(s, step, m);
      UnenteredBefore(s, step, s.boxes[m].owner);
      assert s.callbacks[m].Lookup?;
      if step.CallbackLookup? && step.m == m && step.hit.Some? { LookupOwner(s, m, step.hit.value); }
    }
  }

  // ------------------------------------------------------------------ every run

  lemma StepSound(s: State, step: Step)
    requires Sound(s) && Enabled(s, step)
    ensures Sound(Next(s, step))
  {
    hide WF, HandlerOk, BoxesOk, GroupsOk, TasksOk, CallbacksOk, IncsOk, EndsOk, EntriesOk, EarlyOk, Next, Enabled;
    StepKeeps(s, step);
    StepEnds(s, step);
    StepEntries(s, step);
    StepEarly(s, step);
  }

  lemma {:induction false} RunSound(s: State, steps: seq<Step>)
    requires Sound(s) && Run(s, steps)
    ensures Sound(Exec(s, steps))
    decreases |steps|
  {
    hide WF, HandlerOk, BoxesOk, GroupsOk, TasksOk, CallbacksOk, IncsOk, EndsOk, EntriesOk, EarlyOk, Next, Enabled;
    if steps == [] {
    } else {
      StepSound(s, steps[0]);
      RunSound(Next(s, steps[0]), steps[1..]);
    }
  }

  /** Every reachable state is sound. */
  lemma TraceSound(s0: State, steps: seq<Step>)
    requires Trace(s0, steps)
    ensures Sound(Last(s0, steps))
  {
    InitialInv(s0);
    assert Sound(s0) by { hide Inv; }
    hide Sound, Inv;
    RunSound(s0, steps);
  }
}
