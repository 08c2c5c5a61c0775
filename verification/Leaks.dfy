/** What a creation that fails inside MATask::Run leaves in modelbox. */
module Leaks {
  import opened Types
  import opened Protocol
  import opened Invariants
  import opened Runs

  /** Modelbox task b was created for r and has been neither started nor deleted. */
  predicate Unused(s: State, r: Ref, b: BoxId) {
    && r < |s.incs| && s.incs[r].launched.None? && s.incs[r].box == Some(b)
    && b < |s.boxes| && s.boxes[b] == Box(r, Created, false)
    && (Creating(s.handler, r) ==> s.handler.Running? && s.handler.stage != NewBox)
  }

  /** ... and its creation was given up. */
  predicate Leaked(s: State, r: Ref, b: BoxId) {
    Unused(s, r, b) && !Creating(s.handler, r)
  }

  /** A POST that gets its modelbox task. */
  lemma CreationBegins(s: State)
    requires Inv(s) && Enabled(s, HandlerStep(Ok)) && s.handler.Running? && s.handler.stage == NewBox
    ensures Unused(Next(s, HandlerStep(Ok)), s.handler.r, |s.boxes|)
  {
    hide IncsOk, BoxesOk, GroupsOk, TasksOk, CallbacksOk;
  }

  /** A callback acts for a task that was launched, and on no other task's modelbox task. */
  lemma ForeignAccess(s: State, step: Step, r: Ref, b: BoxId)
    requires Inv(s) && Enabled(s, step) && Unused(s, r, b)
    requires !(step.HandlerStep? && s.handler.Running? && s.handler.r == r)
    ensures var a := StepAccess(s, step);
            && a != NewBoxFor(r) && a != NoBoxFor(r) && a != LaunchBox(r) && a != DeleteTaskOf(r) && a != RaiseBox(b)
            && (a.LaunchBox? || a.DeleteTaskOf? ==>
               a.r < |s.incs| && s.incs[a.r].box.Some? && s.incs[a.r].box.value != b)
  {
    hide BoxesOk, GroupsOk, TasksOk, CallbacksOk, HandlerOk, AnchorOf;
    var a := StepAccess(s, step);
    if step.CallbackStep? { CallbackHas(s, step.m); }
    if a.LaunchBox? || a.DeleteTaskOf? { IncHas(s, a.r); }
  }

  /** An access that does not concern them leaves the incarnation's box fields and the modelbox task. */
  lemma IncsUnused(s: State, a: Access, r: Ref, b: BoxId)
    requires AccessInRange(s, a) && r < |s.incs| && s.incs[r].launched.None? && s.incs[r].box == Some(b)
    requires a != NewBoxFor(r) && a != NoBoxFor(r) && a != LaunchBox(r)
    ensures r < |IncsAfter(s, a)| && IncsAfter(s, a)[r].launched.None? && IncsAfter(s, a)[r].box == Some(b)
  {
  }

  lemma BoxesUnused(s: State, a: Access, r: Ref, b: BoxId)
    requires AccessInRange(s, a) && b < |s.boxes| && s.boxes[b] == Box(r, Created, false) && a != RaiseBox(b)
    requires a.LaunchBox? || a.DeleteTaskOf? ==> s.incs[a.r].box.value != b
    ensures b < |BoxesAfter(s, a)| && BoxesAfter(s, a)[b] == Box(r, Created, false)
  {
  }

  lemma BoxStaysUnused(s: State, step: Step, r: Ref, b: BoxId)
    requires Inv(s) && Enabled(s, step) && Unused(s, r, b)
    requires !(step.HandlerStep? && s.handler.Running? && s.handler.r == r)
    ensures var s' := Next(s, step);
            && r < |s'.incs| && s'.incs[r].launched.None? && s'.incs[r].box == Some(b)
            && b < |s'.boxes| && s'.boxes[b] == Box(r, Created, false)
  {
    hide WF, IncsOk, BoxesOk, GroupsOk, TasksOk, CallbacksOk, HandlerOk, StepAccess, Enabled, IncsAfter, BoxesAfter;
    hide GroupsAfter, TasksAfter, CloudAfter, HandlerAfter, CallbacksAfter, BeatAfter, Creating, AccessInRange;
    ForeignAccess(s, step, r, b);
    IncsUnused(s, StepAccess(s, step), r, b);
    BoxesUnused(s, StepAccess(s, step), r, b);
  }

  lemma CreationElsewhere(s: State, step: Step, r: Ref)
    requires Inv(s) && Enabled(s, step) && r < |s.incs|
    requires !(step.HandlerStep? && s.handler.Running? && s.handler.r == r)
    requires Creating(s.handler, r) ==> s.handler.Running?
    ensures Creating(Next(s, step).handler, r) ==> Creating(s.handler, r) && Next(s, step).handler == s.handler
  {
    hide WF, IncsOk, BoxesOk, GroupsOk, TasksOk, CallbacksOk, HandlerOk, StepAccess;
    hide IncsAfter, BoxesAfter, GroupsAfter, TasksAfter, CloudAfter, CallbacksAfter, BeatAfter;
  }

  lemma UnusedStays(s: State, step: Step, r: Ref, b: BoxId)
    requires Inv(s) && Enabled(s, step) && Unused(s, r, b)
    requires !(step == HandlerStep(Ok) && s.handler == Running(r, Launch))
    ensures Unused(Next(s, step), r, b)
    ensures !Creating(s.handler, r) ==> !Creating(Next(s, step).handler, r)
    ensures step == HandlerStep(Fail) && Creating(s.handler, r) ==> !Creating(Next(s, step).handler, r)
  {
    hide IncsOk, BoxesOk, GroupsOk, TasksOk, CallbacksOk, GroupsAfter, TasksAfter, CloudAfter, CallbacksAfter;
    hide BeatAfter;
    if step.HandlerStep? && s.handler.Running? && s.handler.r == r {
    } else {
      BoxStaysUnused(s, step, r, b);
      CreationElsewhere(s, step, r);
      hide StepAccess, Enabled, HandlerAfter, IncsAfter, BoxesAfter, HandlerOk, WF;
    }
  }

  /** A POST answered 500 after its modelbox task was created leaves that task in modelbox, never started
      and never deleted, in every continuation. */
  lemma {:induction false} LeakedForever(s: State, steps: seq<Step>, r: Ref, b: BoxId)
    requires Inv(s) && Run(s, steps) && Leaked(s, r, b)
    ensures Leaked(Exec(s, steps), r, b)
    decreases |steps|
  {
    hide WF, HandlerOk, IncsOk, BoxesOk, GroupsOk, TasksOk, CallbacksOk, Enabled, Next, Unused;
    if steps == [] {
    } else {
      StepKeeps(s, steps[0]);
      UnusedStays(s, steps[0], r, b);
      LeakedForever(Next(s, steps[0]), steps[1..], r, b);
    }
  }

  /** ... where it comes from: the run fails after the task was created. */
  lemma FailureLeaks(s: State, r: Ref, b: BoxId)
    requires Inv(s) && Enabled(s, HandlerStep(Fail)) && Unused(s, r, b) && Creating(s.handler, r)
    ensures Leaked(Next(s, HandlerStep(Fail)), r, b)
    ensures Next(s, HandlerStep(Fail)).handler == Reply(Answer(s.incs[r].id, true, ERROR500, None))
  {
    hide IncsOk, BoxesOk, GroupsOk, TasksOk, CallbacksOk, Unused;
    UnusedStays(s, HandlerStep(Fail), r, b);
    UnusedWhere(s, r, b);
  }

  lemma UnusedWhere(s: State, r: Ref, b: BoxId)
    requires Unused(s, r, b) && Creating(s.handler, r)
    ensures s.handler.Running? && s.handler.r == r && r < |s.incs|
  {
  }
}
