/** The protocol when modelbox reports on a task only after CreateTaskProcess has published it. */
module Published {
  import opened Types
  import opened Protocol
  import opened Invariants
  import opened Runs

  /** Hypothesis: no status callback of a task before its creator has inserted the group. */
  ghost predicate AfterPublication(s: State, step: Step)
    requires WF(s) && Enabled(s, step)
  {
    step.Raise? || step.OtherStatus? ==> !Creating(s.handler, s.boxes[step.m].owner)
  }

  ghost predicate PublishedRun(s: State, steps: seq<Step>)
    requires Inv(s) && Run(s, steps)
    decreases |steps|
  {
    steps == [] ||
    (AfterPublication(s, steps[0]) &&
      (assert Inv(Next(s, steps[0])) by { StepKeeps(s, steps[0]); }
       PublishedRun(Next(s, steps[0]), steps[1..])))
  }

  /** Incarnation r is terminal and out of the group table. */
  predicate Gone(s: State, r: Ref)
    requires r < |s.incs|
  {
    Terminal(s.incs[r].status) && !(s.incs[r].id in s.groups && s.groups[s.incs[r].id] == r)
  }

  /** ... and its modelbox task has been deleted. */
  predicate Ended(s: State, r: Ref)
    requires r < |s.incs|
  {
    Gone(s, r) && s.incs[r].box.Some? && s.incs[r].box.value < |s.boxes| && s.boxes[s.incs[r].box.value].deleted
  }

  predicate CallbackPublished(s: State, m: BoxId, cb: Callback)
    requires m < |s.boxes| && s.boxes[m].owner < |s.incs|
  {
    var r := s.boxes[m].owner;
    && (BeforeGroup(cb) ==> !Creating(s.handler, r))
    && (Leaving(cb) ==> Gone(s, r))
    && (cb.Finish? || cb.EraseTask? ==> Ended(s, r))
  }

  ghost predicate PublishedInv(s: State)
    requires WF(s)
  {
    && (forall m | m in s.callbacks :: CallbackPublished(s, m, s.callbacks[m]))
    && (forall r | 0 <= r < |s.incs| :: s.incs[r].finished ==> Ended(s, r))
    && (s.handler.Reply? && s.handler.answer.waited.Some? ==> Ended(s, s.handler.answer.waited.value))
  }

  // Gone and Ended are for good, in every run.

  lemma GoneStays(s: State, step: Step, r: Ref)
    requires Inv(s) && Enabled(s, step) && r < |s.incs| && Gone(s, r)
    ensures r < |Next(s, step).incs| && Gone(Next(s, step), r)
  {
    hide WF, IncsOk, BoxesOk, GroupsOk, TasksOk;
    hide CallbacksOk, HandlerOk, StepAccess, HandlerAfter, CallbacksAfter, BeatAfter;
    hide TasksAfter, CloudAfter, BoxesAfter, IncsAfter, Enabled;
    StepStatus(s, step, r);
    GroupAccess(s, step);
  }

  lemma EndedStays(s: State, step: Step, r: Ref)
    requires Inv(s) && Enabled(s, step) && r < |s.incs| && Ended(s, r)
    ensures r < |Next(s, step).incs| && Ended(Next(s, step), r)
  {
    hide WF, IncsOk, BoxesOk, GroupsOk, TasksOk;
    hide CallbacksOk, HandlerOk, StepAccess, HandlerAfter, CallbacksAfter, BeatAfter;
    hide TasksAfter, CloudAfter, GroupsAfter, Enabled, Gone;
    GoneStays(s, step, r);
    EndedBox(s, step, r);
  }

  /** Nobody runs MATask::Run for an incarnation that is terminal. */
  lemma EndedBox(s: State, step: Step, r: Ref)
    requires Inv(s) && Enabled(s, step) && r < |s.incs| && Gone(s, r)
    ensures var a := StepAccess(s, step); a != NewBoxFor(r) && a != NoBoxFor(r)
  {
    hide IncsOk, BoxesOk, GroupsOk, TasksOk, CallbacksOk;
    if step.CallbackStep? { CallbackHas(s, step.m); }
  }

  lemma NoNewCreator(s: State, step: Step, r: Ref)
    requires Inv(s) && Enabled(s, step) && r < |s.incs| && !Creating(s.handler, r)
    ensures !Creating(Next(s, step).handler, r)
  {
    hide WF, IncsOk, BoxesOk, GroupsOk, TasksOk, CallbacksOk, HandlerOk, StepAccess, CallbacksAfter, BeatAfter;
  }

  /** A callback that has not erased its group has its group published and RUNNING until it acts. */
  lemma GroupIsLive(s: State, m: BoxId)
    requires Inv(s) && m in s.callbacks && CallbackPublished(s, m, s.callbacks[m]) && BeforeGroup(s.callbacks[m])
    ensures var r := s.boxes[m].owner;
            s.incs[r].id in s.groups && s.groups[s.incs[r].id] == r && s.incs[r].status == RUNNING
  {
    hide IncsOk, BoxesOk, GroupsOk, TasksOk, CallbacksOk, HandlerOk, Gone, Ended;
    CallbackHas(s, m);
  }

  lemma EraseLeavesGone(s: State, m: BoxId)
    requires Inv(s) && Enabled(s, CallbackStep(m, Ok)) && s.callbacks[m].EraseGroup?
    ensures var r := s.boxes[m].owner;
            r < |Next(s, CallbackStep(m, Ok)).incs| && Gone(Next(s, CallbackStep(m, Ok)), r)
  {
    hide IncsOk, BoxesOk, GroupsOk, TasksOk, CallbacksOk, HandlerOk, AnchorOf, TasksAfter, CloudAfter, BoxesAfter;
    CallbackHas(s, m);
  }

  lemma DeleteLeavesEnded(s: State, m: BoxId)
    requires Inv(s) && Enabled(s, CallbackStep(m, Ok)) && s.callbacks[m].DeleteBox? && Gone(s, s.boxes[m].owner)
    ensures var r := s.boxes[m].owner;
            r < |Next(s, CallbackStep(m, Ok)).incs| && Ended(Next(s, CallbackStep(m, Ok)), r)
  {
    hide IncsOk, BoxesOk, GroupsOk, TasksOk, CallbacksOk, HandlerOk, AnchorOf, TasksAfter, CloudAfter, Gone;
    CallbackHas(s, m);
    GoneStays(s, CallbackStep(m, Ok), s.boxes[m].owner);
  }

  /** The callback that moves, before its dealings with the group table. */
  lemma MoverNotCreating(s: State, m: BoxId, c: Choice)
    requires Inv(s) && Enabled(s, CallbackStep(m, c)) && PublishedInv(s) && m in Next(s, CallbackStep(m, c)).callbacks
    ensures m < |s.boxes| && s.boxes[m].owner < |s.incs|
    ensures var s' := Next(s, CallbackStep(m, c));
            BeforeGroup(s'.callbacks[m]) ==> !Creating(s'.handler, s.boxes[m].owner)
  {
    hide IncsOk, BoxesOk, GroupsOk, TasksOk, CallbacksOk;
    hide HandlerOk, TasksAfter, CloudAfter, GroupsAfter, IncsAfter, AnchorOf;
    hide Gone, Ended, StepAccess, BoxesAfter, Creating;
    assert CallbackPublished(s, m, s.callbacks[m]);
  }

  /** ... and past them. */
  lemma MoverGone(s: State, m: BoxId, c: Choice)
    requires Inv(s) && Enabled(s, CallbackStep(m, c)) && PublishedInv(s) && m in Next(s, CallbackStep(m, c)).callbacks
    requires WF(Next(s, CallbackStep(m, c)))
    ensures m < |s.boxes| && s.boxes[m].owner < |s.incs|
    ensures var s', r := Next(s, CallbackStep(m, c)), s.boxes[m].owner;
            && r < |s'.incs|
            && (Leaving(s'.callbacks[m]) ==> Gone(s', r))
            && (s'.callbacks[m].Finish? || s'.callbacks[m].EraseTask? ==> Ended(s', r))
  {
    hide IncsOk, BoxesOk, GroupsOk, TasksOk, CallbacksOk;
    hide HandlerOk, TasksAfter, CloudAfter, GroupsAfter, IncsAfter, AnchorOf;
    hide Gone, Ended, StepAccess, BoxesAfter, Creating;
    var step := CallbackStep(m, c);
    var r := s.boxes[m].owner;
    assert CallbackPublished(s, m, s.callbacks[m]);
    CallbackHas(s, m);
    StepStatus(s, step, r);
    if Gone(s, r) { GoneStays(s, step, r); }
    if Ended(s, r) { EndedStays(s, step, r); }
    if BeforeGroup(s.callbacks[m]) { GroupIsLive(s, m); }
    if s.callbacks[m].EraseGroup? { EraseLeavesGone(s, m); }
    if s.callbacks[m].DeleteBox? { DeleteLeavesEnded(s, m); }
  }

  lemma MoverStillPublished(s: State, m: BoxId, c: Choice)
    requires Inv(s) && Enabled(s, CallbackStep(m, c)) && PublishedInv(s)
    requires WF(Next(s, CallbackStep(m, c))) && m in Next(s, CallbackStep(m, c)).callbacks
    ensures CallbackPublished(Next(s, CallbackStep(m, c)), m, Next(s, CallbackStep(m, c)).callbacks[m])
  {
    hide IncsOk, BoxesOk, GroupsOk, TasksOk, CallbacksOk;
    hide HandlerOk, TasksAfter, CloudAfter, GroupsAfter, IncsAfter, AnchorOf;
    hide Gone, Ended, StepAccess, Creating, Leaving, BeforeGroup, PublishedInv, CallbacksAfter;
    MoverNotCreating(s, m, c);
    MoverGone(s, m, c);
  }

  /** A callback that does not move: it stands where it stood, or has just been raised or looked up. */
  lemma OtherStands(s: State, step: Step, m: BoxId)
    requires Inv(s) && Enabled(s, step) && m in Next(s, step).callbacks && !(step.CallbackStep? && step.m == m)
    ensures m < |s.boxes| && s.boxes[m].owner < |s.incs| && m < |Next(s, step).boxes|
    ensures Next(s, step).boxes[m].owner == s.boxes[m].owner < |Next(s, step).incs|
    ensures var cb := Next(s, step).callbacks[m];
            || (m in s.callbacks && cb == s.callbacks[m])
            || (step.Raise? && step.m == m && cb.Lookup?)
            || (step.CallbackLookup? && step.m == m && cb.Decide? && m in s.callbacks && s.callbacks[m].Lookup?)
  {
    hide IncsOk, BoxesOk, GroupsOk, TasksOk, CallbacksOk, HandlerOk, TasksAfter, CloudAfter, GroupsAfter, HandlerAfter;
    hide StepAccess, BeatAfter;
  }

  lemma PublishedAt(s: State, m: BoxId)
    requires WF(s) && PublishedInv(s) && m in s.callbacks
    ensures CallbackPublished(s, m, s.callbacks[m])
  {
  }

  lemma OtherStillPublished(s: State, step: Step, m: BoxId)
    requires Inv(s) && Enabled(s, step) && AfterPublication(s, step) && PublishedInv(s)
    requires WF(Next(s, step)) && m in Next(s, step).callbacks
    requires !(step.CallbackStep? && step.m == m)
    ensures CallbackPublished(Next(s, step), m, Next(s, step).callbacks[m])
  {
    hide WF, IncsOk, BoxesOk, GroupsOk, TasksOk, CallbacksOk;
    hide HandlerOk, Gone, Ended, Next, Enabled, Creating, PublishedInv;
    OtherStands(s, step, m);
    var r := s.boxes[m].owner;
    if m in s.callbacks { PublishedAt(s, m); }
    if !Creating(s.handler, r) { NoNewCreator(s, step, r); }
    if Gone(s, r) { GoneStays(s, step, r); }
    if Ended(s, r) { EndedStays(s, step, r); }
  }

  lemma FinishedMeansEnded(s: State, step: Step, r: Ref)
    requires Inv(s) && Enabled(s, step) && PublishedInv(s)
    requires r < |Next(s, step).incs| && Next(s, step).incs[r].finished
    ensures Ended(Next(s, step), r)
  {
    hide WF, IncsOk, BoxesOk, GroupsOk, TasksOk, CallbacksOk;
    hide HandlerOk, TasksAfter, CloudAfter, GroupsAfter, BoxesAfter, AnchorOf;
    hide Gone, Ended, HandlerAfter, CallbacksAfter;
    if step.CallbackStep? { CallbackHas(s, step.m); }
    if r < |s.incs| && Ended(s, r) { EndedStays(s, step, r); }
  }

  lemma StepPublished(s: State, step: Step)
    requires Inv(s) && Enabled(s, step) && AfterPublication(s, step) && PublishedInv(s)
    requires WF(Next(s, step))
    ensures PublishedInv(Next(s, step))
  {
    hide IncsOk, BoxesOk, GroupsOk, TasksOk, CallbacksOk, HandlerOk, Next, Enabled, Ended, CallbackPublished;
    var s' := Next(s, step);
    forall m | m in s'.callbacks ensures CallbackPublished(s', m, s'.callbacks[m]) {
      if step.CallbackStep? && step.m == m { MoverStillPublished(s, m, step.c); }
      else { OtherStillPublished(s, step, m); }
    }
    forall r | 0 <= r < |s'.incs| && s'.incs[r].finished ensures Ended(s', r) {
      FinishedMeansEnded(s, step, r);
    }
    if s'.handler.Reply? && s'.handler.answer.waited.Some? {
      AnswerMeansEnded(s, step, s'.handler.answer.waited.value);
    }
  }

  /** The answer of a DELETE that waited comes from is_finish_. */
  lemma AnswerMeansEnded(s: State, step: Step, r: Ref)
    requires Inv(s) && Enabled(s, step) && PublishedInv(s)
    requires Next(s, step).handler.Reply? && Next(s, step).handler.answer.waited == Some(r)
    ensures r < |Next(s, step).incs| && Ended(Next(s, step), r)
  {
    hide WF, IncsOk, BoxesOk, GroupsOk, TasksOk, CallbacksOk, HandlerOk, PublishedInv, Enabled;
    hide Next, HandlerAfter, Gone, Ended;
    WaitedFor(s, step, r);
    EndedStays(s, step, r);
  }

  lemma WaitedFor(s: State, step: Step, r: Ref)
    requires Inv(s) && Enabled(s, step) && PublishedInv(s)
    requires Next(s, step).handler.Reply? && Next(s, step).handler.answer.waited == Some(r)
    ensures r < |s.incs| && Ended(s, r)
  {
    hide IncsOk, BoxesOk, GroupsOk, TasksOk, CallbacksOk, CallbackPublished, Gone, Ended;
    hide StepAccess, IncsAfter, BoxesAfter, TasksAfter, GroupsAfter, CloudAfter, CallbacksAfter, BeatAfter;
  }

  lemma {:induction false} RunPublished(s: State, steps: seq<Step>)
    requires Inv(s) && Run(s, steps) && PublishedRun(s, steps) && PublishedInv(s)
    ensures PublishedInv(Exec(s, steps))
    decreases |steps|
  {
    hide WF, IncsOk, BoxesOk, GroupsOk, TasksOk, CallbacksOk, HandlerOk, Next, Enabled, PublishedInv, AfterPublication;
    if steps == [] {
    } else {
      StepKeeps(s, steps[0]);
      StepPublished(s, steps[0]);
      RunPublished(Next(s, steps[0]), steps[1..]);
    }
  }

  ghost predicate PublishedTrace(s0: State, steps: seq<Step>) {
    Trace(s0, steps) && (assert Inv(s0) by { InitialInv(s0); } PublishedRun(s0, steps))
  }

  /** The delete contract: when a DELETE that went through delete_func answers, it answers 202, its id is
      out of the group table, the status of the task it waited for is SUCCEEDED or FAILED and that
      task's modelbox task is deleted, whether the terminal callback came before, during or after Stop. */
  lemma DeleteContract(s0: State, steps: seq<Step>)
    requires PublishedTrace(s0, steps)
    requires Last(s0, steps).handler.Reply? && Last(s0, steps).handler.answer.waited.Some?
    ensures var s := Last(s0, steps);
            var id, r := s.handler.answer.id, s.handler.answer.waited.value;
            && !s.handler.answer.post && s.handler.answer.code == ACCEPTED202
            && s.incs[r].id == id && id !in s.groups && Terminal(s.incs[r].status)
            && s.incs[r].box.Some? && s.boxes[s.incs[r].box.value].deleted
  {
    hide IncsOk, BoxesOk, GroupsOk, TasksOk, CallbacksOk;
    InitialInv(s0);
    RunPublished(s0, steps);
    var s := Last(s0, steps);
    assert Deleting(s, s.handler.answer.id, s.handler.answer.waited.value);
  }

  /** Only a DELETE that waited carries the task it waited for, and it answers 202. */
  lemma WaitedAnswers(s: State, c: Choice)
    requires Inv(s) && HandlerEnabled(s, c)
    requires HandlerMove(s, c).Reply? && HandlerMove(s, c).answer.waited.Some?
    ensures s.handler.Await? && s.incs[s.handler.r].finished
    ensures HandlerMove(s, c) == Reply(Answer(s.handler.id, false, ACCEPTED202, Some(s.handler.r)))
  {
    hide IncsOk, BoxesOk, GroupsOk, TasksOk, CallbacksOk;
  }
}
