/** What a rerun that fails does to a later DELETE: it waits for ever. */
module Stranded {
  import opened Types
  import opened Protocol
  import opened Invariants
  import opened Runs
  import opened Reachable
  import opened Orphans

  /** Nothing of r runs or will be reported, and is_finish_ is not set. */
  ghost predicate Silenced(s: State, r: Ref)
    requires WF(s) && r < |s.incs|
  {
    Doomed(s, r) && NoCallback(s, r) && !s.incs[r].finished
  }

  /** A rerun that fails silences its task, whether its POST is over or not. */
  lemma FailedRerunSilences(s: State, m: BoxId)
    requires Sound(s) && Enabled(s, CallbackStep(m, Fail)) && s.callbacks[m].Rerun?
    requires WF(Next(s, CallbackStep(m, Fail)))
    ensures var s', r := Next(s, CallbackStep(m, Fail)), s.callbacks[m].r;
            r < |s'.incs| && !s'.crashed && Silenced(s', r)
  {
    hide IncsOk, BoxesOk, GroupsOk, TasksOk, CallbacksOk, HandlerOk, Doomed, EndsOk, EntriesOk, EarlyOk, Next, Enabled;
    FailedRerunDooms(s, m);
    FailedRerunEffect(s, m);
    Alone(s, m);
    MoverStatus(s, m);
    EndHas(s, s.callbacks[m].r);
  }

  lemma OwnersKept(s: State, step: Step)
    requires Inv(s) && Enabled(s, step)
    ensures |s.boxes| <= |Next(s, step).boxes|
    ensures forall b | 0 <= b < |s.boxes| :: Next(s, step).boxes[b].owner == s.boxes[b].owner
  {
    hide WF, HandlerOk, IncsOk, BoxesOk, GroupsOk, TasksOk, CallbacksOk, StepAccess, HandlerAfter, CallbacksAfter;
    hide BeatAfter;
    hide IncsAfter, GroupsAfter, TasksAfter, CloudAfter, Enabled;
  }

  /** Only a callback that is at Finish sets is_finish_, and its own task's. */
  lemma FinishAccess(s: State, step: Step, r: Ref)
    requires Inv(s) && Enabled(s, step) && StepAccess(s, step) == WriteFinished(r)
    ensures step.CallbackStep? && step.m in s.callbacks && s.callbacks[step.m].Finish? && s.callbacks[step.m].r == r
  {
    hide WF, HandlerOk, IncsOk, BoxesOk, GroupsOk, TasksOk, CallbacksOk;
  }

  lemma NotFinished(s: State, a: Access, r: Ref)
    requires AccessInRange(s, a) && r < |s.incs| && !s.incs[r].finished && a != WriteFinished(r)
    ensures r < |IncsAfter(s, a)| && !IncsAfter(s, a)[r].finished
  {
  }

  lemma UnfinishedStays(s: State, step: Step, r: Ref)
    requires Inv(s) && Enabled(s, step) && r < |s.incs| && NoCallback(s, r) && !s.incs[r].finished
    ensures r < |Next(s, step).incs| && !Next(s, step).incs[r].finished
  {
    hide IncsOk, BoxesOk, GroupsOk, TasksOk, CallbacksOk, HandlerOk, StepAccess, Enabled, IncsAfter, AccessInRange;
    hide BoxesAfter, GroupsAfter, TasksAfter, CloudAfter, HandlerAfter, CallbacksAfter, BeatAfter;
    if StepAccess(s, step) == WriteFinished(r) {
      FinishAccess(s, step, r);
      MoverStatus(s, step.m);
    }
    NotFinished(s, StepAccess(s, step), r);
  }

  lemma SilencedStays(s: State, step: Step, r: Ref)
    requires Inv(s) && Enabled(s, step) && r < |s.incs| && Silenced(s, r) && WF(Next(s, step))
    ensures r < |Next(s, step).incs| && Silenced(Next(s, step), r)
  {
    hide WF, IncsOk, BoxesOk, GroupsOk, TasksOk, CallbacksOk, HandlerOk, Next, Enabled, Doomed, LiveGroup, NoCallback;
    DoomedStays(s, step, r);
    CutCallbacks(s, step, r);
    UnfinishedStays(s, step, r);
  }

  lemma {:induction false} SilencedForever(s: State, steps: seq<Step>, r: Ref)
    requires Inv(s) && Run(s, steps) && r < |s.incs| && Silenced(s, r)
    ensures r < |Exec(s, steps).incs| && Silenced(Exec(s, steps), r)
    decreases |steps|
  {
    hide WF, HandlerOk, IncsOk, BoxesOk, GroupsOk, TasksOk, CallbacksOk, Enabled, Next, Silenced;
    if steps == [] {
    } else {
      StepKeeps(s, steps[0]);
      SilencedStays(s, steps[0], r);
      SilencedForever(Next(s, steps[0]), steps[1..], r);
    }
  }

  /** A DELETE that waits for a silenced task is not answered by any step. */
  lemma WaiterStays(s: State, step: Step, r: Ref)
    requires Inv(s) && Enabled(s, step) && r < |s.incs| && Silenced(s, r) && s.handler.Await? && s.handler.r == r
    ensures !step.HandlerStep? && !step.Post? && !step.Delete? && Next(s, step).handler == s.handler
  {
    hide IncsOk, BoxesOk, GroupsOk, TasksOk, CallbacksOk, HandlerOk, Doomed, LiveGroup, NoCallback, StepAccess;
  }

  /** ... so in every continuation it holds the handlers' mutex, and no other request is served. */
  lemma {:induction false} WaitsForever(s: State, steps: seq<Step>, r: Ref)
    requires Inv(s) && Run(s, steps) && r < |s.incs| && Silenced(s, r) && s.handler.Await? && s.handler.r == r
    ensures Exec(s, steps).handler == s.handler
    ensures forall i | 0 <= i < |steps| :: !steps[i].HandlerStep? && !steps[i].Post? && !steps[i].Delete?
    decreases |steps|
  {
    hide WF, HandlerOk, IncsOk, BoxesOk, GroupsOk, TasksOk, CallbacksOk, Enabled, Next, Silenced;
    if steps == [] {
    } else {
      StepKeeps(s, steps[0]);
      SilencedStays(s, steps[0], r);
      WaiterStays(s, steps[0], r);
      WaitsForever(Next(s, steps[0]), steps[1..], r);
    }
  }

  /** Once a rerun of r has failed, in every continuation a DELETE that has come to wait for r waits for
      ever: the converse of Progress.DeleteIsReleased. */
  lemma FailedRerunBlocks(s: State, m: BoxId, steps: seq<Step>, more: seq<Step>)
    requires Sound(s) && Enabled(s, CallbackStep(m, Fail)) && s.callbacks[m].Rerun?
    requires Run(s, [CallbackStep(m, Fail)] + steps) && Run(Exec(s, [CallbackStep(m, Fail)] + steps), more)
    requires var h := Exec(s, [CallbackStep(m, Fail)] + steps).handler; h.Await? && h.r == s.callbacks[m].r
    ensures var s1 := Exec(s, [CallbackStep(m, Fail)] + steps);
            Exec(s1, more).handler == s1.handler
  {
    var step := CallbackStep(m, Fail);
    StepKeeps(s, step);
    FailedRerunSilences(s, m);
    assert ([step] + steps)[1..] == steps;
    hide WF, HandlerOk, IncsOk, BoxesOk, GroupsOk, TasksOk, CallbacksOk, Enabled, Next, Silenced;
    hide EndsOk, EntriesOk, EarlyOk;
    SilencedForever(Next(s, step), steps, s.callbacks[m].r);
    WaitsForever(Exec(s, [step] + steps), more, s.callbacks[m].r);
  }

  lemma DeleteMoves(s: State, id: TaskId, r: Ref, h: Handler)
    requires Inv(s) && r < |s.incs| && id in s.tasks && s.tasks[id] == r && s.incs[r].box.Some?
    requires s.handler == CheckStatus(id, r) || s.handler == FindTaskEntry(id, r) || s.handler == Halt(id, r, r)
    requires s.handler.CheckStatus? ==> s.incs[r].status == RUNNING
    requires h == match s.handler
                  case CheckStatus(_, _) => FindTaskEntry(id, r)
                  case FindTaskEntry(_, _) => Halt(id, r, r)
                  case _ => Await(id, r, r)
    ensures HandlerEnabled(s, Ok) && HandlerNext(s, Ok) == s.(handler := h)
  {
    hide WF, HandlerOk, IncsOk, BoxesOk, GroupsOk, TasksOk, CallbacksOk;
  }

  lemma FoundHalts(s: State, id: TaskId, r: Ref) returns (steps: seq<Step>)
    requires Inv(s) && !s.crashed && r < |s.incs| && s.handler == CheckStatus(id, r) && s.incs[r].status == RUNNING
    requires id in s.tasks && s.tasks[id] == r && s.incs[r].box.Some?
    ensures Run(s, steps) && Exec(s, steps) == s.(handler := Await(id, r, r))
  {
    hide WF, HandlerOk, IncsOk, BoxesOk, GroupsOk, TasksOk, CallbacksOk, Run, Exec, HandlerNext, HandlerEnabled;
    var s1, s2 := s.(handler := FindTaskEntry(id, r)), s.(handler := Halt(id, r, r));
    DeleteMoves(s, id, r, FindTaskEntry(id, r));
    steps := HandlerOnce(s, Ok, s1);
    DeleteMoves(s1, id, r, Halt(id, r, r));
    var more := HandlerOnce(s1, Ok, s2);
    Compose(s, steps, more);
    steps := steps + more;
    DeleteMoves(s2, id, r, Await(id, r, r));
    more := HandlerOnce(s2, Ok, s.(handler := Await(id, r, r)));
    Compose(s, steps, more);
    steps := steps + more;
  }

  /** A DELETE finds the group. */
  lemma GroupFound(s: State, id: TaskId, r: Ref) returns (steps: seq<Step>)
    requires Inv(s) && !s.crashed && s.handler == Idle && GroupLockFree(s) && id in s.groups && s.groups[id] == r
    ensures Run(s, steps) && Exec(s, steps) == s.(handler := CheckStatus(id, r))
  {
    hide HandlerOk, IncsOk, BoxesOk, GroupsOk, TasksOk, CallbacksOk, Run, Exec;
    Begins(s);
    Land(s, [], Delete(id), s.(handler := FindForDelete(id)));
    steps := [] + [Delete(id)];
    var more := HandlerOnce(s.(handler := FindForDelete(id)), Ok, s.(handler := CheckStatus(id, r)));
    Compose(s, steps, more);
    steps := steps + more;
  }

  lemma Begins(s: State)
    requires Inv(s)
    ensures Run(s, []) && Exec(s, []) == s
  {
  }

  /** And such a DELETE does come to wait, when its Stop succeeds and the entry is still there. */
  lemma DeleteHangs(s: State, id: TaskId, r: Ref) returns (steps: seq<Step>)
    requires Inv(s) && !s.crashed && s.handler == Idle && GroupLockFree(s) && r < |s.incs| && s.incs[r].id == id
    requires Silenced(s, r) && id in s.tasks && s.tasks[id] == r && s.incs[r].box.Some?
    ensures Run(s, steps) && Exec(s, steps) == s.(handler := Await(id, r, r))
  {
    hide WF, HandlerOk, IncsOk, BoxesOk, GroupsOk, TasksOk, CallbacksOk, NoCallback, Run, Exec;
    steps := GroupFound(s, id, r);
    var more := FoundHalts(Exec(s, steps), id, r);
    Compose(s, steps, more);
    steps := steps + more;
  }
}
