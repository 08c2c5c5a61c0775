/** What happens when modelbox ends a task before CreateTaskProcess has published it. */
module Orphans {
  import opened Types
  import opened Protocol
  import opened Invariants
  import opened Runs
  import opened Reachable

  predicate LiveGroup(s: State, r: Ref)
    requires r < |s.incs|
  {
    s.incs[r].id in s.groups && s.groups[s.incs[r].id] == r && s.incs[r].status == RUNNING
  }

  /** Incarnation r can no longer become terminal: nothing of it runs, its callback, if still there,
      is past the group table, and the group is RUNNING in the table or about to be put there. */
  ghost predicate Doomed(s: State, r: Ref)
    requires WF(s) && r < |s.incs|
  {
    && (forall b | 0 <= b < |s.boxes| && s.boxes[b].owner == r :: s.boxes[b].phase != Started)
    && (forall m | m in s.callbacks && s.boxes[m].owner == r :: Leaving(s.callbacks[m]))
    && (s.handler == MarkRunning(r) || s.handler == AddGroup(r) || LiveGroup(s, r))
  }

  /** A callback past its lookup finds the manager's entry made, so a creation in progress is at its last steps. */
  lemma PastLookup(s: State, m: BoxId)
    requires Sound(s) && m in s.callbacks && !s.callbacks[m].Lookup? && Creating(s.handler, s.boxes[m].owner)
    ensures s.handler == MarkRunning(s.boxes[m].owner) || s.handler == AddGroup(s.boxes[m].owner)
  {
    hide HandlerOk, IncsOk, BoxesOk, GroupsOk, TasksOk, CallbacksOk, EndsOk, EntriesOk;
  }

  /** A callback is its task's only one, and nothing of the task runs. */
  lemma Alone(s: State, m: BoxId)
    requires Inv(s) && m in s.callbacks
    ensures m < |s.boxes|
    ensures forall n | n in s.callbacks && s.boxes[n].owner == s.boxes[m].owner :: n == m
    ensures forall b | 0 <= b < |s.boxes| && s.boxes[b].owner == s.boxes[m].owner :: s.boxes[b].phase != Started
  {
    hide HandlerOk, IncsOk, BoxesOk, GroupsOk, TasksOk, CallbacksOk;
    forall n | n in s.callbacks && s.boxes[n].owner == s.boxes[m].owner ensures n == m {
      if n != m { OwnersDiffer(s, m, n); }
    }
    forall b | 0 <= b < |s.boxes| && s.boxes[b].owner == s.boxes[m].owner ensures s.boxes[b].phase != Started {
      if s.boxes[b].phase == Started { OwnersDiffer(s, m, b); }
    }
  }

  /** A terminal callback that looks its group up before the insertion dooms the task. */
  lemma EarlyCallbackDooms(s: State, m: BoxId, r: Ref)
    requires Sound(s) && Enabled(s, CallbackStep(m, Ok)) && s.callbacks[m].FindGroup? && s.callbacks[m].r == r
    requires Creating(s.handler, r) && WF(Next(s, CallbackStep(m, Ok)))
    ensures r < |s.incs| && Doomed(Next(s, CallbackStep(m, Ok)), r)
  {
    hide IncsOk, BoxesOk, GroupsOk, TasksOk, CallbacksOk, EndsOk, EntriesOk, EarlyOk;
    CallbackHas(s, m);
    PastLookup(s, m);
    Alone(s, m);
  }

  /** In every run, a terminal callback misses its group exactly when it looks before the insertion. */
  lemma LostExactlyWhenEarly(s: State, m: BoxId)
    requires Inv(s) && Enabled(s, CallbackStep(m, Ok)) && s.callbacks[m].FindGroup?
    ensures var k, r := s.callbacks[m].kind, s.callbacks[m].r;
            CallbackMove(s, m, Ok) == Some(DeleteBox(k, r)) <==> Creating(s.handler, r)
  {
    hide IncsOk, BoxesOk, GroupsOk, TasksOk, CallbacksOk;
    CallbackHas(s, m);
  }

  /** What a failed rerun does: its callback is gone, and at most the current modelbox task or a path. */
  lemma FailedRerunEffect(s: State, m: BoxId)
    requires Inv(s) && Enabled(s, CallbackStep(m, Fail)) && s.callbacks[m].Rerun?
    ensures m in s.callbacks && m < |s.boxes| && s.callbacks[m].r == s.boxes[m].owner && s.callbacks[m].r < |s.incs|
    ensures var s', r := Next(s, CallbackStep(m, Fail)), s.callbacks[m].r;
            && s'.boxes == s.boxes && s'.groups == s.groups && s'.tasks == s.tasks && s'.handler == s.handler
            && s'.callbacks == s.callbacks - {m} && !s'.crashed && |s'.incs| == |s.incs|
            && s'.incs[r].id == s.incs[r].id && s'.incs[r].status == s.incs[r].status
            && s'.incs[r].finished == s.incs[r].finished
            && (s.callbacks[m].stage == NewBox ==> s'.incs[r].box == None)
  {
    hide WF, IncsOk, BoxesOk, GroupsOk, TasksOk, CallbacksOk, HandlerOk;
    MoverStatus(s, m);
    CallbackHas(s, m);
  }

  /** A task that reports is published and RUNNING, or about to be. */
  lemma RerunGroup(s: State, m: BoxId)
    requires Sound(s) && m in s.callbacks && s.callbacks[m].Rerun? && s.boxes[m].owner < |s.incs|
    ensures var r := s.boxes[m].owner; LiveGroup(s, r) || s.handler == MarkRunning(r) || s.handler == AddGroup(r)
    ensures !Creating(s.handler, s.boxes[m].owner) ==> LiveGroup(s, s.boxes[m].owner)
  {
    hide IncsOk, BoxesOk, GroupsOk, TasksOk, CallbacksOk, HandlerOk, EndsOk, EntriesOk, EarlyOk;
    CallbackHas(s, m);
    if Creating(s.handler, s.boxes[m].owner) { PastLookup(s, m); }
  }

  /** A rerun that fails dooms the task as well, whether it is published or about to be:
      ModelBoxTaskStatusCallBack ignores Run's result. */
  lemma FailedRerunDooms(s: State, m: BoxId)
    requires Sound(s) && Enabled(s, CallbackStep(m, Fail)) && s.callbacks[m].Rerun?
    requires WF(Next(s, CallbackStep(m, Fail)))
    ensures var s', r := Next(s, CallbackStep(m, Fail)), s.callbacks[m].r;
            && r < |s.incs| && r < |s'.incs| && s'.incs[r].id == s.incs[r].id && !s'.crashed
            && Doomed(s', r) && (!Creating(s.handler, r) ==> LiveGroup(s', r)) && m !in s'.callbacks
  {
    hide WF, IncsOk, BoxesOk, GroupsOk, TasksOk, CallbacksOk, HandlerOk, EndsOk, EntriesOk, EarlyOk, Next, Enabled;
    FailedRerunEffect(s, m);
    RerunGroup(s, m);
    Alone(s, m);
  }

  lemma LaunchOwner(s: State, step: Step)
    requires Inv(s) && Enabled(s, step) && StepAccess(s, step).LaunchBox?
    ensures var r := StepAccess(s, step).r;
            && r < |s.incs| && s.incs[r].box.Some? && s.incs[r].box.value < |s.boxes|
            && s.boxes[s.incs[r].box.value].owner == r
            && (s.handler == Running(r, Launch) ||
                (step.CallbackStep? && step.m in s.callbacks && s.boxes[step.m].owner == r &&
                    s.callbacks[step.m].Rerun?))
  {
    hide BoxesOk, GroupsOk, TasksOk, CallbacksOk, HandlerOk, AnchorOf;
    var r := StepAccess(s, step).r;
    assert IncOk(r, s.incs[r], CurrentBox(s.boxes, s.incs[r]));
    if step.CallbackStep? { CallbackHas(s, step.m); }
  }

  lemma DoomedBoxes(s: State, step: Step, r: Ref)
    requires Inv(s) && Enabled(s, step) && r < |s.incs| && Doomed(s, r)
    ensures var s' := Next(s, step);
            forall b | 0 <= b < |s'.boxes| && s'.boxes[b].owner == r :: s'.boxes[b].phase != Started
  {
    hide WF, IncsOk, BoxesOk, GroupsOk, TasksOk, CallbacksOk, GroupsAfter, TasksAfter, CloudAfter, IncsAfter;
    hide HandlerAfter, CallbacksAfter, BeatAfter, StepAccess;
    if StepAccess(s, step).LaunchBox? { LaunchOwner(s, step); }
  }

  lemma LeavingStays(s: State, step: Step, r: Ref, m: BoxId)
    requires Inv(s) && Enabled(s, step) && r < |s.incs| && Doomed(s, r)
    requires m in CallbacksAfter(s, step) && m < |s.boxes| && s.boxes[m].owner == r
    ensures Leaving(CallbacksAfter(s, step)[m])
  {
    hide WF, BoxesOk, GroupsOk, TasksOk, CallbacksOk, IncsOk, HandlerOk, HandlerEnabled, BeatEnabled, ScanResult;
  }

  lemma DoomedCallbacks(s: State, step: Step, r: Ref)
    requires Inv(s) && Enabled(s, step) && r < |s.incs| && Doomed(s, r) && WF(Next(s, step))
    ensures var s' := Next(s, step);
            forall m | m in s'.callbacks && s'.boxes[m].owner == r :: Leaving(s'.callbacks[m])
  {
    hide BoxesOk, GroupsOk, TasksOk, CallbacksOk, IncsOk, HandlerOk, GroupsAfter, TasksAfter, CloudAfter, IncsAfter;
    hide HandlerAfter, BeatAfter, AnchorOf, StepAccess, BoxesAfter, Doomed;
    var s' := Next(s, step);
    forall m | m in s'.callbacks && s'.boxes[m].owner == r ensures Leaving(s'.callbacks[m]) {
      CallbackHasBox(s, step, m);
      hide CallbacksAfter, Enabled, WF;
      OwnersStay(s, step, m);
      LeavingStays(s, step, r, m);
    }
  }

  lemma CallbackHasBox(s: State, step: Step, m: BoxId)
    requires WF(s) && Enabled(s, step) && m in CallbacksAfter(s, step)
    ensures m < |s.boxes|
  {
  }

  /** No terminal status is written for a doomed task. */
  lemma DoomedStatus(s: State, step: Step, r: Ref)
    requires Inv(s) && Enabled(s, step) && r < |s.incs| && Doomed(s, r)
    ensures StepAccess(s, step).WriteStatus? && StepAccess(s, step).r == r ==>
              StepAccess(s, step).status == RUNNING && step.HandlerStep? && s.handler == MarkRunning(r)
  {
    hide WF, IncsOk, BoxesOk, GroupsOk, TasksOk, CallbacksOk, HandlerOk;
    if step.CallbackStep? { MoverStatus(s, step.m); }
  }

  lemma StatusAfter(s: State, a: Access, r: Ref)
    requires AccessInRange(s, a) && r < |s.incs|
    ensures r < |IncsAfter(s, a)| && IncsAfter(s, a)[r].id == s.incs[r].id
    ensures IncsAfter(s, a)[r].status == if a.WriteStatus? && a.r == r then a.status else s.incs[r].status
  {
  }

  lemma DoomedGroup(s: State, step: Step, r: Ref)
    requires Inv(s) && Enabled(s, step) && r < |s.incs| && Doomed(s, r) && WF(Next(s, step))
    ensures var s' := Next(s, step);
            r < |s'.incs| && (s'.handler == MarkRunning(r) || s'.handler == AddGroup(r) || LiveGroup(s', r))
  {
    hide WF, IncsOk, BoxesOk, GroupsOk, TasksOk, CallbacksOk, IncsAfter, BoxesAfter, TasksAfter, CloudAfter;
    hide CallbacksAfter, BeatAfter, AccessInRange, CallbackAccess, BeatAccess;
    StatusAfter(s, StepAccess(s, step), r);
    DoomedStatus(s, step, r);
    GroupAccess(s, step);
  }

  lemma DoomedStays(s: State, step: Step, r: Ref)
    requires Inv(s) && Enabled(s, step) && r < |s.incs| && Doomed(s, r) && WF(Next(s, step))
    ensures r < |Next(s, step).incs| && Doomed(Next(s, step), r)
  {
    hide WF, IncsOk, BoxesOk, GroupsOk, TasksOk, CallbacksOk, HandlerOk, Next, Enabled;
    DoomedBoxes(s, step, r);
    DoomedCallbacks(s, step, r);
    DoomedGroup(s, step, r);
  }

  /** Absorbing: a doomed task is RUNNING in the group table in every continuation. */
  lemma {:induction false} DoomedForever(s: State, steps: seq<Step>, r: Ref)
    requires Inv(s) && Run(s, steps) && r < |s.incs| && Doomed(s, r)
    ensures r < |Exec(s, steps).incs| && Doomed(Exec(s, steps), r)
    ensures LiveGroup(s, r) ==> LiveGroup(Exec(s, steps), r)
    decreases |steps|
  {
    hide WF, HandlerOk, IncsOk, BoxesOk, GroupsOk, TasksOk, CallbacksOk, Enabled, Next, Doomed, LiveGroup;
    if steps == [] {
    } else {
      StepKeeps(s, steps[0]);
      DoomedStays(s, steps[0], r);
      if LiveGroup(s, r) { LiveStays(s, steps[0], r); }
      DoomedForever(Next(s, steps[0]), steps[1..], r);
    }
  }

  lemma LiveStays(s: State, step: Step, r: Ref)
    requires Inv(s) && Enabled(s, step) && r < |s.incs| && Doomed(s, r) && LiveGroup(s, r)
    requires WF(Next(s, step))
    ensures r < |Next(s, step).incs| && LiveGroup(Next(s, step), r)
  {
    hide WF, IncsOk, BoxesOk, GroupsOk, TasksOk, CallbacksOk;
    hide Next, Enabled;
    DoomedGroup(s, step, r);
    DoomedNotMade(s, step, r);
  }

  lemma DoomedNotMade(s: State, step: Step, r: Ref)
    requires Inv(s) && Enabled(s, step) && r < |s.incs| && LiveGroup(s, r)
    ensures !Creating(Next(s, step).handler, r)
  {
    hide WF, IncsOk, BoxesOk, GroupsOk, TasksOk, CallbacksOk, StepAccess, CallbacksAfter;
  }

  // ------------------------------------------------------------------ the caller's view

  /** The handler's work does not touch id, and what it answers about id is a refusal. */
  predicate Refusing(s: State, id: TaskId)
    requires HandlerInRange(s)
  {
    match s.handler
    case Running(q, _) => s.incs[q].id != id
    case AddTask(q) => s.incs[q].id != id
    case MarkRunning(q) => s.incs[q].id != id
    case AddGroup(q) => s.incs[q].id != id
    case ReadDetail(q) => s.incs[q].id != id
    case Report(q, _, _) => s.incs[q].id != id
    case Halt(t, _, _) => t != id
    case Await(t, _, _) => t != id
    case Reply(a) => a.id == id ==> a.code == if a.post then BAD400 else ERROR500
    case _ => true
  }

  /** The doomed task's callback has returned: the manager has forgotten the id. */
  ghost predicate Abandoned(s: State, id: TaskId)
    requires WF(s)
  {
    && id in s.groups && Doomed(s, s.groups[id]) && LiveGroup(s, s.groups[id])
    && (forall m | m in s.callbacks :: s.boxes[m].owner != s.groups[id])
    && id !in s.tasks
    && Refusing(s, id)
  }

  /** A task is made for another id. */
  lemma OthersMade(s: State, c: Choice, id: TaskId)
    requires Inv(s) && HandlerEnabled(s, c) && id in s.groups
    ensures HandlerAccess(s, c).Create? ==> HandlerAccess(s, c).id != id
    ensures HandlerAccess(s, c).Create? <==> HandlerMove(s, c) == Running(|s.incs|, NewBox)
  {
    hide IncsOk, BoxesOk, GroupsOk, TasksOk, CallbacksOk, HandlerOk;
  }

  /** The handler's next place, when no task is made at this step. */
  lemma RefusingMove(s: State, c: Choice, id: TaskId)
    requires Inv(s) && HandlerEnabled(s, c) && Abandoned(s, id) && HandlerMove(s, c) != Running(|s.incs|, NewBox)
    ensures HandlerInRange(s.(handler := HandlerMove(s, c))) && Refusing(s.(handler := HandlerMove(s, c)), id)
  {
    hide IncsOk, BoxesOk, GroupsOk, TasksOk, CallbacksOk, Doomed;
  }

  /** Refusing depends on the handler and the ids only. */
  lemma SameRefusing(s: State, s': State, id: TaskId)
    requires HandlerInRange(s) && HandlerInRange(s') && Refusing(s, id) && s'.handler == s.handler
    requires |s.incs| <= |s'.incs| && forall r | 0 <= r < |s.incs| :: s'.incs[r].id == s.incs[r].id
    ensures Refusing(s', id)
  {
  }

  lemma AbandonedHandler(s: State, step: Step, id: TaskId)
    requires Inv(s) && Enabled(s, step) && Abandoned(s, id) && WF(Next(s, step))
    ensures Refusing(Next(s, step), id)
  {
    IdsKept(s, step);
    hide IncsOk, BoxesOk, GroupsOk, TasksOk, CallbacksOk, HandlerOk, Doomed, LiveGroup, Enabled;
    hide GroupsAfter, TasksAfter, CloudAfter, BoxesAfter, CallbacksAfter, BeatAfter;
    match step
    case HandlerStep(c) =>
      OthersMade(s, c, id);
      if !HandlerAccess(s, c).Create? { RefusingMove(s, c, id); }
      hide HandlerMove, HandlerAccess, Refusing, HandlerEnabled;
      if HandlerAccess(s, c).Create? {
        CreatedRefuses(s, c, id);
      } else {
        hide IncsAfter;
        SameRefusing(s.(handler := HandlerMove(s, c)), Next(s, step), id);
      }
    case Post(_, _) =>
    case Delete(_) =>
    case _ =>
      hide Refusing, IncsAfter, StepAccess;
      SameRefusing(s, Next(s, step), id);
  }

  lemma CreatedRefuses(s: State, c: Choice, id: TaskId)
    requires Inv(s) && Enabled(s, HandlerStep(c)) && HandlerAccess(s, c).Create? && HandlerAccess(s, c).id != id
    requires HandlerMove(s, c) == Running(|s.incs|, NewBox) && WF(Next(s, HandlerStep(c)))
    ensures Refusing(Next(s, HandlerStep(c)), id)
  {
    hide HandlerMove, HandlerAccess, HandlerEnabled, WF, IncsOk, BoxesOk, GroupsOk, TasksOk, CallbacksOk, HandlerOk;
  }

  lemma EntryStaysGone(s: State, step: Step, id: TaskId)
    requires Inv(s) && Enabled(s, step) && id !in s.tasks && Refusing(s, id)
    ensures id !in Next(s, step).tasks
  {
    hide IncsOk, BoxesOk, GroupsOk, TasksOk, CallbacksOk, HandlerOk, GroupsAfter, CloudAfter, IncsAfter, BoxesAfter;
    hide HandlerAfter, CallbacksAfter, BeatAfter;
  }

  /** Only a report of a started task brings a callback. */
  lemma NoneComes(s: State, step: Step, r: Ref, m: BoxId)
    requires Inv(s) && Enabled(s, step) && m in CallbacksAfter(s, step) && m !in s.callbacks
    ensures m < |s.boxes| && s.boxes[m].phase == Protocol.Started
  {
    hide WF, IncsOk, BoxesOk, GroupsOk, TasksOk, CallbacksOk, HandlerOk;
  }

  lemma AbandonedTables(s: State, step: Step, id: TaskId)
    requires Inv(s) && Enabled(s, step) && Abandoned(s, id) && WF(Next(s, step))
    ensures var s' := Next(s, step);
            id !in s'.tasks && forall m | m in s'.callbacks :: s'.boxes[m].owner != s.groups[id]
  {
    hide IncsOk, BoxesOk, GroupsOk, TasksOk, CallbacksOk, HandlerOk, GroupsAfter, CloudAfter, IncsAfter, BoxesAfter;
    hide HandlerAfter, CallbacksAfter, BeatAfter, TasksAfter, Enabled, StepAccess;
    EntryStaysGone(s, step, id);
    var s' := Next(s, step);
    forall m | m in s'.callbacks ensures s'.boxes[m].owner != s.groups[id] {
      if m !in s.callbacks { NoneComes(s, step, s.groups[id], m); }
      OwnersStay(s, step, m);
    }
  }

  lemma AbandonedStays(s: State, step: Step, id: TaskId)
    requires Inv(s) && Enabled(s, step) && Abandoned(s, id) && WF(Next(s, step))
    ensures Abandoned(Next(s, step), id)
  {
    hide IncsOk, BoxesOk, GroupsOk, TasksOk, CallbacksOk, HandlerOk, Next, Enabled, Refusing;
    var r := s.groups[id];
    DoomedStays(s, step, r);
    LiveStays(s, step, r);
    AbandonedHandler(s, step, id);
    AbandonedTables(s, step, id);
    SameId(s, step, r);
    GroupIds(s, id);
  }

  /** After an early callback has run to its end the task stays RUNNING in every continuation, every
      later DELETE of it is answered 500 and every later POST of its id 400. */
  lemma {:induction false} OrphanForever(s: State, steps: seq<Step>, id: TaskId)
    requires Inv(s) && Run(s, steps) && Abandoned(s, id)
    ensures var s' := Exec(s, steps);
            && Abandoned(s', id) && s'.incs[s'.groups[id]].status == RUNNING
            && (s'.handler.Reply? && s'.handler.answer.id == id ==>
                  s'.handler.answer.code == if s'.handler.answer.post then BAD400 else ERROR500)
    decreases |steps|
  {
    hide WF, HandlerOk, IncsOk, BoxesOk, GroupsOk, TasksOk, CallbacksOk, Enabled, Next, Doomed;
    if steps == [] {
    } else {
      StepKeeps(s, steps[0]);
      AbandonedStays(s, steps[0], id);
      OrphanForever(Next(s, steps[0]), steps[1..], id);
    }
  }

  // ------------------------------------------------------------------ every early callback orphans its task

  /** No callback of r is left. */
  ghost predicate NoCallback(s: State, r: Ref)
    requires WF(s)
  {
    forall m | m in s.callbacks :: s.boxes[m].owner != r
  }

  /** A doomed task on its way there: as long as its callback is there nothing is said of the entry. */
  ghost predicate Parting(s: State, r: Ref)
    requires WF(s) && r < |s.incs|
  {
    Doomed(s, r) && (NoCallback(s, r) ==> s.incs[r].id !in s.tasks)
  }

  lemma CutTasks(s: State, step: Step, r: Ref)
    requires Inv(s) && Enabled(s, step) && r < |s.incs| && Doomed(s, r) && s.incs[r].id !in s.tasks
    ensures s.incs[r].id !in Next(s, step).tasks
  {
    hide IncsOk, BoxesOk, GroupsOk, TasksOk, CallbacksOk, GroupsAfter, CloudAfter, IncsAfter, BoxesAfter;
    hide HandlerAfter, CallbacksAfter, BeatAfter;
  }

  lemma CutCallbacks(s: State, step: Step, r: Ref)
    requires Inv(s) && Enabled(s, step) && r < |s.incs| && Doomed(s, r) && NoCallback(s, r) && WF(Next(s, step))
    ensures NoCallback(Next(s, step), r)
  {
    hide IncsOk, BoxesOk, GroupsOk, TasksOk, CallbacksOk, HandlerOk, GroupsAfter, TasksAfter, CloudAfter, IncsAfter;
    hide HandlerAfter, BeatAfter, StepAccess;
    forall m | m in s.callbacks ensures Next(s, step).boxes[m].owner == s.boxes[m].owner {}
  }

  /** A callback that is gone after a step returned at it. */
  lemma Returned(s: State, step: Step, m: BoxId)
    requires Inv(s) && Enabled(s, step) && m in s.callbacks && m !in CallbacksAfter(s, step)
    ensures step.CallbackStep? && step.m == m && CallbackMove(s, m, step.c).None?
  {
    hide IncsOk, BoxesOk, GroupsOk, TasksOk, CallbacksOk, HandlerOk, WF;
  }

  /** The last callback of a doomed task returns by erasing the entry. */
  lemma ReturnCuts(s: State, step: Step, r: Ref)
    requires Inv(s) && Enabled(s, step) && r < |s.incs| && Doomed(s, r) && !NoCallback(s, r)
    requires WF(Next(s, step)) && NoCallback(Next(s, step), r)
    ensures s.incs[r].id !in Next(s, step).tasks
  {
    hide IncsOk, BoxesOk, GroupsOk, TasksOk, CallbacksOk, HandlerOk, GroupsAfter, CloudAfter, IncsAfter, AnchorOf;
    hide HandlerAfter, BeatAfter, CallbacksAfter;
    hide BoxesAfter;
    var m :| m in s.callbacks && s.boxes[m].owner == r;
    OwnersStay(s, step, m);
    Returned(s, step, m);
    CallbackHas(s, m);
  }

  lemma PartingStays(s: State, step: Step, r: Ref)
    requires Inv(s) && Enabled(s, step) && r < |s.incs| && Parting(s, r) && WF(Next(s, step))
    ensures r < |Next(s, step).incs| && Next(s, step).incs[r].id == s.incs[r].id && Parting(Next(s, step), r)
  {
    hide IncsOk, BoxesOk, GroupsOk, TasksOk, CallbacksOk, HandlerOk, Next, Enabled, Doomed, NoCallback;
    DoomedStays(s, step, r);
    SameId(s, step, r);
    if NoCallback(s, r) {
      CutTasks(s, step, r);
    } else if NoCallback(Next(s, step), r) {
      ReturnCuts(s, step, r);
    }
  }

  lemma {:induction false} PartingForever(s: State, steps: seq<Step>, r: Ref)
    requires Inv(s) && Run(s, steps) && r < |s.incs| && Parting(s, r)
    ensures r < |Exec(s, steps).incs| && Exec(s, steps).incs[r].id == s.incs[r].id && Parting(Exec(s, steps), r)
    decreases |steps|
  {
    hide WF, HandlerOk, IncsOk, BoxesOk, GroupsOk, TasksOk, CallbacksOk, Enabled, Next, Parting;
    if steps == [] {
    } else {
      StepKeeps(s, steps[0]);
      PartingStays(s, steps[0], r);
      PartingForever(Next(s, steps[0]), steps[1..], r);
    }
  }

  /** Where an early callback starts. */
  lemma EarlyParts(s: State, m: BoxId, r: Ref)
    requires Sound(s) && Enabled(s, CallbackStep(m, Ok)) && s.callbacks[m].FindGroup? && s.callbacks[m].r == r
    requires r < |s.incs| && Creating(s.handler, r)
    requires WF(Next(s, CallbackStep(m, Ok)))
    ensures r < |Next(s, CallbackStep(m, Ok)).incs| && Parting(Next(s, CallbackStep(m, Ok)), r)
    ensures Next(s, CallbackStep(m, Ok)).incs[r].id == s.incs[r].id
  {
    hide IncsOk, BoxesOk, GroupsOk, TasksOk, CallbacksOk, HandlerOk, Doomed, AnchorOf, EndsOk, EntriesOk, EarlyOk;
    EarlyCallbackDooms(s, m, r);
    SameId(s, CallbackStep(m, Ok), r);
    CallbackHas(s, m);
    assert m in Next(s, CallbackStep(m, Ok)).callbacks;
  }

  lemma CutIsAbandoned(s: State, r: Ref)
    requires Inv(s) && r < |s.incs| && Parting(s, r) && NoCallback(s, r)
    requires s.handler != MarkRunning(r) && s.handler != AddGroup(r) && Refusing(s, s.incs[r].id)
    ensures Abandoned(s, s.incs[r].id)
  {
    hide HandlerOk, IncsOk, BoxesOk, GroupsOk, TasksOk, CallbacksOk;
  }

  /** Orphan states are absorbing.  When a terminal callback has looked its group up before the
      insertion, then in every continuation, from the first moment on at which it has returned and no
      request is in progress, the task is abandoned (and stays so, by OrphanForever). */
  lemma EarlyCallbackOrphans(s: State, m: BoxId, r: Ref, steps: seq<Step>)
    requires Sound(s) && Enabled(s, CallbackStep(m, Ok)) && s.callbacks[m].FindGroup? && s.callbacks[m].r == r
    requires r < |s.incs| && Creating(s.handler, r)
    requires Run(s, [CallbackStep(m, Ok)] + steps)
    ensures var s' := Exec(s, [CallbackStep(m, Ok)] + steps);
            && r < |s'.incs| && s'.incs[r].id == s.incs[r].id
            && (s'.handler.Idle? && NoCallback(s', r) ==> Abandoned(s', s.incs[r].id))
  {
    hide WF, HandlerOk, IncsOk, BoxesOk, GroupsOk, TasksOk, CallbacksOk, Enabled, Next, Parting, Abandoned, NoCallback;
    var step := CallbackStep(m, Ok);
    StepKeeps(s, step);
    EarlyParts(s, m, r);
    assert ([step] + steps)[1..] == steps;
    PartingForever(Next(s, step), steps, r);
    var s' := Exec(s, [step] + steps);
    if s'.handler.Idle? && NoCallback(s', r) { CutIsAbandoned(s', r); }
  }

  // ------------------------------------------------------------------ a callback that returns before the insertion

  /** The handler is still busy with the POST that makes r. */
  predicate OwnPost(h: Handler, r: Ref, id: TaskId) {
    match h
    case MarkRunning(q) => q == r
    case AddGroup(q) => q == r
    case ReadDetail(q) => q == r
    case Report(q, _, _) => q == r
    case Reply(a) => a == Answer(id, true, CREATED201, None)
    case _ => false
  }

  /** The task's callback has come and gone while its POST is in progress, or the task is abandoned. */
  ghost predicate Orphaned(s: State, r: Ref)
    requires WF(s) && r < |s.incs|
  {
    var id := s.incs[r].id;
    Parting(s, r) && NoCallback(s, r) && (OwnPost(s.handler, r, id) || Abandoned(s, id))
  }

  lemma LateDooms(s: State, m: BoxId)
    requires Sound(s) && m in s.callbacks && Leaving(s.callbacks[m]) && Creating(s.handler, s.boxes[m].owner)
    ensures s.boxes[m].owner < |s.incs| && Doomed(s, s.boxes[m].owner)
  {
    hide HandlerOk, IncsOk, BoxesOk, GroupsOk, TasksOk, CallbacksOk, EndsOk, EntriesOk, EarlyOk;
    Alone(s, m);
    PastLookup(s, m);
  }

  /** It begins when the callback erases the entry before the group was inserted. */
  lemma OrphanBegins(s: State, m: BoxId, r: Ref)
    requires Sound(s) && Enabled(s, CallbackStep(m, Ok)) && s.callbacks[m].EraseTask? && s.callbacks[m].r == r
    requires r < |s.incs| && Creating(s.handler, r) && WF(Next(s, CallbackStep(m, Ok)))
    ensures r < |Next(s, CallbackStep(m, Ok)).incs| && Orphaned(Next(s, CallbackStep(m, Ok)), r)
  {
    hide IncsOk, BoxesOk, GroupsOk, TasksOk, CallbacksOk, HandlerOk, Doomed, AnchorOf, Abandoned;
    hide EndsOk, EntriesOk, EarlyOk;
    CallbackHas(s, m);
    PastLookup(s, m);
    Alone(s, m);
    LateDooms(s, m);
    DoomedStays(s, CallbackStep(m, Ok), r);
  }

  lemma OwnPostMoves(s: State, step: Step, r: Ref)
    requires Inv(s) && Enabled(s, step) && r < |s.incs| && OwnPost(s.handler, r, s.incs[r].id)
    ensures OwnPost(Next(s, step).handler, r, s.incs[r].id) || Next(s, step).handler == Idle
  {
    hide IncsOk, BoxesOk, GroupsOk, TasksOk, CallbacksOk, CallbacksAfter, BeatAfter, StepAccess;
  }

  lemma OrphanStays(s: State, step: Step, r: Ref)
    requires Inv(s) && Enabled(s, step) && r < |s.incs| && Orphaned(s, r) && Inv(Next(s, step))
    ensures r < |Next(s, step).incs| && Next(s, step).incs[r].id == s.incs[r].id && Orphaned(Next(s, step), r)
  {
    hide WF, IncsOk, BoxesOk, GroupsOk, TasksOk, CallbacksOk, HandlerOk, Next, Enabled, Abandoned, Parting, NoCallback;
    PartingStays(s, step, r);
    NoCallbackStays(s, step, r);
    if OwnPost(s.handler, r, s.incs[r].id) {
      OwnPostMoves(s, step, r);
      if Next(s, step).handler == Idle { CutIsAbandoned(Next(s, step), r); }
    } else {
      AbandonedStays(s, step, s.incs[r].id);
    }
  }

  lemma NoCallbackStays(s: State, step: Step, r: Ref)
    requires Inv(s) && Enabled(s, step) && r < |s.incs| && Parting(s, r) && NoCallback(s, r) && WF(Next(s, step))
    ensures NoCallback(Next(s, step), r)
  {
    hide WF, IncsOk, BoxesOk, GroupsOk, TasksOk, CallbacksOk, HandlerOk, Next, Enabled, Doomed, NoCallback;
    CutCallbacks(s, step, r);
  }

  /** In every continuation the POST itself is answered 201, every later POST of the id 400, every later
      DELETE 500, and from the insertion on the group is published and RUNNING. */
  lemma {:induction false} OrphanAnswers(s: State, steps: seq<Step>, r: Ref)
    requires Inv(s) && Run(s, steps) && r < |s.incs| && Orphaned(s, r)
    ensures var s' := Exec(s, steps);
            && r < |s'.incs| && s'.incs[r].id == s.incs[r].id && Orphaned(s', r)
            && (s'.handler == MarkRunning(r) || s'.handler == AddGroup(r) || LiveGroup(s', r))
            && (s'.handler.Reply? && s'.handler.answer.id == s.incs[r].id ==>
                  var a := s'.handler.answer;
                  OwnPost(s'.handler, r, a.id) || a.code == if a.post then BAD400 else ERROR500)
    decreases |steps|
  {
    if steps == [] {
      hide IncsOk, BoxesOk, GroupsOk, TasksOk, CallbacksOk, HandlerOk;
    } else {
      hide WF, IncsOk, BoxesOk, GroupsOk, TasksOk, CallbacksOk, HandlerOk, Next, Enabled, Orphaned, OwnPost, LiveGroup;
      StepKeeps(s, steps[0]);
      OrphanStays(s, steps[0], r);
      OrphanAnswers(Next(s, steps[0]), steps[1..], r);
    }
  }

  // ------------------------------------------------------------------ orphans do occur

  /** One more step at the end of a run, landing in a known state. */
  lemma Land(s: State, steps: seq<Step>, step: Step, s': State)
    requires Inv(s) && Run(s, steps) && Enabled(Exec(s, steps), step) && Next(Exec(s, steps), step) == s'
    ensures Run(s, steps + [step]) && Exec(s, steps + [step]) == s'
  {
    Extend(s, steps, step);
  }

  lemma HandlerOnce(s: State, c: Choice, s': State) returns (steps: seq<Step>)
    requires Inv(s) && !s.crashed && HandlerEnabled(s, c) && HandlerNext(s, c) == s'
    ensures steps == [HandlerStep(c)] && Inv(s') && Run(s, steps) && Exec(s, steps) == s'
  {
    hide HandlerOk, IncsOk, BoxesOk, GroupsOk, TasksOk, CallbacksOk, HandlerEnabled, HandlerAccess, HandlerMove;
    Land(s, [], HandlerStep(c), s');
    steps := [] + [HandlerStep(c)];
  }

  lemma CallbackOnce(s: State, m: BoxId, c: Choice, s': State) returns (steps: seq<Step>)
    requires Inv(s) && !s.crashed && CallbackEnabled(s, m, c) && CallbackNext(s, m, c) == s'
    ensures steps == [CallbackStep(m, c)] && Inv(s') && Run(s, steps) && Exec(s, steps) == s'
  {
    hide HandlerOk, IncsOk, BoxesOk, GroupsOk, TasksOk, CallbacksOk, CallbackEnabled, CallbackAccess, CallbackMove;
    Land(s, [], CallbackStep(m, c), s');
    steps := [] + [CallbackStep(m, c)];
  }

  ghost predicate OnlyHandler(steps: seq<Step>) {
    forall i | 0 <= i < |steps| :: steps[i].HandlerStep?
  }

  /** A POST is read and its task made. */
  lemma PostAccepted(s: State, id: TaskId, listing: seq<Path>) returns (steps: seq<Step>)
    requires Inv(s) && !s.crashed && s.handler == Idle && GroupLockFree(s) && id !in s.groups
    ensures steps == [Post(id, Readable(listing)), HandlerStep(Ok)] && Run(s, steps)
    ensures Exec(s, steps) == s.(handler := Running(|s.incs|, NewBox), incs := s.incs + [NewIncarnation(id, listing)])
  {
    hide HandlerOk, IncsOk, BoxesOk, GroupsOk, TasksOk, CallbacksOk;
    var post := Post(id, Readable(listing));
    var s1 := s.(handler := FindForCreate(id, Readable(listing)));
    Land(s, [], post, s1);
    var s2 := s1.(handler := Running(|s.incs|, NewBox), incs := s.incs + [NewIncarnation(id, listing)]);
    Land(s, [] + [post], HandlerStep(Ok), s2);
    steps := [] + [post] + [HandlerStep(Ok)];
  }

  /** The task with a modelbox task that was given its first path. */
  function FirstRun(inc: Incarnation, b: BoxId): Incarnation {
    Take(inc.(box := Some(b), runs := inc.runs + 1))
  }

  lemma BoxFilled(s: State, r: Ref) returns (steps: seq<Step>)
    requires Inv(s) && !s.crashed && s.handler == Running(r, NewBox) && r < |s.incs|
    ensures Run(s, steps) && OnlyHandler(steps)
    ensures Exec(s, steps) == s.(handler := Running(r, Launch),
                                 incs := s.incs[r := FirstRun(s.incs[r], |s.boxes|)],
                                 boxes := s.boxes + [Box(r, Created, false)])
  {
    hide HandlerOk, IncsOk, BoxesOk, GroupsOk, TasksOk, CallbacksOk, Take;
    var inc1 := s.incs[r].(box := Some(|s.boxes|), runs := s.incs[r].runs + 1);
    var s1 := s.(handler := Running(r, Prepare), incs := s.incs[r := inc1],
        boxes := s.boxes + [Box(r, Created, false)]);
    steps := HandlerOnce(s, Ok, s1);
    var s2 := s1.(handler := Running(r, Launch), incs := s.incs[r := Take(inc1)]);
    assert s1.incs[r := Take(inc1)] == s2.incs;
    var more := HandlerOnce(s1, Ok, s2);
    Compose(s, steps, more);
    steps := steps + more;
  }

  lemma TaskInserted(s: State, id: TaskId, r: Ref, b: BoxId) returns (steps: seq<Step>)
    requires Inv(s) && !s.crashed && s.handler == Running(r, Launch) && r < |s.incs| && b < |s.boxes|
    requires s.incs[r].id == id && s.incs[r].box == Some(b) && s.boxes[b] == Box(r, Created, false)
    ensures Run(s, steps) && OnlyHandler(steps)
    ensures Exec(s, steps) == s.(handler := MarkRunning(r), incs := s.incs[r := s.incs[r].(launched := Some(b))],
                                 boxes := s.boxes[b := Box(r, Protocol.Started, false)], tasks := s.tasks[id := r])
  {
    hide HandlerOk, IncsOk, BoxesOk, GroupsOk, TasksOk, CallbacksOk, Run, Exec;
    var s1 := s.(handler := AddTask(r), incs := s.incs[r := s.incs[r].(launched := Some(b))],
                 boxes := s.boxes[b := Box(r, Protocol.Started, false)]);
    steps := HandlerOnce(s, Ok, s1);
    var s2 := s1.(handler := MarkRunning(r), tasks := s.tasks[id := r]);
    var more := HandlerOnce(s1, Ok, s2);
    Compose(s, steps, more);
    steps := steps + more;
  }

  /** Modelbox reports the end of a task. */
  lemma Raises(s: State, r: Ref, b: BoxId, kind: Kind)
    requires Inv(s) && !s.crashed && b < |s.boxes| && s.boxes[b] == Box(r, Protocol.Started, false)
    ensures Run(s, [Raise(b, kind)])
    ensures Exec(s, [Raise(b, kind)]) == s.(boxes := s.boxes[b := Box(r, Raised, false)],
                                            callbacks := s.callbacks[b := Lookup(kind)])
  {
    hide HandlerOk, IncsOk, BoxesOk, GroupsOk, TasksOk, CallbacksOk;
    hide WF;
    StepKeeps(s, Raise(b, kind));
    assert [Raise(b, kind)][1..] == [];
  }

  /** The callback finds its entry. */
  lemma LookedUp(s: State, b: BoxId, kind: Kind, t: TaskId)
    requires Inv(s) && !s.crashed && b in s.callbacks && s.callbacks[b] == Lookup(kind)
    requires t in s.tasks && s.tasks[t] < |s.incs| && s.incs[s.tasks[t]].box == Some(b)
    ensures Run(s, [CallbackLookup(b, Some(t))])
    ensures Exec(s, [CallbackLookup(b, Some(t))]) == s.(callbacks := s.callbacks[b := Decide(kind, s.tasks[t])])
  {
    hide HandlerOk, IncsOk, BoxesOk, GroupsOk, TasksOk, CallbacksOk;
    StepKeeps(s, CallbackLookup(b, Some(t)));
    assert [CallbackLookup(b, Some(t))][1..] == [];
  }

  /** A stopped task is not run again. */
  lemma Decided(s: State, b: BoxId, r: Ref)
    requires Inv(s) && !s.crashed && b in s.callbacks && s.callbacks[b] == Decide(STOPPED, r)
    ensures Run(s, [CallbackStep(b, Ok)])
    ensures Exec(s, [CallbackStep(b, Ok)]) == s.(callbacks := s.callbacks[b := FindGroup(STOPPED, r)])
  {
    hide HandlerOk, IncsOk, BoxesOk, GroupsOk, TasksOk, CallbacksOk;
    StepKeeps(s, CallbackStep(b, Ok));
    assert [CallbackStep(b, Ok)][1..] == [];
  }

  /** Modelbox stops the task before the group is inserted: the callback finds no group. */
  lemma EarlyStop(s: State, id: TaskId, r: Ref, b: BoxId) returns (steps: seq<Step>)
    requires Inv(s) && !s.crashed && GroupLockFree(s) && r < |s.incs| && b < |s.boxes|
    requires s.incs[r].id == id && s.incs[r].box == Some(b) && s.boxes[b] == Box(r, Protocol.Started, false)
    requires id !in s.groups && id in s.tasks && s.tasks[id] == r
    ensures Run(s, steps)
    ensures Exec(s, steps) == s.(boxes := s.boxes[b := Box(r, Raised, false)],
                                 callbacks := s.callbacks[b := FindGroup(STOPPED, r)])
  {
    hide HandlerOk, IncsOk, BoxesOk, GroupsOk, TasksOk, CallbacksOk, WF, Next, Enabled, StepAccess;
    Raises(s, r, b, STOPPED);
    steps := [Raise(b, STOPPED)];
    var s1 := Exec(s, steps);
    LookedUp(s1, b, STOPPED, id);
    Compose(s, steps, [CallbackLookup(b, Some(id))]);
    steps := steps + [CallbackLookup(b, Some(id))];
    Decided(Exec(s, steps), b, r);
    Compose(s, steps, [CallbackStep(b, Ok)]);
    steps := steps + [CallbackStep(b, Ok)];
    assert s1.callbacks[b := Decide(STOPPED, r)][b := FindGroup(STOPPED, r)] == s.callbacks[b := FindGroup(STOPPED, r)];
  }

  lemma GroupMissed(s: State, r: Ref, b: BoxId)
    requires Inv(s) && GroupLockFree(s) && r < |s.incs| && s.incs[r].id !in s.groups
    requires b in s.callbacks && s.callbacks[b] == FindGroup(STOPPED, r)
    ensures CallbackEnabled(s, b, Ok)
    ensures CallbackNext(s, b, Ok) == s.(callbacks := s.callbacks[b := DeleteBox(STOPPED, r)])
  {
    hide WF, HandlerOk, IncsOk, BoxesOk, GroupsOk, TasksOk, CallbacksOk;
  }

  lemma BoxDropped(s: State, r: Ref, b: BoxId)
    requires Inv(s) && r < |s.incs| && b < |s.boxes| && s.incs[r].box == Some(b)
    requires b in s.callbacks && s.callbacks[b] == DeleteBox(STOPPED, r)
    ensures CallbackEnabled(s, b, Ok)
    ensures CallbackNext(s, b, Ok) == s.(boxes := s.boxes[b := s.boxes[b].(deleted := true)],
                                         callbacks := s.callbacks[b := Finish(STOPPED, r)])
  {
    hide WF, HandlerOk, IncsOk, BoxesOk, GroupsOk, TasksOk, CallbacksOk;
  }

  lemma TaskDropped(s: State, r: Ref, b: BoxId) returns (steps: seq<Step>)
    requires Inv(s) && !s.crashed && GroupLockFree(s) && r < |s.incs| && b < |s.boxes|
    requires b in s.callbacks && s.callbacks[b] == FindGroup(STOPPED, r)
    requires s.incs[r].box == Some(b) && s.incs[r].id !in s.groups
    ensures Run(s, steps)
    ensures Exec(s, steps) == s.(boxes := s.boxes[b := s.boxes[b].(deleted := true)],
                                 callbacks := s.callbacks[b := Finish(STOPPED, r)])
  {
    hide WF, HandlerOk, IncsOk, BoxesOk, GroupsOk, TasksOk, CallbacksOk, Run, Exec, CallbackNext, CallbackEnabled;
    var s1 := s.(callbacks := s.callbacks[b := DeleteBox(STOPPED, r)]);
    GroupMissed(s, r, b);
    steps := CallbackOnce(s, b, Ok, s1);
    BoxDropped(s1, r, b);
    assert s1.callbacks[b := Finish(STOPPED, r)] == s.callbacks[b := Finish(STOPPED, r)];
    var more := CallbackOnce(s1, b, Ok, CallbackNext(s1, b, Ok));
    Compose(s, steps, more);
    steps := steps + more;
  }

  lemma EntryErased(s: State, r: Ref, b: BoxId) returns (steps: seq<Step>)
    requires Inv(s) && !s.crashed && r < |s.incs| && b in s.callbacks && s.callbacks[b] == Finish(STOPPED, r)
    ensures Run(s, steps)
    ensures Exec(s, steps) == s.(incs := s.incs[r := s.incs[r].(finished := true)],
                                 callbacks := s.callbacks - {b}, tasks := s.tasks - {s.incs[r].id})
  {
    hide HandlerOk, IncsOk, BoxesOk, GroupsOk, TasksOk, CallbacksOk, Run, Exec;
    var s1 := s.(incs := s.incs[r := s.incs[r].(finished := true)],
        callbacks := s.callbacks[b := EraseTask(STOPPED, r)]);
    steps := CallbackOnce(s, b, Ok, s1);
    var s2 := s1.(callbacks := s.callbacks - {b}, tasks := s.tasks - {s.incs[r].id});
    assert s1.callbacks - {b} == s2.callbacks;
    var more := CallbackOnce(s1, b, Ok, s2);
    Compose(s, steps, more);
    steps := steps + more;
  }

  lemma DetailRead(s: State, r: Ref) returns (steps: seq<Step>)
    requires Inv(s) && !s.crashed && r < |s.incs| && s.handler == ReadDetail(r)
    ensures Run(s, steps) && OnlyHandler(steps)
    ensures Exec(s, steps) == s.(handler := Report(r, s.incs[r].status, Net(MAX_ATTEMPTS, false)))
  {
    hide HandlerOk, IncsOk, BoxesOk, GroupsOk, TasksOk, CallbacksOk, Run, Exec;
    steps := HandlerOnce(s, Ok, s.(handler := Report(r, s.incs[r].status, Net(MAX_ATTEMPTS, false))));
  }

  lemma GroupInserted(s: State, id: TaskId, r: Ref) returns (steps: seq<Step>)
    requires Inv(s) && !s.crashed && GroupLockFree(s) && r < |s.incs| && s.handler == MarkRunning(r)
    requires s.incs[r].id == id
    ensures Run(s, steps) && OnlyHandler(steps)
    ensures Exec(s, steps) == s.(handler := ReadDetail(r), incs := s.incs[r := s.incs[r].(status := RUNNING)],
                                 groups := s.groups[id := r], accepted := s.accepted + 1)
  {
    hide HandlerOk, IncsOk, BoxesOk, GroupsOk, TasksOk, CallbacksOk, Run, Exec;
    var s1 := s.(handler := AddGroup(r), incs := s.incs[r := s.incs[r].(status := RUNNING)]);
    steps := HandlerOnce(s, Ok, s1);
    var more := HandlerOnce(s1, Ok,
        s1.(handler := ReadDetail(r), groups := s.groups[id := r], accepted := s.accepted + 1));
    Compose(s, steps, more);
    steps := steps + more;
  }

  /** The creator publishes the task all the same, and answers 201. */
  lemma PublishedAnyway(s: State, id: TaskId, r: Ref) returns (steps: seq<Step>)
    requires Inv(s) && !s.crashed && GroupLockFree(s) && r < |s.incs| && s.handler == MarkRunning(r)
    requires s.incs[r].id == id
    ensures Run(s, steps) && OnlyHandler(steps)
    ensures Exec(s, steps) == s.(handler := Report(r, RUNNING, Net(MAX_ATTEMPTS, false)),
                                 incs := s.incs[r := s.incs[r].(status := RUNNING)],
                                 groups := s.groups[id := r], accepted := s.accepted + 1)
  {
    hide WF, HandlerOk, IncsOk, BoxesOk, GroupsOk, TasksOk, CallbacksOk, Next, Enabled;
    steps := GroupInserted(s, id, r);
    var more := DetailRead(Exec(s, steps), r);
    Compose(s, steps, more);
    steps := steps + more;
  }

  lemma ReportHeard(s: State, id: TaskId, r: Ref)
    requires Inv(s) && r < |s.incs| && s.incs[r].id == id && s.handler == Report(r, RUNNING, Net(MAX_ATTEMPTS, false))
    ensures HandlerEnabled(s, Deliver)
    ensures HandlerNext(s, Deliver) ==
            s.(handler := Report(r, RUNNING, Net(MAX_ATTEMPTS, true)), cloud := s.cloud[id := RUNNING])
  {
    hide WF, HandlerOk, IncsOk, BoxesOk, GroupsOk, TasksOk, CallbacksOk;
  }

  lemma ReportReturns(s: State, id: TaskId, r: Ref)
    requires Inv(s) && r < |s.incs| && s.incs[r].id == id && s.handler == Report(r, RUNNING, Net(MAX_ATTEMPTS, true))
    ensures HandlerEnabled(s, Ok)
    ensures HandlerNext(s, Ok) == s.(handler := Reply(Answer(id, true, CREATED201, None)))
  {
    hide WF, HandlerOk, IncsOk, BoxesOk, GroupsOk, TasksOk, CallbacksOk;
  }

  lemma ReplySent(s: State)
    requires Inv(s) && s.handler.Reply?
    ensures HandlerEnabled(s, Ok) && HandlerNext(s, Ok) == s.(handler := Idle, update := true)
  {
    hide WF, HandlerOk, IncsOk, BoxesOk, GroupsOk, TasksOk, CallbacksOk;
  }

  lemma AnswerSent(s: State, id: TaskId, r: Ref) returns (steps: seq<Step>)
    requires Inv(s) && !s.crashed && r < |s.incs| && s.incs[r].id == id
    requires s.handler == Report(r, RUNNING, Net(MAX_ATTEMPTS, false))
    ensures Run(s, steps) && OnlyHandler(steps)
    ensures Exec(s, steps) == s.(handler := Idle, cloud := s.cloud[id := RUNNING], update := true)
  {
    hide WF, HandlerOk, IncsOk, BoxesOk, GroupsOk, TasksOk, CallbacksOk, Run, Exec, HandlerNext, HandlerEnabled;
    ReportHeard(s, id, r);
    var s1 := HandlerNext(s, Deliver);
    steps := HandlerOnce(s, Deliver, s1);
    ReportReturns(s1, id, r);
    var s2 := HandlerNext(s1, Ok);
    var more := HandlerOnce(s1, Ok, s2);
    Compose(s, steps, more);
    steps := steps + more;
    ReplySent(s2);
    more := HandlerOnce(s2, Ok, HandlerNext(s2, Ok));
    Compose(s, steps, more);
    steps := steps + more;
  }

  /** So the hypothesis that callbacks wait for the publication is needed: from every idle state, for
      every unpublished id and every input, some run abandons the task of a POST that is answered 201. */
  lemma OrphansOccur(s: State, id: TaskId, listing: seq<Path>) returns (steps: seq<Step>)
    requires Inv(s) && !s.crashed && s.handler == Idle && GroupLockFree(s) && id !in s.groups
    ensures Run(s, steps) && Abandoned(Exec(s, steps), id) && Exec(s, steps).accepted == s.accepted + 1
  {
    hide HandlerOk, IncsOk, BoxesOk, GroupsOk, TasksOk, CallbacksOk;
    hide Next, Enabled, Take, FirstRun, NewIncarnation, Abandoned;
    NewTask(id, listing, |s.boxes|);
    var r, b := |s.incs|, |s.boxes|;
    steps := PostAccepted(s, id, listing);
    var s1 := Exec(s, steps);
    var more := BoxFilled(s1, r);
    Compose(s, steps, more);
    steps := steps + more;
    var s2 := Exec(s, steps);
    more := TaskInserted(s2, id, r, b);
    Compose(s, steps, more);
    steps := steps + more;
    var s3 := Exec(s, steps);
    more := EarlyStop(s3, id, r, b);
    Compose(s, steps, more);
    steps := steps + more;
    var s4 := Exec(s, steps);
    more := TaskDropped(s4, r, b);
    Compose(s, steps, more);
    steps := steps + more;
    more := EntryErased(Exec(s, steps), r, b);
    Compose(s, steps, more);
    steps := steps + more;
    var s5 := Exec(s, steps);
    more := PublishedAnyway(s5, id, r);
    Compose(s, steps, more);
    steps := steps + more;
    var s6 := Exec(s, steps);
    more := AnswerSent(s6, id, r);
    Compose(s, steps, more);
    steps := steps + more;
    NowAbandoned(s, Exec(s, steps), id, r, b);
  }

  lemma NewTask(id: TaskId, listing: seq<Path>, b: BoxId)
    ensures NewIncarnation(id, listing).id == id
    ensures var inc := FirstRun(NewIncarnation(id, listing), b); inc.id == id && inc.box == Some(b)
  {
  }

  lemma NowAbandoned(s: State, s': State, id: TaskId, r: Ref, b: BoxId)
    requires Inv(s) && Inv(s') && r == |s.incs| && b == |s.boxes|
    requires s'.handler == Idle && s'.tasks == s.tasks[id := r] - {id} && s'.groups == s.groups[id := r]
    requires |s'.incs| == r + 1 && s'.incs[r].id == id && s'.incs[r].status == RUNNING
    requires |s'.boxes| == b + 1 && s'.boxes[..b] == s.boxes && s'.boxes[b].phase == Raised
    requires s'.callbacks.Keys <= s.callbacks.Keys
    ensures Abandoned(s', id)
  {
    hide HandlerOk, IncsOk, BoxesOk, GroupsOk, TasksOk, CallbacksOk, HandlerInRange;
    forall n | 0 <= n < b ensures s'.boxes[n] == s.boxes[n] && s'.boxes[n].owner != r {
      assert s'.boxes[n] == s'.boxes[..b][n];
    }
    assert forall m | m in s'.callbacks :: m in s.callbacks && m < b;
  }
}
