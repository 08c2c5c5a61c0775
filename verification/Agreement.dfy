/** The two task tables under the three hypotheses the code relies on. */
module Agreement {
  import opened Types
  import opened Protocol
  import opened Invariants
  import opened Runs
  import opened Published

  /** Hypothesis: a POST of an id that the manager still knows finds the group published, so the id
      is not reused while the last callback for it is still leaving.  Fresh ids satisfy it. */
  ghost predicate SettledIds(s: State, step: Step) {
    step.HandlerStep? && s.handler.FindForCreate? && s.handler.id in s.tasks ==> s.handler.id in s.groups
  }

  ghost predicate Friendly(s: State, step: Step)
    requires WF(s) && Enabled(s, step)
  {
    AfterPublication(s, step) && SettledIds(s, step) && RerunsSucceed(s, step)
  }

  ghost predicate FriendlyRun(s: State, steps: seq<Step>)
    requires Inv(s) && Run(s, steps)
    decreases |steps|
  {
    steps == [] ||
    (Friendly(s, steps[0]) &&
      (assert Inv(Next(s, steps[0])) by { StepKeeps(s, steps[0]); }
       FriendlyRun(Next(s, steps[0]), steps[1..])))
  }

  /** A group in the table has its manager entry. */
  predicate GroupHasTask(t: TaskId, g: Ref, tasks: map<TaskId, Ref>) {
    t in tasks && tasks[t] == g
  }

  /** A manager entry has been launched, and is published unless its creator has not got there yet or
      its last callback has already erased the group. */
  predicate TaskAccounted(r: Ref, inc: Incarnation, h: Handler, anchor: Anchor, cb: Option<Callback>) {
    && inc.launched.Some?
    && (|| anchor == Anchor.Published || h == MarkRunning(r) || h == AddGroup(r)
        || (cb.Some? && Leaving(cb.value) && cb.value.r == r))
  }

  /** A leaving callback still has its manager entry, and its id has not been published again. */
  predicate LeaverAccounted(s: State, m: BoxId, cb: Callback)
    requires m < |s.boxes| && s.boxes[m].owner < |s.incs|
  {
    var r := s.boxes[m].owner;
    var id := s.incs[r].id;
    Leaving(cb) ==> id in s.tasks && s.tasks[id] == r && id !in s.groups
  }

  predicate HandlerAccounted(s: State)
    requires HandlerInRange(s)
  {
    match s.handler
    case Running(r, _) => s.incs[r].id !in s.tasks
    case AddTask(r) => s.incs[r].id !in s.tasks && s.incs[r].launched.Some?
    case MarkRunning(r) => s.incs[r].id in s.tasks && s.tasks[s.incs[r].id] == r && s.incs[r].launched.Some?
    case AddGroup(r) => s.incs[r].id in s.tasks && s.tasks[s.incs[r].id] == r && s.incs[r].launched.Some?
    case Halt(_, _, r) => s.incs[r].launched.Some?
    case Await(_, _, r) => s.incs[r].launched.Some?
    case _ => true
  }

  ghost predicate Agreed(s: State)
    requires WF(s)
  {
    && !s.crashed
    && HandlerAccounted(s)
    && (forall t | t in s.groups :: GroupHasTask(t, s.groups[t], s.tasks))
    && (forall t | t in s.tasks :: TaskAt(s, t, s.tasks[t]))
    && (forall m | m in s.callbacks :: LeaverAccounted(s, m, s.callbacks[m]))
    && (forall r | 0 <= r < |s.incs| :: s.incs[r].launched.Some? ==> s.incs[r].box.Some?)
  }

  predicate TaskAt(s: State, t: TaskId, r: Ref)
    requires r < |s.incs|
  {
    TaskAccounted(r, s.incs[r], s.handler, AnchorOf(s.handler, s.groups, r, s.incs[r].id),
                  CallbackOf(s.callbacks, s.incs[r].launched))
  }

  // ------------------------------------------------------------------ no crash

  /** The scan for a reporting modelbox task finds its entry. */
  lemma ScanHits(s: State, m: BoxId, hit: Option<TaskId>)
    requires Inv(s) && Agreed(s) && m < |s.boxes| && ScanResult(s, m, hit)
    requires var r := s.boxes[m].owner;
             r < |s.incs| && s.incs[r].box == Some(m) && s.incs[r].id in s.groups && s.groups[s.incs[r].id] == r
    ensures hit == Some(s.incs[s.boxes[m].owner].id)
  {
    hide HandlerOk, BoxesOk, GroupsOk, CallbacksOk;
    var r := s.boxes[m].owner;
    var id := s.incs[r].id;
    assert GroupHasTask(id, r, s.tasks);
    forall t | t in s.tasks ensures s.incs[s.tasks[t]].box.Some? && (s.incs[s.tasks[t]].box == Some(m) ==> t == id) {
      var q := s.tasks[t];
      assert TaskAt(s, t, q);
      assert IncOk(q, s.incs[q], CurrentBox(s.boxes, s.incs[q]));
      assert TaskOk(t, q, s.incs[q], s.groups);
    }
    assert forall t | t in s.tasks :: t in EntryBoxes(s) && EntryBoxes(s)[t] == s.incs[s.tasks[t]].box;
  }

  lemma StartedIsLive(s: State, b: BoxId)
    requires Inv(s) && b < |s.boxes| && s.boxes[b].phase == Started && !Creating(s.handler, s.boxes[b].owner)
    ensures var r := s.boxes[b].owner;
            s.incs[r].box == Some(b) && s.incs[r].id in s.groups && s.groups[s.incs[r].id] == r
  {
    hide HandlerOk, IncsOk, GroupsOk, TasksOk, CallbacksOk;
    assert BoxAt(s, b, s.boxes[b]);
  }

  lemma NoCrash(s: State, step: Step)
    requires Inv(s) && Enabled(s, step) && PublishedInv(s) && Agreed(s) && Friendly(s, step)
    ensures StepAccess(s, step) != Crash
  {
    hide IncsOk, BoxesOk, GroupsOk, TasksOk, CallbacksOk, AnchorOf, TaskAt, Gone, Ended;
    match step
    case OtherStatus(m, hit) =>
      StartedIsLive(s, m);
      ScanHits(s, m, hit);
    case CallbackLookup(m, hit) =>
      GroupIsLive(s, m);
      CallbackHas(s, m);
      ScanHits(s, m, hit);
    case CallbackStep(m, _) => CallbackHas(s, m);
    case _ =>
  }

  // ------------------------------------------------------------------ one step

  lemma BoxesStayNonNull(s: State, step: Step, r: Ref)
    requires Inv(s) && Enabled(s, step) && Agreed(s) && Friendly(s, step)
    requires r < |Next(s, step).incs| && Next(s, step).incs[r].launched.Some?
    ensures Next(s, step).incs[r].box.Some?
  {
    hide WF, IncsOk, BoxesOk, GroupsOk, TasksOk;
    hide CallbacksOk, TaskAt, HandlerAfter, CallbacksAfter, BeatAfter, AfterPublication;
    hide GroupsAfter, TasksAfter, CloudAfter, BoxesAfter;
  }

  /** Who adds and removes manager entries. */
  lemma TaskAccess(s: State, step: Step)
    requires Inv(s) && Enabled(s, step) && Agreed(s)
    ensures var a := StepAccess(s, step);
            && (a.InsertTask? ==>
                  step.HandlerStep? && s.handler == AddTask(a.r) && HandlerAfter(s, step) == MarkRunning(a.r) &&
                      a.r < |s.incs|
                  && s.incs[a.r].id !in s.groups && s.incs[a.r].id !in s.tasks && s.incs[a.r].launched.Some?)
            && (a.RemoveTask? ==>
                  step.CallbackStep? && step.m in s.callbacks && step.m < |s.boxes| && s.boxes[step.m].owner < |s.incs|
                  && s.callbacks[step.m].EraseTask? && a.id == s.incs[s.boxes[step.m].owner].id
                  && a.id !in s.groups && a.id in s.tasks && s.tasks[a.id] == s.boxes[step.m].owner)
  {
    hide IncsOk, BoxesOk, GroupsOk, TasksOk, CallbacksOk, TaskAt, AnchorOf;
    if step.CallbackStep? { CallbackHas(s, step.m); }
  }

  lemma GroupsKeepTasks(s: State, step: Step, t: TaskId)
    requires Inv(s) && Enabled(s, step) && Agreed(s) && t in Next(s, step).groups
    ensures GroupHasTask(t, Next(s, step).groups[t], Next(s, step).tasks)
  {
    hide WF, IncsOk, BoxesOk, GroupsOk, TasksOk;
    hide CallbacksOk, HandlerOk, TaskAt, HandlerAfter, CallbacksAfter, BeatAfter;
    hide StepAccess, IncsAfter, CloudAfter, BoxesAfter, Enabled;
    GroupAccess(s, step);
    TaskAccess(s, step);
  }

  lemma LeaverStays(s: State, step: Step, m: BoxId)
    requires Inv(s) && Enabled(s, step) && PublishedInv(s) && Agreed(s) && m in s.callbacks && Leaving(s.callbacks[m])
    requires !(step.CallbackStep? && step.m == m && s.callbacks[m].EraseTask?)
    ensures var r, s' := s.boxes[m].owner, Next(s, step);
            && r < |s'.incs| && s'.incs[r].id == s.incs[r].id
            && s.incs[r].id in s'.tasks && s'.tasks[s.incs[r].id] == r && s.incs[r].id !in s'.groups
  {
    hide IncsOk, BoxesOk, GroupsOk, TasksOk, CallbacksOk, HandlerOk, TaskAt, HandlerAfter, CallbacksAfter, BeatAfter;
    hide StepAccess, IncsAfter, CloudAfter, BoxesAfter, Enabled;
    var r := s.boxes[m].owner;
    GroupAccess(s, step);
    TaskAccess(s, step);
    StepStatus(s, step, r);
    if StepAccess(s, step).RemoveTask? && s.boxes[step.m].owner == r { LeavingOwner(s, m, step.m); }
  }

  lemma LeavingOwner(s: State, m: BoxId, n: BoxId)
    requires Inv(s) && m in s.callbacks && n in s.callbacks && s.boxes[m].owner == s.boxes[n].owner
    ensures m == n
  {
    hide HandlerOk, IncsOk, BoxesOk, GroupsOk, TasksOk, CallbacksOk;
    if m != n { OwnersDiffer(s, m, n); }
  }

  /** A callback starts to leave by erasing its own group. */
  lemma OnlyErasersLeave(s: State, m: BoxId, c: Choice)
    requires Inv(s) && Enabled(s, CallbackStep(m, c)) && PublishedInv(s) && !Leaving(s.callbacks[m])
    requires m in Next(s, CallbackStep(m, c)).callbacks && Leaving(Next(s, CallbackStep(m, c)).callbacks[m])
    ensures m < |s.boxes| && s.boxes[m].owner < |s.incs|
    ensures var r := s.boxes[m].owner;
            && s.callbacks[m].EraseGroup? && s.callbacks[m].g == r
            && s.incs[r].id in s.groups && s.groups[s.incs[r].id] == r
  {
    hide IncsOk, BoxesOk, GroupsOk, TasksOk, CallbacksOk, HandlerOk, Gone, Ended;
    hide IncsAfter, GroupsAfter, TasksAfter, BoxesAfter, CloudAfter, StepAccess;
    CallbackHas(s, m);
    assert CallbackPublished(s, m, s.callbacks[m]);
    if BeforeGroup(s.callbacks[m]) { GroupIsLive(s, m); }
  }

  lemma LeaverMade(s: State, m: BoxId, c: Choice)
    requires Inv(s) && Enabled(s, CallbackStep(m, c)) && PublishedInv(s) && Agreed(s) && !Leaving(s.callbacks[m])
    requires var s' := Next(s, CallbackStep(m, c)); WF(s') && m in s'.callbacks && Leaving(s'.callbacks[m])
    ensures LeaverAccounted(Next(s, CallbackStep(m, c)), m, Next(s, CallbackStep(m, c)).callbacks[m])
  {
    hide WF, IncsOk, BoxesOk, GroupsOk, TasksOk, CallbacksOk, HandlerOk, TaskAt, PublishedInv, HandlerAccounted;
    OnlyErasersLeave(s, m, c);
    var r := s.boxes[m].owner;
    assert GroupHasTask(s.incs[r].id, r, s.tasks);
  }

  /** launched is written by MATask::Run and never cleared. */
  lemma LaunchedStays(s: State, step: Step, r: Ref)
    requires Inv(s) && Enabled(s, step) && r < |s.incs| && s.incs[r].launched.Some?
    ensures r < |Next(s, step).incs| && Next(s, step).incs[r].launched.Some?
    ensures Next(s, step).incs[r].launched == s.incs[r].launched || StepAccess(s, step) == LaunchBox(r)
  {
    hide WF, IncsOk, BoxesOk, GroupsOk, TasksOk;
    hide CallbacksOk, HandlerOk, StepAccess, HandlerAfter, CallbacksAfter, BeatAfter;
    hide GroupsAfter, TasksAfter, CloudAfter, BoxesAfter, Enabled;
  }

  lemma TaskIds(s: State, t: TaskId)
    requires Inv(s) && t in s.tasks
    ensures s.tasks[t] < |s.incs| && s.incs[s.tasks[t]].id == t
  {
    hide HandlerOk, IncsOk, BoxesOk, GroupsOk, CallbacksOk;
  }

  /** A published entry: the group stays, or its own callback has just erased it. */
  lemma PublishedEntry(s: State, step: Step, r: Ref)
    requires Inv(s) && Enabled(s, step) && r < |s.incs|
    requires AnchorOf(s.handler, s.groups, r, s.incs[r].id) == Anchor.Published
    ensures var s', id := Next(s, step), s.incs[r].id;
            && r < |s'.incs| && s'.incs[r].id == id
            && (|| AnchorOf(s'.handler, s'.groups, r, id) == Anchor.Published
                || (step.CallbackStep? && step.m in s'.callbacks && s'.callbacks[step.m].Notify?
                    && s'.callbacks[step.m].r == r && s'.incs[r].launched == Some(step.m)))
  {
    hide IncsOk, BoxesOk, GroupsOk, TasksOk, CallbacksOk, HandlerOk, BeatAfter, CloudAfter, BoxesAfter, TasksAfter;
    GroupAccess(s, step);
    StepStatus(s, step, r);
    NoNewCreator(s, step, r);
    if step.CallbackStep? { CallbackHas(s, step.m); }
  }

  /** An entry whose creator has not published it yet. */
  lemma CreatorEntry(s: State, step: Step, r: Ref)
    requires Inv(s) && Enabled(s, step) && r < |s.incs| && (s.handler == MarkRunning(r) || s.handler == AddGroup(r))
    ensures var s', id := Next(s, step), s.incs[r].id;
            && r < |s'.incs| && s'.incs[r].id == id
            && (s'.handler == MarkRunning(r) || s'.handler == AddGroup(r)
                || AnchorOf(s'.handler, s'.groups, r, id) == Anchor.Published)
  {
    hide WF, IncsOk, BoxesOk, GroupsOk, TasksOk, CallbacksOk;
    hide HandlerOk, BeatAfter, CallbacksAfter, CloudAfter, BoxesAfter, TasksAfter;
    StepStatus(s, step, r);
  }

  /** A leaving callback goes on leaving until it erases its entry. */
  lemma LeavesOn(s: State, m: BoxId, c: Choice)
    requires Inv(s) && Enabled(s, CallbackStep(m, c)) && Leaving(s.callbacks[m])
    ensures var cbs := CallbacksAfter(s, CallbackStep(m, c));
            if s.callbacks[m].EraseTask? then
              StepAccess(s, CallbackStep(m, c)) == RemoveTask(s.incs[s.callbacks[m].r].id)
            else m in cbs && Leaving(cbs[m]) && cbs[m].r == s.callbacks[m].r
    ensures !StepAccess(s, CallbackStep(m, c)).LaunchBox?
  {
    hide WF, HandlerOk, IncsOk, BoxesOk, GroupsOk, TasksOk, CallbacksOk;
  }

  lemma NoForeignLaunch(s: State, step: Step, r: Ref, m: BoxId)
    requires Inv(s) && Enabled(s, step) && r < |s.incs| && m in s.callbacks && Leaving(s.callbacks[m])
    requires s.incs[r].launched == Some(m)
    ensures StepAccess(s, step) != LaunchBox(r)
  {
    hide WF, IncsOk, BoxesOk, GroupsOk, TasksOk, CallbacksOk;
    if step.CallbackStep? { CallbackHas(s, step.m); }
  }

  lemma OthersStayOn(s: State, step: Step, m: BoxId)
    requires Inv(s) && Enabled(s, step) && m in s.callbacks && Leaving(s.callbacks[m])
    requires !(step.CallbackStep? && step.m == m)
    ensures m in CallbacksAfter(s, step) && CallbacksAfter(s, step)[m] == s.callbacks[m]
  {
    hide HandlerOk, IncsOk, BoxesOk, GroupsOk, TasksOk, CallbacksOk;
    CallbackHas(s, m);
  }

  /** An entry whose last callback is leaving. */
  lemma LeaverEntry(s: State, step: Step, r: Ref, m: BoxId)
    requires Inv(s) && Enabled(s, step) && r < |s.incs| && m in s.callbacks
    requires Leaving(s.callbacks[m]) && s.callbacks[m].r == r && s.incs[r].launched == Some(m)
    ensures var s' := Next(s, step);
            || (r < |s'.incs| && s'.incs[r].launched == Some(m) && m in s'.callbacks
                && Leaving(s'.callbacks[m]) && s'.callbacks[m].r == r)
            || StepAccess(s, step) == RemoveTask(s.incs[r].id)
  {
    hide WF, HandlerOk, IncsOk, BoxesOk, GroupsOk, TasksOk, CallbacksOk, StepAccess, CallbacksAfter, Enabled;
    hide IncsAfter, BoxesAfter, GroupsAfter, TasksAfter, CloudAfter, HandlerAfter, BeatAfter;
    LaunchedStays(s, step, r);
    NoForeignLaunch(s, step, r, m);
    if step.CallbackStep? && step.m == m { LeavesOn(s, m, step.c); } else { OthersStayOn(s, step, m); }
  }

  lemma EntryStays(s: State, step: Step, t: TaskId)
    requires Inv(s) && Enabled(s, step) && Agreed(s) && WF(Next(s, step))
    requires t in s.tasks && t in Next(s, step).tasks && Next(s, step).tasks[t] == s.tasks[t]
    ensures TaskAt(Next(s, step), t, s.tasks[t])
  {
    hide IncsOk, BoxesOk, GroupsOk, TasksOk, CallbacksOk, HandlerOk, BeatAfter, HandlerAfter, CallbacksAfter;
    hide IncsAfter, CloudAfter, BoxesAfter, GroupsAfter, AnchorOf, StepAccess, Enabled;
    var r := s.tasks[t];
    TaskIds(s, t);
    assert TaskAt(s, t, r);
    LaunchedStays(s, step, r);
    SameId(s, step, r);
    var cb := CallbackOf(s.callbacks, s.incs[r].launched);
    if AnchorOf(s.handler, s.groups, r, t) == Anchor.Published {
      PublishedEntry(s, step, r);
    } else if s.handler == MarkRunning(r) || s.handler == AddGroup(r) {
      CreatorEntry(s, step, r);
    } else {
      LeaverEntry(s, step, r, s.incs[r].launched.value);
    }
  }

  lemma TasksStayAccounted(s: State, step: Step, t: TaskId)
    requires Inv(s) && Enabled(s, step) && Agreed(s) && WF(Next(s, step)) && t in Next(s, step).tasks
    ensures TaskAt(Next(s, step), t, Next(s, step).tasks[t])
  {
    hide IncsOk, BoxesOk, GroupsOk, TasksOk, CallbacksOk, HandlerOk, BeatAfter, HandlerAfter, CallbacksAfter;
    hide IncsAfter, CloudAfter, BoxesAfter, GroupsAfter, AnchorOf, StepAccess, Enabled;
    TaskAccess(s, step);
    var a := StepAccess(s, step);
    if a.InsertTask? && t == s.incs[a.r].id {
      LaunchedStays(s, step, a.r);
    } else {
      EntryStays(s, step, t);
    }
  }

  lemma TaskLaunched(s: State, t: TaskId)
    requires Inv(s) && Agreed(s) && t in s.tasks
    ensures s.tasks[t] < |s.incs| && s.incs[s.tasks[t]].id == t && s.incs[s.tasks[t]].launched.Some?
  {
    hide HandlerOk, IncsOk, BoxesOk, GroupsOk, CallbacksOk;
    TaskIds(s, t);
    assert TaskAt(s, t, s.tasks[t]);
  }

  /** While r's creator is between its insertions, nothing removes r's entry. */
  lemma CreatorKeepsEntry(s: State, step: Step, r: Ref)
    requires Inv(s) && Enabled(s, step) && PublishedInv(s) && Agreed(s)
    requires s.handler == MarkRunning(r) || s.handler == AddGroup(r)
    ensures r < |Next(s, step).incs| && Next(s, step).incs[r].id == s.incs[r].id
    ensures s.incs[r].id in Next(s, step).tasks && Next(s, step).tasks[s.incs[r].id] == r
  {
    hide IncsOk, BoxesOk, GroupsOk, TasksOk, CallbacksOk;
    hide TaskAt, StepAccess, IncsAfter, GroupsAfter, BoxesAfter, CloudAfter;
    hide HandlerAfter, CallbacksAfter, Enabled;
    TaskAccess(s, step);
    SameId(s, step, r);
  }

  /** While r's creator is before the manager's insertion, nothing adds r's id. */
  lemma CreatorAlone(s: State, step: Step, id: TaskId)
    requires Inv(s) && Enabled(s, step) && Agreed(s) && id !in s.tasks
    ensures id in Next(s, step).tasks ==> step.HandlerStep? && s.handler.AddTask? && s.incs[s.handler.r].id == id
  {
    hide IncsOk, BoxesOk, GroupsOk, TasksOk, CallbacksOk;
    hide TaskAt, StepAccess, IncsAfter, GroupsAfter, BoxesAfter, CloudAfter;
    hide HandlerAfter, CallbacksAfter, Enabled;
    TaskAccess(s, step);
  }

  lemma CreationStaysAccounted(s: State, step: Step)
    requires Inv(s) && Enabled(s, step) && PublishedInv(s) && Agreed(s) && WF(Next(s, step))
    requires s.handler.Running? || s.handler.AddTask? || s.handler.MarkRunning? || s.handler.AddGroup?
    ensures HandlerAccounted(Next(s, step))
  {
    hide IncsOk, BoxesOk, GroupsOk, TasksOk, CallbacksOk, BeatAfter, CallbacksAfter, CloudAfter, GroupsAfter, TaskAt;
    hide TasksAfter, BoxesAfter, PublishedInv;
    var r := s.handler.r;
    SameId(s, step, r);
    if s.incs[r].launched.Some? { LaunchedStays(s, step, r); }
    if s.handler.MarkRunning? || s.handler.AddGroup? { CreatorKeepsEntry(s, step, r); }
    if s.handler.Running? { CreatorAlone(s, step, s.incs[r].id); }
    if s.handler.AddTask? {
      CreatorAlone(s, step, s.incs[r].id);
      TaskAccess(s, step);
      if step.HandlerStep? { InsertMakesEntry(s, step); }
    }
  }

  lemma InsertMakesEntry(s: State, step: Step)
    requires Inv(s) && Enabled(s, step) && step.HandlerStep? && s.handler.AddTask?
    ensures var id := s.incs[s.handler.r].id; id in Next(s, step).tasks && Next(s, step).tasks[id] == s.handler.r
  {
    hide WF, IncsOk, BoxesOk, GroupsOk, TasksOk, CallbacksOk;
  }

  /** The handler's next place. */
  lemma HandlerStaysAccounted(s: State, step: Step)
    requires Inv(s) && Enabled(s, step) && PublishedInv(s) && Agreed(s) && SettledIds(s, step) && WF(Next(s, step))
    ensures HandlerAccounted(Next(s, step))
  {
    hide IncsOk, BoxesOk, GroupsOk, TasksOk, CallbacksOk;
    hide BeatAfter, CallbacksAfter, CloudAfter, GroupsAfter, BoxesAfter, TaskAt;
    hide PublishedInv, IncsAfter;
    if s.handler.Running? || s.handler.AddTask? || s.handler.MarkRunning? || s.handler.AddGroup? {
      CreationStaysAccounted(s, step);
    } else if s.handler.Halt? || s.handler.Await? {
      LaunchedStays(s, step, s.handler.r);
    } else if s.handler.FindTaskEntry? {
      if s.handler.id in s.tasks { TaskLaunched(s, s.handler.id); LaunchedStays(s, step, s.tasks[s.handler.id]); }
    } else {
      IdsKept(s, step);
    }
  }

  lemma LeaversStayAccounted(s: State, step: Step, m: BoxId)
    requires Inv(s) && Enabled(s, step) && PublishedInv(s) && Agreed(s) && WF(Next(s, step)) &&
             m in Next(s, step).callbacks
    ensures LeaverAccounted(Next(s, step), m, Next(s, step).callbacks[m])
  {
    hide IncsOk, BoxesOk, GroupsOk, TasksOk, CallbacksOk, HandlerOk, TaskAt, HandlerAfter, BeatAfter, PublishedInv;
    hide GroupsAfter, TasksAfter, IncsAfter, CloudAfter;
    if m in s.callbacks {
      OwnersStay(s, step, m);
      if Leaving(s.callbacks[m]) {
        LeavesOnce(s, step, m);
        LeaverStays(s, step, m);
      } else if step.CallbackStep? && step.m == m && Leaving(Next(s, step).callbacks[m]) {
        LeaverMade(s, m, step.c);
      }
    }
  }

  /** A callback that has erased its entry returns. */
  lemma LeavesOnce(s: State, step: Step, m: BoxId)
    requires Inv(s) && Enabled(s, step) && m in s.callbacks && m in Next(s, step).callbacks
    ensures !(step.CallbackStep? && step.m == m && s.callbacks[m].EraseTask?)
  {
    hide WF, IncsOk, BoxesOk, GroupsOk, TasksOk, CallbacksOk, HandlerOk;
  }

  lemma StepAgrees(s: State, step: Step)
    requires Inv(s) && Enabled(s, step) && PublishedInv(s) && Agreed(s) && Friendly(s, step) && WF(Next(s, step))
    ensures Agreed(Next(s, step))
  {
    var s' := Next(s, step);
    NoCrash(s, step);
    assert !s'.crashed by { hide WF, IncsOk, BoxesOk, GroupsOk, TasksOk, CallbacksOk, HandlerOk, StepAccess; }
    hide Inv, Enabled, Next, TaskAt, GroupHasTask;
    hide LeaverAccounted, HandlerAccounted, PublishedInv, Agreed, AfterPublication;
    HandlerStaysAccounted(s, step);
    forall t | t in s'.groups ensures GroupHasTask(t, s'.groups[t], s'.tasks) { GroupsKeepTasks(s, step, t); }
    forall t | t in s'.tasks ensures TaskAt(s', t, s'.tasks[t]) { TasksStayAccounted(s, step, t); }
    forall m | m in s'.callbacks ensures LeaverAccounted(s', m, s'.callbacks[m]) { LeaversStayAccounted(s, step, m); }
    forall r | 0 <= r < |s'.incs| && s'.incs[r].launched.Some? ensures s'.incs[r].box.Some? {
      BoxesStayNonNull(s, step, r);
    }
    AgreedParts(s');
  }

  lemma AgreedParts(s: State)
    requires WF(s) && !s.crashed && HandlerAccounted(s)
    requires forall t | t in s.groups :: GroupHasTask(t, s.groups[t], s.tasks)
    requires forall t | t in s.tasks :: TaskAt(s, t, s.tasks[t])
    requires forall m | m in s.callbacks :: LeaverAccounted(s, m, s.callbacks[m])
    requires forall r | 0 <= r < |s.incs| :: s.incs[r].launched.Some? ==> s.incs[r].box.Some?
    ensures Agreed(s)
  {
  }

  lemma {:induction false} RunAgrees(s: State, steps: seq<Step>)
    requires Inv(s) && Run(s, steps) && FriendlyRun(s, steps) && PublishedInv(s) && Agreed(s)
    ensures Agreed(Exec(s, steps)) && PublishedInv(Exec(s, steps))
    decreases |steps|
  {
    hide WF, IncsOk, BoxesOk, GroupsOk, TasksOk, CallbacksOk;
    hide HandlerOk, Next, Enabled, PublishedInv, AfterPublication, Agreed;
    if steps == [] {
    } else {
      StepKeeps(s, steps[0]);
      StepPublished(s, steps[0]);
      StepAgrees(s, steps[0]);
      RunAgrees(Next(s, steps[0]), steps[1..]);
    }
  }

  /** A run from the start of the service that meets the three hypotheses. */
  ghost predicate FriendlyTrace(s0: State, steps: seq<Step>) {
    Trace(s0, steps) && (assert Inv(s0) by { InitialInv(s0); } FriendlyRun(s0, steps))
  }

  lemma TraceAgrees(s0: State, steps: seq<Step>)
    requires FriendlyTrace(s0, steps)
    ensures Agreed(Last(s0, steps)) && PublishedInv(Last(s0, steps))
  {
    hide Inv;
    InitialInv(s0);
    assert Agreed(s0) && PublishedInv(s0);
    RunAgrees(s0, steps);
  }

  // ------------------------------------------------------------------ the theorems

  /** Nothing runs that could still change a table: no callback, and no creation under way. */
  predicate AtRest(s: State) {
    s.callbacks == map[] && (s.handler.Idle? || s.handler.Reply?)
  }

  /** An entry without a group. */
  lemma LoneEntry(s: State, t: TaskId)
    requires Inv(s) && Agreed(s) && t in s.tasks && t !in s.groups
    ensures s.handler == MarkRunning(s.tasks[t]) || s.handler == AddGroup(s.tasks[t])
            || exists m :: m in s.callbacks && Leaving(s.callbacks[m]) && s.callbacks[m].r == s.tasks[t]
  {
    hide HandlerOk, IncsOk, BoxesOk, CallbacksOk, GroupsOk, TasksOk, LeaverAccounted;
    assert TaskAt(s, t, s.tasks[t]);
    TaskIds(s, t);
  }

  /** Two-map agreement: the service never crashes; every published group has its own entry in the
      manager's table; an entry without a group is the one its creator is publishing or one whose
      callback has erased the group already; at rest the tables are equal and every group RUNNING. */
  lemma TwoMapAgreement(s0: State, steps: seq<Step>)
    requires FriendlyTrace(s0, steps)
    ensures var s := Last(s0, steps);
            && !s.crashed
            && (forall t | t in s.groups :: t in s.tasks && s.tasks[t] == s.groups[t])
            && (forall t | t in s.tasks && t !in s.groups ::
                  || s.handler == MarkRunning(s.tasks[t]) || s.handler == AddGroup(s.tasks[t])
                  || exists m :: m in s.callbacks && Leaving(s.callbacks[m]) && s.callbacks[m].r == s.tasks[t])
            && (AtRest(s) ==> s.groups == s.tasks && forall t | t in s.groups :: View(s)[t] == RUNNING)
  {
    hide HandlerOk, IncsOk, BoxesOk, CallbacksOk, GroupsOk, TasksOk, TaskAt, LeaverAccounted;
    TraceAgrees(s0, steps);
    var s := Last(s0, steps);
    forall t | t in s.groups ensures t in s.tasks && s.tasks[t] == s.groups[t] {
      assert GroupHasTask(t, s.groups[t], s.tasks);
    }
    forall t | t in s.tasks && t !in s.groups
      ensures s.handler == MarkRunning(s.tasks[t]) || s.handler == AddGroup(s.tasks[t])
              || exists m :: m in s.callbacks && Leaving(s.callbacks[m]) && s.callbacks[m].r == s.tasks[t]
    {
      LoneEntry(s, t);
    }
    if AtRest(s) {
      forall t | t in s.groups ensures View(s)[t] == RUNNING { PublishedStatus(s0, steps, t); }
    }
  }
}
