/** The locks cannot deadlock: callbacks and the heartbeat never need the handler's mutex. */
module Progress {
  import opened Types
  import opened ObsSource
  import opened Protocol
  import opened Invariants
  import opened Runs
  import opened Reachable
  import opened Agreement

  // ------------------------------------------------------------------ a launched task is never lost

  /** The last launched modelbox task runs, or its callback is on its way to is_finish_, or is_finish_ is set. */
  predicate LiveInc(r: Ref, inc: Incarnation, boxes: seq<Box>, callbacks: map<BoxId, Callback>) {
    inc.launched.Some? ==>
      var b := inc.launched.value;
      && b < |boxes| && boxes[b].owner == r
      && (inc.finished || boxes[b].phase == Started || (b in callbacks && !callbacks[b].EraseTask?))
  }

  predicate LiveAt(s: State, r: Ref)
    requires r < |s.incs|
  {
    LiveInc(r, s.incs[r], s.boxes, s.callbacks)
  }

  ghost predicate Live(s: State) {
    forall r | 0 <= r < |s.incs| :: LiveAt(s, r)
  }

  /** What a launch of r does. */
  lemma LaunchIsLive(s: State, step: Step, r: Ref)
    requires Inv(s) && Enabled(s, step) && StepAccess(s, step) == LaunchBox(r)
    ensures r < |s.incs| && LiveAt(Next(s, step), r)
  {
    hide BoxesOk, GroupsOk, TasksOk, CallbacksOk, HandlerOk, AnchorOf, HandlerAfter, CallbacksAfter, BeatAfter;
    hide GroupsAfter, TasksAfter, CloudAfter;
    LaunchRange(s, step, r);
    assert IncOk(r, s.incs[r], CurrentBox(s.boxes, s.incs[r]));
  }

  lemma LaunchRange(s: State, step: Step, r: Ref)
    requires Inv(s) && Enabled(s, step) && StepAccess(s, step) == LaunchBox(r)
    ensures r < |s.incs| && s.incs[r].box.Some? && s.incs[r].box.value < |s.boxes|
  {
    hide IncsOk, BoxesOk, GroupsOk, TasksOk, CallbacksOk, HandlerOk;
  }

  /** What a callback that belongs to r leaves when it moves. */
  lemma MoverIsLive(s: State, m: BoxId, c: Choice)
    requires Inv(s) && Enabled(s, CallbackStep(m, c)) && RerunsSucceed(s, CallbackStep(m, c))
    requires m < |s.boxes| && s.boxes[m].owner < |s.incs| && LiveAt(s, s.boxes[m].owner)
    requires !StepAccess(s, CallbackStep(m, c)).LaunchBox?
    ensures !Next(s, CallbackStep(m, c)).crashed ==>
              s.boxes[m].owner < |Next(s, CallbackStep(m, c)).incs| &&
                  LiveAt(Next(s, CallbackStep(m, c)), s.boxes[m].owner)
  {
    hide BoxesOk, GroupsOk, TasksOk, CallbacksOk, HandlerOk, IncsOk, AnchorOf, HandlerAfter, BeatAfter;
    hide GroupsAfter, TasksAfter, CloudAfter;
    CallbackHas(s, m);
  }

  lemma OtherIsLive(s: State, step: Step, r: Ref)
    requires Inv(s) && Enabled(s, step) && r < |s.incs| && LiveAt(s, r)
    requires StepAccess(s, step) != LaunchBox(r)
    requires step.CallbackStep? ==> s.incs[r].launched != Some(step.m)
    ensures r < |Next(s, step).incs| && LiveAt(Next(s, step), r)
  {
    hide WF, BoxesOk, GroupsOk, TasksOk, CallbacksOk, HandlerOk, IncsOk, HandlerAfter, BeatAfter;
    hide GroupsAfter, TasksAfter, CloudAfter;
  }

  lemma NewIsLive(s: State, step: Step, r: Ref)
    requires Inv(s) && Enabled(s, step) && |s.incs| <= r < |Next(s, step).incs|
    ensures LiveAt(Next(s, step), r)
  {
    hide WF, BoxesOk, GroupsOk, TasksOk, CallbacksOk, HandlerOk, IncsOk, HandlerAfter, BeatAfter, CallbacksAfter;
    hide GroupsAfter, TasksAfter, CloudAfter, StepAccess;
  }

  lemma StepIsLive(s: State, step: Step)
    requires Inv(s) && Enabled(s, step) && RerunsSucceed(s, step) && Live(s) && !Next(s, step).crashed
    ensures Live(Next(s, step))
  {
    hide WF, BoxesOk, GroupsOk, TasksOk, CallbacksOk, HandlerOk, IncsOk, Next, StepAccess, Enabled;
    forall r | 0 <= r < |Next(s, step).incs| ensures LiveAt(Next(s, step), r) {
      if r >= |s.incs| { NewIsLive(s, step, r); }
      else if StepAccess(s, step) == LaunchBox(r) { LaunchIsLive(s, step, r); }
      else if step.CallbackStep? && s.incs[r].launched == Some(step.m) { MoverIsOwner(s, step.m, step.c, r); }
      else { assert LiveAt(s, r); OtherIsLive(s, step, r); }
    }
  }

  lemma MoverIsOwner(s: State, m: BoxId, c: Choice, r: Ref)
    requires Inv(s) && Enabled(s, CallbackStep(m, c)) && RerunsSucceed(s, CallbackStep(m, c)) && Live(s)
    requires r < |s.incs| && s.incs[r].launched == Some(m) && StepAccess(s, CallbackStep(m, c)) != LaunchBox(r)
    requires !Next(s, CallbackStep(m, c)).crashed
    ensures r < |Next(s, CallbackStep(m, c)).incs| && LiveAt(Next(s, CallbackStep(m, c)), r)
  {
    hide BoxesOk, GroupsOk, TasksOk, CallbacksOk, HandlerOk, IncsOk, Next, AnchorOf, LiveInc;
    assert LiveAt(s, r);
    assert s.boxes[m].owner == r by { LiveOwner(s, r); }
    CallbackHas(s, m);
    MoverIsLive(s, m, c);
  }

  lemma LiveOwner(s: State, r: Ref)
    requires Live(s) && r < |s.incs| && s.incs[r].launched.Some?
    ensures s.incs[r].launched.value < |s.boxes| && s.boxes[s.incs[r].launched.value].owner == r
  {
    assert LiveAt(s, r);
  }

  // ------------------------------------------------------------------ the callback's way to its end

  /** The callback will not create another modelbox task. */
  predicate Finishing(inc: Incarnation, cb: Callback) {
    match cb
    case Lookup(k) => k != FINISHED || inc.paths == []
    case Decide(k, _) => k != FINISHED || inc.paths == []
    case DropBox(_, _) => false
    case Rerun(_, _, _) => false
    case _ => true
  }

  /** The paths that will be left when a callback that reruns the task has returned. */
  function PathsAfter(inc: Incarnation, cb: Callback): nat {
    if cb.Rerun? && cb.stage == Launch then |inc.paths| else |RestPaths(inc.paths)|
  }

  /** The group table when callback m, left alone, has returned. */
  ghost function GroupsLeft(s: State, m: BoxId): map<TaskId, Ref>
    requires m in s.callbacks && m < |s.boxes| && s.boxes[m].owner < |s.incs|
  {
    var inc := s.incs[s.boxes[m].owner];
    if Finishing(inc, s.callbacks[m]) && !Leaving(s.callbacks[m]) then s.groups - {inc.id} else s.groups
  }

  /** The manager's table then. */
  ghost function TasksLeft(s: State, m: BoxId): map<TaskId, Ref>
    requires m in s.callbacks && m < |s.boxes| && s.boxes[m].owner < |s.incs|
  {
    var inc := s.incs[s.boxes[m].owner];
    if Finishing(inc, s.callbacks[m]) then s.tasks - {inc.id} else s.tasks
  }

  /** The steps a callback has left when modelbox cooperates and no message gets through. */
  function Distance(cb: Callback): nat {
    match cb
    case Lookup(_) => 22
    case Decide(_, _) => 21
    case DropBox(_, _) => 4
    case Rerun(_, _, stage) => (match stage case NewBox => 3 case Prepare => 2 case Launch => 1)
    case FindGroup(_, _) => 20
    case Compare(_, _, _) => 19
    case SetStatus(_, _, _) => 18
    case ReadState(_, _, _) => 17
    case Tell(_, _, _, _, net) => 6 + net.left
    case EraseGroup(_, _, _) => 5
    case Notify(_, _) => 4
    case DeleteBox(_, _) => 3
    case Finish(_, _) => 2
    case EraseTask(_, _) => 1
  }

  /** The steps until the heartbeat gives the group table's lock back. */
  function LockHeld(beat: Heartbeat): nat {
    if beat.Collect? then |beat.todo| + 1 else 0
  }

  /** A step of callback m, or of the heartbeat. */
  predicate OfCallbackOrBeat(step: Step, m: BoxId) {
    (step.CallbackStep? && step.m == m) || (step.CallbackLookup? && step.m == m) || step.BeatStep?
  }

  /** The manager's table holds r. */
  predicate Entered(s: State, r: Ref)
    requires r < |s.incs|
  {
    s.incs[r].id in s.tasks && s.tasks[s.incs[r].id] == r
  }

  /** Callback m can go on: its lookup, if still to come, will find the entry, and its last step is left
      only after is_finish_ was set, as in every reachable state. */
  ghost predicate Movable(s: State, m: BoxId) {
    && Inv(s) && !s.crashed && m in s.callbacks && m < |s.boxes| && s.boxes[m].owner < |s.incs|
    && (s.callbacks[m].Lookup? ==> Entered(s, s.boxes[m].owner))
    && (s.callbacks[m].EraseTask? ==> s.incs[s.boxes[m].owner].finished)
  }

  /** The lookup that finds the callback's own entry. */
  lemma LookupEnabled(s: State, m: BoxId)
    requires Movable(s, m) && s.callbacks[m].Lookup?
    ensures Enabled(s, CallbackLookup(m, Some(s.incs[s.boxes[m].owner].id)))
  {
    hide HandlerOk, IncsOk, BoxesOk, GroupsOk, TasksOk, CallbacksOk;
    CallbackHas(s, m);
  }

  /** A callback thread's next step, or the heartbeat's when that holds the lock it needs. */
  lemma NextOf(s: State, m: BoxId) returns (step: Step)
    requires Movable(s, m)
    ensures OfCallbackOrBeat(step, m) && Enabled(s, step) && Friendly(s, step)
    ensures step.BeatStep? ==> s.beat.Collect?
    ensures step.CallbackStep? && s.callbacks[m].Tell? ==> step.c == Fail
    ensures step.CallbackStep? && s.callbacks[m].Rerun? ==> step.c == Ok
    ensures step.CallbackLookup? ==> step.hit.Some?
  {
    hide HandlerOk, IncsOk, BoxesOk, GroupsOk, TasksOk, CallbacksOk;
    var cb := s.callbacks[m];
    if cb.Lookup? {
      LookupEnabled(s, m);
      step := CallbackLookup(m, Some(s.incs[s.boxes[m].owner].id));
    } else if (cb.FindGroup? || cb.EraseGroup?) && s.beat.Collect? {
      var id: TaskId := "";
      if s.beat.todo != {} { id :| id in s.beat.todo; }
      step := BeatStep(Ok, id);
    } else {
      step := CallbackStep(m, if cb.Tell? then Fail else Ok);
    }
  }

  /** No such step uses a null pointer. */
  lemma UsesNoNull(s: State, m: BoxId, step: Step)
    requires Movable(s, m) && Enabled(s, step) && OfCallbackOrBeat(step, m)
    requires step.CallbackLookup? ==> step.hit.Some?
    ensures StepAccess(s, step) != Crash
  {
    hide WF, HandlerOk, IncsOk, BoxesOk, GroupsOk, TasksOk, CallbacksOk;
    CallbackHas(s, m);
  }

  /** Where callback m stands after a step of its own or of the heartbeat. */
  lemma OwnNext(s: State, m: BoxId, step: Step)
    requires Inv(s) && m in s.callbacks && Enabled(s, step) && OfCallbackOrBeat(step, m) && m in CallbacksAfter(s, step)
    ensures step.CallbackStep? ==> CallbackMove(s, m, step.c) == Some(CallbacksAfter(s, step)[m])
    ensures step.CallbackStep? ==> StepAccess(s, step) == CallbackAccess(s, m, step.c)
    ensures step.CallbackLookup? && step.hit.Some? ==> CallbacksAfter(s, step)[m].Decide?
    ensures step.BeatStep? ==> CallbacksAfter(s, step)[m] == s.callbacks[m]
    ensures !step.CallbackStep? ==> !StepAccess(s, step).RemoveGroup? && !StepAccess(s, step).InsertGroup?
  {
    hide WF, HandlerOk, IncsOk, BoxesOk, GroupsOk, TasksOk, CallbacksOk, CallbackMove, CallbackAccess;
  }

  lemma MovesOn(s: State, m: BoxId, c: Choice)
    requires Inv(s) && CallbackEnabled(s, m, c) && CallbackMove(s, m, c).Some?
    ensures var cb' := CallbackMove(s, m, c).value;
            !cb'.Lookup? && (cb'.EraseTask? ==> CallbackAccess(s, m, c) == WriteFinished(s.callbacks[m].r))
  {
    hide WF, HandlerOk, IncsOk, BoxesOk, GroupsOk, TasksOk, CallbacksOk;
  }

  /** Only a delivered report is at its lookup, and only after is_finish_ comes the erasure. */
  lemma LastStep(s: State, m: BoxId, step: Step)
    requires Movable(s, m) && Enabled(s, step) && OfCallbackOrBeat(step, m) && m in CallbacksAfter(s, step)
    requires step.CallbackLookup? ==> step.hit.Some?
    ensures var cb, cb' := s.callbacks[m], CallbacksAfter(s, step)[m];
            && (cb'.Lookup? ==> cb.Lookup? && step.BeatStep?)
            && (cb'.EraseTask? ==>
                  (cb.EraseTask? && step.BeatStep?) || StepAccess(s, step) == WriteFinished(s.boxes[m].owner))
  {
    hide WF, HandlerOk, IncsOk, BoxesOk, GroupsOk, TasksOk, CallbacksOk;
    hide CallbackMove, CallbackAccess, CallbacksAfter, StepAccess;
    CallbackReference(s, m);
    OwnNext(s, m, step);
    if step.CallbackStep? { MovesOn(s, m, step.c); }
  }

  lemma FinishedStays(s: State, a: Access, r: Ref)
    requires AccessInRange(s, a) && r < |s.incs|
    ensures r < |IncsAfter(s, a)| && (s.incs[r].finished || a == WriteFinished(r) ==> IncsAfter(s, a)[r].finished)
  {
  }

  lemma BeatLeaves(s: State, step: Step)
    requires Inv(s) && Enabled(s, step) && step.BeatStep?
    ensures Next(s, step).tasks == s.tasks && Next(s, step).callbacks == s.callbacks
  {
    hide WF, HandlerOk, IncsOk, BoxesOk, GroupsOk, TasksOk, CallbacksOk;
  }

  /** The callback can go on afterwards. */
  lemma StaysMovable(s: State, m: BoxId, step: Step)
    requires Movable(s, m) && Enabled(s, step) && OfCallbackOrBeat(step, m) && Inv(Next(s, step))
    requires step.CallbackLookup? ==> step.hit.Some?
    ensures !Next(s, step).crashed
    ensures m in Next(s, step).callbacks ==> Movable(Next(s, step), m)
  {
    hide WF, HandlerOk, IncsOk, BoxesOk, GroupsOk, TasksOk, CallbacksOk, StepAccess, Enabled;
    hide IncsAfter, BoxesAfter, GroupsAfter, TasksAfter, CloudAfter, HandlerAfter, CallbacksAfter, BeatAfter;
    UsesNoNull(s, m, step);
    if m in CallbacksAfter(s, step) {
      LastStep(s, m, step);
      FinishedStays(s, StepAccess(s, step), s.boxes[m].owner);
      OwnersStay(s, step, m);
      SameId(s, step, s.boxes[m].owner);
      if step.BeatStep? { BeatLeaves(s, step); }
    }
  }

  lemma CallbackCloser(s: State, m: BoxId, step: Step)
    requires Inv(s) && m in s.callbacks && Enabled(s, step) && OfCallbackOrBeat(step, m) && !step.BeatStep?
    requires step.CallbackStep? && s.callbacks[m].Tell? ==> step.c == Fail
    requires step.CallbackLookup? ==> step.hit.Some?
    ensures var cbs := CallbacksAfter(s, step);
            m in cbs ==> Distance(cbs[m]) < Distance(s.callbacks[m])
  {
    hide WF, IncsOk, BoxesOk, GroupsOk, TasksOk, CallbacksOk, HandlerOk;
  }

  lemma LockCloser(s: State, step: Step)
    requires Inv(s) && Enabled(s, step) && step.BeatStep? && s.beat.Collect?
    ensures LockHeld(BeatAfter(s, step)) < LockHeld(s.beat)
  {
    hide WF, IncsOk, BoxesOk, GroupsOk, TasksOk, CallbacksOk, HandlerOk;
    if s.beat.todo != {} { assert |s.beat.todo - {step.id}| < |s.beat.todo|; }
  }

  /** The callback gets closer to its end, or the heartbeat to giving the lock back. */
  lemma Closer(s: State, m: BoxId, step: Step)
    requires Inv(s) && m in s.callbacks && Enabled(s, step) && OfCallbackOrBeat(step, m)
    requires step.BeatStep? ==> s.beat.Collect?
    requires step.CallbackStep? && s.callbacks[m].Tell? ==> step.c == Fail
    requires !Next(s, step).crashed
    ensures var s' := Next(s, step);
            m in s'.callbacks ==>
              Distance(s'.callbacks[m]) < Distance(s.callbacks[m]) ||
              (s'.callbacks[m] == s.callbacks[m] && LockHeld(s'.beat) < LockHeld(s.beat))
  {
    hide WF, IncsOk, BoxesOk, GroupsOk, TasksOk;
    hide CallbacksOk, HandlerOk, HandlerAfter, CallbackMove, BeatMove, CallbackAccess;
    hide IncsAfter, BoxesAfter, GroupsAfter, TasksAfter, CloudAfter, Distance, LockHeld;
    if step.BeatStep? { LockCloser(s, step); } else { CallbackCloser(s, m, step); }
  }

  lemma CallbackOwner(s: State, m: BoxId, step: Step)
    requires Movable(s, m) && Enabled(s, step) && OfCallbackOrBeat(step, m)
    ensures m < |s.boxes| && s.boxes[m].owner < |s.incs|
    ensures var s' := Next(s, step);
            s'.handler == s.handler && m < |s'.boxes| && s'.boxes[m].owner == s.boxes[m].owner && |s'.incs| == |s.incs|
  {
    hide IncsOk, BoxesOk, GroupsOk, TasksOk, CallbacksOk, HandlerOk, AnchorOf;
    hide GroupsAfter, TasksAfter, CloudAfter, CallbacksAfter, BeatAfter;
  }

  lemma CallbackReference(s: State, m: BoxId)
    requires Inv(s) && m in s.callbacks
    ensures !s.callbacks[m].Lookup? ==> s.callbacks[m].r == s.boxes[m].owner
  {
    hide IncsOk, BoxesOk, GroupsOk, TasksOk, CallbacksOk, HandlerOk, AnchorOf;
    CallbackHas(s, m);
  }

  /** What a step of a callback or of the heartbeat leaves of the paths. */
  lemma CoursePaths(s: State, m: BoxId, step: Step, r: Ref)
    requires Inv(s) && m in s.callbacks && Enabled(s, step) && OfCallbackOrBeat(step, m) && r < |s.incs|
    requires !s.callbacks[m].Lookup? ==> s.callbacks[m].r == r
    ensures r < |Next(s, step).incs|
    ensures Next(s, step).incs[r].paths ==
            if step.CallbackStep? && s.callbacks[m].Rerun? && s.callbacks[m].stage == Prepare
                then RestPaths(s.incs[r].paths)
            else s.incs[r].paths
  {
    hide WF, IncsOk, BoxesOk, GroupsOk, TasksOk, CallbacksOk, HandlerOk, HandlerEnabled;
    hide GroupsAfter, TasksAfter, CloudAfter, BoxesAfter, HandlerAfter, BeatAfter, CallbacksAfter;
  }

  /** A callback that stays keeps its course: only a rerun takes paths. */
  lemma KeepsCourse(s: State, m: BoxId, step: Step)
    requires Movable(s, m) && Enabled(s, step) && OfCallbackOrBeat(step, m)
    requires !Next(s, step).crashed && m in Next(s, step).callbacks
    ensures m < |s.boxes| && s.boxes[m].owner < |s.incs| && s.boxes[m].owner < |Next(s, step).incs|
    ensures var s', r := Next(s, step), s.boxes[m].owner;
            && Finishing(s'.incs[r], s'.callbacks[m]) == Finishing(s.incs[r], s.callbacks[m])
            && (!Finishing(s.incs[r], s.callbacks[m]) ==>
                  PathsAfter(s'.incs[r], s'.callbacks[m]) == PathsAfter(s.incs[r], s.callbacks[m]))
  {
    hide IncsOk, BoxesOk, GroupsOk, TasksOk, CallbacksOk, HandlerOk, AnchorOf;
    hide GroupsAfter, TasksAfter, CloudAfter, BoxesAfter, HandlerAfter, BeatAfter;
    hide IncsAfter, StepAccess, WF;
    CallbackReference(s, m);
    OwnerInRange(s, m);
    CoursePaths(s, m, step, s.boxes[m].owner);
  }

  lemma OwnerInRange(s: State, m: BoxId)
    requires WF(s) && m in s.callbacks
    ensures m < |s.boxes| && s.boxes[m].owner < |s.incs|
  {
  }

  /** The callback is about to look its group up and will not find it. */
  predicate Misses(s: State, cb: Callback) {
    cb.FindGroup? && cb.r < |s.incs| && s.incs[cb.r].id !in s.groups
  }

  /** A callback passes the group table by erasing its group, or by not finding it. */
  lemma ErasesOrMisses(s: State, m: BoxId, c: Choice)
    requires Inv(s) && CallbackEnabled(s, m, c) && CallbackMove(s, m, c).Some?
    requires s.callbacks[m].Compare? ==> s.callbacks[m].g < |s.incs| && s.incs[s.callbacks[m].g].status == RUNNING
    ensures var a, cb, cb' := CallbackAccess(s, m, c), s.callbacks[m], CallbackMove(s, m, c).value;
            && !a.InsertGroup?
            && (a.RemoveGroup? <==> cb.EraseGroup?)
            && (Leaving(cb') <==> Leaving(cb) || cb.EraseGroup? || Misses(s, cb))
  {
    hide HandlerOk, IncsOk, BoxesOk, GroupsOk, TasksOk, CallbacksOk, AnchorOf;
  }

  lemma ComparesRunning(s: State, m: BoxId)
    requires Inv(s) && m in s.callbacks && s.callbacks[m].Compare?
    ensures s.callbacks[m].g < |s.incs| && s.incs[s.callbacks[m].g].status == RUNNING
  {
    hide HandlerOk, IncsOk, BoxesOk, GroupsOk, TasksOk, CallbacksOk;
    CallbackHas(s, m);
  }

  lemma LeavesByErasing(s: State, m: BoxId, step: Step)
    requires Movable(s, m) && Enabled(s, step) && OfCallbackOrBeat(step, m)
    requires m in CallbacksAfter(s, step) && (step.CallbackLookup? ==> step.hit.Some?)
    ensures var a, cb, cb' := StepAccess(s, step), s.callbacks[m], CallbacksAfter(s, step)[m];
            && !a.InsertGroup?
            && (a.RemoveGroup? ==> cb.EraseGroup?)
            && (Leaving(cb') <==> Leaving(cb) || a.RemoveGroup? || (step.CallbackStep? && Misses(s, cb)))
  {
    hide WF, IncsOk, BoxesOk, GroupsOk, TasksOk, CallbacksOk, HandlerOk, Misses;
    hide CallbackMove, CallbackAccess, CallbacksAfter, StepAccess;
    OwnNext(s, m, step);
    if step.CallbackStep? {
      if s.callbacks[m].Compare? { ComparesRunning(s, m); }
      ErasesOrMisses(s, m, step.c);
    }
  }

  lemma KeepsGroups(s: State, m: BoxId, step: Step)
    requires Movable(s, m) && Enabled(s, step) && OfCallbackOrBeat(step, m)
    requires !Next(s, step).crashed && m in Next(s, step).callbacks && (step.CallbackLookup? ==> step.hit.Some?)
    ensures m < |s.boxes| && s.boxes[m].owner < |s.incs| && m < |Next(s, step).boxes|
    ensures Next(s, step).boxes[m].owner == s.boxes[m].owner < |Next(s, step).incs|
    ensures GroupsLeft(Next(s, step), m) == GroupsLeft(s, m)
  {
    hide IncsOk, BoxesOk, GroupsOk, TasksOk, CallbacksOk, HandlerOk, StepAccess, Enabled;
    hide CloudAfter, HandlerAfter, BeatAfter, BoxesAfter, TasksAfter, IncsAfter, CallbacksAfter;
    CallbackOwner(s, m, step);
    KeepsCourse(s, m, step);
    LeavesByErasing(s, m, step);
    GroupAccess(s, step);
    SameId(s, step, s.boxes[m].owner);
    CallbackReference(s, m);
  }

  lemma KeepsManager(s: State, m: BoxId, step: Step)
    requires Movable(s, m) && Enabled(s, step) && OfCallbackOrBeat(step, m)
    requires !Next(s, step).crashed && m in Next(s, step).callbacks
    ensures m < |s.boxes| && s.boxes[m].owner < |s.incs| && m < |Next(s, step).boxes|
    ensures Next(s, step).boxes[m].owner == s.boxes[m].owner < |Next(s, step).incs|
    ensures TasksLeft(Next(s, step), m) == TasksLeft(s, m)
  {
    hide IncsOk, BoxesOk, GroupsOk, TasksOk, CallbacksOk, HandlerOk;
    hide CloudAfter, HandlerAfter, BeatAfter, BoxesAfter, GroupsAfter, IncsAfter, Finishing;
    CallbackOwner(s, m, step);
    KeepsCourse(s, m, step);
    SameId(s, step, s.boxes[m].owner);
  }

  lemma LeavesTables(s: State, m: BoxId, step: Step)
    requires Movable(s, m) && Enabled(s, step) && OfCallbackOrBeat(step, m)
    requires !Next(s, step).crashed && m !in Next(s, step).callbacks
    ensures m < |s.boxes| && s.boxes[m].owner < |s.incs|
    ensures Next(s, step).groups == GroupsLeft(s, m) && Next(s, step).tasks == TasksLeft(s, m)
  {
    hide IncsOk, BoxesOk, GroupsOk, TasksOk, CallbacksOk, HandlerOk, AnchorOf;
    hide CloudAfter, HandlerAfter, BeatAfter, IncsAfter;
    CallbackHas(s, m);
  }

  /** When the callback returns it has set is_finish_ or relaunched the task. */
  lemma ReachesEnd(s: State, m: BoxId, step: Step)
    requires Movable(s, m) && Enabled(s, step) && RerunsSucceed(s, step) && OfCallbackOrBeat(step, m)
    requires !Next(s, step).crashed && m !in Next(s, step).callbacks
    ensures m < |s.boxes| && s.boxes[m].owner < |s.incs| && s.boxes[m].owner < |Next(s, step).incs|
    ensures var s', r := Next(s, step), s.boxes[m].owner;
            if Finishing(s.incs[r], s.callbacks[m]) then s'.incs[r].finished
            else Launched(s', r) && |s'.incs[r].paths| == PathsAfter(s.incs[r], s.callbacks[m])
  {
    hide IncsOk, BoxesOk, GroupsOk, TasksOk, CallbacksOk, HandlerOk, AnchorOf;
    hide GroupsAfter, TasksAfter, CloudAfter, HandlerAfter, BeatAfter;
    CallbackHas(s, m);
  }

  /** The last launched modelbox task of r runs. */
  predicate Launched(s: State, r: Ref)
    requires r < |s.incs|
  {
    var b := s.incs[r].launched;
    b.Some? && b.value < |s.boxes| && s.boxes[b.value].phase == Started
  }

  ghost predicate Only(steps: seq<Step>, m: BoxId) {
    forall i | 0 <= i < |steps| :: OfCallbackOrBeat(steps[i], m)
  }

  /** From every state with a callback m that is past its lookup, or whose entry is there, m can run to
      its return by steps of its own and, at most, the heartbeat's way out of the group table's lock:
      the handler stays where it is.  A callback that does not rerun the task has then set is_finish_
      and taken the id out of both tables; one that does has left both tables alone. */
  lemma {:induction false} CallbackCompletes(s: State, m: BoxId) returns (steps: seq<Step>)
    requires Movable(s, m)
    ensures Run(s, steps) && FriendlyRun(s, steps) && Only(steps, m)
    ensures var s', r := Exec(s, steps), s.boxes[m].owner;
            && Inv(s') && !s'.crashed && s'.handler == s.handler && m !in s'.callbacks && r < |s'.incs|
            && s'.groups == GroupsLeft(s, m) && s'.tasks == TasksLeft(s, m)
            && (if Finishing(s.incs[r], s.callbacks[m]) then s'.incs[r].finished
                else Launched(s', r) && |s'.incs[r].paths| == PathsAfter(s.incs[r], s.callbacks[m]))
    decreases Distance(s.callbacks[m]), LockHeld(s.beat)
  {
    hide WF, IncsOk, BoxesOk, GroupsOk, TasksOk, CallbacksOk, HandlerOk, Enabled, Next, Friendly;
    hide Distance, LockHeld, Finishing, Launched, PathsAfter, GroupsLeft, TasksLeft;
    var step := NextOf(s, m);
    StepKeeps(s, step);
    StaysMovable(s, m, step);
    Closer(s, m, step);
    CallbackOwner(s, m, step);
    if m in Next(s, step).callbacks {
      KeepsCourse(s, m, step);
      KeepsGroups(s, m, step);
      KeepsManager(s, m, step);
      var rest := CallbackCompletes(Next(s, step), m);
      steps := [step] + rest;
      assert steps[1..] == rest;
    } else {
      ReachesEnd(s, m, step);
      LeavesTables(s, m, step);
      steps := [step];
      assert steps[1..] == [];
    }
  }

  // ------------------------------------------------------------------ the theorems

  lemma {:induction false} RunIsLive(s: State, steps: seq<Step>)
    requires Inv(s) && Live(s) && Run(s, steps) && SteadyRun(s, steps) && !Exec(s, steps).crashed
    ensures Live(Exec(s, steps))
    decreases |steps|
  {
    hide WF, IncsOk, BoxesOk, GroupsOk, TasksOk, CallbacksOk, HandlerOk, Live, Next;
    if steps == [] {
    } else {
      StepKeeps(s, steps[0]);
      if !Next(s, steps[0]).crashed {
        StepIsLive(s, steps[0]);
        RunIsLive(Next(s, steps[0]), steps[1..]);
      }
    }
  }

  /** A waiting DELETE is never lost while reruns succeed: is_finish_ is set already, or modelbox still
      runs the task and will report its end, or its report is being processed. */
  lemma AwaitedIsAlive(s0: State, steps: seq<Step>)
    requires SteadyTrace(s0, steps) && Last(s0, steps).handler.Await? && !Last(s0, steps).crashed
    ensures var s := Last(s0, steps);
            s.incs[s.handler.r].finished || Launched(s, s.handler.r) || OwnCallback(s, s.handler.r)
  {
    hide IncsOk, BoxesOk, GroupsOk, TasksOk, CallbacksOk, HandlerOk;
    InitialInv(s0);
    assert Live(s0);
    RunIsLive(s0, steps);
    TraceSound(s0, steps);
    assert LiveAt(Last(s0, steps), Last(s0, steps).handler.r);
  }

  /** Deadlock freedom: wherever a DELETE waits with the handlers' mutex and its terminal callback m
      has been delivered, and m is past its lookup or the manager's entry is there, m can step through
      to is_finish_ with the handler waiting all along, and then the handler can answer. */
  lemma DeleteIsReleased(s0: State, steps: seq<Step>, m: BoxId) returns (more: seq<Step>)
    requires Trace(s0, steps) && Last(s0, steps).handler.Await? && !Last(s0, steps).crashed
    requires var s := Last(s0, steps);
             && m in s.callbacks && m < |s.boxes| && s.boxes[m].owner == s.handler.r
             && Finishing(s.incs[s.handler.r], s.callbacks[m]) && (s.callbacks[m].Lookup? ==> Entered(s, s.handler.r))
    ensures var s := Last(s0, steps);
            && Run(s, more) && Only(more, m)
            && Exec(s, more).handler == s.handler && Enabled(Exec(s, more), HandlerStep(Ok))
  {
    hide IncsOk, BoxesOk, GroupsOk, TasksOk, CallbacksOk, HandlerOk, EndsOk, EntriesOk, EarlyOk;
    var s := Last(s0, steps);
    TraceSound(s0, steps);
    SoundMovable(s, m);
    more := CallbackCompletes(s, m);
    AnswerEnabled(Exec(s, more));
    hide *;
  }

  lemma AnswerEnabled(s: State)
    requires Inv(s) && !s.crashed && s.handler.Await? && s.handler.r < |s.incs| && s.incs[s.handler.r].finished
    ensures Enabled(s, HandlerStep(Ok))
  {
    hide WF, IncsOk, BoxesOk, GroupsOk, TasksOk, CallbacksOk, HandlerOk;
  }

  lemma SoundMovable(s: State, m: BoxId)
    requires Sound(s) && !s.crashed && m in s.callbacks
    ensures m < |s.boxes| && s.boxes[m].owner < |s.incs|
    ensures (s.callbacks[m].Lookup? ==> Entered(s, s.boxes[m].owner)) ==> Movable(s, m)
  {
    hide WF, IncsOk, BoxesOk, GroupsOk, TasksOk, CallbacksOk, HandlerOk, EndsOk, EntriesOk, EarlyOk;
    MoverStatus(s, m);
    EndHas(s, s.boxes[m].owner);
  }

  /** The end of r's last launched modelbox task is being processed. */
  predicate OwnCallback(s: State, r: Ref)
    requires r < |s.incs|
  {
    var b := s.incs[r].launched;
    b.Some? && b.value in s.callbacks
  }

  /** The terminal statuses modelbox reports along a run. */
  function Reports(steps: seq<Step>): seq<Kind> {
    if steps == [] then []
    else (if steps[0].Raise? then [steps[0].kind] else []) + Reports(steps[1..])
  }

  /** No step of the HTTP handler. */
  ghost predicate WithoutHandler(steps: seq<Step>) {
    forall i | 0 <= i < |steps| :: !steps[i].HandlerStep? && !steps[i].Post? && !steps[i].Delete?
  }

  lemma {:induction false} OnlyReports(steps: seq<Step>, m: BoxId)
    requires Only(steps, m)
    ensures Reports(steps) == [] && WithoutHandler(steps)
  {
    if steps == [] {
    } else {
      OnlyReports(steps[1..], m);
    }
  }

  lemma {:induction false} ReportsAdd(a: seq<Step>, b: seq<Step>)
    ensures Reports(a + b) == Reports(a) + Reports(b)
  {
    if a == [] {
      assert a + b == b;
    } else {
      ReportsAdd(a[1..], b);
      assert (a + b)[0] == a[0] && (a + b)[1..] == a[1..] + b;
      var first := if a[0].Raise? then [a[0].kind] else [];
      assert Reports(a) == first + Reports(a[1..]);
      assert Reports(a + b) == first + (Reports(a[1..]) + Reports(b));
    }
  }

  /** Modelbox reports the end of its task with any kind it likes, and the callback runs to its end. */
  lemma OneReport(s: State, r: Ref, kind: Kind) returns (steps: seq<Step>)
    requires Sound(s) && !s.crashed && r < |s.incs| && Launched(s, r) && Entered(s, r)
    ensures Run(s, steps) && WithoutHandler(steps) && Reports(steps) == [kind]
    ensures var s', inc := Exec(s, steps), s.incs[r];
            && Sound(s') && !s'.crashed && s'.handler == s.handler && r < |s'.incs|
            && (if kind != FINISHED || inc.paths == [] then s'.incs[r].finished
                else Launched(s', r) && Entered(s', r) && |s'.incs[r].paths| == |inc.paths| - 1)
  {
    var m := s.incs[r].launched.value;
    var step := Raise(m, kind);
    EndHas(s, r);
    hide IncsOk, BoxesOk, GroupsOk, TasksOk, CallbacksOk, HandlerOk, EndsOk, EntriesOk, EarlyOk;
    RaiseEffect(s, m, kind);
    StepKeeps(s, step);
    var s1 := Next(s, step);
    hide WF, Enabled, Next, Launched, Exec, Run, FriendlyRun;
    var rest := CallbackCompletes(s1, m);
    steps := [step] + rest;
    OneReportOnly(m, kind, rest);
    Unfold(s, step, rest);
    RunSound(s, steps);
    StatusOrder(s, steps, r);
  }

  lemma OneReportOnly(m: BoxId, kind: Kind, rest: seq<Step>)
    requires Only(rest, m)
    ensures WithoutHandler([Raise(m, kind)] + rest) && Reports([Raise(m, kind)] + rest) == [kind]
  {
    OnlyReports(rest, m);
    assert ([Raise(m, kind)] + rest)[1..] == rest;
  }

  lemma RaiseEffect(s: State, m: BoxId, kind: Kind)
    requires Inv(s) && !s.crashed && m < |s.boxes| && s.boxes[m].phase == Started
    ensures Enabled(s, Raise(m, kind))
    ensures var s' := Next(s, Raise(m, kind));
            && s'.incs == s.incs && s'.handler == s.handler && |s'.boxes| == |s.boxes| && !s'.crashed
            && s'.groups == s.groups && s'.tasks == s.tasks
            && s'.boxes[m].owner == s.boxes[m].owner && m in s'.callbacks && s'.callbacks[m] == Lookup(kind)
  {
    hide IncsOk, BoxesOk, GroupsOk, TasksOk, CallbacksOk, HandlerOk;
  }

  /** More reports than paths left are enough for is_finish_. */
  lemma {:induction false} ReportsRelease(s: State, r: Ref, kinds: seq<Kind>) returns (steps: seq<Step>)
    requires Sound(s) && !s.crashed && r < |s.incs| && Launched(s, r) && Entered(s, r)
    requires |kinds| > |s.incs[r].paths|
    ensures Run(s, steps) && WithoutHandler(steps) && Reports(steps) <= kinds
    ensures var s' := Exec(s, steps);
            !s'.crashed && s'.handler == s.handler && r < |s'.incs| && s'.incs[r].finished
    decreases |kinds|
  {
    hide WF, IncsOk, BoxesOk, GroupsOk, TasksOk, CallbacksOk, HandlerOk, EndsOk, EntriesOk, EarlyOk, Next, Launched;
    hide Entered;
    steps := OneReport(s, r, kinds[0]);
    var s1 := Exec(s, steps);
    if kinds[0] == FINISHED && s.incs[r].paths != [] {
      var rest := ReportsRelease(s1, r, kinds[1..]);
      Compose(s, steps, rest);
      ReportsAdd(steps, rest);
      steps := steps + rest;
    }
  }
}
