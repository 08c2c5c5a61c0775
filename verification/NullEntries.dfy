/** What a rerun leaves when modelbox refuses to create the task: an entry without one, for good. */
module NullEntries {
  import opened Types
  import opened Protocol
  import opened Invariants
  import opened Runs
  import opened Reachable
  import opened Orphans
  import opened Stranded
  import opened Progress
  import opened Waiting

  /** The manager's entry of r has no modelbox task, nothing of r runs or reports, and no callback of an
      earlier task of the same id is left. */
  ghost predicate Null(s: State, r: Ref)
    requires WF(s)
  {
    && r < |s.incs| && Silenced(s, r) && s.incs[r].box.None? && Entered(s, r)
    && forall m | m in s.callbacks :: s.incs[s.boxes[m].owner].id != s.incs[r].id
  }

  /** It begins when CreateTask fails in a rerun. */
  lemma NullBegins(s: State, m: BoxId)
    requires Sound(s) && Enabled(s, CallbackStep(m, Fail)) && s.callbacks[m].Rerun? && s.callbacks[m].stage == NewBox
    requires s.callbacks[m].r < |s.incs| && Entered(s, s.callbacks[m].r) && WF(Next(s, CallbackStep(m, Fail)))
    requires forall n | n in s.callbacks && n != m :: s.incs[s.boxes[n].owner].id != s.incs[s.callbacks[m].r].id
    ensures Null(Next(s, CallbackStep(m, Fail)), s.callbacks[m].r)
  {
    hide HandlerOk, IncsOk, BoxesOk, GroupsOk, TasksOk, CallbacksOk, EndsOk, EntriesOk, EarlyOk, Silenced;
    hide Next, Enabled;
    FailedRerunSilences(s, m);
    FailedRerunEffect(s, m);
    IdsKept(s, CallbackStep(m, Fail));
    OwnersKept(s, CallbackStep(m, Fail));
  }

  /** A silenced task's id is published, or is just being published, as that task. */
  lemma SilencedId(s: State, q: Ref, r: Ref)
    requires Inv(s) && q < |s.incs| && r < |s.incs| && Silenced(s, r) && s.incs[q].id == s.incs[r].id
    ensures Creating(s.handler, q) ==> q == r && (s.handler == MarkRunning(r) || s.handler == AddGroup(r))
    ensures s.incs[q].id in s.groups && s.groups[s.incs[q].id] == q ==> q == r
  {
    hide IncsOk, BoxesOk, GroupsOk, TasksOk, CallbacksOk;
  }

  lemma CreatesOwn(s: State, step: Step, r: Ref)
    requires Inv(s) && Enabled(s, step) && StepAccess(s, step) == NewBoxFor(r)
    ensures (step.HandlerStep? && s.handler.Running? && s.handler.r == r) ||
            (step.CallbackStep? && step.m in s.callbacks && s.callbacks[step.m].Rerun? && s.callbacks[step.m].r == r)
  {
    hide WF, HandlerOk, IncsOk, BoxesOk, GroupsOk, TasksOk, CallbacksOk;
  }

  lemma NoBoxAfter(s: State, a: Access, r: Ref)
    requires AccessInRange(s, a) && r < |s.incs| && s.incs[r].box.None? && a != NewBoxFor(r)
    ensures r < |IncsAfter(s, a)| && IncsAfter(s, a)[r].box.None?
  {
  }

  lemma NullBoxStays(s: State, step: Step, r: Ref)
    requires Inv(s) && Enabled(s, step) && Null(s, r)
    ensures r < |Next(s, step).incs| && Next(s, step).incs[r].box.None?
  {
    hide IncsOk, BoxesOk, GroupsOk, TasksOk, CallbacksOk, HandlerOk, StepAccess, IncsAfter, AccessInRange, Enabled;
    hide BoxesAfter, GroupsAfter, TasksAfter, CloudAfter, HandlerAfter, CallbacksAfter, BeatAfter;
    SilencedId(s, r, r);
    if StepAccess(s, step) == NewBoxFor(r) {
      CreatesOwn(s, step, r);
      if step.CallbackStep? { MoverStatus(s, step.m); }
    }
    NoBoxAfter(s, StepAccess(s, step), r);
  }

  lemma NullEntryStays(s: State, step: Step, r: Ref)
    requires Inv(s) && Enabled(s, step) && Null(s, r)
    ensures r < |Next(s, step).incs| && Entered(Next(s, step), r)
  {
    hide IncsOk, BoxesOk, GroupsOk, TasksOk, CallbacksOk, HandlerOk, Silenced;
    hide IncsAfter, BoxesAfter, GroupsAfter, CloudAfter, HandlerAfter, CallbacksAfter, BeatAfter;
    SameId(s, step, r);
    if s.handler.AddTask? && s.incs[s.handler.r].id == s.incs[r].id { SilencedId(s, s.handler.r, r); }
    if step.CallbackStep? { MoverStatus(s, step.m); }
  }

  lemma StartedId(s: State, b: BoxId, r: Ref)
    requires Inv(s) && r < |s.incs| && Silenced(s, r) && b < |s.boxes| && s.boxes[b].phase == Started
    ensures s.incs[s.boxes[b].owner].id != s.incs[r].id
  {
    hide HandlerOk, IncsOk, GroupsOk, TasksOk, CallbacksOk;
    assert BoxAt(s, b, s.boxes[b]);
    if s.incs[s.boxes[b].owner].id == s.incs[r].id { SilencedId(s, s.boxes[b].owner, r); }
  }

  lemma NullStays(s: State, step: Step, r: Ref)
    requires Inv(s) && Enabled(s, step) && Null(s, r) && WF(Next(s, step))
    ensures Null(Next(s, step), r)
  {
    hide IncsOk, BoxesOk, GroupsOk, TasksOk, CallbacksOk, HandlerOk, Silenced, Next;
    SilencedStays(s, step, r);
    NullBoxStays(s, step, r);
    NullEntryStays(s, step, r);
    IdsKept(s, step);
    var s' := Next(s, step);
    NextCallbacks(s, step);
    forall m | m in s'.callbacks ensures s'.incs[s'.boxes[m].owner].id != s'.incs[r].id {
      if m !in s.callbacks { NoneComes(s, step, r, m); StartedId(s, m, r); }
      OwnersStay(s, step, m);
    }
  }

  /** In every continuation. */
  lemma {:induction false} NullForever(s: State, steps: seq<Step>, r: Ref)
    requires Inv(s) && Run(s, steps) && Null(s, r)
    ensures Null(Exec(s, steps), r)
    decreases |steps|
  {
    hide WF, HandlerOk, IncsOk, BoxesOk, GroupsOk, TasksOk, CallbacksOk, Enabled, Next, Null;
    if steps == [] {
    } else {
      StepKeeps(s, steps[0]);
      NullStays(s, steps[0], r);
      NullForever(Next(s, steps[0]), steps[1..], r);
    }
  }

  /** While it is there every report of any task can use the null pointer, and a DELETE that halts it does. */
  lemma NullCrashes(s: State, r: Ref)
    requires Inv(s) && !s.crashed && Null(s, r)
    ensures forall m | m in s.callbacks && s.callbacks[m].Lookup? :: CrashesAt(s, CallbackLookup(m, None))
    ensures forall m | 0 <= m < |s.boxes| && s.boxes[m].phase == Started :: CrashesAt(s, OtherStatus(m, None))
    ensures forall c: Choice | s.handler.Halt? && s.handler.r == r && c != Deliver :: CrashesAt(s, HandlerStep(c))
  {
    hide IncsOk, BoxesOk, GroupsOk, TasksOk, CallbacksOk, HandlerOk, Silenced;
    var boxes := EntryBoxes(s);
    assert s.incs[r].id in boxes && boxes[s.incs[r].id] == None;
    assert forall m: BoxId :: ScanResult(s, m, None);
  }

  ghost predicate CrashesAt(s: State, step: Step)
    requires WF(s)
  {
    Enabled(s, step) && Next(s, step).crashed
  }
}
