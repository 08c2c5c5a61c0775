/** Which modelbox tasks are deleted, in every run: those that have ended, all but the current one of a
    task that goes on, and all of a task that is finished. */
module Deletions {
  import opened Types
  import opened Protocol
  import opened Invariants
  import opened Runs
  import opened Reachable

  /** The callback has deleted its modelbox task. */
  predicate PastDelete(cb: Callback) {
    cb.Rerun? || cb.Finish? || cb.EraseTask?
  }

  /** What is known of modelbox task b of a task. */
  predicate BoxDeletion(b: BoxId, box: Box, inc: Incarnation) {
    && (box.deleted ==> box.phase == Raised)
    && (box.phase == Raised && (inc.launched != Some(b) || inc.finished) ==> box.deleted)
  }

  predicate DeletionAt(s: State, b: BoxId)
    requires b < |s.boxes|
  {
    s.boxes[b].owner < |s.incs| && BoxDeletion(b, s.boxes[b], s.incs[s.boxes[b].owner])
  }

  ghost predicate DeletionsOk(s: State) {
    && (forall b | 0 <= b < |s.boxes| :: DeletionAt(s, b))
    && (forall m | m in s.callbacks && PastDelete(s.callbacks[m]) :: m < |s.boxes| && s.boxes[m].deleted)
  }

  // ------------------------------------------------------------------ one step

  /** Only a callback deletes, and only the modelbox task that it reports on. */
  lemma Deleter(s: State, step: Step)
    requires Inv(s) && Enabled(s, step)
    ensures StepAccess(s, step).DeleteTaskOf? <==>
              step.CallbackStep? && (s.callbacks[step.m].DropBox? || s.callbacks[step.m].DeleteBox?)
    ensures StepAccess(s, step).DeleteTaskOf? ==>
              var r := StepAccess(s, step).r;
              step.m < |s.boxes| && r < |s.incs| && s.incs[r].box == Some(step.m) && s.boxes[step.m].phase == Raised
  {
    hide IncsOk, BoxesOk, GroupsOk, TasksOk, CallbacksOk;
    if step.CallbackStep? { CallbackHas(s, step.m); }
  }

  lemma BoxDeleted(s: State, step: Step, b: BoxId)
    requires Inv(s) && Enabled(s, step) && b < |s.boxes|
    ensures b < |Next(s, step).boxes|
    ensures Next(s, step).boxes[b].deleted <==>
            || s.boxes[b].deleted
            || (step.CallbackStep? && step.m == b && (s.callbacks[b].DropBox? || s.callbacks[b].DeleteBox?))
  {
    hide WF, HandlerOk, IncsOk, BoxesOk, GroupsOk, TasksOk, CallbacksOk, StepAccess, Enabled;
    hide IncsAfter, GroupsAfter, TasksAfter, CloudAfter, HandlerAfter, CallbacksAfter, BeatAfter;
    Deleter(s, step);
  }

  lemma PastBefore(s: State, step: Step, m: BoxId)
    requires Inv(s) && Enabled(s, step) && m in CallbacksAfter(s, step) && PastDelete(CallbacksAfter(s, step)[m])
    ensures m in s.callbacks
    ensures PastDelete(s.callbacks[m]) ||
            (step.CallbackStep? && step.m == m && (s.callbacks[m].DropBox? || s.callbacks[m].DeleteBox?))
  {
    hide WF, HandlerOk, IncsOk, BoxesOk, GroupsOk, TasksOk, CallbacksOk;
  }

  lemma StaysPast(s: State, step: Step, m: BoxId)
    requires Inv(s) && Enabled(s, step) && DeletionsOk(s)
    requires m in Next(s, step).callbacks && PastDelete(Next(s, step).callbacks[m])
    ensures m < |Next(s, step).boxes| && Next(s, step).boxes[m].deleted
  {
    hide WF, HandlerOk, IncsOk, BoxesOk, GroupsOk, TasksOk, CallbacksOk, StepAccess, Enabled, DeletionAt, PastDelete;
    hide IncsAfter, BoxesAfter, GroupsAfter, TasksAfter, CloudAfter, HandlerAfter, CallbacksAfter, BeatAfter;
    PastBefore(s, step, m);
    MoverStatus(s, m);
    BoxDeleted(s, step, m);
  }

  /** What a step leaves of the fields that the deletions depend on. */
  lemma LaunchedAfter(s: State, step: Step, r: Ref)
    requires Inv(s) && Enabled(s, step) && r < |s.incs|
    ensures r < |Next(s, step).incs|
    ensures var inc, inc' := s.incs[r], Next(s, step).incs[r];
            && inc'.launched == (if StepAccess(s, step) == LaunchBox(r) then inc.box else inc.launched)
            && inc'.finished == (inc.finished || StepAccess(s, step) == WriteFinished(r))
  {
    hide WF, HandlerOk, IncsOk, BoxesOk, GroupsOk, TasksOk, CallbacksOk, StepAccess, Enabled;
    hide BoxesAfter, GroupsAfter, TasksAfter, CloudAfter, HandlerAfter, CallbacksAfter, BeatAfter;
  }

  /** A box that is Raised afterwards was Raised or is reported now; a new one is neither. */
  lemma PhaseAfter(s: State, step: Step, b: BoxId)
    requires Inv(s) && Enabled(s, step) && b < |Next(s, step).boxes|
    ensures var box' := Next(s, step).boxes[b];
            if b < |s.boxes| then
              && box'.owner == s.boxes[b].owner
              && (box'.phase == Raised <==> s.boxes[b].phase == Raised || (step.Raise? && step.m == b))
            else !box'.deleted && box'.phase == Created
  {
    hide WF, HandlerOk, IncsOk, BoxesOk, GroupsOk, TasksOk, CallbacksOk, Enabled, StepAccess;
    hide IncsAfter, GroupsAfter, TasksAfter, CloudAfter, HandlerAfter, CallbacksAfter, BeatAfter;
    OwnRaise(s, step);
    if StepAccess(s, step).LaunchBox? { Launcher(s, step, StepAccess(s, step).r); }
  }

  /** is_finish_ is set by a callback that has deleted the modelbox task. */
  lemma Finisher(s: State, step: Step, r: Ref)
    requires Inv(s) && Enabled(s, step) && StepAccess(s, step) == WriteFinished(r)
    ensures step.CallbackStep? && step.m in s.callbacks && PastDelete(s.callbacks[step.m])
    ensures r < |s.incs| && s.incs[r].launched == Some(step.m)
  {
    hide IncsOk, BoxesOk, GroupsOk, TasksOk, CallbacksOk;
    if step.CallbackStep? { CallbackHas(s, step.m); }
  }

  /** A box that is reported now is its task's last launched one, and the task is not finished. */
  lemma ReportedIsLaunched(s: State, b: BoxId)
    requires Sound(s) && b < |s.boxes| && s.boxes[b].phase == Started
    ensures s.boxes[b].owner < |s.incs| && s.incs[s.boxes[b].owner].launched == Some(b)
    ensures !s.incs[s.boxes[b].owner].finished
  {
    hide HandlerOk, IncsOk, GroupsOk, TasksOk, CallbacksOk, EndsOk, EntriesOk, EarlyOk;
    assert BoxAt(s, b, s.boxes[b]);
    EndHas(s, s.boxes[b].owner);
  }

  lemma StaysDeleted(s: State, step: Step, b: BoxId)
    requires Sound(s) && Enabled(s, step) && DeletionsOk(s) && b < |s.boxes|
    ensures b < |Next(s, step).boxes| && DeletionAt(Next(s, step), b)
  {
    hide WF, HandlerOk, IncsOk, BoxesOk, GroupsOk, TasksOk, CallbacksOk, StepAccess, EndsOk, EntriesOk, EarlyOk, Next;
    assert DeletionAt(s, b);
    var r := s.boxes[b].owner;
    BoxDeleted(s, step, b);
    PhaseAfter(s, step, b);
    LaunchedAfter(s, step, r);
    if step.Raise? && step.m == b { ReportedIsLaunched(s, b); OwnRaise(s, step); }
    if StepAccess(s, step) == LaunchBox(r) { Launcher(s, step, r); }
    if StepAccess(s, step) == WriteFinished(r) { Finisher(s, step, r); }
    if step.CallbackStep? { MoverStatus(s, step.m); }
  }

  lemma NewNotDeleted(s: State, step: Step, b: BoxId)
    requires Sound(s) && Enabled(s, step) && |s.boxes| <= b < |Next(s, step).boxes| && WF(Next(s, step))
    ensures DeletionAt(Next(s, step), b)
  {
    hide HandlerOk, IncsOk, BoxesOk, GroupsOk, TasksOk, CallbacksOk, StepAccess, EndsOk, EntriesOk, EarlyOk, Next;
    PhaseAfter(s, step, b);
  }

  lemma StepDeletions(s: State, step: Step)
    requires Sound(s) && Enabled(s, step) && DeletionsOk(s)
    ensures DeletionsOk(Next(s, step))
  {
    hide Sound, Next, Enabled, DeletionAt, PastDelete;
    SoundInv(s);
    StepSound(s, step);
    SoundWF(Next(s, step));
    var s' := Next(s, step);
    forall b | 0 <= b < |s'.boxes| ensures DeletionAt(s', b) {
      if b < |s.boxes| { StaysDeleted(s, step, b); } else { NewNotDeleted(s, step, b); }
    }
    forall m | m in s'.callbacks && PastDelete(s'.callbacks[m]) ensures m < |s'.boxes| && s'.boxes[m].deleted {
      StaysPast(s, step, m);
    }
  }

  lemma SoundWF(s: State)
    requires Sound(s)
    ensures WF(s)
  {
  }

  lemma SoundInv(s: State)
    requires Sound(s)
    ensures Inv(s)
  {
  }

  // ------------------------------------------------------------------ every run

  lemma {:induction false} RunDeletions(s: State, steps: seq<Step>)
    requires Sound(s) && Run(s, steps) && DeletionsOk(s)
    ensures DeletionsOk(Exec(s, steps))
    decreases |steps|
  {
    hide WF, HandlerOk, BoxesOk, GroupsOk, TasksOk, CallbacksOk, IncsOk, EndsOk, EntriesOk, EarlyOk, Next, Enabled;
    hide DeletionsOk;
    if steps == [] {
    } else {
      StepSound(s, steps[0]);
      StepDeletions(s, steps[0]);
      RunDeletions(Next(s, steps[0]), steps[1..]);
    }
  }

  /** In every run a modelbox task that still runs is never deleted; every one that has ended is, but the
      last one a task started, and that one is before is_finish_ is set. */
  lemma DeletedWhenOver(s0: State, steps: seq<Step>, b: BoxId)
    requires Trace(s0, steps) && b < |Last(s0, steps).boxes|
    ensures var s := Last(s0, steps);
            var box := s.boxes[b];
            && box.owner < |s.incs|
            && (box.deleted ==> box.phase == Raised)
            && (box.phase == Raised && s.incs[box.owner].launched != Some(b) ==> box.deleted)
            && (box.phase == Raised && s.incs[box.owner].finished ==> box.deleted)
  {
    hide Sound, Inv, Next, Enabled;
    InitialInv(s0);
    assert Sound(s0) && DeletionsOk(s0) by { StartsEmpty(s0); }
    RunDeletions(s0, steps);
    assert DeletionAt(Last(s0, steps), b);
  }

  lemma StartsEmpty(s: State)
    requires Initial(s)
    ensures Sound(s) && DeletionsOk(s)
  {
  }
}
