/** When a DELETE that waits can be answered: exactly when it has not been silenced. */
module Waiting {
  import opened Types
  import opened Protocol
  import opened Invariants
  import opened Runs
  import opened Reachable
  import opened Orphans
  import opened Stranded
  import opened Progress

  /** Some continuation without a step of the handler lets it answer. */
  ghost predicate Answerable(s: State)
    requires Inv(s)
  {
    exists steps: seq<Step> :: Answers(s, steps)
  }

  ghost predicate Answers(s: State, steps: seq<Step>)
    requires Inv(s)
  {
    Run(s, steps) && WithoutHandler(steps) && Enabled(Exec(s, steps), HandlerStep(Ok))
  }

  predicate OwnLookup(s: State, r: Ref)
    requires r < |s.incs| && OwnCallback(s, r)
  {
    s.callbacks[s.incs[r].launched.value].Lookup?
  }

  /** The callback of r is past its lookup and will not create another modelbox task. */
  predicate Concluding(s: State, r: Ref)
    requires r < |s.incs|
  {
    OwnCallback(s, r) && !OwnLookup(s, r) && Finishing(s.incs[r], s.callbacks[s.incs[r].launched.value])
  }

  /** is_finish_ is set, or its callback is past the lookup on the way there, or the manager's table holds
      the task and it runs or reports. */
  predicate Releasable(s: State, r: Ref)
    requires r < |s.incs|
  {
    || s.incs[r].finished
    || Concluding(s, r)
    || (Entered(s, r) && (Launched(s, r) || OwnCallback(s, r)))
  }

  // ------------------------------------------------------------------ silence

  /** What runs or reports for r is its last launched modelbox task. */
  lemma OwnBoxes(s: State, r: Ref)
    requires Sound(s) && r < |s.incs|
    ensures NoCallback(s, r) <==> !OwnCallback(s, r)
    ensures (forall b | 0 <= b < |s.boxes| && s.boxes[b].owner == r :: s.boxes[b].phase != Started) <==> !Launched(s, r)
  {
    hide HandlerOk, IncsOk, BoxesOk, GroupsOk, TasksOk, CallbacksOk, EndsOk, EntriesOk, EarlyOk;
    EndHas(s, r);
    forall m | m in s.callbacks && s.boxes[m].owner == r ensures s.incs[r].launched == Some(m) { MoverStatus(s, m); }
    forall b | 0 <= b < |s.boxes| && s.boxes[b].owner == r && s.boxes[b].phase == Started
      ensures s.incs[r].launched == Some(b)
    {
      StartedIsLast(s, b);
    }
  }

  lemma StartedIsLast(s: State, b: BoxId)
    requires Inv(s) && b < |s.boxes| && s.boxes[b].phase == Started
    ensures s.incs[s.boxes[b].owner].launched == Some(b)
  {
    hide HandlerOk, IncsOk, GroupsOk, TasksOk, CallbacksOk;
    assert BoxAt(s, b, s.boxes[b]);
  }

  /** The group that a DELETE waits for is published and RUNNING, unless its end is on the way or over. */
  lemma AwaitedGroup(s: State, r: Ref)
    requires Sound(s) && s.handler.Await? && s.handler.r == r && r < |s.incs|
    requires NoCallback(s, r) && !s.incs[r].finished
    ensures LiveGroup(s, r)
  {
    hide IncsOk, BoxesOk, TasksOk, CallbacksOk, EndsOk, EarlyOk;
    hide GroupsOk;
    EndHas(s, r);
    OwnBoxes(s, r);
    if s.handler.id in s.groups { ClosingCallback(s, s.handler.id); }
  }

  lemma ClosingCallback(s: State, t: TaskId)
    requires Inv(s) && t in s.groups
    ensures var r := s.groups[t]; s.incs[r].id == t && (s.incs[r].status == RUNNING || OwnCallback(s, r))
  {
    hide HandlerOk, IncsOk, BoxesOk, TasksOk, CallbacksOk;
    assert GroupOk(t, s.groups[t], s.incs[s.groups[t]], CallbackOf(s.callbacks, s.incs[s.groups[t]].launched));
  }

  /** A waiting DELETE is silenced exactly when nothing of its task runs or reports. */
  lemma SilencedExactly(s: State, r: Ref)
    requires Sound(s) && s.handler.Await? && s.handler.r == r && r < |s.incs|
    ensures Silenced(s, r) <==> !s.incs[r].finished && !Launched(s, r) && !OwnCallback(s, r)
  {
    hide HandlerOk, IncsOk, BoxesOk, GroupsOk, TasksOk, CallbacksOk, EndsOk, EntriesOk, EarlyOk, LiveGroup;
    OwnBoxes(s, r);
    if !OwnCallback(s, r) && !s.incs[r].finished { AwaitedGroup(s, r); }
  }

  // ------------------------------------------------------------------ what cannot be released stays so

  lemma FinishedBy(s: State, step: Step, r: Ref)
    requires Sound(s) && Enabled(s, step) && r < |s.incs| && !s.incs[r].finished
    requires !Concluding(s, r)
    ensures r < |Next(s, step).incs| && !Next(s, step).incs[r].finished
  {
    hide WF, HandlerOk, IncsOk, BoxesOk, GroupsOk, TasksOk, CallbacksOk, EndsOk, EntriesOk, EarlyOk, StepAccess;
    hide Enabled;
    hide IncsAfter, BoxesAfter, GroupsAfter, TasksAfter, CloudAfter, HandlerAfter, CallbacksAfter, BeatAfter;
    if StepAccess(s, step) == WriteFinished(r) {
      FinishAccess(s, step, r);
      MoverStatus(s, step.m);
    }
    NotFinished(s, StepAccess(s, step), r);
  }

  /** While a DELETE waits no entry is made. */
  lemma NoEntryMade(s: State, step: Step, r: Ref)
    requires Sound(s) && Enabled(s, step) && s.handler.Await? && r < |s.incs| && !Entered(s, r)
    ensures r < |Next(s, step).incs| && !Entered(Next(s, step), r)
  {
    SameId(s, step, r);
    if Next(s, step).incs[r].id in Next(s, step).tasks { EntryAccess(s, step, s.incs[r].id); }
    hide *;
  }

  /** Paths are taken and tasks launched by the creation, before anything was launched, or by a rerun. */
  lemma TakesOwn(s: State, step: Step, r: Ref)
    requires Inv(s) && Enabled(s, step) && r < |s.incs|
    requires var a := StepAccess(s, step); a == Fill(r) || a == Lose(r) || a == LaunchBox(r)
    ensures s.incs[r].launched.None? ||
            (step.CallbackStep? && s.incs[r].launched == Some(step.m) && step.m in s.callbacks)
  {
    hide BoxesOk, GroupsOk, TasksOk, CallbacksOk, IncsOk, StepAccess, Enabled;
    RunsOwn(s, step, r);
    if step.CallbackStep? { MoverStatus(s, step.m); }
  }

  /** Who is inside MATask::Run for r. */
  lemma RunsOwn(s: State, step: Step, r: Ref)
    requires Inv(s) && Enabled(s, step)
    requires var a := StepAccess(s, step); a == Fill(r) || a == Lose(r) || a == LaunchBox(r)
    ensures (step.HandlerStep? && s.handler.Running? && s.handler.r == r) ||
            (step.CallbackStep? && step.m in s.callbacks && s.callbacks[step.m].Rerun? && s.callbacks[step.m].r == r)
  {
    hide WF, HandlerOk, IncsOk, BoxesOk, GroupsOk, TasksOk, CallbacksOk;
  }

  lemma TakenAfter(s: State, a: Access, r: Ref)
    requires AccessInRange(s, a) && r < |s.incs|
    ensures r < |IncsAfter(s, a)|
    ensures a != Fill(r) && a != Lose(r) ==> IncsAfter(s, a)[r].paths == s.incs[r].paths
    ensures IncsAfter(s, a)[r].launched == if a == LaunchBox(r) then s.incs[r].box else s.incs[r].launched
  {
  }

  lemma ForeignCallback(s: State, step: Step, m: BoxId)
    requires Inv(s) && Enabled(s, step) && !((step.CallbackStep? || step.CallbackLookup?) && step.m == m)
    requires m in CallbacksAfter(s, step)
    ensures (m in s.callbacks && CallbacksAfter(s, step)[m] == s.callbacks[m]) || CallbacksAfter(s, step)[m].Lookup?
  {
    hide WF, HandlerOk, IncsOk, BoxesOk, GroupsOk, TasksOk, CallbacksOk;
  }

  /** A modelbox task that has just been launched has no callback. */
  lemma LaunchedSilent(s: State, step: Step, r: Ref)
    requires Sound(s) && Enabled(s, step) && r < |s.incs| && StepAccess(s, step) == LaunchBox(r)
    ensures r < |Next(s, step).incs| && !OwnCallback(Next(s, step), r)
  {
    hide WF, HandlerOk, IncsOk, BoxesOk, GroupsOk, TasksOk, CallbacksOk, EndsOk, EntriesOk, EarlyOk, StepAccess;
    hide Enabled;
    hide IncsAfter, BoxesAfter, GroupsAfter, TasksAfter, CloudAfter, HandlerAfter, CallbacksAfter, BeatAfter;
    Launcher(s, step, r);
    var b := s.incs[r].box.value;
    if b in s.callbacks { MoverStatus(s, b); }
    TakenAfter(s, LaunchBox(r), r);
    if step.CallbackStep? && s.incs[r].launched == Some(step.m) {
      MoverStatus(s, step.m); OtherThanLaunched(s, step, b);
    }
    else { OtherThanLaunched(s, step, b); }
  }

  lemma OtherThanLaunched(s: State, step: Step, b: BoxId)
    requires Inv(s) && Enabled(s, step) && b !in s.callbacks && StepAccess(s, step).LaunchBox?
    ensures b !in CallbacksAfter(s, step)
  {
    hide WF, HandlerOk, IncsOk, BoxesOk, GroupsOk, TasksOk, CallbacksOk;
    OwnRaise(s, step);
  }

  lemma OwnUnconcluding(s: State, c: Choice, m: BoxId, r: Ref)
    requires Sound(s) && Enabled(s, CallbackStep(m, c)) && r < |s.incs| && s.incs[r].launched == Some(m)
    requires StepAccess(s, CallbackStep(m, c)) != LaunchBox(r) && !Concluding(s, r)
    ensures r < |Next(s, CallbackStep(m, c)).incs| && !Concluding(Next(s, CallbackStep(m, c)), r)
  {
    var step := CallbackStep(m, c);
    EndHas(s, r);
    SoundMovable(s, m);
    TakenAfter(s, StepAccess(s, step), r);
    assert !s.callbacks[m].Lookup?;
    hide WF, HandlerOk, IncsOk, BoxesOk, GroupsOk, TasksOk, CallbacksOk, EndsOk, EntriesOk, EarlyOk;
    hide IncsAfter, BoxesAfter, GroupsAfter, TasksAfter, CloudAfter, CallbacksAfter, StepAccess, Enabled, Finishing;
    UsesNoNull(s, m, step);
    if m in Next(s, step).callbacks { KeepsCourse(s, m, step); }
  }

  /** What a step that is not of r's callback leaves of a launched task. */
  lemma ForeignInc(s: State, step: Step, r: Ref)
    requires Inv(s) && Enabled(s, step) && r < |s.incs| && StepAccess(s, step) != LaunchBox(r)
    requires !(step.CallbackStep? && s.incs[r].launched == Some(step.m))
    ensures r < |Next(s, step).incs| && Next(s, step).incs[r].launched == s.incs[r].launched
    ensures s.incs[r].launched.Some? ==> Next(s, step).incs[r].paths == s.incs[r].paths
  {
    hide WF, HandlerOk, IncsOk, BoxesOk, GroupsOk, TasksOk, CallbacksOk, StepAccess, Enabled, AccessInRange;
    hide IncsAfter, BoxesAfter, GroupsAfter, TasksAfter, CloudAfter, HandlerAfter, CallbacksAfter, BeatAfter;
    var a := StepAccess(s, step);
    TakenAfter(s, a, r);
    if a == Fill(r) || a == Lose(r) { TakesOwn(s, step, r); }
  }

  lemma ForeignUnconcluding(s: State, step: Step, r: Ref)
    requires Sound(s) && Enabled(s, step) && r < |s.incs| && !Entered(s, r) && !Concluding(s, r)
    requires StepAccess(s, step) != LaunchBox(r) && !(step.CallbackStep? && s.incs[r].launched == Some(step.m))
    ensures r < |Next(s, step).incs| && !Concluding(Next(s, step), r)
  {
    hide WF, HandlerOk, IncsOk, BoxesOk, GroupsOk, TasksOk, CallbacksOk, EndsOk, EntriesOk, EarlyOk, Next, Enabled;
    hide StepAccess, CallbacksAfter, Entered;
    ForeignInc(s, step, r);
    if s.incs[r].launched.Some? {
      var m := s.incs[r].launched.value;
      NextCallbacks(s, step);
      if step.CallbackLookup? && step.m == m {
        NoOwnLookup(s, step, r);
      } else if m in CallbacksAfter(s, step) {
        ForeignCallback(s, step, m);
      }
    }
  }

  lemma NextCallbacks(s: State, step: Step)
    requires Inv(s) && Enabled(s, step)
    ensures Next(s, step).callbacks == CallbacksAfter(s, step)
  {
    hide WF, HandlerOk, IncsOk, BoxesOk, GroupsOk, TasksOk, CallbacksOk, StepAccess, Enabled, CallbacksAfter;
  }

  /** Without an entry for its lookup, a callback that is not concluding will not be. */
  lemma StaysUnconcluding(s: State, step: Step, r: Ref)
    requires Sound(s) && Enabled(s, step) && r < |s.incs| && !Entered(s, r) && !Concluding(s, r)
    ensures r < |Next(s, step).incs| && !Concluding(Next(s, step), r)
  {
    hide WF, HandlerOk, IncsOk, BoxesOk, GroupsOk, TasksOk, CallbacksOk, EndsOk, EntriesOk, EarlyOk, Next, Entered;
    hide Finishing;
    if StepAccess(s, step) == LaunchBox(r) {
      LaunchedSilent(s, step, r);
    } else if step.CallbackStep? && s.incs[r].launched == Some(step.m) {
      OwnUnconcluding(s, step.c, step.m, r);
    } else {
      ForeignUnconcluding(s, step, r);
    }
  }

  /** A lookup without an entry finds nothing of its own. */
  lemma NoOwnLookup(s: State, step: Step, r: Ref)
    requires Sound(s) && Enabled(s, step) && step.CallbackLookup? && r < |s.incs| && s.incs[r].launched == Some(step.m)
    requires !Entered(s, r)
    ensures CallbacksAfter(s, step) == s.callbacks && s.callbacks[step.m].Lookup?
  {
    hide WF, HandlerOk, IncsOk, BoxesOk, GroupsOk, TasksOk, CallbacksOk, EndsOk, EntriesOk, EarlyOk;
    EndHas(s, r);
    if step.hit.Some? {
      LookupOwner(s, step.m, step.hit.value);
      TaskId(s, step.hit.value);
    }
  }

  lemma TaskId(s: State, t: TaskId)
    requires Inv(s) && t in s.tasks
    ensures s.incs[s.tasks[t]].id == t
  {
    hide HandlerOk, IncsOk, BoxesOk, GroupsOk, CallbacksOk;
    assert TaskOk(t, s.tasks[t], s.incs[s.tasks[t]], s.groups);
  }

  lemma UnreleasableStays(s: State, step: Step, r: Ref)
    requires Sound(s) && Enabled(s, step) && s.handler.Await? && s.handler.r == r && r < |s.incs| && !Releasable(s, r)
    requires Inv(Next(s, step))
    ensures r < |Next(s, step).incs| && !Releasable(Next(s, step), r)
  {
    hide WF, HandlerOk, IncsOk, BoxesOk, GroupsOk, TasksOk, CallbacksOk, EndsOk, EntriesOk, EarlyOk, Next, Enabled;
    hide Launched, OwnCallback, Entered;
    FinishedBy(s, step, r);
    if Entered(s, r) {
      SilencedExactly(s, r);
      StepSound(s, step);
      SilencedStays(s, step, r);
      OwnBoxes(Next(s, step), r);
    } else {
      NoEntryMade(s, step, r);
      StaysUnconcluding(s, step, r);
    }
  }

  lemma {:induction false} UnreleasableForever(s: State, steps: seq<Step>, r: Ref)
    requires Sound(s) && Run(s, steps) && WithoutHandler(steps) && r < |s.incs| && !Releasable(s, r)
    requires s.handler.Await? && s.handler.r == r
    ensures Exec(s, steps).handler == s.handler
    ensures r < |Exec(s, steps).incs| && !Releasable(Exec(s, steps), r)
    decreases |steps|
  {
    hide WF, HandlerOk, IncsOk, BoxesOk, GroupsOk, TasksOk, CallbacksOk, EndsOk, EntriesOk, EarlyOk, Next, Enabled;
    hide Releasable;
    if steps == [] {
    } else {
      StepSound(s, steps[0]);
      HandlerKept(s, steps[0]);
      UnreleasableStays(s, steps[0], r);
      UnreleasableForever(Next(s, steps[0]), steps[1..], r);
    }
  }

  lemma HandlerKept(s: State, step: Step)
    requires Inv(s) && Enabled(s, step) && !step.HandlerStep? && !step.Post? && !step.Delete?
    ensures Next(s, step).handler == s.handler
  {
    hide WF, HandlerOk, IncsOk, BoxesOk, GroupsOk, TasksOk, CallbacksOk;
  }

  // ------------------------------------------------------------------ what can be released

  /** However the race between Stop and FINISHED goes, a DELETE that can be released can be answered after at
      most as many further reports as there are paths left, plus one, whatever modelbox reports, and
      without any step of the handler. */
  lemma DeleteReturns(s0: State, trace: seq<Step>, kinds: seq<Kind>) returns (steps: seq<Step>)
    requires Trace(s0, trace) && Last(s0, trace).handler.Await? && !Last(s0, trace).crashed
    requires var s := Last(s0, trace); Releasable(s, s.handler.r) && |kinds| == |s.incs[s.handler.r].paths| + 1
    ensures var s := Last(s0, trace);
            && Run(s, steps) && WithoutHandler(steps) && Reports(steps) <= kinds
            && Exec(s, steps).handler == s.handler && Enabled(Exec(s, steps), HandlerStep(Ok))
  {
    var s := Last(s0, trace);
    TraceSound(s0, trace);
    hide WF, IncsOk, BoxesOk, GroupsOk, TasksOk, CallbacksOk, HandlerOk, EndsOk, EntriesOk, EarlyOk;
    steps := WaitEnds(s, s.handler.r, kinds);
    AnswerEnabled(Exec(s, steps));
  }

  /** The running task of r, its callback, or is_finish_: each leads to is_finish_. */
  lemma WaitEnds(s: State, r: Ref, kinds: seq<Kind>) returns (steps: seq<Step>)
    requires Sound(s) && !s.crashed && r < |s.incs| && Releasable(s, r) && |kinds| > |s.incs[r].paths|
    ensures Run(s, steps) && WithoutHandler(steps) && Reports(steps) <= kinds
    ensures var s' := Exec(s, steps); !s'.crashed && s'.handler == s.handler && r < |s'.incs| && s'.incs[r].finished
  {
    hide WF, IncsOk, BoxesOk, GroupsOk, TasksOk, CallbacksOk, HandlerOk, EndsOk, EntriesOk, EarlyOk, Next, Enabled;
    hide Launched;
    if s.incs[r].finished {
      steps := [];
    } else if OwnCallback(s, r) && (!OwnLookup(s, r) || Entered(s, r)) {
      steps := CallbackEnds(s, r, kinds);
    } else {
      steps := ReportsRelease(s, r, kinds);
    }
  }

  lemma CallbackEnds(s: State, r: Ref, kinds: seq<Kind>) returns (steps: seq<Step>)
    requires Sound(s) && !s.crashed && r < |s.incs| && |kinds| > |s.incs[r].paths|
    requires OwnCallback(s, r) && (OwnLookup(s, r) ==> Entered(s, r))
    requires Entered(s, r) || Finishing(s.incs[r], s.callbacks[s.incs[r].launched.value])
    ensures Run(s, steps) && WithoutHandler(steps) && Reports(steps) <= kinds
    ensures var s' := Exec(s, steps); !s'.crashed && s'.handler == s.handler && r < |s'.incs| && s'.incs[r].finished
  {
    hide WF, IncsOk, BoxesOk, GroupsOk, TasksOk, CallbacksOk, HandlerOk, EndsOk, EntriesOk, EarlyOk, Next, Enabled;
    hide Launched, Finishing, Movable;
    var m := s.incs[r].launched.value;
    EndHas(s, r);
    SoundMovable(s, m);
    steps := CallbackCompletes(s, m);
    OnlyReports(steps, m);
    if !Finishing(s.incs[r], s.callbacks[m]) {
      RunSound(s, steps);
      StatusOrder(s, steps, r);
      FewerPaths(s, m);
      var rest := ReportsRelease(Exec(s, steps), r, kinds);
      Compose(s, steps, rest);
      ReportsAdd(steps, rest);
      WithoutBoth(steps, rest);
      steps := steps + rest;
    }
  }

  lemma FewerPaths(s: State, m: BoxId)
    requires m < |s.boxes| && m in s.callbacks && s.boxes[m].owner < |s.incs|
    ensures PathsAfter(s.incs[s.boxes[m].owner], s.callbacks[m]) <= |s.incs[s.boxes[m].owner].paths|
  {
  }

  lemma WithoutBoth(a: seq<Step>, b: seq<Step>)
    requires WithoutHandler(a) && WithoutHandler(b)
    ensures WithoutHandler(a + b)
  {
  }

  // ------------------------------------------------------------------ the theorems

  /** In every reachable state in which a DELETE waits, some continuation answers it if and only if it is
      releasable. */
  lemma AnsweredExactly(s0: State, trace: seq<Step>)
    requires Trace(s0, trace) && Last(s0, trace).handler.Await? && !Last(s0, trace).crashed
    ensures var s := Last(s0, trace); Answerable(s) <==> Releasable(s, s.handler.r)
  {
    var s := Last(s0, trace);
    TraceSound(s0, trace);
    hide WF, IncsOk, BoxesOk, GroupsOk, TasksOk, CallbacksOk, HandlerOk, EndsOk, EntriesOk, EarlyOk, Releasable;
    if Releasable(s, s.handler.r) {
      var kinds := seq(|s.incs[s.handler.r].paths| + 1, _ => STOPPED);
      var steps := DeleteReturns(s0, trace, kinds);
      assert Answers(s, steps);
    }
    if Answerable(s) && !Releasable(s, s.handler.r) {
      var steps :| Answers(s, steps);
      UnreleasableForever(s, steps, s.handler.r);
      AnswerNeeds(Exec(s, steps));
    }
  }

  lemma AnswerNeeds(s: State)
    requires Inv(s) && s.handler.Await? && Enabled(s, HandlerStep(Ok))
    ensures s.handler.r < |s.incs| && Releasable(s, s.handler.r)
  {
    hide IncsOk, BoxesOk, GroupsOk, TasksOk, CallbacksOk, HandlerOk;
  }

  /** While the manager's table holds its task, a waiting DELETE can be answered exactly as long as it is
      not silenced. */
  lemma AnsweredUnlessSilenced(s0: State, trace: seq<Step>)
    requires Trace(s0, trace) && Last(s0, trace).handler.Await? && !Last(s0, trace).crashed
    requires Entered(Last(s0, trace), Last(s0, trace).handler.r)
    ensures var s := Last(s0, trace); Answerable(s) <==> !Silenced(s, s.handler.r)
  {
    var s := Last(s0, trace);
    AnsweredExactly(s0, trace);
    TraceSound(s0, trace);
    SilencedExactly(s, s.handler.r);
    hide WF, IncsOk, BoxesOk, GroupsOk, TasksOk, CallbacksOk, HandlerOk, EndsOk, EntriesOk, EarlyOk, Silenced;
    hide Answerable;
  }

  /** While reruns succeed no waiting DELETE is silenced. */
  lemma NeverSilenced(s0: State, trace: seq<Step>)
    requires SteadyTrace(s0, trace) && Last(s0, trace).handler.Await? && !Last(s0, trace).crashed
    ensures !Silenced(Last(s0, trace), Last(s0, trace).handler.r)
  {
    var s := Last(s0, trace);
    AwaitedIsAlive(s0, trace);
    TraceSound(s0, trace);
    SilencedExactly(s, s.handler.r);
    hide WF, IncsOk, BoxesOk, GroupsOk, TasksOk, CallbacksOk, HandlerOk, EndsOk, EntriesOk, EarlyOk, Silenced;
  }
}
