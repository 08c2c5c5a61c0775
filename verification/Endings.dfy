/** Which report ends a task with which status, in every run. */
module Endings {
  import opened Types
  import opened Protocol
  import opened Invariants
  import opened Runs
  import opened Sources
  import opened Reachable

  /** The last modelbox task of `inc` was reported to end in a way that gives it its status. */
  ghost predicate Verdict(inc: Incarnation, past: seq<Step>) {
    && (inc.status == FAILED ==> inc.launched.Some? && Raise(inc.launched.value, ABNORMAL) in past)
    && (inc.status == SUCCEEDED ==>
          && inc.launched.Some?
          && (Raise(inc.launched.value, STOPPED) in past ||
              (Raise(inc.launched.value, FINISHED) in past && inc.paths == [])))
  }

  ghost predicate Verdicts(s: State, past: seq<Step>) {
    forall r | 0 <= r < |s.incs| :: Verdict(s.incs[r], past)
  }

  /** A callback in progress carries the kind that was reported. */
  ghost predicate Heard(s: State, past: seq<Step>) {
    forall m | m in s.callbacks :: Raise(m, s.callbacks[m].kind) in past
  }

  /** Each modelbox task is reported to end at most once. */
  ghost predicate RaisedOnce(s: State, past: seq<Step>) {
    && (forall m: BoxId, kind | Raise(m, kind) in past :: m < |s.boxes| && s.boxes[m].phase == Raised)
    && (forall m: BoxId, k, l | Raise(m, k) in past && Raise(m, l) in past :: k == l)
  }

  /** A modelbox task that is over was reported to be. */
  ghost predicate ReportCame(past: seq<Step>, m: BoxId) {
    exists kind :: Raise(m, kind) in past
  }

  ghost predicate RaisedReported(s: State, past: seq<Step>) {
    forall m | 0 <= m < |s.boxes| && s.boxes[m].phase == Raised :: ReportCame(past, m)
  }

  ghost predicate Recorded(s: State, past: seq<Step>) {
    Verdicts(s, past) && Heard(s, past) && RaisedOnce(s, past) && RaisedReported(s, past)
  }

  // ------------------------------------------------------------------ one step

  /** A callback keeps its kind, and only a report starts one. */
  lemma HeardStays(s: State, step: Step, past: seq<Step>)
    requires Inv(s) && Enabled(s, step) && Heard(s, past)
    ensures Heard(Next(s, step), past + [step])
  {
    hide WF, HandlerOk, IncsOk, BoxesOk, GroupsOk, TasksOk, CallbacksOk;
    hide HandlerAfter, BeatAfter, StepAccess, IncsAfter, GroupsAfter, TasksAfter, BoxesAfter, CloudAfter;
    var s' := Next(s, step);
    forall m | m in s'.callbacks ensures Raise(m, s'.callbacks[m].kind) in past + [step] {
      if m in s.callbacks && s'.callbacks[m].kind == s.callbacks[m].kind {
      } else {
        assert step == Raise(m, s'.callbacks[m].kind);
      }
    }
  }

  lemma RaisedStays(s: State, step: Step, m: BoxId)
    requires Inv(s) && Enabled(s, step) && m < |s.boxes| && s.boxes[m].phase == Raised
    ensures m < |Next(s, step).boxes| && Next(s, step).boxes[m].phase == Raised && step != Raise(m, ABNORMAL)
    ensures step.Raise? ==> step.m != m
  {
    hide WF, HandlerOk, IncsOk, BoxesOk, GroupsOk, TasksOk, CallbacksOk, Next, StepAccess;
    OtherBox(s, step, m);
  }

  lemma NowRaised(s: State, step: Step)
    requires Inv(s) && Enabled(s, step) && step.Raise?
    ensures step.m < |Next(s, step).boxes| && Next(s, step).boxes[step.m].phase == Raised
  {
    hide WF, HandlerOk, IncsOk, BoxesOk, GroupsOk, TasksOk, CallbacksOk;
    hide HandlerAfter, BeatAfter, CallbacksAfter, IncsAfter, GroupsAfter, TasksAfter, CloudAfter;
  }

  lemma RaisedOnceStays(s: State, step: Step, past: seq<Step>)
    requires Inv(s) && Enabled(s, step) && RaisedOnce(s, past)
    ensures RaisedOnce(Next(s, step), past + [step])
  {
    hide WF, HandlerOk, IncsOk, BoxesOk, GroupsOk, TasksOk, CallbacksOk, Next, Enabled;
    forall m: BoxId, kind | Raise(m, kind) in past + [step]
      ensures m < |Next(s, step).boxes| && Next(s, step).boxes[m].phase == Raised
      ensures Raise(m, kind) in past ==> !(step.Raise? && step.m == m)
    {
      if Raise(m, kind) in past { RaisedStays(s, step, m); }
      else { NowRaised(s, step); }
    }
  }

  lemma RaisedBefore(s: State, step: Step, m: BoxId)
    requires Inv(s) && Enabled(s, step) && m < |Next(s, step).boxes| && Next(s, step).boxes[m].phase == Raised
    ensures (m < |s.boxes| && s.boxes[m].phase == Raised) || (step.Raise? && step.m == m)
  {
    hide WF, HandlerOk, IncsOk, BoxesOk, GroupsOk, TasksOk, CallbacksOk, StepAccess, Enabled;
    hide HandlerAfter, BeatAfter, CallbacksAfter, IncsAfter, GroupsAfter, TasksAfter, CloudAfter;
    OwnRaise(s, step);
  }

  lemma RaisedReportedStays(s: State, step: Step, past: seq<Step>)
    requires Inv(s) && Enabled(s, step) && RaisedReported(s, past)
    ensures RaisedReported(Next(s, step), past + [step])
  {
    hide WF, HandlerOk, IncsOk, BoxesOk, GroupsOk, TasksOk, CallbacksOk, Next, Enabled;
    forall m | 0 <= m < |Next(s, step).boxes| && Next(s, step).boxes[m].phase == Raised
      ensures ReportCame(past + [step], m)
    {
      RaisedBefore(s, step, m);
      if step.Raise? && step.m == m {
        assert Raise(m, step.kind) in past + [step];
      } else {
        var kind :| Raise(m, kind) in past;
        assert Raise(m, kind) in past + [step];
      }
    }
  }

  /** Who writes a terminal status, and which. */
  lemma TerminalWriter(s: State, step: Step)
    requires Inv(s) && SourcesInv(s) && Enabled(s, step) && StepAccess(s, step).WriteStatus?
    requires StepAccess(s, step).status == SUCCEEDED || StepAccess(s, step).status == FAILED
    ensures var a := StepAccess(s, step);
            && a.r < |s.incs| && step.CallbackStep? && s.incs[a.r].launched == Some(step.m)
            && step.m in s.callbacks && s.callbacks[step.m].SetStatus?
            && (a.status == FAILED <==> s.callbacks[step.m].kind == ABNORMAL)
            && (s.callbacks[step.m].kind == FINISHED ==> s.incs[a.r].paths == [])
  {
    hide IncsOk, BoxesOk, GroupsOk, TasksOk, CallbacksOk, HandlerOk, SourcesInv, RefAt;
    StatusAccess(s, step);
    MoverStatus(s, step.m);
    CallbackFacts(s, step.m, s.boxes[step.m].owner);
  }

  /** Nobody fills a modelbox task for, or launches one of, a task that has ended. */
  lemma EndedRests(s: State, step: Step, r: Ref)
    requires Inv(s) && Enabled(s, step) && r < |s.incs| && (s.incs[r].status == SUCCEEDED || s.incs[r].status == FAILED)
    ensures var a := StepAccess(s, step); a != Fill(r) && a != Lose(r) && a != LaunchBox(r)
  {
    hide IncsOk, BoxesOk, GroupsOk, TasksOk, CallbacksOk, WF;
    if step.CallbackStep? { CallbackHas(s, step.m); MoverStatus(s, step.m); }
  }

  lemma WrittenStatus(s: State, a: Access, r: Ref)
    requires AccessInRange(s, a) && r < |s.incs|
    ensures r < |IncsAfter(s, a)|
    ensures IncsAfter(s, a)[r].status == if a.WriteStatus? && a.r == r then a.status else s.incs[r].status
    ensures a.WriteStatus? ==> IncsAfter(s, a)[r] == s.incs[r].(status := IncsAfter(s, a)[r].status)
  {
  }

  /** A task becomes FAILED only when the callback of an ABNORMAL report writes it, and SUCCEEDED only when
      the callback of a STOPPED one does, or of a FINISHED one with nothing left to run. */
  lemma BecomesEnded(s: State, step: Step, r: Ref)
    requires Inv(s) && SourcesInv(s) && Enabled(s, step) && r < |s.incs|
    ensures r < |Next(s, step).incs|
    ensures var before, after := s.incs[r], Next(s, step).incs[r];
            if after.status == before.status || after.status == RUNNING then true
            else
              && step.CallbackStep? && before.launched == after.launched == Some(step.m)
              && step.m in s.callbacks && s.callbacks[step.m].SetStatus?
              && (after.status == FAILED ==> s.callbacks[step.m].kind == ABNORMAL)
              && (after.status == SUCCEEDED ==>
                    s.callbacks[step.m].kind == STOPPED || (s.callbacks[step.m].kind == FINISHED && after.paths == []))
  {
    hide WF, HandlerOk, IncsOk, BoxesOk, GroupsOk, TasksOk, CallbacksOk, SourcesInv, Enabled, StepAccess, IncsAfter;
    hide HandlerAfter, BeatAfter, CallbacksAfter, GroupsAfter, TasksAfter, CloudAfter, BoxesAfter;
    WrittenStatus(s, StepAccess(s, step), r);
    StepStatus(s, step, r);
    if Next(s, step).incs[r].status != s.incs[r].status && Next(s, step).incs[r].status != RUNNING {
      TerminalWriter(s, step);
    }
  }

  lemma EndedKeeps(s: State, step: Step, r: Ref)
    requires Inv(s) && Enabled(s, step) && r < |s.incs| && (s.incs[r].status == SUCCEEDED || s.incs[r].status == FAILED)
    ensures r < |Next(s, step).incs|
    ensures var before, after := s.incs[r], Next(s, step).incs[r];
            after.status == before.status && after.launched == before.launched && after.paths == before.paths
  {
    hide WF, HandlerOk, IncsOk, BoxesOk, GroupsOk, TasksOk, CallbacksOk, Enabled, StepAccess, IncsAfter;
    hide HandlerAfter, BeatAfter, CallbacksAfter, GroupsAfter, TasksAfter, CloudAfter, BoxesAfter;
    EndedRests(s, step, r);
    SourcesAfter(s, StepAccess(s, step), r);
    StepStatus(s, step, r);
  }

  lemma NewIsPending(s: State, step: Step, r: Ref)
    requires Inv(s) && Enabled(s, step) && |s.incs| <= r < |Next(s, step).incs|
    ensures Next(s, step).incs[r].status == PENDING
  {
    hide WF, HandlerOk, IncsOk, BoxesOk, GroupsOk, TasksOk, CallbacksOk, StepAccess, Enabled;
    hide HandlerAfter, BeatAfter, CallbacksAfter, GroupsAfter, TasksAfter, CloudAfter, BoxesAfter;
  }

  lemma VerdictStays(s: State, step: Step, past: seq<Step>, r: Ref)
    requires Inv(s) && SourcesInv(s) && Enabled(s, step) && Recorded(s, past) && r < |Next(s, step).incs|
    ensures Verdict(Next(s, step).incs[r], past + [step])
  {
    hide WF, HandlerOk, IncsOk, BoxesOk, GroupsOk, TasksOk, CallbacksOk, SourcesInv, Next, Enabled;
    hide RaisedOnce, RaisedReported;
    if r >= |s.incs| {
      NewIsPending(s, step, r);
    } else if s.incs[r].status == SUCCEEDED || s.incs[r].status == FAILED {
      assert Verdict(s.incs[r], past);
      EndedKeeps(s, step, r);
    } else {
      BecomesEnded(s, step, r);
    }
  }

  lemma StepRecorded(s: State, step: Step, past: seq<Step>)
    requires Inv(s) && SourcesInv(s) && Enabled(s, step) && Recorded(s, past)
    ensures Recorded(Next(s, step), past + [step])
  {
    hide WF, HandlerOk, IncsOk, BoxesOk, GroupsOk, TasksOk, CallbacksOk, SourcesInv, Next, Enabled, Heard, RaisedOnce;
    hide Verdict, RaisedReported;
    RaisedReportedStays(s, step, past);
    HeardStays(s, step, past);
    RaisedOnceStays(s, step, past);
    forall r | 0 <= r < |Next(s, step).incs| ensures Verdict(Next(s, step).incs[r], past + [step]) {
      VerdictStays(s, step, past, r);
    }
  }

  // ------------------------------------------------------------------ every run

  lemma {:induction false} RunRecorded(s: State, past: seq<Step>, steps: seq<Step>)
    requires Inv(s) && SourcesInv(s) && Run(s, steps) && Recorded(s, past)
    ensures Recorded(Exec(s, steps), past + steps)
    decreases |steps|
  {
    hide WF, HandlerOk, IncsOk, BoxesOk, GroupsOk, TasksOk, CallbacksOk, SourcesInv, Next, Enabled, Recorded;
    if steps == [] {
      assert past + steps == past;
    } else {
      StepKeeps(s, steps[0]);
      StepSources(s, steps[0]);
      StepRecorded(s, steps[0], past);
      RunRecorded(Next(s, steps[0]), past + [steps[0]], steps[1..]);
      assert past + steps == past + [steps[0]] + steps[1..];
    }
  }

  lemma TraceRecorded(s0: State, steps: seq<Step>)
    requires Trace(s0, steps)
    ensures Recorded(Last(s0, steps), steps)
  {
    hide Inv;
    InitialInv(s0);
    RunRecorded(s0, [], steps);
    assert [] + steps == steps;
  }

  /** In every run a task is FAILED only if the last modelbox task it started was reported ABNORMAL, and
      SUCCEEDED only if that one was reported STOPPED, or FINISHED with no path left.  That modelbox task
      has been reported once, so a task that has ended FAILED exactly when the report was ABNORMAL. */
  lemma EndsAsReported(s0: State, steps: seq<Step>, r: Ref)
    requires Trace(s0, steps) && r < |Last(s0, steps).incs|
    requires Last(s0, steps).incs[r].status == SUCCEEDED || Last(s0, steps).incs[r].status == FAILED
    ensures var inc := Last(s0, steps).incs[r];
            && inc.launched.Some?
            && (inc.status == FAILED <==> Raise(inc.launched.value, ABNORMAL) in steps)
            && (inc.status == SUCCEEDED <==>
                  Raise(inc.launched.value, STOPPED) in steps ||
                  (Raise(inc.launched.value, FINISHED) in steps && inc.paths == []))
  {
    hide Inv;
    TraceRecorded(s0, steps);
    assert Verdict(Last(s0, steps).incs[r], steps);
  }

  /** At SetStatus: the status the callback of m gives to r. */
  predicate Sets(s: State, step: Step, r: Ref, kind: Kind) {
    step.CallbackStep? && step.m in s.callbacks && s.callbacks[step.m] == SetStatus(kind, r, r)
  }

  /** The transition itself: only the callback of its last started modelbox task ends a task, and with
      the status that belongs to the report. */
  lemma EndsAtItsCallback(s0: State, steps: seq<Step>, step: Step, r: Ref)
    requires Trace(s0, steps) && Enabled(Last(s0, steps), step) && r < |Last(s0, steps).incs|
    ensures var s := Last(s0, steps);
            && r < |Next(s, step).incs|
            && var before, after := s.incs[r].status, Next(s, step).incs[r].status;
               && (before != FAILED && after == FAILED <==> Sets(s, step, r, ABNORMAL))
               && (before != SUCCEEDED && after == SUCCEEDED <==>
                     Sets(s, step, r, STOPPED) || Sets(s, step, r, FINISHED))
  {
    hide Inv, SourcesInv, Enabled, Next;
    var s := Last(s0, steps);
    TraceSources(s0, steps);
    BecomesEnded(s, step, r);
    if step.CallbackStep? && step.m in s.callbacks && s.callbacks[step.m].SetStatus? {
      SetStatusRefs(s, step.m, r);
      SetStatusWrites(s, step);
    }
  }

  lemma SetStatusRefs(s: State, m: BoxId, q: Ref)
    requires Inv(s) && SourcesInv(s) && m in s.callbacks && s.callbacks[m].SetStatus? && q < |s.incs|
    ensures s.callbacks[m].g == s.callbacks[m].r < |s.incs| && s.incs[s.callbacks[m].r].status == RUNNING
    ensures s.incs[s.callbacks[m].r].launched == Some(m)
    ensures s.incs[q].launched == Some(m) ==> q == s.callbacks[m].r
  {
    hide IncsOk, BoxesOk, GroupsOk, TasksOk, CallbacksOk, HandlerOk, SourcesInv;
    CallbackHas(s, m);
    CallbackFacts(s, m, q);
    MoverStatus(s, m);
  }

  lemma SetStatusWrites(s: State, step: Step)
    requires Inv(s) && Enabled(s, step) && step.CallbackStep? && s.callbacks[step.m].SetStatus?
    requires s.callbacks[step.m].g < |s.incs|
    ensures s.callbacks[step.m].g < |Next(s, step).incs|
    ensures Next(s, step).incs[s.callbacks[step.m].g].status ==
            if s.callbacks[step.m].kind == ABNORMAL then FAILED else SUCCEEDED
  {
    hide WF, IncsOk, BoxesOk, GroupsOk, TasksOk, CallbacksOk, HandlerOk;
    hide HandlerAfter, BeatAfter, CallbacksAfter, GroupsAfter, TasksAfter, CloudAfter, BoxesAfter;
  }

  /** ... and the status the cloud is told by that callback. */
  lemma ToldAsReported(s0: State, steps: seq<Step>, m: BoxId)
    requires Trace(s0, steps) && Enabled(Last(s0, steps), CallbackStep(m, Deliver))
    ensures var s := Last(s0, steps);
            && s.callbacks[m].Tell? && s.callbacks[m].r < |s.incs| && Raise(m, s.callbacks[m].kind) in steps
            && Next(s, CallbackStep(m, Deliver)).cloud ==
                 s.cloud[s.incs[s.callbacks[m].r].id := if s.callbacks[m].kind == ABNORMAL then FAILED else SUCCEEDED]
  {
    hide IncsOk, BoxesOk, GroupsOk, TasksOk, CallbacksOk, HandlerOk;
    hide HandlerAfter, BeatAfter, CallbacksAfter, GroupsAfter, TasksAfter, IncsAfter, BoxesAfter;
    TraceRecorded(s0, steps);
    CallbackHas(Last(s0, steps), m);
  }
}
