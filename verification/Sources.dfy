/** One ModelArts task over a directory becomes a chain of modelbox tasks, one per listed object. */
module Sources {
  import opened Types
  import opened ObsSource
  import opened Protocol
  import opened Invariants
  import opened Runs

  /** What has been taken from the listing: handed to modelbox, or lost by a run that then failed. */
  function Taken(inc: Incarnation): seq<Source> {
    inc.submitted + inc.lost
  }

  /** What has been taken, followed by what is left, is the listing from its end. */
  ghost predicate SourcesOk(inc: Incarnation) {
    var taken := Taken(inc);
    && |inc.lost| <= 1
    && if inc.listing == [] then inc.paths == [] && (taken == [] || taken == [Own])
       else
         && |inc.paths| <= |inc.listing|
         && inc.paths == inc.listing[..|inc.paths|]
         && |taken| == |inc.listing| - |inc.paths|
         && forall i | 0 <= i < |taken| :: taken[i] == Listed(inc.listing[|inc.listing| - 1 - i])
  }

  function StageOf(r: Ref, h: Handler, cb: Option<Callback>): Option<Stage> {
    if h.Running? && h.r == r then Some(h.stage)
    else if cb.Some? && cb.value.Rerun? then Some(cb.value.stage)
    else None
  }

  /** A modelbox task is created and not yet filled. */
  function Unfilled(r: Ref, h: Handler, cb: Option<Callback>): nat {
    if StageOf(r, h, cb) == Some(Prepare) then 1 else 0
  }

  predicate CallbackSources(inc: Incarnation, cb: Callback) {
    && (cb.DropBox? || cb.Rerun? ==> cb.kind == FINISHED)
    && (cb.DropBox? || (cb.Rerun? && cb.stage != Launch) ==> inc.paths != [])
    && (cb.kind == FINISHED && !cb.Lookup? && !cb.Decide? && !cb.DropBox? && !cb.Rerun? ==> inc.paths == [])
  }

  /** Whoever is about to run the task, or may still do so, has lost nothing. */
  ghost predicate RefOk(r: Ref, inc: Incarnation, boxes: seq<Box>, h: Handler, cb: Option<Callback>) {
    && SourcesOk(inc)
    && (inc.launched.Some? ==>
          inc.submitted != [] && inc.launched.value < |boxes| && boxes[inc.launched.value].owner == r)
    && (h.Running? && h.r == r ==> inc.launched.None? && inc.lost == [] && (inc.submitted == [] <==> h.stage != Launch))
    && inc.runs == |Taken(inc)| + Unfilled(r, h, cb)
    && (cb.Some? ==> CallbackSources(inc, cb.value) && inc.lost == [])
    && (inc.lost != [] ==> inc.launched.None? || inc.box != inc.launched)
  }

  ghost predicate RefAt(s: State, r: Ref)
    requires r < |s.incs|
  {
    RefOk(r, s.incs[r], s.boxes, s.handler, CallbackOf(s.callbacks, s.incs[r].launched))
  }

  ghost predicate SourcesInv(s: State) {
    forall r | 0 <= r < |s.incs| :: RefAt(s, r)
  }

  lemma TakeKeeps(inc: Incarnation)
    requires SourcesOk(inc) && inc.lost == [] && (inc.paths != [] || inc.submitted == [])
    ensures SourcesOk(Take(inc)) && |Taken(Take(inc))| == |Taken(inc)| + 1
  {
    assert Taken(Take(inc)) == Taken(inc) + [NextSource(inc.paths)];
  }

  lemma WasteKeeps(inc: Incarnation)
    requires SourcesOk(inc) && inc.lost == [] && (inc.paths != [] || inc.submitted == [])
    ensures SourcesOk(Waste(inc)) && |Taken(Waste(inc))| == |Taken(inc)| + 1
  {
    assert Taken(Waste(inc)) == Taken(inc) + [NextSource(inc.paths)];
  }

  lemma FillKeeps(inc: Incarnation)
    requires SourcesOk(inc) && inc.lost == [] && (inc.paths != [] || inc.submitted == [])
    ensures SourcesOk(Take(inc)) && |Taken(Take(inc))| == |Taken(inc)| + 1
    ensures SourcesOk(Waste(inc)) && |Taken(Waste(inc))| == |Taken(inc)| + 1
  {
    hide SourcesOk, Taken, Take, Waste;
    TakeKeeps(inc);
    WasteKeeps(inc);
  }

  /** A launched box belongs to its launcher and has no callback yet. */
  lemma LaunchFacts(s: State, r: Ref)
    requires Inv(s) && r < |s.incs| && s.incs[r].box.Some?
    requires CurrentBox(s.boxes, s.incs[r]).Some? && CurrentBox(s.boxes, s.incs[r]).value.phase == Created
    ensures s.incs[r].box.value < |s.boxes| && s.boxes[s.incs[r].box.value].owner == r
    ensures CallbackOf(s.callbacks, s.incs[r].box) == None
  {
    hide HandlerOk, BoxesOk, GroupsOk, TasksOk;
    assert IncOk(r, s.incs[r], CurrentBox(s.boxes, s.incs[r]));
    if s.incs[r].box.value in s.callbacks { CallbackHas(s, s.incs[r].box.value); }
  }

  lemma RunningSources(s: State, c: Choice)
    requires Inv(s) && Enabled(s, HandlerStep(c)) && SourcesInv(s) && s.handler.Running?
    ensures s.handler.r < |Next(s, HandlerStep(c)).incs| && RefAt(Next(s, HandlerStep(c)), s.handler.r)
  {
    hide IncsOk, BoxesOk, GroupsOk, TasksOk, CallbacksOk, GroupsAfter, TasksAfter, CloudAfter, SourcesOk;
    var r := s.handler.r;
    assert RefAt(s, r);
    var inc := s.incs[r];
    if s.handler.stage == NewBox {
      SameSources(inc, Next(s, HandlerStep(c)).incs[r]);
    } else if s.handler.stage == Prepare {
      FillKeeps(inc);
    } else {
      LaunchFacts(s, r);
      SameSources(inc, Next(s, HandlerStep(c)).incs[r]);
    }
  }

  lemma SameSources(inc: Incarnation, inc': Incarnation)
    requires SourcesOk(inc) && inc'.listing == inc.listing && inc'.paths == inc.paths
    requires inc'.submitted == inc.submitted && inc'.lost == inc.lost
    ensures SourcesOk(inc')
    ensures forall cb :: CallbackSources(inc, cb) ==> CallbackSources(inc', cb)
  {
  }

  /** What a step that is not inside r's own Run may change of incarnation r. */
  ghost predicate Untouched(s: State, s': State, r: Ref)
    requires r < |s.incs|
  {
    && r < |s'.incs|
    && s'.incs[r] == s.incs[r].(status := s'.incs[r].status, finished := s'.incs[r].finished)
    && |s.boxes| <= |s'.boxes|
    && forall b | 0 <= b < |s.boxes| :: s'.boxes[b].owner == s.boxes[b].owner
  }

  lemma StepUntouched(s: State, step: Step, r: Ref)
    requires Inv(s) && Enabled(s, step) && r < |s.incs|
    requires step.HandlerStep? ==> s.handler.Running? ==> s.handler.r != r
    requires step.CallbackStep? ==> s.callbacks[step.m].Rerun? ==> s.callbacks[step.m].r != r
    ensures Untouched(s, Next(s, step), r)
  {
    hide WF, IncsOk, BoxesOk, GroupsOk, TasksOk, CallbacksOk, HandlerOk, GroupsAfter, TasksAfter, CloudAfter;
    hide HandlerAfter, CallbacksAfter, BeatAfter;
  }

  lemma UntouchedSources(s: State, s': State, r: Ref)
    requires r < |s.incs| && RefAt(s, r) && Untouched(s, s', r)
    requires Unfilled(r, s'.handler, CallbackOf(s'.callbacks, s.incs[r].launched)) ==
             Unfilled(r, s.handler, CallbackOf(s.callbacks, s.incs[r].launched))
    requires s'.handler.Running? && s'.handler.r == r ==> s.handler.Running? && s.handler == s'.handler
    requires CallbackOf(s'.callbacks, s.incs[r].launched).Some? ==>
               CallbackSources(s.incs[r], CallbackOf(s'.callbacks, s.incs[r].launched).value) && s.incs[r].lost == []
    ensures RefAt(s', r)
  {
    hide SourcesOk, CallbackSources;
    SameSources(s.incs[r], s'.incs[r]);
  }

  lemma HandlerSources(s: State, c: Choice, r: Ref)
    requires Inv(s) && Enabled(s, HandlerStep(c)) && SourcesInv(s) && r < |s.incs|
    ensures r < |Next(s, HandlerStep(c)).incs| && RefAt(Next(s, HandlerStep(c)), r)
  {
    hide WF, IncsOk, BoxesOk, GroupsOk, TasksOk, CallbacksOk, HandlerOk, GroupsAfter, TasksAfter, CloudAfter;
    hide SourcesOk, CallbackSources, BoxesAfter, IncsAfter, StepAccess;
    assert RefAt(s, r);
    if s.handler.Running? && s.handler.r == r {
      RunningSources(s, c);
    } else {
      StepUntouched(s, HandlerStep(c), r);
      UntouchedSources(s, Next(s, HandlerStep(c)), r);
    }
  }

  lemma CallbackRange(s: State, m: BoxId)
    requires Inv(s) && m in s.callbacks
    ensures m < |s.boxes| && s.boxes[m].owner < |s.incs|
    ensures !s.callbacks[m].Lookup? ==> s.callbacks[m].r == s.boxes[m].owner
  {
    hide HandlerOk, IncsOk, BoxesOk, GroupsOk, TasksOk, CallbacksOk, AnchorOf;
    CallbackHas(s, m);
  }

  lemma RerunTakes(s: State, m: BoxId, c: Choice)
    requires Inv(s) && Enabled(s, CallbackStep(m, c)) && SourcesInv(s) && s.callbacks[m].Rerun?
    requires s.callbacks[m].stage == Prepare
    ensures var r := s.callbacks[m].r;
            r < |Next(s, CallbackStep(m, c)).incs| && RefAt(Next(s, CallbackStep(m, c)), r)
  {
    hide WF, HandlerOk, IncsOk, BoxesOk, GroupsOk, TasksOk, CallbacksOk, GroupsAfter, TasksAfter, CloudAfter, SourcesOk;
    hide AnchorOf;
    CallbackHas(s, m);
    CallbackRange(s, m);
    assert RefAt(s, s.callbacks[m].r);
    FillKeeps(s.incs[s.callbacks[m].r]);
  }

  lemma RerunSources(s: State, m: BoxId, c: Choice)
    requires Inv(s) && Enabled(s, CallbackStep(m, c)) && SourcesInv(s) && s.callbacks[m].Rerun?
    ensures var r := s.callbacks[m].r;
            r < |Next(s, CallbackStep(m, c)).incs| && RefAt(Next(s, CallbackStep(m, c)), r)
  {
    hide WF, HandlerOk, IncsOk, BoxesOk, GroupsOk, TasksOk, CallbacksOk, GroupsAfter, TasksAfter, CloudAfter, SourcesOk;
    hide AnchorOf;
    if s.callbacks[m].stage == Prepare {
      RerunTakes(s, m, c);
    } else {
      CallbackHas(s, m);
      CallbackRange(s, m);
      var r := s.callbacks[m].r;
      assert RefAt(s, r);
      if s.callbacks[m].stage == Launch { LaunchFacts(s, r); }
      SameSources(s.incs[r], Next(s, CallbackStep(m, c)).incs[r]);
    }
  }

  lemma CallbackFacts(s: State, m: BoxId, r: Ref)
    requires Inv(s) && SourcesInv(s) && m in s.callbacks && r < |s.incs|
    ensures m < |s.boxes| && s.boxes[m].owner < |s.incs| && s.incs[s.boxes[m].owner].launched == Some(m)
    ensures s.incs[r].launched == Some(m) ==> s.boxes[m].owner == r
    ensures !s.callbacks[m].Lookup? ==> s.callbacks[m].r == s.boxes[m].owner
    ensures s.handler.Running? ==> s.handler.r != s.boxes[m].owner
    ensures CallbackSources(s.incs[s.boxes[m].owner], s.callbacks[m]) && s.incs[s.boxes[m].owner].lost == []
  {
    hide IncsOk, BoxesOk, GroupsOk, TasksOk, CallbacksOk, CallbackSources, SourcesOk, AnchorOf;
    CallbackHas(s, m);
    assert RefAt(s, r);
    assert RefAt(s, s.boxes[m].owner);
  }

  lemma CallbackSourcesKept(s: State, m: BoxId, c: Choice, r: Ref)
    requires Inv(s) && Enabled(s, CallbackStep(m, c)) && SourcesInv(s) && r < |s.incs|
    ensures r < |Next(s, CallbackStep(m, c)).incs| && RefAt(Next(s, CallbackStep(m, c)), r)
  {
    hide WF, IncsOk, BoxesOk, GroupsOk, TasksOk, CallbacksOk, HandlerOk, GroupsAfter, TasksAfter, CloudAfter;
    hide SourcesOk, BoxesAfter, IncsAfter, StepAccess;
    assert RefAt(s, r);
    CallbackFacts(s, m, r);
    if s.callbacks[m].Rerun? && s.callbacks[m].r == r {
      RerunSources(s, m, c);
    } else {
      StepUntouched(s, CallbackStep(m, c), r);
      UntouchedSources(s, Next(s, CallbackStep(m, c)), r);
    }
  }

  lemma RaisedIsCurrent(s: State, m: BoxId)
    requires Inv(s) && m < |s.boxes| && s.boxes[m].phase == Started
    ensures s.boxes[m].owner < |s.incs| && s.incs[s.boxes[m].owner].box == s.incs[s.boxes[m].owner].launched == Some(m)
  {
    hide HandlerOk, IncsOk, GroupsOk, TasksOk, CallbacksOk, AnchorOf;
    assert BoxAt(s, m, s.boxes[m]);
  }

  lemma OtherSources(s: State, step: Step, r: Ref)
    requires Inv(s) && Enabled(s, step) && SourcesInv(s) && r < |s.incs|
    requires !step.HandlerStep? && !step.CallbackStep?
    ensures r < |Next(s, step).incs| && RefAt(Next(s, step), r)
  {
    hide WF, IncsOk, BoxesOk, GroupsOk, TasksOk, CallbacksOk, HandlerOk, GroupsAfter, TasksAfter, CloudAfter;
    hide SourcesOk, BoxesAfter, IncsAfter, StepAccess;
    assert RefAt(s, r);
    if (step.CallbackLookup? || step.Raise?) && step.m in s.callbacks {
      CallbackHas(s, step.m); CallbackFacts(s, step.m, r);
    }
    if step.Raise? { RaisedIsCurrent(s, step.m); }
    StepUntouched(s, step, r);
    UntouchedSources(s, Next(s, step), r);
  }

  lemma CreatedSources(s: State, step: Step, r: Ref)
    requires Inv(s) && Enabled(s, step) && r < |Next(s, step).incs| && r >= |s.incs|
    requires Inv(Next(s, step))
    ensures RefAt(Next(s, step), r)
  {
    hide IncsOk, BoxesOk, GroupsOk, TasksOk, CallbacksOk, GroupsAfter, TasksAfter, CloudAfter;
  }

  lemma StepSources(s: State, step: Step)
    requires Inv(s) && Enabled(s, step) && SourcesInv(s)
    ensures SourcesInv(Next(s, step))
  {
    hide WF, HandlerOk, IncsOk, BoxesOk, GroupsOk, TasksOk, CallbacksOk, RefAt, Next, Enabled;
    forall r | 0 <= r < |Next(s, step).incs| ensures RefAt(Next(s, step), r) {
      if r >= |s.incs| { StepKeeps(s, step); CreatedSources(s, step, r); }
      else if step.HandlerStep? { HandlerSources(s, step.c, r); }
      else if step.CallbackStep? { CallbackSourcesKept(s, step.m, step.c, r); }
      else { OtherSources(s, step, r); }
    }
  }

  lemma {:induction false} RunSources(s: State, steps: seq<Step>)
    requires Inv(s) && Run(s, steps) && SourcesInv(s)
    ensures SourcesInv(Exec(s, steps))
    decreases |steps|
  {
    hide WF, HandlerOk, IncsOk, BoxesOk, GroupsOk, TasksOk, CallbacksOk, Enabled, Next, SourcesInv;
    if steps == [] {
    } else {
      StepKeeps(s, steps[0]);
      StepSources(s, steps[0]);
      RunSources(Next(s, steps[0]), steps[1..]);
    }
  }

  lemma TraceSources(s0: State, steps: seq<Step>)
    requires Trace(s0, steps)
    ensures SourcesInv(Last(s0, steps))
  {
    hide Inv;
    InitialInv(s0);
    RunSources(s0, steps);
  }

  // ------------------------------------------------------------------ exactly once

  /** The objects of a listing in the order they are handed to modelbox. */
  function FromTheEnd(listing: seq<Path>): (sources: seq<Source>)
    ensures |sources| == |listing|
    ensures forall i | 0 <= i < |listing| :: sources[i] == Listed(listing[|listing| - 1 - i])
  {
    seq(|listing|, i requires 0 <= i < |listing| => Listed(listing[|listing| - 1 - i]))
  }

  /** In every run what was handed over, at most one path lost by a run that failed after taking it, and
      what is left are the whole listing from its end: no other object is skipped, none is repeated, and
      the directory's own path is never handed over. */
  lemma ExactlyOnce(s0: State, steps: seq<Step>, r: Ref)
    requires Trace(s0, steps) && r < |Last(s0, steps).incs|
    ensures var inc := Last(s0, steps).incs[r];
            && |inc.lost| <= 1
            && if inc.listing == [] then inc.submitted + inc.lost == [] || inc.submitted + inc.lost == [Own]
               else inc.submitted + inc.lost + FromTheEnd(inc.paths) == FromTheEnd(inc.listing)
  {
    hide Inv;
    TraceSources(s0, steps);
    assert RefAt(Last(s0, steps), r);
  }

  /** Only PreProcess and a launch change these fields. */
  lemma SourcesAfter(s: State, a: Access, r: Ref)
    requires AccessInRange(s, a) && r < |s.incs| && a != Fill(r) && a != Lose(r) && a != LaunchBox(r)
    ensures r < |IncsAfter(s, a)|
    ensures var inc, inc' := s.incs[r], IncsAfter(s, a)[r];
            inc'.lost == inc.lost && inc'.submitted == inc.submitted && inc'.paths == inc.paths &&
                inc'.launched == inc.launched
  {
  }

  /** The step is r's PreProcess, with this outcome. */
  ghost predicate Prepares(s: State, step: Step, r: Ref, c: Choice) {
    || (step == HandlerStep(c) && s.handler == Running(r, Prepare))
    || (step.CallbackStep? && step.c == c && step.m in s.callbacks && s.callbacks[step.m].Rerun?
        && s.callbacks[step.m].r == r && s.callbacks[step.m].stage == Prepare)
  }

  /** The last path left, or the request's own when none was listed. */
  function LastOf(paths: seq<Path>): Source {
    if paths == [] then Own else Listed(paths[|paths| - 1])
  }

  /** A path is handed over exactly by a PreProcess that succeeds and lost exactly by one that fails; it is
      the last one left, and nothing else takes one. */
  lemma TakenExactly(s: State, step: Step, r: Ref)
    requires Inv(s) && Enabled(s, step) && r < |s.incs|
    ensures r < |Next(s, step).incs|
    ensures var inc, inc' := s.incs[r], Next(s, step).incs[r];
            && inc'.submitted == inc.submitted + (if Prepares(s, step, r, Ok) then [LastOf(inc.paths)] else [])
            && inc'.lost == inc.lost + (if Prepares(s, step, r, Fail) then [LastOf(inc.paths)] else [])
            && inc'.paths == if (Prepares(s, step, r, Ok) || Prepares(s, step, r, Fail)) && inc.paths != []
                             then inc.paths[..|inc.paths| - 1] else inc.paths
  {
    hide WF, HandlerOk, IncsOk, BoxesOk, GroupsOk, TasksOk, CallbacksOk, Enabled, StepAccess, IncsAfter;
    hide HandlerAfter, CallbacksAfter, BeatAfter, GroupsAfter, TasksAfter, BoxesAfter, CloudAfter;
    PrepareAccess(s, step, r);
    TakenAfter(s, StepAccess(s, step), r);
  }

  lemma PrepareAccess(s: State, step: Step, r: Ref)
    requires Inv(s) && Enabled(s, step) && r < |s.incs|
    ensures StepAccess(s, step) == Fill(r) <==> Prepares(s, step, r, Ok)
    ensures StepAccess(s, step) == Lose(r) <==> Prepares(s, step, r, Fail)
  {
    hide WF, HandlerOk, IncsOk, BoxesOk, GroupsOk, TasksOk, CallbacksOk;
  }

  lemma TakenAfter(s: State, a: Access, r: Ref)
    requires AccessInRange(s, a) && r < |s.incs|
    ensures r < |IncsAfter(s, a)|
    ensures var inc, inc' := s.incs[r], IncsAfter(s, a)[r];
            && inc'.submitted == inc.submitted + (if a == Fill(r) then [LastOf(inc.paths)] else [])
            && inc'.lost == inc.lost + (if a == Lose(r) then [LastOf(inc.paths)] else [])
            && inc'.paths == if (a == Fill(r) || a == Lose(r)) && inc.paths != []
                             then inc.paths[..|inc.paths| - 1] else inc.paths
  {
  }

  /** Nobody runs a task that lost a path. */
  lemma LossAccess(s: State, step: Step, r: Ref)
    requires Inv(s) && Enabled(s, step) && SourcesInv(s) && r < |s.incs| && s.incs[r].lost != []
    ensures var a := StepAccess(s, step); a != Fill(r) && a != Lose(r) && a != LaunchBox(r)
  {
    hide WF, HandlerOk, IncsOk, BoxesOk, GroupsOk, TasksOk, CallbacksOk, SourcesOk, CallbackSources;
    assert RefAt(s, r);
    if step.CallbackStep? { CallbackFacts(s, step.m, r); }
  }

  /** A lost path is the last one taken: its task never takes another. */
  lemma LossStep(s: State, step: Step, r: Ref)
    requires Inv(s) && Enabled(s, step) && SourcesInv(s) && r < |s.incs| && s.incs[r].lost != []
    ensures r < |Next(s, step).incs|
    ensures var inc, inc' := s.incs[r], Next(s, step).incs[r];
            inc'.lost == inc.lost && inc'.submitted == inc.submitted && inc'.paths == inc.paths &&
                inc'.launched == inc.launched
  {
    hide WF, HandlerOk, IncsOk, BoxesOk, GroupsOk, TasksOk, CallbacksOk, Enabled, StepAccess, IncsAfter, AccessInRange;
    hide HandlerAfter, CallbacksAfter, BeatAfter, GroupsAfter, TasksAfter, BoxesAfter, CloudAfter;
    LossAccess(s, step, r);
    SourcesAfter(s, StepAccess(s, step), r);
  }

  lemma {:induction false} LossIsFinal(s: State, steps: seq<Step>, r: Ref)
    requires Inv(s) && Run(s, steps) && SourcesInv(s) && r < |s.incs| && s.incs[r].lost != []
    ensures r < |Exec(s, steps).incs|
    ensures var inc, inc' := s.incs[r], Exec(s, steps).incs[r];
            inc'.lost == inc.lost && inc'.submitted == inc.submitted && inc'.paths == inc.paths &&
                inc'.launched == inc.launched
    decreases |steps|
  {
    hide WF, HandlerOk, IncsOk, BoxesOk, GroupsOk, TasksOk, CallbacksOk, Enabled, Next, SourcesInv;
    if steps == [] {
    } else {
      StepKeeps(s, steps[0]);
      StepSources(s, steps[0]);
      LossStep(s, steps[0], r);
      LossIsFinal(Next(s, steps[0]), steps[1..], r);
    }
  }

  /** When reruns succeed only a creation that fails can lose a path. */
  ghost predicate Whole(s: State) {
    forall r | 0 <= r < |s.incs| && s.incs[r].launched.Some? :: s.incs[r].lost == []
  }

  lemma StepWhole(s: State, step: Step, r: Ref)
    requires Inv(s) && Enabled(s, step) && SourcesInv(s) && Whole(s) && RerunsSucceed(s, step)
    requires r < |Next(s, step).incs| && Next(s, step).incs[r].launched.Some?
    ensures Next(s, step).incs[r].lost == []
  {
    hide WF, HandlerOk, IncsOk, BoxesOk, GroupsOk, TasksOk, CallbacksOk, SourcesOk, CallbackSources;
    hide HandlerAfter, CallbacksAfter, BeatAfter;
    hide GroupsAfter, TasksAfter, BoxesAfter, CloudAfter;
    if r < |s.incs| { assert RefAt(s, r); }
    if step.CallbackStep? && r < |s.incs| { CallbackFacts(s, step.m, r); }
  }

  lemma {:induction false} RunWhole(s: State, steps: seq<Step>)
    requires Inv(s) && Run(s, steps) && SteadyRun(s, steps) && SourcesInv(s) && Whole(s)
    ensures Whole(Exec(s, steps))
    decreases |steps|
  {
    hide WF, HandlerOk, IncsOk, BoxesOk, GroupsOk, TasksOk, CallbacksOk, Enabled, Next, SourcesInv;
    if steps == [] {
    } else {
      var s' := Next(s, steps[0]);
      StepKeeps(s, steps[0]);
      StepSources(s, steps[0]);
      forall r | 0 <= r < |s'.incs| && s'.incs[r].launched.Some? ensures s'.incs[r].lost == [] {
        StepWhole(s, steps[0], r);
      }
      RunWhole(s', steps[1..]);
    }
  }

  /** Exactly once without loss: when reruns succeed, for every task that was ever started, what was
      handed over and what is left are the whole listing from its end. */
  lemma NothingLost(s0: State, steps: seq<Step>, r: Ref)
    requires SteadyTrace(s0, steps) && r < |Last(s0, steps).incs| && Last(s0, steps).incs[r].launched.Some?
    ensures var inc := Last(s0, steps).incs[r];
            if inc.listing == [] then inc.submitted == [Own]
            else inc.submitted + FromTheEnd(inc.paths) == FromTheEnd(inc.listing)
  {
    hide Inv;
    InitialInv(s0);
    TraceSources(s0, steps);
    RunWhole(s0, steps);
    assert RefAt(Last(s0, steps), r);
    ExactlyOnce(s0, steps, r);
    var inc := Last(s0, steps).incs[r];
    assert inc.submitted + inc.lost == inc.submitted;
  }

  lemma {:induction false} ListedRunning(sources: seq<Source>)
    requires sources != [] && sources[|sources| - 1].Listed?
    ensures RunningOver(sources) == sources[|sources| - 1].path
  {
  }

  /** Path agreement: for every run and every modelbox task handed over so far, the path in the input
      data is the path in the session config exactly when the listed name is not empty (or the
      request's own path is empty too). */
  lemma PathAgreement(s0: State, steps: seq<Step>, r: Ref, own: Path, i: nat)
    requires Trace(s0, steps) && r < |Last(s0, steps).incs| && i < |Last(s0, steps).incs[r].submitted|
    ensures var submitted := Last(s0, steps).incs[r].submitted;
            InputPath(submitted[i], own) == SessionPath(RunningOver(submitted[..i + 1]), own)
            <==> submitted[i].Own? || submitted[i].path != "" || own == ""
  {
    hide Inv;
    TraceSources(s0, steps);
    var inc := Last(s0, steps).incs[r];
    assert RefAt(Last(s0, steps), r);
    var sofar := inc.submitted[..i + 1];
    assert sofar[|sofar| - 1] == inc.submitted[i];
    if inc.submitted[i].Listed? {
      ListedRunning(sofar);
    } else {
      assert Taken(inc)[i] == inc.submitted[i] && |Taken(inc)| == |inc.submitted| + |inc.lost|;
      assert sofar == [Own];
      assert sofar[..0] == [];
    }
  }

  /** SUCCEEDED is written for FINISHED only after every listed object was handed over. */
  lemma FinishedMeansAll(s0: State, steps: seq<Step>, m: BoxId)
    requires Trace(s0, steps)
    requires var s := Last(s0, steps);
             Enabled(s, CallbackStep(m, Ok)) && s.callbacks[m].SetStatus? && s.callbacks[m].kind == FINISHED
    ensures var s := Last(s0, steps);
            var inc := s.incs[s.callbacks[m].g];
            && StepAccess(s, CallbackStep(m, Ok)) == WriteStatus(s.callbacks[m].g, SUCCEEDED)
            && inc.submitted == if inc.listing == [] then [Own] else FromTheEnd(inc.listing)
  {
    hide WF, HandlerOk, IncsOk, BoxesOk, GroupsOk, TasksOk, CallbacksOk, AnchorOf;
    var s := Last(s0, steps);
    TraceSources(s0, steps);
    CallbackHas(s, m);
    CallbackRange(s, m);
    CallbackFacts(s, m, s.boxes[m].owner);
    assert RefAt(s, s.boxes[m].owner);
    var inc := s.incs[s.boxes[m].owner];
    assert Taken(inc) == inc.submitted;
  }

  // ------------------------------------------------------------------ how many modelbox tasks

  function Budget(inc: Incarnation): nat {
    if inc.listing == [] then 1 else |inc.listing|
  }

  /** A task over n listed objects creates at most max(1, n) modelbox tasks. */
  lemma RunsBound(s0: State, steps: seq<Step>, r: Ref)
    requires Trace(s0, steps) && r < |Last(s0, steps).incs|
    ensures var inc := Last(s0, steps).incs[r]; inc.runs <= Budget(inc)
  {
    hide Inv;
    TraceSources(s0, steps);
    var s := Last(s0, steps);
    assert RefAt(s, r);
  }

  ghost function Owned(boxes: seq<Box>, r: Ref): set<BoxId> {
    set b | 0 <= b < |boxes| && boxes[b].owner == r
  }

  ghost function RaisedOf(boxes: seq<Box>, r: Ref): set<BoxId> {
    set b | 0 <= b < |boxes| && boxes[b].owner == r && boxes[b].phase == Raised
  }

  ghost predicate Counted(s: State) {
    forall r | 0 <= r < |s.incs| :: |Owned(s.boxes, r)| == s.incs[r].runs
  }

  lemma BoxAccess(s: State, step: Step, r: Ref)
    requires Inv(s) && Enabled(s, step)
    ensures var s', before := Next(s, step), Owned(s.boxes, r);
            Owned(s'.boxes, r) == if StepAccess(s, step) == NewBoxFor(r) then before + {|s.boxes|} else before
  {
    hide WF, HandlerOk, IncsOk, BoxesOk, GroupsOk;
    hide TasksOk, CallbacksOk, StepAccess, HandlerAfter, CallbacksAfter, BeatAfter;
    hide IncsAfter, GroupsAfter, TasksAfter, CloudAfter, Enabled;
    var s' := Next(s, step);
    forall b | 0 <= b < |s.boxes| ensures b < |s'.boxes| && s'.boxes[b].owner == s.boxes[b].owner {}
  }

  lemma StepCounted(s: State, step: Step)
    requires Inv(s) && Enabled(s, step) && Counted(s)
    ensures Counted(Next(s, step))
  {
    hide WF, HandlerOk, IncsOk, BoxesOk, GroupsOk;
    hide TasksOk, CallbacksOk, StepAccess, HandlerAfter, CallbacksAfter, BeatAfter;
    hide BoxesAfter, GroupsAfter, TasksAfter, CloudAfter, Enabled, Owned;
    var s' := Next(s, step);
    forall r | 0 <= r < |s'.incs| ensures |Owned(s'.boxes, r)| == s'.incs[r].runs {
      BoxAccess(s, step, r);
      if r >= |s.incs| { NoBoxesYet(s, r); }
      else { NewBoxFresh(s, r); }
    }
  }

  lemma NoBoxesYet(s: State, r: Ref)
    requires Inv(s) && r >= |s.incs|
    ensures Owned(s.boxes, r) == {}
  {
    hide HandlerOk, IncsOk, BoxesOk, GroupsOk, TasksOk, CallbacksOk;
  }

  lemma NewBoxFresh(s: State, r: Ref)
    ensures |s.boxes| !in Owned(s.boxes, r)
  {
  }

  lemma {:induction false} RunCounted(s: State, steps: seq<Step>)
    requires Inv(s) && Run(s, steps) && Counted(s)
    ensures Counted(Exec(s, steps))
    decreases |steps|
  {
    hide WF, HandlerOk, IncsOk, BoxesOk, GroupsOk, TasksOk, CallbacksOk, Enabled, Next, Counted;
    if steps == [] {
    } else {
      StepKeeps(s, steps[0]);
      StepCounted(s, steps[0]);
      RunCounted(Next(s, steps[0]), steps[1..]);
    }
  }

  // ------------------------------------------------------------------ how many terminal callbacks

  /** The terminal callbacks that modelbox delivers for incarnation r along a run. */
  ghost function Ends(s: State, steps: seq<Step>, r: Ref): nat
    requires Inv(s) && Run(s, steps)
    decreases |steps|
  {
    if steps == [] then 0
    else
      assert Inv(Next(s, steps[0])) by { StepKeeps(s, steps[0]); }
      (if steps[0].Raise? && s.boxes[steps[0].m].owner == r then 1 else 0) + Ends(Next(s, steps[0]), steps[1..], r)
  }

  lemma RaisedAfter(s: State, step: Step, r: Ref)
    requires Inv(s) && Enabled(s, step) && !(step.Raise? && s.boxes[step.m].owner == r)
    ensures RaisedOf(Next(s, step).boxes, r) == RaisedOf(s.boxes, r)
  {
    hide WF, HandlerOk, IncsOk, BoxesOk, GroupsOk, TasksOk, CallbacksOk, HandlerAfter, CallbacksAfter, BeatAfter;
    hide IncsAfter, GroupsAfter, TasksAfter, CloudAfter, StepAccess;
    LaunchedNotRaised(s, step);
    var s' := Next(s, step);
    forall b | 0 <= b < |s'.boxes| ensures b in RaisedOf(s'.boxes, r) <==> b in RaisedOf(s.boxes, r) {}
  }

  lemma RaisedGrows(s: State, step: Step, r: Ref)
    requires Inv(s) && Enabled(s, step)
    ensures var s' := Next(s, step);
            |RaisedOf(s'.boxes, r)| == |RaisedOf(s.boxes, r)| + if step.Raise? && s.boxes[step.m].owner == r then 1
                else 0
  {
    hide WF, HandlerOk, IncsOk, BoxesOk, GroupsOk, TasksOk, CallbacksOk, HandlerAfter, CallbacksAfter, BeatAfter;
    hide IncsAfter, GroupsAfter, TasksAfter, CloudAfter;
    if step.Raise? && s.boxes[step.m].owner == r {
      assert RaisedOf(Next(s, step).boxes, r) == RaisedOf(s.boxes, r) + {step.m};
    } else {
      RaisedAfter(s, step, r);
    }
  }

  lemma LaunchedNotRaised(s: State, step: Step)
    requires Inv(s) && Enabled(s, step)
    ensures var a := StepAccess(s, step);
            && (a.RaiseBox? ==> step.Raise? && step.m == a.b)
            && (a.LaunchBox? ==> a.r < |s.incs| && s.incs[a.r].box.Some? && s.incs[a.r].box.value < |s.boxes|
                                 && s.boxes[s.incs[a.r].box.value].phase == Created)
  {
    hide IncsOk, BoxesOk, GroupsOk, TasksOk, CallbacksOk;
    if step.CallbackStep? { CallbackHas(s, step.m); }
  }

  lemma {:induction false} EndsAreRaised(s: State, steps: seq<Step>, r: Ref)
    requires Inv(s) && Run(s, steps)
    ensures |RaisedOf(s.boxes, r)| + Ends(s, steps, r) == |RaisedOf(Exec(s, steps).boxes, r)|
    decreases |steps|
  {
    hide WF, HandlerOk, IncsOk, BoxesOk, GroupsOk, TasksOk, CallbacksOk, Enabled, Next, RaisedOf;
    if steps == [] {
    } else {
      StepKeeps(s, steps[0]);
      RaisedGrows(s, steps[0], r);
      EndsAreRaised(Next(s, steps[0]), steps[1..], r);
    }
  }

  /** Over any run a task over n listed objects receives at most max(1, n) terminal callbacks. */
  lemma EndsBound(s0: State, steps: seq<Step>, r: Ref)
    requires Trace(s0, steps) && r < |Last(s0, steps).incs|
    ensures (assert Inv(s0) by { InitialInv(s0); } Ends(s0, steps, r)) <= Budget(Last(s0, steps).incs[r])
  {
    hide WF, HandlerOk, IncsOk, BoxesOk, GroupsOk, TasksOk, CallbacksOk;
    InitialInv(s0);
    EndsAreRaised(s0, steps, r);
    RunsBound(s0, steps, r);
    RunCounted(s0, steps);
    var s := Last(s0, steps);
    assert RaisedOf(s.boxes, r) <= Owned(s.boxes, r);
    Smaller(RaisedOf(s.boxes, r), Owned(s.boxes, r));
  }

  lemma Smaller(a: set<BoxId>, b: set<BoxId>)
    requires a <= b
    ensures |a| <= |b|
  {
    if a != b { assert |b - a| >= 0 && b == a + (b - a); }
  }
}
