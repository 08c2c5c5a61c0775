/** How long a callback runs and how many reports are still to come, in every interleaving. */
module Bounds {
  import opened Types
  import opened Protocol
  import opened Invariants
  import opened Runs
  import opened Shutdown
  import opened Sources

  // ------------------------------------------------------------------ one callback

  /** The steps a callback thread has left, whatever modelbox and the network answer. */
  function CallbackRank(cb: Callback): nat {
    match cb
    case Lookup(_) => 34
    case Decide(_, _) => 33
    case DropBox(_, _) => 4
    case Rerun(_, _, stage) => (match stage case NewBox => 3 case Prepare => 2 case Launch => 1)
    case FindGroup(_, _) => 32
    case Compare(_, _, _) => 31
    case SetStatus(_, _, _) => 30
    case ReadState(_, _, _) => 29
    case Tell(_, _, _, _, net) => 6 + NetRank(net)
    case EraseGroup(_, _, _) => 5
    case Notify(_, _) => 4
    case DeleteBox(_, _) => 3
    case Finish(_, _) => 2
    case EraseTask(_, _) => 1
  }

  predicate IsOwn(step: Step, m: BoxId) {
    (step.CallbackStep? || step.CallbackLookup?) && step.m == m
  }

  function OwnSteps(steps: seq<Step>, m: BoxId): nat {
    if steps == [] then 0 else (if IsOwn(steps[0], m) then 1 else 0) + OwnSteps(steps[1..], m)
  }

  /** Every own step brings the callback closer to its return; the lookup that finds nothing ends the run. */
  lemma OwnStepFalls(s: State, step: Step, m: BoxId)
    requires Inv(s) && Enabled(s, step) && IsOwn(step, m)
    ensures m in s.callbacks && CallbackRank(s.callbacks[m]) > 0
    ensures Next(s, step).crashed ||
            (m in Next(s, step).callbacks ==> CallbackRank(Next(s, step).callbacks[m]) < CallbackRank(s.callbacks[m]))
  {
    hide WF, HandlerOk, IncsOk, BoxesOk, GroupsOk, TasksOk, CallbacksOk;
    hide IncsAfter, GroupsAfter, TasksAfter, BoxesAfter, CloudAfter, HandlerAfter, BeatAfter;
    if step.CallbackStep? && s.callbacks[m].Tell? && NetNext(s.callbacks[m].net, step.c).Some? {
      NetRankFalls(s.callbacks[m].net, step.c);
    }
  }

  /** No other step moves the callback, or brings it back once it has returned. */
  lemma OthersLeaveCallback(s: State, step: Step, m: BoxId)
    requires Inv(s) && Enabled(s, step) && !IsOwn(step, m) && m < |s.boxes| && s.boxes[m].phase == Raised
    ensures m in Next(s, step).callbacks <==> m in s.callbacks
    ensures m in s.callbacks ==> Next(s, step).callbacks[m] == s.callbacks[m]
  {
    hide WF, HandlerOk, IncsOk, BoxesOk, GroupsOk, TasksOk, CallbacksOk;
    hide IncsAfter, GroupsAfter, TasksAfter, BoxesAfter, CloudAfter, HandlerAfter, BeatAfter, StepAccess;
  }

  lemma RaisedForGood(s: State, step: Step, m: BoxId)
    requires Inv(s) && Enabled(s, step) && m < |s.boxes| && s.boxes[m].phase == Raised
    ensures m < |Next(s, step).boxes| && Next(s, step).boxes[m].phase == Raised
  {
    hide WF, HandlerOk, IncsOk, BoxesOk, GroupsOk, TasksOk, CallbacksOk, StepAccess;
    hide IncsAfter, GroupsAfter, TasksAfter, CloudAfter, HandlerAfter, CallbacksAfter, BeatAfter;
    LaunchedNotRaised(s, step);
  }

  function RankLeft(s: State, m: BoxId): nat {
    if m in s.callbacks then CallbackRank(s.callbacks[m]) else 0
  }

  /** In every interleaving, whatever modelbox and the network answer, the callback of a modelbox task
      that has ended takes at most its rank of steps, and it never comes back. */
  lemma {:induction false} CallbackBound(s: State, steps: seq<Step>, m: BoxId)
    requires Inv(s) && Run(s, steps) && m < |s.boxes| && s.boxes[m].phase == Raised
    ensures OwnSteps(steps, m) <= RankLeft(s, m)
    ensures !Exec(s, steps).crashed ==> OwnSteps(steps, m) + RankLeft(Exec(s, steps), m) <= RankLeft(s, m)
    decreases |steps|
  {
    hide WF, HandlerOk, IncsOk, BoxesOk, GroupsOk, TasksOk, CallbacksOk, Next, CallbackRank;
    if steps == [] {
    } else {
      var step := steps[0];
      StepKeeps(s, step);
      RaisedForGood(s, step, m);
      if IsOwn(step, m) { OwnStepFalls(s, step, m); } else { OthersLeaveCallback(s, step, m); }
      if Next(s, step).crashed {
        CrashEnds(Next(s, step), steps[1..]);
      } else {
        CallbackBound(Next(s, step), steps[1..], m);
      }
    }
  }

  lemma CrashEnds(s: State, steps: seq<Step>)
    requires Inv(s) && Run(s, steps) && s.crashed
    ensures steps == []
  {
    hide WF, HandlerOk, IncsOk, BoxesOk, GroupsOk, TasksOk, CallbacksOk;
  }

  // ------------------------------------------------------------------ the reports to come

  /** All modelbox tasks of an incarnation but the current one have ended. */
  ghost predicate OthersRaised(s: State)
    requires WF(s)
  {
    forall b | 0 <= b < |s.boxes| :: s.incs[s.boxes[b].owner].box == Some(b) || s.boxes[b].phase == Raised
  }

  /** A task whose first modelbox task is still to be created has none. */
  lemma NothingOwned(s: State, r: Ref)
    requires SourcesInv(s) && Counted(s) && r < |s.incs| && s.handler == Running(r, NewBox)
    ensures forall b | 0 <= b < |s.boxes| :: s.boxes[b].owner != r
  {
    hide SourcesOk, CallbackSources;
    assert RefAt(s, r);
    assert Owned(s.boxes, r) == {};
    forall b | 0 <= b < |s.boxes| ensures s.boxes[b].owner != r { assert b !in Owned(s.boxes, r); }
  }

  lemma NewBoxAfterEnd(s: State, step: Step, r: Ref, b: BoxId)
    requires Inv(s) && Enabled(s, step) && SourcesInv(s) && Counted(s) && OthersRaised(s)
    requires StepAccess(s, step) == NewBoxFor(r) || StepAccess(s, step) == NoBoxFor(r)
    requires b < |s.boxes| && s.boxes[b].owner == r
    ensures s.boxes[b].phase == Raised
  {
    hide IncsOk, BoxesOk, GroupsOk, TasksOk, CallbacksOk, HandlerOk, AnchorOf, SourcesOk, CallbackSources;
    if step.CallbackStep? { CallbackHas(s, step.m); } else { NothingOwned(s, r); }
  }

  lemma StepOthersRaised(s: State, step: Step, b: BoxId)
    requires Inv(s) && Enabled(s, step) && SourcesInv(s) && Counted(s) && OthersRaised(s) && WF(Next(s, step))
    requires b < |Next(s, step).boxes|
    ensures var s' := Next(s, step); s'.incs[s'.boxes[b].owner].box == Some(b) || s'.boxes[b].phase == Raised
  {
    hide IncsOk, BoxesOk, GroupsOk, TasksOk, CallbacksOk, HandlerOk, StepAccess, HandlerAfter, CallbacksAfter;
    hide BeatAfter;
    hide GroupsAfter, TasksAfter, CloudAfter, Enabled, SourcesInv, Counted;
    var a := StepAccess(s, step);
    LaunchedNotRaised(s, step);
    if b < |s.boxes| && (a == NewBoxFor(s.boxes[b].owner) || a == NoBoxFor(s.boxes[b].owner)) {
      NewBoxAfterEnd(s, step, s.boxes[b].owner, b);
    }
  }

  lemma StepKeepsOthers(s: State, step: Step)
    requires Inv(s) && Enabled(s, step) && SourcesInv(s) && Counted(s) && OthersRaised(s) && WF(Next(s, step))
    ensures OthersRaised(Next(s, step))
  {
    hide IncsOk, BoxesOk, GroupsOk, TasksOk, CallbacksOk, HandlerOk, SourcesInv, Counted, Next, Enabled;
    var s' := Next(s, step);
    forall b | 0 <= b < |s'.boxes| ensures s'.incs[s'.boxes[b].owner].box == Some(b) || s'.boxes[b].phase == Raised {
      StepOthersRaised(s, step, b);
    }
  }

  lemma {:induction false} RunOthersRaised(s: State, steps: seq<Step>)
    requires Inv(s) && Run(s, steps) && SourcesInv(s) && Counted(s) && OthersRaised(s)
    ensures SourcesInv(Exec(s, steps)) && Counted(Exec(s, steps)) && OthersRaised(Exec(s, steps))
    decreases |steps|
  {
    hide WF, HandlerOk, IncsOk, BoxesOk, GroupsOk, TasksOk, CallbacksOk, Enabled, Next, SourcesInv, Counted;
    hide OthersRaised;
    if steps == [] {
    } else {
      var s' := Next(s, steps[0]);
      StepKeeps(s, steps[0]);
      StepSources(s, steps[0]);
      StepCounted(s, steps[0]);
      StepKeepsOthers(s, steps[0]);
      RunOthersRaised(s', steps[1..]);
    }
  }

  lemma AtMostOneUnraised(s: State, r: Ref)
    requires WF(s) && OthersRaised(s) && r < |s.incs|
    ensures |Owned(s.boxes, r)| <= |RaisedOf(s.boxes, r)| + 1
  {
    var owned, raised := Owned(s.boxes, r), RaisedOf(s.boxes, r);
    var b := if s.incs[r].box.Some? then s.incs[r].box.value else 0;
    assert owned <= raised + {b};
    Smaller(owned, raised + {b});
  }

  /** What is taken from the listing and what is left. */
  lemma Accounts(s: State, r: Ref)
    requires SourcesInv(s) && r < |s.incs|
    ensures var inc := s.incs[r];
            && |inc.listing| - |inc.paths| <= inc.runs <= Budget(inc)
            && |inc.paths| <= |inc.listing|
  {
    assert RefAt(s, r);
  }

  lemma ListingKept(s: State, steps: seq<Step>, r: Ref)
    requires Inv(s) && Run(s, steps) && r < |s.incs|
    ensures r < |Exec(s, steps).incs| && Exec(s, steps).incs[r].listing == s.incs[r].listing
  {
    hide Inv, Run, Exec;
    StatusOrder(s, steps, r);
  }

  /** From every reachable state, in every continuation, a task receives at most as many further terminal
      reports as it has paths left, plus one. */
  lemma ReportsBound(s0: State, trace: seq<Step>, r: Ref, more: seq<Step>)
    requires Trace(s0, trace) && r < |Last(s0, trace).incs| && Run(Last(s0, trace), more)
    ensures Ends(Last(s0, trace), more, r) <= |Last(s0, trace).incs[r].paths| + 1
  {
    hide WF, HandlerOk, IncsOk, BoxesOk, GroupsOk, TasksOk, CallbacksOk, SourcesInv, Owned, RaisedOf, Next, Enabled;
    var s := Last(s0, trace);
    Starts(s0);
    RunOthersRaised(s0, trace);
    RunOthersRaised(s, more);
    var s' := Exec(s, more);
    ListingKept(s, more, r);
    EndsAreRaised(s, more, r);
    AtMostOneUnraised(s, r);
    Accounts(s, r);
    Accounts(s', r);
    RaisedAmongOwned(s', r);
  }

  lemma Starts(s0: State)
    requires Initial(s0)
    ensures Inv(s0) && SourcesInv(s0) && Counted(s0) && OthersRaised(s0)
  {
    InitialInv(s0);
  }

  lemma RaisedAmongOwned(s: State, r: Ref)
    ensures |RaisedOf(s.boxes, r)| <= |Owned(s.boxes, r)|
  {
    Smaller(RaisedOf(s.boxes, r), Owned(s.boxes, r));
  }
}
