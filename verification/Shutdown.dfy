/** TaskManager::Stop: once stop_ is set the heartbeat thread reaches its end, so join returns. */
module Shutdown {
  import opened Types
  import opened Protocol
  import opened Invariants
  import opened Runs

  /** What a SendMsg call has left to do. */
  function NetRank(net: Net): nat {
    2 * net.left + if net.delivered then 0 else 1
  }

  /** The heartbeat steps left once stop_ is set. */
  function Rank(beat: Heartbeat): nat {
    match beat
    case Exited => 0
    case Waiting(_) => 1
    case Top => 1
    case Sending(_, net) => 2 + NetRank(net)
    case Collect(todo, _) => |todo| + 4 + NetRank(Net(MAX_ATTEMPTS, false))
  }

  lemma NetRankFalls(net: Net, c: Choice)
    requires NetEnabled(net, c) && NetNext(net, c).Some?
    ensures NetRank(NetNext(net, c).value) < NetRank(net)
  {
  }

  lemma BeatRankFalls(s: State, step: Step)
    requires Inv(s) && Enabled(s, step) && s.stop && step.BeatStep?
    ensures Rank(Next(s, step).beat) < Rank(s.beat)
    ensures Next(s, step).beat.Sending? && !s.beat.Sending? ==> s.beat.Collect?
    ensures !Next(s, step).beat.Collect? || s.beat.Collect?
  {
    hide WF, HandlerOk, IncsOk, BoxesOk, GroupsOk, TasksOk, CallbacksOk;
    if s.beat.Sending? && NetNext(s.beat.net, step.c).Some? { NetRankFalls(s.beat.net, step.c); }
    if s.beat.Collect? && s.beat.todo != {} { assert |s.beat.todo - {step.id}| < |s.beat.todo|; }
  }

  lemma OthersLeaveBeat(s: State, step: Step)
    requires Inv(s) && Enabled(s, step) && !step.BeatStep?
    ensures Next(s, step).beat == s.beat
  {
    hide WF, HandlerOk, IncsOk, BoxesOk, GroupsOk, TasksOk, CallbacksOk, StepAccess, HandlerAfter, CallbacksAfter;
  }

  lemma StopStays(s: State, step: Step)
    requires Inv(s) && Enabled(s, step) && s.stop
    ensures Next(s, step).stop
  {
    hide WF, HandlerOk, IncsOk, BoxesOk, GroupsOk, TasksOk, CallbacksOk, StepAccess, HandlerAfter, CallbacksAfter;
  }

  function BeatSteps(steps: seq<Step>): nat {
    if steps == [] then 0 else (if steps[0].BeatStep? then 1 else 0) + BeatSteps(steps[1..])
  }

  /** The instance messages whose sending begins during the run. */
  ghost function SendsBegun(s: State, steps: seq<Step>): nat
    requires Inv(s) && Run(s, steps)
    decreases |steps|
  {
    if steps == [] then 0
    else
      assert Inv(Next(s, steps[0])) by { StepKeeps(s, steps[0]); }
      (if Next(s, steps[0]).beat.Sending? && !s.beat.Sending? then 1 else 0) + SendsBegun(Next(s, steps[0]), steps[1..])
  }

  /** Once stop_ is set, in every interleaving the heartbeat takes at most Rank steps, begins at most
      one more instance message, and that one only if it was already collecting it. */
  lemma {:induction false} ShutdownBound(s: State, steps: seq<Step>)
    requires Inv(s) && s.stop && Run(s, steps)
    ensures BeatSteps(steps) + Rank(Exec(s, steps).beat) <= Rank(s.beat)
    ensures SendsBegun(s, steps) <= if s.beat.Collect? then 1 else 0
    decreases |steps|
  {
    hide WF, HandlerOk, IncsOk, BoxesOk, GroupsOk, TasksOk, CallbacksOk, Enabled, Next, Rank;
    if steps == [] {
    } else {
      var step := steps[0];
      StepKeeps(s, step);
      StopStays(s, step);
      if step.BeatStep? { BeatRankFalls(s, step); } else { OthersLeaveBeat(s, step); }
      ShutdownBound(Next(s, step), steps[1..]);
    }
  }

  /** The heartbeat is never blocked: until it has exited it has a step, so join returns. */
  lemma BeatCanStep(s: State) returns (step: Step)
    requires Inv(s) && !s.crashed && s.beat != Exited
    ensures step.BeatStep? && Enabled(s, step)
  {
    var id: TaskId := "";
    if s.beat.Collect? && s.beat.todo != {} { id :| id in s.beat.todo; }
    step := BeatStep(if s.beat.Sending? then Fail else Ok, id);
  }

  /** Left alone after stop_, the heartbeat runs to its exit. */
  lemma {:induction false} HeartbeatExits(s: State) returns (steps: seq<Step>)
    requires Inv(s) && s.stop && !s.crashed
    ensures Run(s, steps) && Exec(s, steps).beat == Exited
    ensures |steps| == BeatSteps(steps) <= Rank(s.beat)
    decreases Rank(s.beat)
  {
    hide WF, HandlerOk, IncsOk, BoxesOk, GroupsOk, TasksOk, CallbacksOk, Enabled, Next, Perform;
    if s.beat == Exited { return []; }
    var step := BeatCanStep(s);
    StepKeeps(s, step);
    StopStays(s, step);
    BeatRankFalls(s, step);
    BeatNoCrash(s, step);
    var rest := HeartbeatExits(Next(s, step));
    steps := [step] + rest;
    assert steps[1..] == rest;
  }

  lemma BeatNoCrash(s: State, step: Step)
    requires Inv(s) && Enabled(s, step) && step.BeatStep?
    ensures !Next(s, step).crashed
  {
    hide WF, HandlerOk, IncsOk, BoxesOk, GroupsOk, TasksOk, CallbacksOk;
  }
}
