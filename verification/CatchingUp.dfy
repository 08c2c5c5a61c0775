/** The receiver's table does catch up: with a network that answers, the heartbeat alone gets there. */
module CatchingUp {
  import opened Types
  import opened Protocol
  import opened Invariants
  import opened Runs
  import opened Convergence
  import opened Shutdown

  /** How far the heartbeat is from the end of its round. */
  function Phase(beat: Heartbeat): nat {
    match beat
    case Top => 3
    case Collect(_, _) => 2
    case Sending(_, _) => 1
    case _ => 0
  }

  function LeftInPhase(beat: Heartbeat): nat {
    match beat
    case Collect(todo, _) => |todo|
    case Sending(_, net) => if net.delivered then 0 else 1
    case _ => 0
  }

  /** The heartbeat's next step when the receiver answers. */
  lemma AnsweredStep(s: State) returns (step: Step)
    requires Inv(s) && !s.crashed && s.beat != Exited
    ensures step.BeatStep? && Enabled(s, step)
    ensures step.c == if s.beat.Sending? && !s.beat.net.delivered then Deliver else Ok
  {
    hide HandlerOk, IncsOk, BoxesOk, GroupsOk, TasksOk, CallbacksOk;
    var id: TaskId := "";
    if s.beat.Collect? && s.beat.todo != {} { id :| id in s.beat.todo; }
    step := BeatStep(if s.beat.Sending? && !s.beat.net.delivered then Deliver else Ok, id);
  }

  /** What the other threads own. */
  predicate SameTables(s: State, s': State) {
    s'.handler == s.handler && s'.callbacks == s.callbacks && s'.groups == s.groups && s'.incs == s.incs
  }

  /** Nobody else moves. */
  lemma OthersStay(s: State, step: Step)
    requires Inv(s) && Enabled(s, step) && step.BeatStep? && !s.stop
    ensures var s' := Next(s, step);
            && !s'.crashed && !s'.stop && SameTables(s, s') && s'.beat == BeatMove(s, step.c, step.id)
            && (s'.update ==> s.update) && (s.beat.Waiting? ==> !s'.update)
  {
    hide WF, HandlerOk, IncsOk, BoxesOk, GroupsOk, TasksOk, CallbacksOk, BeatMove;
  }

  /** The round goes on. */
  lemma MovesNearer(s: State, c: Choice, id: TaskId)
    requires WF(s) && BeatEnabled(s, c, id) && !s.stop
    requires c == if s.beat.Sending? && !s.beat.net.delivered then Deliver else Ok
    ensures var beat' := BeatMove(s, c, id);
            && beat' != Exited && (s.beat.Waiting? ==> beat' == Top)
            && (!s.beat.Waiting? ==>
                  && (beat'.Waiting? ==> beat' == Waiting(true))
                  && (Phase(beat') < Phase(s.beat) ||
                        (Phase(beat') == Phase(s.beat) && LeftInPhase(beat') < LeftInPhase(s.beat))))
  {
    if s.beat.Collect? && s.beat.todo != {} { assert |s.beat.todo - {id}| < |s.beat.todo|; }
  }

  lemma RoundGoesOn(s: State, step: Step)
    requires Inv(s) && Enabled(s, step) && step.BeatStep? && !s.stop
    requires step.c == if s.beat.Sending? && !s.beat.net.delivered then Deliver else Ok
    ensures var s' := Next(s, step);
            && !s'.crashed && !s'.stop && s'.beat != Exited && SameTables(s, s')
            && (s'.update ==> s.update) && (s.beat.Waiting? ==> s'.beat == Top && !s'.update)
            && (!s.beat.Waiting? ==>
                  && (s'.beat.Waiting? ==> s'.beat == Waiting(true))
                  && (Phase(s'.beat) < Phase(s.beat) ||
                        (Phase(s'.beat) == Phase(s.beat) && LeftInPhase(s'.beat) < LeftInPhase(s.beat))))
  {
    hide WF, HandlerOk, IncsOk, BoxesOk, GroupsOk, TasksOk, CallbacksOk, BeatMove, Phase, LeftInPhase, Next;
    OthersStay(s, step);
    MovesNearer(s, step.c, step.id);
  }

  ghost predicate OnlyBeats(steps: seq<Step>) {
    forall i | 0 <= i < |steps| :: steps[i].BeatStep?
  }

  /** The rest of a round, to the wait after a success. */
  lemma {:induction false} RoundEnds(s: State) returns (steps: seq<Step>)
    requires Inv(s) && !s.crashed && !s.stop && s.beat != Exited && !s.beat.Waiting?
    ensures Run(s, steps) && OnlyBeats(steps)
    ensures var s' := Exec(s, steps);
            && !s'.crashed && !s'.stop && s'.beat == Waiting(true) && SameTables(s, s') && (s'.update ==> s.update)
            && (BeatClean(s) ==> BeatClean(s'))
    decreases Phase(s.beat), LeftInPhase(s.beat)
  {
    hide WF, HandlerOk, IncsOk, BoxesOk, GroupsOk, TasksOk, CallbacksOk, Enabled, Next, BeatClean, Phase, LeftInPhase;
    var step := AnsweredStep(s);
    StepKeeps(s, step);
    RoundGoesOn(s, step);
    if BeatClean(s) { BeatStaysClean(s, step); }
    var rest: seq<Step> := [];
    if !Next(s, step).beat.Waiting? { rest := RoundEnds(Next(s, step)); }
    Unfold(s, step, rest);
    steps := [step] + rest;
  }

  /** An exited heartbeat was stopped. */
  lemma {:induction false} ExitedWasStopped(s: State, steps: seq<Step>)
    requires Inv(s) && Run(s, steps) && (s.beat == Exited ==> s.stop)
    ensures Exec(s, steps).beat == Exited ==> Exec(s, steps).stop
    decreases |steps|
  {
    hide WF, HandlerOk, IncsOk, BoxesOk, GroupsOk, TasksOk, CallbacksOk, Enabled, Next;
    if steps == [] {
    } else {
      StepKeeps(s, steps[0]);
      ExitIsStopped(s, steps[0]);
      ExitedWasStopped(Next(s, steps[0]), steps[1..]);
    }
  }

  lemma ExitIsStopped(s: State, step: Step)
    requires Inv(s) && Enabled(s, step) && (s.beat == Exited ==> s.stop)
    ensures Next(s, step).beat == Exited ==> Next(s, step).stop
  {
    hide WF, HandlerOk, IncsOk, BoxesOk, GroupsOk, TasksOk, CallbacksOk, StepAccess, HandlerAfter, CallbacksAfter;
    if s.stop { StopStays(s, step); }
  }

  /** From every reachable state of a service that is not stopped, the heartbeat left alone with a network
      that answers reaches its wait after a success with update_ false and the receiver's table equal to
      the view.  The other threads and the tables stay as they are, so without debts this is the quiet
      state of Convergence.CloudConverges. */
  lemma CatchesUp(s0: State, trace: seq<Step>) returns (steps: seq<Step>)
    requires Trace(s0, trace) && !Last(s0, trace).crashed && !Last(s0, trace).stop
    ensures var s := Last(s0, trace);
            && Run(s, steps) && OnlyBeats(steps)
            && var s' := Exec(s, steps);
               && s'.beat == Waiting(true) && !s'.update && SameTables(s, s') && s'.cloud == View(s') == View(s)
  {
    hide WF, HandlerOk, IncsOk, BoxesOk, GroupsOk, TasksOk, CallbacksOk, Enabled, Next, Run, Exec;
    var s := Last(s0, trace);
    InitialInv(s0);
    ExitedWasStopped(s0, trace);
    Nothing(s);
    steps := [];
    if !s.beat.Waiting? { steps := RoundEnds(s); }
    var s1 := Exec(s, steps);
    var step := AnsweredStep(s1);
    StepKeeps(s1, step);
    RoundGoesOn(s1, step);
    var s2 := Next(s1, step);
    var more := RoundEnds(s2);
    Unfold(s1, step, more);
    Compose(s, steps, [step] + more);
    steps := steps + ([step] + more);
    TopIsClean(s2);
    SameView(s, Exec(s, steps));
  }

  lemma Nothing(s: State)
    requires Inv(s)
    ensures Run(s, []) && Exec(s, []) == s
  {
  }

  lemma TopIsClean(s: State)
    requires WF(s) && s.beat == Top
    ensures BeatClean(s)
  {
  }

  lemma SameView(s: State, s': State)
    requires WF(s) && WF(s') && SameTables(s, s') && s'.beat == Waiting(true) && BeatClean(s')
    ensures s'.cloud == View(s') == View(s)
  {
  }
}
