/** The cloud's task table catches up with task_group_map_. */
module Convergence {
  import opened Types
  import opened Protocol
  import opened Invariants
  import opened Runs

  /** The callback has changed the table's view and not yet asked for an instance message. */
  predicate CallbackOwes(cb: Callback) {
    Closing(cb) || cb.Notify?
  }

  /** The handler may have changed the table or told the receiver, and will ask for an update. */
  predicate HandlerOwes(h: Handler) {
    h.ReadDetail? || h.Report? || h.Reply?
  }

  ghost predicate Owes(s: State) {
    HandlerOwes(s.handler) || exists m | m in s.callbacks :: CallbackOwes(s.callbacks[m])
  }

  /** What the heartbeat holds is what the table shows now, and the receiver has what it was sent. */
  ghost predicate Clean(beat: Heartbeat, view: map<TaskId, Status>, cloud: map<TaskId, Status>) {
    match beat
    case Collect(todo, acc) =>
      acc.Keys + todo == view.Keys && acc.Keys !! todo && forall t | t in acc :: acc[t] == view[t]
    case Sending(msg, net) => msg == view && (net.delivered ==> cloud == view)
    case Waiting(sent) => sent ==> cloud == view
    case _ => true
  }

  ghost predicate BeatClean(s: State)
    requires WF(s)
  {
    Clean(s.beat, View(s), s.cloud)
  }

  ghost predicate Synced(s: State)
    requires WF(s)
  {
    Owes(s) || s.update || BeatClean(s)
  }

  /** A step that pays the last debt sets update_. */
  lemma DebtsArePaid(s: State, step: Step)
    requires Inv(s) && Enabled(s, step) && Owes(s)
    ensures Owes(Next(s, step)) || Next(s, step).update
  {
    hide WF, HandlerOk, IncsOk, BoxesOk, GroupsOk, TasksOk, CallbacksOk;
    hide IncsAfter, GroupsAfter, BoxesAfter, TasksAfter, CloudAfter;
    if !HandlerOwes(s.handler) {
      var m :| m in s.callbacks && CallbackOwes(s.callbacks[m]);
      if step.Raise? && step.m == m { CallbackHas(s, m); }
      if CallbackOwes(Next(s, step).callbacks[m]) {}
    }
  }

  /** While nobody owes an update, no thread but the heartbeat touches the receiver or the view. */
  lemma QuietAccess(s: State, step: Step)
    requires Inv(s) && Enabled(s, step) && !Owes(s) && !Owes(Next(s, step)) && !step.BeatStep?
    ensures var a := StepAccess(s, step);
            !a.InsertGroup? && !a.RemoveGroup? && !a.Receive? && !a.ReceiveAll? && a != ClearUpdate
            && (a.WriteStatus? ==> a.status == RUNNING && s.handler == MarkRunning(a.r))
  {
    hide WF, HandlerOk, IncsOk, BoxesOk, GroupsOk, TasksOk, CallbacksOk;
    hide IncsAfter, GroupsAfter, BoxesAfter, TasksAfter, CloudAfter;
    SetStatusOwes(s, step);
  }

  lemma SetStatusOwes(s: State, step: Step)
    requires Inv(s) && Enabled(s, step)
    ensures step.CallbackStep? && s.callbacks[step.m].SetStatus? ==> Owes(Next(s, step))
  {
    hide WF, HandlerOk, IncsOk, BoxesOk, GroupsOk, TasksOk, CallbacksOk;
    hide IncsAfter, GroupsAfter, BoxesAfter, TasksAfter, CloudAfter;
    if step.CallbackStep? && s.callbacks[step.m].SetStatus? {
      assert CallbackOwes(Next(s, step).callbacks[step.m]);
    }
  }

  lemma UnpublishedRef(s: State, t: TaskId)
    requires Inv(s) && s.handler.MarkRunning? && t in s.groups
    ensures s.groups[t] != s.handler.r
  {
    hide IncsOk, BoxesOk, TasksOk, CallbacksOk;
  }

  lemma WrittenStatus(s: State, a: Access, r: Ref)
    requires AccessInRange(s, a) && r < |s.incs|
    ensures |s.incs| <= |IncsAfter(s, a)|
    ensures IncsAfter(s, a)[r].status == if a.WriteStatus? && a.r == r then a.status else s.incs[r].status
  {
  }

  lemma QuietStatus(s: State, step: Step, t: TaskId)
    requires Inv(s) && Enabled(s, step) && !Owes(s) && !Owes(Next(s, step)) && !step.BeatStep? && t in s.groups
    ensures s.groups[t] < |s.incs| <= |Next(s, step).incs|
    ensures Next(s, step).incs[s.groups[t]].status == s.incs[s.groups[t]].status
  {
    hide HandlerOk, IncsOk, BoxesOk, GroupsOk, TasksOk, CallbacksOk, Enabled, StepAccess, HandlerAfter, CallbacksAfter;
    hide BeatAfter, BoxesAfter, TasksAfter, GroupsAfter, CloudAfter, Owes, HandlerInRange, CallbackInRange;
    hide IncsAfter, AccessInRange;
    QuietAccess(s, step);
    WrittenStatus(s, StepAccess(s, step), s.groups[t]);
    if StepAccess(s, step).WriteStatus? { UnpublishedRef(s, t); }
  }

  lemma QuietTables(s: State, step: Step)
    requires Inv(s) && Enabled(s, step) && !Owes(s) && !Owes(Next(s, step)) && !step.BeatStep?
    ensures var s' := Next(s, step);
            s'.cloud == s.cloud && s'.groups == s.groups && (s.update ==> s'.update)
  {
    hide WF, HandlerOk, IncsOk, BoxesOk, GroupsOk;
    hide TasksOk, CallbacksOk, Enabled, StepAccess, HandlerAfter, CallbacksAfter;
    hide BeatAfter, BoxesAfter, TasksAfter, IncsAfter, Owes;
    QuietAccess(s, step);
  }

  lemma QuietView(s: State, step: Step)
    requires Inv(s) && Enabled(s, step) && !Owes(s) && !Owes(Next(s, step)) && !step.BeatStep?
    requires WF(Next(s, step))
    ensures var s' := Next(s, step);
            View(s') == View(s) && s'.cloud == s.cloud && s'.groups == s.groups && (s.update ==> s'.update)
  {
    hide HandlerOk, IncsOk, BoxesOk, GroupsOk, TasksOk;
    hide CallbacksOk, Enabled, Next, Owes, HandlerInRange, CallbackInRange;
    QuietTables(s, step);
    forall t | t in s.groups ensures Next(s, step).incs[s.groups[t]].status == s.incs[s.groups[t]].status {
      QuietStatus(s, step, t);
    }
  }

  lemma BeatView(s: State, step: Step)
    requires Inv(s) && Enabled(s, step) && step.BeatStep? && WF(Next(s, step))
    ensures var s' := Next(s, step);
            && View(s') == View(s) && s'.groups == s.groups && s'.beat == BeatMove(s, step.c, step.id)
            && s'.cloud == (if s.beat.Sending? && step.c == Deliver then s.beat.msg else s.cloud)
            && (s.update && !s'.update ==> s'.beat == Top)
  {
    hide WF, HandlerOk, IncsOk, BoxesOk, GroupsOk, TasksOk, CallbacksOk, HandlerInRange;
  }

  lemma MoveStaysClean(s: State, c: Choice, id: TaskId, cloud: map<TaskId, Status>)
    requires WF(s) && BeatEnabled(s, c, id)
    requires cloud == if s.beat.Sending? && c == Deliver then s.beat.msg else s.cloud
    requires Clean(s.beat, View(s), s.cloud) || BeatMove(s, c, id) == Top
    ensures Clean(BeatMove(s, c, id), View(s), cloud)
  {
  }

  /** The heartbeat's own steps keep its data accurate; clearing update_ starts a new round. */
  lemma BeatStaysClean(s: State, step: Step)
    requires Inv(s) && Enabled(s, step) && step.BeatStep? && WF(Next(s, step))
    requires BeatClean(s) || Next(s, step).beat == Top
    ensures BeatClean(Next(s, step))
  {
    hide HandlerOk, IncsOk, BoxesOk, GroupsOk, TasksOk, CallbacksOk, Next, View, Clean, BeatMove;
    BeatView(s, step);
    MoveStaysClean(s, step.c, step.id, Next(s, step).cloud);
  }

  lemma StepSyncs(s: State, step: Step)
    requires Inv(s) && Enabled(s, step) && Synced(s) && WF(Next(s, step))
    ensures Synced(Next(s, step))
  {
    hide HandlerOk, IncsOk, BoxesOk, GroupsOk, TasksOk, CallbacksOk, StepAccess, HandlerAfter, CallbacksAfter;
    hide IncsAfter, GroupsAfter, BoxesAfter, TasksAfter, CloudAfter, Owes;
    var s' := Next(s, step);
    if Owes(s) {
      DebtsArePaid(s, step);
    } else if !Owes(s') {
      if step.BeatStep? {
        BeatView(s, step);
        if BeatClean(s) || s'.beat == Top { BeatStaysClean(s, step); }
      } else {
        QuietView(s, step);
      }
    }
  }

  lemma {:induction false} RunSyncs(s: State, steps: seq<Step>)
    requires Inv(s) && Run(s, steps) && Synced(s)
    ensures Synced(Exec(s, steps))
    decreases |steps|
  {
    hide WF, HandlerOk, IncsOk, BoxesOk, GroupsOk, TasksOk, CallbacksOk, Enabled, Next, Synced;
    if steps == [] {
    } else {
      StepKeeps(s, steps[0]);
      StepSyncs(s, steps[0]);
      RunSyncs(Next(s, steps[0]), steps[1..]);
    }
  }

  /** Convergence: in every run, when no handler or callback owes an update, the heartbeat waits,
      update_ is false and the last send succeeded, the receiver's table is the group table's view,
      whatever was stale, lost or repeated before. */
  lemma CloudConverges(s0: State, steps: seq<Step>)
    requires Trace(s0, steps)
    ensures var s := Last(s0, steps);
            !Owes(s) && !s.update && s.beat == Waiting(true) ==> s.cloud == View(s)
  {
    InitialInv(s0);
    RunSyncs(s0, steps);
  }
}
