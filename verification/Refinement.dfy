/** What the two managers' tables show of a protocol state; a request and a callback left alone change
    them as the contracts in Service say. */
module Refinement {
  import opened Types
  import opened ObsSource
  import opened Protocol
  import opened Invariants
  import opened Runs
  import opened Reachable
  import opened Published
  import opened Orphans
  import opened Agreement
  import opened Progress
  import opened Solo
  import opened Endings
  import Service

  predicate EntryShows(entry: Service.Entry, inc: Incarnation) {
    entry.box == inc.box && entry.paths == inc.paths && entry.finished == inc.finished
  }

  ghost predicate EntriesShow(s: State, entries: map<TaskId, Service.Entry>)
    requires WF(s)
  {
    entries.Keys == s.tasks.Keys && forall t | t in s.tasks :: EntryShows(entries[t], s.incs[s.tasks[t]])
  }

  /** `view` is TaskManager's table and `entries` ModelArtsManager's. */
  ghost predicate Shows(s: State, view: map<TaskId, Status>, entries: map<TaskId, Service.Entry>)
    requires WF(s)
  {
    view == View(s) && EntriesShow(s, entries)
  }

  lemma FirstShows(id: TaskId, given: seq<Path>, b: BoxId)
    ensures var inc := FirstRun(NewIncarnation(id, given), b).(launched := Some(b), status := RUNNING);
            EntryShows(Service.Entry(Some(b), RestPaths(given), false, true), inc) && inc.status == RUNNING
  {
  }

  /** A new task joins both tables. */
  predicate Grown(before: seq<Incarnation>, after: seq<Incarnation>) {
    |after| == |before| + 1 && after[..|before|] == before
  }

  lemma ViewJoined(s: State, s': State, id: TaskId)
    requires WF(s) && WF(s') && Grown(s.incs, s'.incs)
    requires s'.groups == s.groups[id := |s.incs|] && s'.incs[|s.incs|].status == RUNNING
    ensures View(s') == View(s)[id := RUNNING]
  {
    forall t | t in s.groups && t != id ensures s'.incs[s'.groups[t]] == s.incs[s.groups[t]] {
      assert s'.incs[s.groups[t]] == s'.incs[..|s.incs|][s.groups[t]];
    }
  }

  lemma EntriesJoined(s: State, s': State, entries: map<TaskId, Service.Entry>, id: TaskId, entry: Service.Entry)
    requires WF(s) && WF(s') && EntriesShow(s, entries) && Grown(s.incs, s'.incs)
    requires s'.tasks == s.tasks[id := |s.incs|] && EntryShows(entry, s'.incs[|s.incs|])
    ensures EntriesShow(s', entries[id := entry])
  {
    hide EntryShows;
    forall t | t in s.tasks && t != id ensures s'.incs[s'.tasks[t]] == s.incs[s.tasks[t]] {
      assert s'.incs[s.tasks[t]] == s'.incs[..|s.incs|][s.tasks[t]];
    }
  }

  /** A POST left alone is TaskManager.RunNew with a modelbox that does its part. */
  lemma PostRefines(s: State, view: map<TaskId, Status>, entries: map<TaskId, Service.Entry>, id: TaskId,
        given: seq<Path>)
    returns (steps: seq<Step>)
    requires Inv(s) && !s.crashed && s.handler == Idle && GroupLockFree(s) && Shows(s, view, entries)
    requires id !in view && id !in entries
    ensures Run(s, steps) && FriendlyRun(s, steps) && Exec(s, steps).handler == Idle
    ensures Shows(Exec(s, steps), view[id := RUNNING],
                  entries[id := Service.Entry(Some(|s.boxes|), RestPaths(given), false, true)])
    ensures |Exec(s, steps).boxes| == |s.boxes| + 1 && Exec(s, steps).boxes[|s.boxes|] == Box(|s.incs|, Started, false)
  {
    hide IncsOk, BoxesOk, GroupsOk, TasksOk, CallbacksOk, HandlerOk, Run, FriendlyRun, Exec, FirstRun;
    hide NewIncarnation;
    steps := PostAlone(s, id, given);
    FirstShows(id, given, |s.boxes|);
    ViewJoined(s, Exec(s, steps), id);
    EntriesJoined(s, Exec(s, steps), entries, id, Service.Entry(Some(|s.boxes|), RestPaths(given), false, true));
  }

  // ------------------------------------------------------------------ a callback that ends its task

  /** A callback writes to its own task only. */
  lemma OthersUntouched(s: State, m: BoxId, step: Step, q: Ref)
    requires Inv(s) && Enabled(s, step) && OfCallbackOrBeat(step, m) && m < |s.boxes|
    requires q < |s.incs| && q != s.boxes[m].owner
    ensures q < |Next(s, step).incs| && Next(s, step).incs[q] == s.incs[q]
  {
    hide WF, IncsOk, BoxesOk, GroupsOk, TasksOk, CallbacksOk, HandlerOk, AnchorOf, CurrentBox;
    hide GroupsAfter, TasksAfter, CloudAfter, BoxesAfter, HandlerAfter, CallbacksAfter, BeatAfter;
    if step.CallbackStep? { CallbackHas(s, m); }
  }

  lemma {:induction false} OthersKept(s: State, m: BoxId, steps: seq<Step>, q: Ref)
    requires Inv(s) && Run(s, steps) && Only(steps, m) && m < |s.boxes| && q < |s.incs| && q != s.boxes[m].owner
    ensures q < |Exec(s, steps).incs| && Exec(s, steps).incs[q] == s.incs[q]
    decreases |steps|
  {
    hide WF, IncsOk, BoxesOk, GroupsOk, TasksOk, CallbacksOk, HandlerOk, Next, Enabled, OfCallbackOrBeat;
    if steps == [] {
    } else {
      StepKeeps(s, steps[0]);
      OthersUntouched(s, m, steps[0], q);
      OwnersStay(s, steps[0], m);
      OthersKept(Next(s, steps[0]), m, steps[1..], q);
    }
  }

  predicate OthersAs(before: seq<Incarnation>, after: seq<Incarnation>, r: Ref) {
    forall q | 0 <= q < |before| && q != r :: q < |after| && after[q] == before[q]
  }

  lemma AllOthersKept(s: State, m: BoxId, steps: seq<Step>)
    requires Inv(s) && Run(s, steps) && Only(steps, m) && m < |s.boxes|
    ensures OthersAs(s.incs, Exec(s, steps).incs, s.boxes[m].owner)
  {
    hide WF, IncsOk, BoxesOk, GroupsOk, TasksOk, CallbacksOk, HandlerOk, Run, Exec, Only;
    forall q | 0 <= q < |s.incs| && q != s.boxes[m].owner
      ensures q < |Exec(s, steps).incs| && Exec(s, steps).incs[q] == s.incs[q]
    {
      OthersKept(s, m, steps, q);
    }
  }

  /** A task that runs is RUNNING under its own id in both tables. */
  lemma RunningTask(s: State, t: TaskId)
    requires Sound(s) && t in s.tasks && Launched(s, s.tasks[t]) && !Creating(s.handler, s.tasks[t])
    ensures var r := s.tasks[t];
            s.incs[r].id == t && t in s.groups && s.groups[t] == r && s.incs[r].status == RUNNING
  {
    hide IncsOk, CallbacksOk, GroupsOk, HandlerOk, EndsOk, EntriesOk, EarlyOk;
    EndHas(s, s.tasks[t]);
    var b := s.incs[s.tasks[t]].launched.value;
    assert BoxAt(s, b, s.boxes[b]);
  }

  lemma ReportEnabled(s: State, m: BoxId, kind: Kind)
    requires Inv(s) && !s.crashed && m < |s.boxes| && s.boxes[m].phase == Started
    requires !Creating(s.handler, s.boxes[m].owner)
    ensures Enabled(s, Raise(m, kind)) && Friendly(s, Raise(m, kind))
  {
    hide WF, IncsOk, BoxesOk, GroupsOk, TasksOk, CallbacksOk, HandlerOk;
  }

  /** Other ids stand for other tasks. */
  lemma OtherRefs(s: State, u: TaskId, t: TaskId)
    requires Inv(s) && u != t
    ensures u in s.groups && t in s.groups ==> s.groups[u] != s.groups[t]
    ensures u in s.tasks && t in s.tasks ==> s.tasks[u] != s.tasks[t]
  {
    hide IncsOk, BoxesOk, CallbacksOk, HandlerOk;
    if u in s.groups && t in s.groups {
      assert GroupOk(u, s.groups[u], s.incs[s.groups[u]], CallbackOf(s.callbacks, s.incs[s.groups[u]].launched));
      assert GroupOk(t, s.groups[t], s.incs[s.groups[t]], CallbackOf(s.callbacks, s.incs[s.groups[t]].launched));
    }
    if u in s.tasks && t in s.tasks {
      assert TaskOk(u, s.tasks[u], s.incs[s.tasks[u]], s.groups) && TaskOk(t, s.tasks[t], s.incs[s.tasks[t]], s.groups);
    }
  }

  /** What a run of the callback leaves of the tables when it erases t from both. */
  lemma ViewErased(s: State, s': State, t: TaskId)
    requires Inv(s) && WF(s') && t in s.groups && s'.groups == s.groups - {t} && OthersAs(s.incs, s'.incs, s.groups[t])
    ensures View(s') == View(s) - {t}
  {
    hide IncsOk, BoxesOk, CallbacksOk, HandlerOk, GroupsOk, TasksOk;
    forall u | u in s'.groups ensures s'.incs[s'.groups[u]] == s.incs[s.groups[u]] { OtherRefs(s, u, t); }
  }

  lemma EntriesErased(s: State, s': State, entries: map<TaskId, Service.Entry>, t: TaskId)
    requires Inv(s) && WF(s') && EntriesShow(s, entries)
    requires t in s.tasks && s'.tasks == s.tasks - {t} && OthersAs(s.incs, s'.incs, s.tasks[t])
    ensures EntriesShow(s', entries - {t})
  {
    hide IncsOk, BoxesOk, CallbacksOk, HandlerOk, EntryShows, GroupsOk, TasksOk;
    forall u | u in s'.tasks ensures s'.incs[s'.tasks[u]] == s.incs[s.tasks[u]] { OtherRefs(s, u, t); }
  }

  /** A report of r's running task, and its callback on its way to the end. */
  lemma ReportedEnd(s: State, r: Ref, m: BoxId, kind: Kind)
    requires Sound(s) && !s.crashed && r < |s.incs| && Launched(s, r) && Entered(s, r) && !Creating(s.handler, r)
    requires s.incs[r].launched == Some(m) && (kind != FINISHED || s.incs[r].paths == [])
    ensures Enabled(s, Raise(m, kind)) && Friendly(s, Raise(m, kind))
    ensures var s1 := Next(s, Raise(m, kind));
            && s1.incs == s.incs && s1.handler == s.handler && s1.groups == s.groups && s1.tasks == s.tasks
            && Movable(s1, m) && s1.boxes[m].owner == r && Finishing(s1.incs[r], s1.callbacks[m])
            && (s.incs[r].status == RUNNING && s.incs[r].id in s.groups && s.groups[s.incs[r].id] == r ==>
                  OnCourse(s1, m, r, kind))
            && !Leaving(s1.callbacks[m])
  {
    hide HandlerOk, IncsOk, BoxesOk, GroupsOk, TasksOk, CallbacksOk, EndsOk, EntriesOk, EarlyOk;
    hide Next, Enabled, Friendly;
    EndHas(s, r);
    ReportEnabled(s, m, kind);
    RaiseEffect(s, m, kind);
    StepKeeps(s, Raise(m, kind));
  }

  /** Incarnation r is published and RUNNING until its callback gives it the status that belongs to kind. */
  predicate OnCourse(s: State, m: BoxId, r: Ref, kind: Kind) {
    && r < |s.incs|
    && (m in s.callbacks ==> s.callbacks[m].kind == kind)
    && (|| (s.incs[r].status == RUNNING && s.incs[r].id in s.groups && s.groups[s.incs[r].id] == r)
        || s.incs[r].status == if kind == ABNORMAL then FAILED else SUCCEEDED)
  }

  lemma KindStays(s: State, m: BoxId, step: Step)
    requires Inv(s) && Enabled(s, step) && OfCallbackOrBeat(step, m) && m in Next(s, step).callbacks
    ensures m in s.callbacks && Next(s, step).callbacks[m].kind == s.callbacks[m].kind
  {
    hide WF, IncsOk, BoxesOk, GroupsOk, TasksOk, CallbacksOk, HandlerOk, StepAccess;
    hide IncsAfter, GroupsAfter, TasksAfter, CloudAfter, BoxesAfter, HandlerAfter, BeatAfter;
  }

  lemma GroupKept(s: State, m: BoxId, step: Step, t: TaskId)
    requires Inv(s) && Enabled(s, step) && OfCallbackOrBeat(step, m)
    requires t in s.groups && s.groups[t] < |s.incs| && s.incs[s.groups[t]].status == RUNNING
    ensures t in Next(s, step).groups && Next(s, step).groups[t] == s.groups[t]
  {
    hide WF, IncsOk, BoxesOk, GroupsOk, TasksOk, CallbacksOk, HandlerOk, StepAccess;
    hide IncsAfter, TasksAfter, CloudAfter, BoxesAfter, HandlerAfter, BeatAfter, CallbacksAfter;
    GroupAccess(s, step);
  }

  lemma StaysOnCourse(s: State, m: BoxId, step: Step, r: Ref, kind: Kind)
    requires Inv(s) && Enabled(s, step) && OfCallbackOrBeat(step, m) && OnCourse(s, m, r, kind)
    ensures OnCourse(Next(s, step), m, r, kind)
  {
    hide WF, IncsOk, BoxesOk, GroupsOk, TasksOk, CallbacksOk, HandlerOk, StepAccess, IncsAfter, Enabled;
    hide GroupsAfter, TasksAfter, CloudAfter, BoxesAfter, HandlerAfter, BeatAfter, CallbacksAfter;
    WrittenStatus(s, StepAccess(s, step), r);
    StepStatus(s, step, r);
    if m in Next(s, step).callbacks { KindStays(s, m, step); }
    if s.incs[r].status == RUNNING {
      if s.incs[r].id in s.groups && s.groups[s.incs[r].id] == r { GroupKept(s, m, step, s.incs[r].id); }
      if Next(s, step).incs[r].status != RUNNING {
        StatusAccess(s, step);
        WritesTo(s, step);
        SetStatusWrites(s, step);
      }
    }
  }

  lemma WritesTo(s: State, step: Step)
    requires Inv(s) && Enabled(s, step) && step.CallbackStep? && step.m in s.callbacks && s.callbacks[step.m].SetStatus?
    ensures StepAccess(s, step).WriteStatus? && StepAccess(s, step).r == s.callbacks[step.m].g < |s.incs|
  {
    hide IncsOk, BoxesOk, GroupsOk, TasksOk, CallbacksOk, HandlerOk;
    CallbackHas(s, step.m);
  }

  lemma {:induction false} RunOnCourse(s: State, m: BoxId, steps: seq<Step>, r: Ref, kind: Kind)
    requires Inv(s) && Run(s, steps) && Only(steps, m) && OnCourse(s, m, r, kind)
    ensures OnCourse(Exec(s, steps), m, r, kind)
    decreases |steps|
  {
    hide WF, IncsOk, BoxesOk, GroupsOk, TasksOk, CallbacksOk, HandlerOk, Next, Enabled, OfCallbackOrBeat, OnCourse;
    if steps == [] {
    } else {
      StepKeeps(s, steps[0]);
      StaysOnCourse(s, m, steps[0], r, kind);
      RunOnCourse(Next(s, steps[0]), m, steps[1..], r, kind);
    }
  }

  lemma OnCourseEnds(s: State, m: BoxId, r: Ref, kind: Kind)
    requires OnCourse(s, m, r, kind) && s.incs[r].id !in s.groups
    ensures s.incs[r].status == if kind == ABNORMAL then FAILED else SUCCEEDED
  {
  }

  /** The report and its callback as one run. */
  lemma EndRuns(s: State, r: Ref, kind: Kind) returns (steps: seq<Step>)
    requires Sound(s) && !s.crashed && r < |s.incs| && Launched(s, r) && Entered(s, r) && !Creating(s.handler, r)
    requires kind != FINISHED || s.incs[r].paths == []
    requires s.incs[r].status == RUNNING && s.incs[r].id in s.groups && s.groups[s.incs[r].id] == r
    ensures Run(s, steps) && FriendlyRun(s, steps)
    ensures var s' := Exec(s, steps);
            && s'.handler == s.handler && r < |s'.incs| && s'.incs[r].finished
            && s'.groups == s.groups - {s.incs[r].id} && s'.tasks == s.tasks - {s.incs[r].id}
            && OthersAs(s.incs, s'.incs, r)
            && s'.incs[r].status == if kind == ABNORMAL then FAILED else SUCCEEDED
  {
    hide WF, IncsOk, BoxesOk, GroupsOk, TasksOk, CallbacksOk, HandlerOk, EndsOk, EntriesOk, EarlyOk, Enabled, Next;
    hide Friendly, Run, FriendlyRun, Exec, OthersAs, Finishing;
    var m := s.incs[r].launched.value;
    ReportedEnd(s, r, m, kind);
    var s1 := Next(s, Raise(m, kind));
    var rest := CallbackCompletes(s1, m);
    AllOthersKept(s1, m, rest);
    StatusOrder(s1, rest, r);
    RunOnCourse(s1, m, rest, r, kind);
    OnCourseEnds(Exec(s1, rest), m, r, kind);
    steps := [Raise(m, kind)] + rest;
    Unfold(s, Raise(m, kind), rest);
    FriendlyFirst(s, Raise(m, kind), rest);
  }

  lemma Ends(s: State, entries: map<TaskId, Service.Entry>, t: TaskId, kind: Kind)
    requires WF(s) && EntriesShow(s, entries) && t in s.tasks && !Service.Reruns(Service.Ended(kind), entries[t])
    ensures kind != FINISHED || s.incs[s.tasks[t]].paths == []
  {
    assert EntryShows(entries[t], s.incs[s.tasks[t]]);
  }

  lemma InView(s: State, t: TaskId)
    requires WF(s) && t in s.groups
    ensures t in View(s) && View(s)[t] == s.incs[s.groups[t]].status
  {
  }

  /** A report that ends a task, with its callback left alone, is ModelArtsManager.Close: the
      task leaves both tables, FAILED after ABNORMAL and SUCCEEDED otherwise. */
  lemma EndRefines(s: State, view: map<TaskId, Status>, entries: map<TaskId, Service.Entry>, t: TaskId, kind: Kind)
    returns (steps: seq<Step>)
    requires Sound(s) && !s.crashed && Shows(s, view, entries) && t in s.tasks && Launched(s, s.tasks[t])
    requires !Creating(s.handler, s.tasks[t]) && !Service.Reruns(Service.Ended(kind), entries[t])
    ensures Run(s, steps) && FriendlyRun(s, steps) && Exec(s, steps).handler == s.handler
    ensures Shows(Exec(s, steps), view - {t}, entries - {t})
    ensures t in view && view[t] == RUNNING && t !in View(Exec(s, steps))
    ensures s.tasks[t] < |Exec(s, steps).incs| && Exec(s, steps).incs[s.tasks[t]].finished
    ensures Exec(s, steps).incs[s.tasks[t]].status == if kind == ABNORMAL then FAILED else SUCCEEDED
  {
    RunningTask(s, t);
    Ends(s, entries, t, kind);
    hide IncsOk, BoxesOk, GroupsOk, TasksOk, CallbacksOk, HandlerOk, EndsOk, EntriesOk, EarlyOk, Exec, Launched;
    hide OthersAs;
    InView(s, t);
    hide WF, Run, FriendlyRun, EntriesShow, View, Next, Enabled, Creating;
    steps := EndRuns(s, s.tasks[t], kind);
    ViewErased(s, Exec(s, steps), t);
    EntriesErased(s, Exec(s, steps), entries, t);
  }
}
