/** One request alone, as a run of the protocol that meets the three hypotheses. */
module Solo {
  import opened Types
  import opened Protocol
  import opened Invariants
  import opened Runs
  import opened Orphans
  import opened Agreement

  /** Only a POST that has just begun can break a hypothesis by a step of the handler. */
  lemma {:induction false} HandlerIsFriendly(s: State, steps: seq<Step>)
    requires Inv(s) && Run(s, steps) && OnlyHandler(steps) && !s.handler.FindForCreate?
    ensures FriendlyRun(s, steps)
    decreases |steps|
  {
    hide WF, HandlerOk, IncsOk, BoxesOk, GroupsOk, TasksOk, CallbacksOk, Enabled, Next;
    if steps == [] {
    } else {
      StepKeeps(s, steps[0]);
      NotBegun(s, steps[0]);
      HandlerIsFriendly(Next(s, steps[0]), steps[1..]);
    }
  }

  lemma NotBegun(s: State, step: Step)
    requires Inv(s) && Enabled(s, step) && step.HandlerStep?
    ensures !Next(s, step).handler.FindForCreate?
  {
    hide WF, HandlerOk, IncsOk, BoxesOk, GroupsOk, TasksOk, CallbacksOk, StepAccess;
  }

  lemma FriendlyFirst(s: State, step: Step, rest: seq<Step>)
    requires Inv(s) && Enabled(s, step) && Friendly(s, step) && Inv(Next(s, step))
    requires Run(Next(s, step), rest) && FriendlyRun(Next(s, step), rest)
    ensures Run(s, [step] + rest) && FriendlyRun(s, [step] + rest)
  {
    hide WF, HandlerOk, IncsOk, BoxesOk, GroupsOk, TasksOk, CallbacksOk, Enabled, Next, Friendly;
    assert ([step] + rest)[1..] == rest;
  }

  lemma ReplaceLast(incs: seq<Incarnation>, made: Incarnation, inc: Incarnation)
    ensures (incs + [made])[|incs| := inc] == incs + [inc]
  {
  }

  /** Whatever is posted, a POST that is left alone runs to its 201: the id joins both tables with the
      same new task, RUNNING, with its first path handed to a started modelbox task, and the receiver
      and the heartbeat are told. */
  lemma PostAlone(s: State, id: TaskId, listing: seq<Path>) returns (steps: seq<Step>)
    requires Inv(s) && !s.crashed && s.handler == Idle && GroupLockFree(s) && id !in s.groups && id !in s.tasks
    ensures Run(s, steps) && FriendlyRun(s, steps)
    ensures var r, b := |s.incs|, |s.boxes|;
            Exec(s, steps) == s.(
              incs := s.incs + [FirstRun(NewIncarnation(id, listing), b).(launched := Some(b), status := RUNNING)],
              boxes := s.boxes + [Box(r, Started, false)],
              groups := s.groups[id := r], tasks := s.tasks[id := r],
              cloud := s.cloud[id := RUNNING], update := true, accepted := s.accepted + 1)
  {
    var post, go := Post(id, Readable(listing)), HandlerStep(Ok);
    BeginsPost(s, id, listing);
    MakesTask(s, id, listing);
    var s1, s2 := Posted(s, id, listing), Made(s, id, listing);
    hide WF, HandlerOk, IncsOk, BoxesOk, GroupsOk, TasksOk;
    hide CallbacksOk, Enabled, Next, Friendly, FirstRun, NewIncarnation;
    var rest := PostRuns(s2, id, |s.incs|);
    HandlerIsFriendly(s2, rest);
    FriendlyFirst(s1, go, rest);
    FriendlyFirst(s, post, [go] + rest);
    Unfold(s1, go, rest);
    Unfold(s, post, [go] + rest);
    steps := [post] + ([go] + rest);
    ReplaceLast(s.incs, NewIncarnation(id, listing),
                FirstRun(NewIncarnation(id, listing), |s.boxes|).(launched := Some(|s.boxes|), status := RUNNING));
  }

  function Posted(s: State, id: TaskId, listing: seq<Path>): State {
    s.(handler := FindForCreate(id, Readable(listing)))
  }

  function Made(s: State, id: TaskId, listing: seq<Path>): State {
    s.(handler := Running(|s.incs|, NewBox), incs := s.incs + [NewIncarnation(id, listing)])
  }

  lemma BeginsPost(s: State, id: TaskId, listing: seq<Path>)
    requires Inv(s) && !s.crashed && s.handler == Idle
    ensures var post := Post(id, Readable(listing));
            Enabled(s, post) && Friendly(s, post) && Next(s, post) == Posted(s, id, listing) &&
                Inv(Posted(s, id, listing))
  {
    hide HandlerOk, IncsOk, BoxesOk, GroupsOk, TasksOk, CallbacksOk;
    StepKeeps(s, Post(id, Readable(listing)));
  }

  lemma MakesTask(s: State, id: TaskId, listing: seq<Path>)
    requires Inv(Posted(s, id, listing)) && !s.crashed && GroupLockFree(s) && id !in s.groups && id !in s.tasks
    ensures var s1, go := Posted(s, id, listing), HandlerStep(Ok);
            Enabled(s1, go) && Friendly(s1, go) && Next(s1, go) == Made(s, id, listing) && Inv(Made(s, id, listing))
  {
    hide HandlerOk, IncsOk, BoxesOk, GroupsOk, TasksOk, CallbacksOk;
    StepKeeps(Posted(s, id, listing), HandlerStep(Ok));
  }

  /** The part of a POST after its task was made. */
  lemma PostRuns(s: State, id: TaskId, r: Ref) returns (steps: seq<Step>)
    requires Inv(s) && !s.crashed && GroupLockFree(s) && s.handler == Running(r, NewBox) && r < |s.incs| &&
             s.incs[r].id == id
    ensures Run(s, steps) && OnlyHandler(steps)
    ensures var b := |s.boxes|;
            Exec(s, steps) == s.(
              handler := Idle,
              incs := s.incs[r := FirstRun(s.incs[r], b).(launched := Some(b), status := RUNNING)],
              boxes := s.boxes + [Box(r, Started, false)],
              groups := s.groups[id := r], tasks := s.tasks[id := r],
              cloud := s.cloud[id := RUNNING], update := true, accepted := s.accepted + 1)
  {
    hide HandlerOk, IncsOk, BoxesOk, GroupsOk, TasksOk, CallbacksOk, Next, Enabled, Take;
    var b := |s.boxes|;
    steps := BoxFilled(s, r);
    FirstRunFacts(s.incs[r], b);
    var more := TaskInserted(Exec(s, steps), id, r, b);
    Compose(s, steps, more);
    steps := steps + more;
    more := PublishedAnyway(Exec(s, steps), id, r);
    Compose(s, steps, more);
    steps := steps + more;
    more := AnswerSent(Exec(s, steps), id, r);
    Compose(s, steps, more);
    steps := steps + more;
  }

  lemma FirstRunFacts(inc: Incarnation, b: BoxId)
    ensures FirstRun(inc, b).box == Some(b) && FirstRun(inc, b).id == inc.id
  {
  }

  // ------------------------------------------------------------------ a report before the entry is made

  /** The creation starts its modelbox task. */
  lemma Launches(s: State, r: Ref, b: BoxId, s1: State) returns (steps: seq<Step>)
    requires Inv(s) && !s.crashed && s.handler == Running(r, Launch) && r < |s.incs| && b < |s.boxes|
    requires s.incs[r].box == Some(b) && s.boxes[b] == Box(r, Created, false)
    requires s1 == s.(handler := AddTask(r), incs := s.incs[r := s.incs[r].(launched := Some(b))],
                      boxes := s.boxes[b := Box(r, Started, false)])
    ensures Inv(s1) && Run(s, steps) && Exec(s, steps) == s1
  {
    hide HandlerOk, BoxesOk, GroupsOk, TasksOk, CallbacksOk, IncsOk, Run, Exec;
    steps := HandlerOnce(s, Ok, s1);
  }

  /** A callback whose lookup fails uses the null pointer. */
  lemma Crashes(s: State, m: BoxId)
    requires Inv(s) && !s.crashed && m in s.callbacks && s.callbacks[m].Lookup? && ScanResult(s, m, None)
    ensures Run(s, [CallbackLookup(m, None)]) && Exec(s, [CallbackLookup(m, None)]).crashed
  {
    hide HandlerOk, BoxesOk, GroupsOk, TasksOk, CallbacksOk, IncsOk;
    StepKeeps(s, CallbackLookup(m, None));
    assert [CallbackLookup(m, None)][1..] == [];
  }

  /** The modelbox task of a creation reports before the manager's insertion: its callback uses null. */
  lemma ReportsTooEarly(s: State, r: Ref, b: BoxId, kind: Kind) returns (steps: seq<Step>)
    requires Inv(s) && !s.crashed && s.handler == Running(r, Launch) && r < |s.incs| && b < |s.boxes|
    requires s.incs[r].box == Some(b) && s.boxes[b] == Box(r, Created, false)
    requires forall t | t in s.tasks :: s.tasks[t] != r
    ensures Run(s, steps) && Exec(s, steps).crashed
  {
    hide HandlerOk, BoxesOk, GroupsOk, TasksOk, CallbacksOk, IncsOk, Run, Exec, Next, Enabled;
    var s1 := s.(handler := AddTask(r), incs := s.incs[r := s.incs[r].(launched := Some(b))],
                 boxes := s.boxes[b := Box(r, Started, false)]);
    steps := Launches(s, r, b, s1);
    Raises(s1, r, b, kind);
    Compose(s, steps, [Raise(b, kind)]);
    steps := steps + [Raise(b, kind)];
    var s2 := Exec(s, steps);
    NobodyElse(s, s2, r, b);
    Crashes(s2, b);
    Compose(s, steps, [CallbackLookup(b, None)]);
    steps := steps + [CallbackLookup(b, None)];
  }

  lemma NobodyElse(s: State, s2: State, r: Ref, b: BoxId)
    requires Inv(s) && WF(s2) && r < |s.incs| && s.incs[r].box == Some(b) && b < |s.boxes| && s.boxes[b].owner == r
    requires s2.tasks == s.tasks && |s2.incs| == |s.incs| &&
             forall q | 0 <= q < |s.incs| :: s2.incs[q].box == s.incs[q].box
    requires forall t | t in s.tasks :: s.tasks[t] != r
    ensures ScanResult(s2, b, None)
  {
    hide HandlerOk, BoxesOk, GroupsOk, TasksOk, CallbacksOk, IncsOk;
    forall t | t in EntryBoxes(s2) ensures EntryBoxes(s2)[t] != Some(b) { IncHas(s, s.tasks[t]); }
  }

  /** So the published hypothesis also keeps the callback from a null pointer: from every idle state,
      whatever is posted and however modelbox ends its task, some run reaches that use of null. */
  lemma CrashOccurs(s: State, id: TaskId, listing: seq<Path>, kind: Kind) returns (steps: seq<Step>)
    requires Inv(s) && !s.crashed && s.handler == Idle && GroupLockFree(s) && id !in s.groups
    ensures Run(s, steps) && Exec(s, steps).crashed
  {
    hide HandlerOk, IncsOk, BoxesOk, GroupsOk, TasksOk, CallbacksOk, Next, Enabled, Take, FirstRun, NewIncarnation;
    NewTask(id, listing, |s.boxes|);
    steps := PostAccepted(s, id, listing);
    var more := BoxFilled(Exec(s, steps), |s.incs|);
    Compose(s, steps, more);
    steps := steps + more;
    more := ReportsTooEarly(Exec(s, steps), |s.incs|, |s.boxes|, kind);
    Compose(s, steps, more);
    steps := steps + more;
  }
}
