/** Which request an HTTP answer belongs to and when it is given which code, in every run. */
module Answers {
  import opened Types
  import opened Protocol
  import opened Invariants
  import opened Runs
  import opened Sources
  import opened Reachable
  import opened Endings

  function LastRequest(steps: seq<Step>): Option<Step> {
    if steps == [] then None
    else if steps[|steps| - 1].Post? || steps[|steps| - 1].Delete? then Some(steps[|steps| - 1])
    else LastRequest(steps[..|steps| - 1])
  }

  /** The codes an answer to this request may have. */
  predicate Fits(a: Answer, request: Step) {
    match request
    case Post(id, body) =>
      && a.post && a.id == id && a.waited.None?
      && (a.code == BAD400 || (a.code == ERROR500 && body != Malformed) || (a.code == CREATED201 && body.Readable?))
    case Delete(id) =>
      && !a.post && a.id == id
      && (a.code == MISSING404 || a.code == ERROR500 || a.code == ACCEPTED202)
      && (a.waited.Some? ==> a.code == ACCEPTED202)
    case _ => false
  }

  /** The incarnation whose creation the handler serves. */
  function CreatorOf(h: Handler): Option<Ref> {
    match h
    case Running(r, _) => Some(r)
    case AddTask(r) => Some(r)
    case MarkRunning(r) => Some(r)
    case AddGroup(r) => Some(r)
    case ReadDetail(r) => Some(r)
    case Report(r, _, _) => Some(r)
    case _ => None
  }

  /** The handler serves this request. */
  predicate Serves(s: State, request: Option<Step>) {
    match s.handler
    case Idle => true
    case FindForCreate(id, body) => request == Some(Post(id, body))
    case FindForDelete(id) => request == Some(Delete(id))
    case CheckStatus(id, _) => request == Some(Delete(id))
    case FindTaskEntry(id, _) => request == Some(Delete(id))
    case Halt(id, _, _) => request == Some(Delete(id))
    case Await(id, _, _) => request == Some(Delete(id))
    case Reply(a) => request.Some? && Fits(a, request.value)
    case _ =>
      var r := CreatorOf(s.handler).value;
      r < |s.incs| && request == Some(Post(s.incs[r].id, Readable(s.incs[r].listing)))
  }

  function RequestAfter(request: Option<Step>, step: Step): Option<Step> {
    if step.Post? || step.Delete? then Some(step) else request
  }

  lemma CreatorServes(s: State, c: Choice, request: Option<Step>)
    requires Inv(s) && Enabled(s, HandlerStep(c)) && Serves(s, request) && CreatorOf(s.handler).Some?
    ensures Serves(Next(s, HandlerStep(c)), request)
  {
    hide IncsOk, BoxesOk, GroupsOk, TasksOk, CallbacksOk, HandlerOk, StepAccess, IncsAfter;
    hide CallbacksAfter, BeatAfter, GroupsAfter, TasksAfter, CloudAfter, BoxesAfter;
    StepStatus(s, HandlerStep(c), CreatorOf(s.handler).value);
  }

  lemma OpeningServes(s: State, c: Choice, request: Option<Step>)
    requires Inv(s) && Enabled(s, HandlerStep(c)) && Serves(s, request) && s.handler.FindForCreate?
    ensures Serves(Next(s, HandlerStep(c)), request)
  {
    hide WF, IncsOk, BoxesOk, GroupsOk, TasksOk, CallbacksOk, HandlerOk;
    hide CallbacksAfter, BeatAfter, GroupsAfter, TasksAfter, CloudAfter, BoxesAfter;
  }

  lemma DeleteServes(s: State, c: Choice, request: Option<Step>)
    requires Inv(s) && Enabled(s, HandlerStep(c)) && Serves(s, request)
    requires CreatorOf(s.handler).None? && !s.handler.FindForCreate?
    ensures Serves(Next(s, HandlerStep(c)), request)
  {
    hide WF, IncsOk, BoxesOk, GroupsOk, TasksOk, CallbacksOk, HandlerOk, StepAccess, IncsAfter;
    hide CallbacksAfter, BeatAfter, GroupsAfter, TasksAfter, CloudAfter, BoxesAfter;
  }

  lemma HandlerServes(s: State, c: Choice, request: Option<Step>)
    requires Inv(s) && Enabled(s, HandlerStep(c)) && Serves(s, request)
    ensures Serves(Next(s, HandlerStep(c)), request)
  {
    hide Inv, Enabled, Next, Serves;
    if CreatorOf(s.handler).Some? { CreatorServes(s, c, request); }
    else if s.handler.FindForCreate? { OpeningServes(s, c, request); }
    else { DeleteServes(s, c, request); }
  }

  lemma OthersServe(s: State, step: Step, request: Option<Step>)
    requires Inv(s) && Enabled(s, step) && Serves(s, request) && !step.HandlerStep?
    ensures Serves(Next(s, step), RequestAfter(request, step))
  {
    hide WF, HandlerOk, IncsOk, BoxesOk, GroupsOk, TasksOk, CallbacksOk, StepAccess, IncsAfter;
    hide CallbacksAfter, BeatAfter, GroupsAfter, TasksAfter, CloudAfter, BoxesAfter, Fits;
    if CreatorOf(s.handler).Some? { StepStatus(s, step, CreatorOf(s.handler).value); }
  }

  lemma StepServes(s: State, step: Step, request: Option<Step>)
    requires Inv(s) && Enabled(s, step) && Serves(s, request)
    ensures Serves(Next(s, step), RequestAfter(request, step))
  {
    hide Inv, Enabled, Next, Serves;
    if step.HandlerStep? { HandlerServes(s, step.c, request); }
    else { OthersServe(s, step, request); }
  }

  lemma {:induction false} RunServes(s: State, past: seq<Step>, steps: seq<Step>)
    requires Inv(s) && Run(s, steps) && Serves(s, LastRequest(past))
    ensures Serves(Exec(s, steps), LastRequest(past + steps))
    decreases |steps|
  {
    hide WF, HandlerOk, IncsOk, BoxesOk, GroupsOk, TasksOk, CallbacksOk, Next, Enabled, Serves;
    if steps == [] {
      assert past + steps == past;
    } else {
      StepKeeps(s, steps[0]);
      StepServes(s, steps[0], LastRequest(past));
      assert (past + [steps[0]])[..|past|] == past;
      RunServes(Next(s, steps[0]), past + [steps[0]], steps[1..]);
      assert past + steps == past + [steps[0]] + steps[1..];
    }
  }

  lemma TraceServes(s0: State, steps: seq<Step>)
    requires Trace(s0, steps)
    ensures Serves(Last(s0, steps), LastRequest(steps))
  {
    hide Inv;
    InitialInv(s0);
    RunServes(s0, [], steps);
    assert [] + steps == steps;
  }

  /** In every run the answer that the handler is about to give belongs to the last request that came. */
  lemma AnswersTheLastRequest(s0: State, steps: seq<Step>)
    requires Trace(s0, steps) && Last(s0, steps).handler.Reply?
    ensures LastRequest(steps).Some? && Fits(Last(s0, steps).handler.answer, LastRequest(steps).value)
  {
    hide Inv, Fits;
    TraceServes(s0, steps);
  }

  // ------------------------------------------------------------------ when each code is given

  /** The group a DELETE holds is RUNNING or has ended. */
  lemma HeldStatus(s: State)
    requires Sound(s) && s.handler.CheckStatus?
    ensures var g := s.handler.g;
            g < |s.incs| && (s.incs[g].status == RUNNING || s.incs[g].status == SUCCEEDED || s.incs[g].status == FAILED)
  {
    hide IncsOk, BoxesOk, CallbacksOk, EndsOk, EarlyOk;
  }

  /** A step gives a POST this code. */
  lemma PostCodes(s: State, step: Step)
    requires Inv(s) && Enabled(s, step) && !s.handler.Reply? && Next(s, step).handler.Reply?
    requires Next(s, step).handler.answer.post
    ensures var h, code := s.handler, Next(s, step).handler.answer.code;
            && (code == BAD400 <==> h.FindForCreate? && (h.body == Malformed || h.id in s.groups))
            && (code == ERROR500 <==>
                  || (h.FindForCreate? && h.body == NoInput && h.id !in s.groups)
                  || (h.Running? && step == HandlerStep(Fail)))
            && (code == CREATED201 <==> h.Report?)
  {
    hide WF, HandlerOk, IncsOk, BoxesOk, GroupsOk, TasksOk, CallbacksOk;
    hide CallbacksAfter, BeatAfter, GroupsAfter, TasksAfter, CloudAfter, BoxesAfter, IncsAfter;
  }

  /** ... and a DELETE this one. */
  lemma DeleteCodes(s: State, step: Step)
    requires Inv(s) && Enabled(s, step) && !s.handler.Reply? && Next(s, step).handler.Reply?
    requires !Next(s, step).handler.answer.post
    ensures var h, code := s.handler, Next(s, step).handler.answer.code;
            && (code == MISSING404 <==> h.FindForDelete? && h.id !in s.groups)
            && (code == ERROR500 <==>
                  || (h.FindTaskEntry? && h.id !in s.tasks)
                  || (h.Halt? && step == HandlerStep(Fail)))
            && (code == ACCEPTED202 <==>
                  || (h.CheckStatus? && h.g < |s.incs| && s.incs[h.g].status != RUNNING)
                  || (h.Await? && h.r < |s.incs| && s.incs[h.r].finished))
  {
    hide HandlerOk, IncsOk, BoxesOk, GroupsOk, TasksOk, CallbacksOk;
    hide CallbacksAfter, BeatAfter, GroupsAfter, TasksAfter, CloudAfter, BoxesAfter, IncsAfter;
  }

  /** modelbox reported the end of the last modelbox task that incarnation r started. */
  ghost predicate EndReported(s: State, r: Ref, past: seq<Step>) {
    r < |s.incs| && s.incs[r].launched.Some? && ReportCame(past, s.incs[r].launched.value)
  }

  /** In every run and interleaving a POST is answered 400 exactly when its body is unreadable or its id
      published, 500 exactly when Init refuses it or a stage of Run fails, 201 exactly when the receiver
      has been told. */
  lemma PostAnswered(s0: State, steps: seq<Step>, step: Step)
    requires Trace(s0, steps) && Enabled(Last(s0, steps), step) && !Last(s0, steps).handler.Reply?
    requires Next(Last(s0, steps), step).handler.Reply? && LastRequest(steps).Some? && LastRequest(steps).value.Post?
    ensures var s := Last(s0, steps);
            var code, id, body := Next(s, step).handler.answer.code, LastRequest(steps).value.id,
                                  LastRequest(steps).value.body;
            && Next(s, step).handler.answer.id == id
            && (code == BAD400 <==> s.handler.FindForCreate? && (body == Malformed || id in s.groups))
            && (code == ERROR500 <==>
                  || (s.handler.FindForCreate? && body == NoInput && id !in s.groups)
                  || (s.handler.Running? && step == HandlerStep(Fail)))
            && (code == CREATED201 <==> s.handler.Report?)
  {
    hide Inv, Enabled, Next;
    TraceServes(s0, steps);
    var s := Last(s0, steps);
    StepServes(s, step, LastRequest(steps));
    NoRequest(s, step);
    PostCodes(s, step);
  }

  lemma NoRequest(s: State, step: Step)
    requires Inv(s) && Enabled(s, step) && Next(s, step).handler.Reply?
    ensures !step.Post? && !step.Delete?
  {
    hide Inv;
  }

  lemma AwaitedReported(s: State, past: seq<Step>)
    requires Sound(s) && Recorded(s, past) && s.handler.Await? && s.incs[s.handler.r].finished
    ensures s.handler.g == s.handler.r && EndReported(s, s.handler.g, past)
  {
    hide IncsOk, BoxesOk, GroupsOk, TasksOk, CallbacksOk, EndsOk, EntriesOk, EarlyOk, Heard, Verdicts, RaisedOnce;
    EndHas(s, s.handler.r);
    assert ReportCame(past, s.incs[s.handler.r].launched.value);
  }

  lemma HeldEnd(s0: State, steps: seq<Step>)
    requires Trace(s0, steps) && (Last(s0, steps).handler.CheckStatus? || Last(s0, steps).handler.Await?)
    ensures var s := Last(s0, steps);
            && s.handler.g < |s.incs| && (s.handler.Await? ==> s.handler.r < |s.incs|)
            && (s.handler.CheckStatus? && s.incs[s.handler.g].status != RUNNING ==> EndReported(s, s.handler.g, steps))
            && (s.handler.Await? && s.incs[s.handler.r].finished ==> EndReported(s, s.handler.g, steps))
  {
    hide IncsOk, BoxesOk, GroupsOk, TasksOk, CallbacksOk, HandlerOk, EndsOk, EntriesOk, EarlyOk, Recorded;
    var s := Last(s0, steps);
    TraceSound(s0, steps);
    if s.handler.CheckStatus? {
      HeldStatus(s);
      if s.incs[s.handler.g].status != RUNNING { EndedReported(s0, steps, s.handler.g); }
    } else if s.incs[s.handler.r].finished {
      TraceRecorded(s0, steps);
      AwaitedReported(s, steps);
    }
  }

  lemma EndedReported(s0: State, steps: seq<Step>, r: Ref)
    requires Trace(s0, steps) && r < |Last(s0, steps).incs|
    requires Last(s0, steps).incs[r].status == SUCCEEDED || Last(s0, steps).incs[r].status == FAILED
    ensures EndReported(Last(s0, steps), r, steps)
  {
    hide Inv;
    EndsAsReported(s0, steps, r);
  }

  /** ... and a DELETE 404 exactly when its id is not published, 500 exactly when the manager has no
      entry for it or Stop fails, 202 exactly when its group has ended, by a report that came, or its
      task is finished. */
  lemma DeleteAnswered(s0: State, steps: seq<Step>, step: Step)
    requires Trace(s0, steps) && Enabled(Last(s0, steps), step) && !Last(s0, steps).handler.Reply?
    requires Next(Last(s0, steps), step).handler.Reply? && LastRequest(steps).Some? && LastRequest(steps).value.Delete?
    ensures var s := Last(s0, steps);
            var h, code, id := s.handler, Next(s, step).handler.answer.code, LastRequest(steps).value.id;
            && Next(s, step).handler.answer.id == id
            && (code == MISSING404 <==> h.FindForDelete? && id !in s.groups)
            && (code == ERROR500 <==> (h.FindTaskEntry? && id !in s.tasks) || (h.Halt? && step == HandlerStep(Fail)))
            && (code == ACCEPTED202 <==>
                  || (h.CheckStatus? && h.g < |s.incs| &&
                      (s.incs[h.g].status == SUCCEEDED || s.incs[h.g].status == FAILED))
                  || (h.Await? && h.r < |s.incs| && s.incs[h.r].finished))
            && (code == ACCEPTED202 ==> EndReported(s, h.g, steps))
  {
    hide Sound, Enabled, Next;
    TraceServes(s0, steps);
    var s := Last(s0, steps);
    TraceSound(s0, steps);
    StepServes(s, step, LastRequest(steps));
    NoRequest(s, step);
    DeleteCodes(s, step);
    if s.handler.CheckStatus? { HeldStatus(s); }
    if s.handler.CheckStatus? || s.handler.Await? { HeldEnd(s0, steps); }
  }

  // ------------------------------------------------------------------ what a POST tells the cloud

  /** The report of a creation says RUNNING, or the status with which the task has ended already. */
  predicate Details(s: State) {
    && (s.handler.ReadDetail? ==> s.handler.r < |s.incs| && s.incs[s.handler.r].status != PENDING)
    && (s.handler.Report? ==>
          && s.handler.r < |s.incs|
          && (s.handler.detail == RUNNING ||
              (s.handler.detail == s.incs[s.handler.r].status &&
               (s.handler.detail == SUCCEEDED || s.handler.detail == FAILED))))
  }

  lemma StepDetails(s: State, step: Step)
    requires Inv(s) && Enabled(s, step) && Details(s)
    ensures Details(Next(s, step))
  {
    hide IncsOk, BoxesOk, GroupsOk, TasksOk, CallbacksOk, StepAccess, IncsAfter;
    hide CallbacksAfter, BeatAfter, GroupsAfter, TasksAfter, CloudAfter, BoxesAfter;
    if s.handler.AddGroup? || s.handler.ReadDetail? || s.handler.Report? { StepStatus(s, step, s.handler.r); }
  }

  lemma {:induction false} RunDetails(s: State, steps: seq<Step>)
    requires Inv(s) && Run(s, steps) && Details(s)
    ensures Details(Exec(s, steps))
    decreases |steps|
  {
    hide WF, HandlerOk, IncsOk, BoxesOk, GroupsOk, TasksOk, CallbacksOk, Next, Enabled, Details;
    if steps == [] {
    } else {
      StepKeeps(s, steps[0]);
      StepDetails(s, steps[0]);
      RunDetails(Next(s, steps[0]), steps[1..]);
    }
  }

  /** In every run what a POST tells the cloud is its own id, RUNNING, or ended as the task has already. */
  lemma PostTells(s0: State, steps: seq<Step>)
    requires Trace(s0, steps) && Enabled(Last(s0, steps), HandlerStep(Deliver))
    ensures var s := Last(s0, steps);
            && s.handler.Report? && s.handler.r < |s.incs|
            && LastRequest(steps) == Some(Post(s.incs[s.handler.r].id, Readable(s.incs[s.handler.r].listing)))
            && Next(s, HandlerStep(Deliver)).cloud == s.cloud[s.incs[s.handler.r].id := s.handler.detail]
            && (s.handler.detail == RUNNING ||
                (s.handler.detail == s.incs[s.handler.r].status &&
                 (s.handler.detail == SUCCEEDED || s.handler.detail == FAILED)))
  {
    hide Inv, Next, Enabled;
    InitialInv(s0);
    RunDetails(s0, steps);
    TraceServes(s0, steps);
    Delivers(Last(s0, steps));
  }

  lemma Delivers(s: State)
    requires Inv(s) && Enabled(s, HandlerStep(Deliver))
    ensures s.handler.Report? && s.handler.r < |s.incs|
    ensures Next(s, HandlerStep(Deliver)).cloud == s.cloud[s.incs[s.handler.r].id := s.handler.detail]
  {
    hide IncsOk, BoxesOk, GroupsOk, TasksOk, CallbacksOk, HandlerOk;
    hide CallbacksAfter, BeatAfter, GroupsAfter, TasksAfter, IncsAfter, BoxesAfter;
  }

  // ------------------------------------------------------------------ the attempts of a message

  /** A SendMsg call has between one and ten attempts left. */
  predicate Attempting(net: Net) {
    1 <= net.left <= 10
  }

  ghost predicate AllAttempting(s: State) {
    && (s.handler.Report? ==> Attempting(s.handler.net))
    && (forall m | m in s.callbacks && s.callbacks[m].Tell? :: Attempting(s.callbacks[m].net))
    && (s.beat.Sending? ==> Attempting(s.beat.net))
  }

  /** The choice with which a step moves this thread, None when it moves another one. */
  function HandlerChoice(step: Step): Option<Choice> {
    if step.HandlerStep? then Some(step.c) else None
  }

  function CallbackChoice(step: Step, m: BoxId): Option<Choice> {
    if step.CallbackStep? && step.m == m then Some(step.c) else None
  }

  function BeatChoice(step: Step): Option<Choice> {
    if step.BeatStep? then Some(step.c) else None
  }

  /** A call starts with ten attempts, none of them delivered; an attempt that fails leaves one less, and
      the call returns after a success or its last attempt.  Other threads leave it alone. */
  predicate CallGoesOn(before: Option<Net>, moved: Option<Choice>, after: Option<Net>) {
    if moved.None? then after == before
    else match before
         case None => after.None? || after == Some(Net(10, false))
         case Some(net) =>
           match moved.value
           case Deliver => !net.delivered && after == Some(Net(net.left, true))
           case Ok => net.delivered && after.None?
           case Fail => if net.left > 1 then after == Some(Net(net.left - 1, false)) else after.None?
  }

  function HandlerCall(s: State): Option<Net> {
    if s.handler.Report? then Some(s.handler.net) else None
  }

  function CallbackCall(s: State, m: BoxId): Option<Net> {
    if m in s.callbacks && s.callbacks[m].Tell? then Some(s.callbacks[m].net) else None
  }

  function BeatCall(s: State): Option<Net> {
    if s.beat.Sending? then Some(s.beat.net) else None
  }

  lemma HandlerCalls(s: State, step: Step)
    requires Inv(s) && Enabled(s, step) && AllAttempting(s)
    ensures CallGoesOn(HandlerCall(s), HandlerChoice(step), HandlerCall(Next(s, step)))
    ensures HandlerCall(Next(s, step)).Some? ==> Attempting(HandlerCall(Next(s, step)).value)
  {
    hide WF, HandlerOk, IncsOk, BoxesOk, GroupsOk, TasksOk, CallbacksOk, StepAccess, IncsAfter;
    hide CallbacksAfter, BeatAfter, GroupsAfter, TasksAfter, CloudAfter, BoxesAfter;
  }

  lemma CallbackCalls(s: State, step: Step, m: BoxId)
    requires Inv(s) && Enabled(s, step) && AllAttempting(s)
    ensures CallGoesOn(CallbackCall(s, m), CallbackChoice(step, m), CallbackCall(Next(s, step), m))
    ensures CallbackCall(Next(s, step), m).Some? ==> Attempting(CallbackCall(Next(s, step), m).value)
  {
    hide WF, HandlerOk, IncsOk, BoxesOk, GroupsOk, TasksOk, CallbacksOk, StepAccess, IncsAfter;
    hide HandlerAfter, BeatAfter, GroupsAfter, TasksAfter, CloudAfter, BoxesAfter;
    if step.Raise? && step.m == m && m in s.callbacks { NotRaisedAgain(s, m); }
  }

  lemma NotRaisedAgain(s: State, m: BoxId)
    requires Inv(s) && m in s.callbacks
    ensures m < |s.boxes| && s.boxes[m].phase == Raised
  {
    hide WF, HandlerOk, IncsOk, BoxesOk, GroupsOk, TasksOk, CallbacksOk;
    MoverStatus(s, m);
  }

  lemma BeatCalls(s: State, step: Step)
    requires Inv(s) && Enabled(s, step) && AllAttempting(s)
    ensures CallGoesOn(BeatCall(s), BeatChoice(step), BeatCall(Next(s, step)))
    ensures BeatCall(Next(s, step)).Some? ==> Attempting(BeatCall(Next(s, step)).value)
  {
    hide WF, HandlerOk, IncsOk, BoxesOk, GroupsOk, TasksOk, CallbacksOk, StepAccess, IncsAfter;
    hide HandlerAfter, CallbacksAfter, GroupsAfter, TasksAfter, CloudAfter, BoxesAfter;
  }

  lemma {:induction false} RunAttempting(s: State, steps: seq<Step>)
    requires Inv(s) && Run(s, steps) && AllAttempting(s)
    ensures AllAttempting(Exec(s, steps))
    decreases |steps|
  {
    hide WF, HandlerOk, IncsOk, BoxesOk, GroupsOk, TasksOk, CallbacksOk, Next, Enabled, Attempting;
    if steps == [] {
    } else {
      StepKeeps(s, steps[0]);
      HandlerCalls(s, steps[0]);
      BeatCalls(s, steps[0]);
      forall m | m in Next(s, steps[0]).callbacks && Next(s, steps[0]).callbacks[m].Tell?
        ensures Attempting(Next(s, steps[0]).callbacks[m].net)
      {
        CallbackCalls(s, steps[0], m);
        assert CallbackCall(Next(s, steps[0]), m).value == Next(s, steps[0]).callbacks[m].net;
      }
      RunAttempting(Next(s, steps[0]), steps[1..]);
    }
  }

  /** In every run every message, of a POST, of a callback or of the heartbeat, is given ten attempts and
      returns with the first that succeeds, or the tenth. */
  lemma TenAttempts(s0: State, steps: seq<Step>, step: Step, m: BoxId)
    requires Trace(s0, steps) && Enabled(Last(s0, steps), step)
    ensures var s, s' := Last(s0, steps), Next(Last(s0, steps), step);
            && AllAttempting(s)
            && CallGoesOn(HandlerCall(s), HandlerChoice(step), HandlerCall(s'))
            && CallGoesOn(CallbackCall(s, m), CallbackChoice(step, m), CallbackCall(s', m))
            && CallGoesOn(BeatCall(s), BeatChoice(step), BeatCall(s'))
  {
    hide Inv, Next, Enabled, CallGoesOn, AllAttempting;
    InitialInv(s0);
    assert AllAttempting(s0) by { StartsSilent(s0); }
    RunAttempting(s0, steps);
    var s := Last(s0, steps);
    HandlerCalls(s, step);
    CallbackCalls(s, step, m);
    BeatCalls(s, step);
  }

  lemma StartsSilent(s: State)
    requires Initial(s)
    ensures AllAttempting(s)
  {
  }
}
