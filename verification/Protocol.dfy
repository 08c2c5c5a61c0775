/**
 The task lifecycle protocol as a state machine.  Each atomic step is one lock region, or one
 read or write of an atomic field, of the threads that share the task tables:
   - the HTTP handler that holds `msg_concurrency_mutex_` (at most one at a time),
   - one modelbox status callback per modelbox task that has ended,
   - the heartbeat thread.
 Modelbox and the network are the environment: they choose the outcome of every call.
 A step is a label that fixes those choices, so running a list of labels is a function.
 */
module Protocol {
  import opened Types
  import opened ObsSource

  /** An accepted POST makes one TaskGroup and one MATask; both are the incarnation `Ref`. */
  type Ref = nat
  /** One modelbox task, created by one call of MATask::Run. */
  type BoxId = nat

  datatype Incarnation = Incarnation(
    id: TaskId,
    status: Status,           // TaskGroup::task_status_
    box: Option<BoxId>,       // MATask::modelbox_task_, None for the null pointer
    launched: Option<BoxId>,  // the last modelbox task whose Start succeeded; history
    listing: seq<Path>,       // what Init stored; history
    paths: seq<Path>,         // MATask::input_path_list_
    submitted: seq<Source>,   // inputs handed to modelbox so far; history
    lost: seq<Source>,        // inputs taken by a PreProcess that then failed; history
    runs: nat,                // modelbox tasks created so far; history
    finished: bool            // MATask::is_finish_
  )

  datatype Phase = Created | Started | Raised
  datatype Box = Box(owner: Ref, phase: Phase, deleted: bool)

  /** Where a thread stands inside MATask::Run. */
  datatype Stage = NewBox | Prepare | Launch

  /** One SendMsg call: attempts left, and whether the receiver has processed the current one. */
  datatype Net = Net(left: nat, delivered: bool)
  const MAX_ATTEMPTS: nat := 10

  /** The body of a POST: unreadable, readable but refused by MATask::Init, or good. */
  datatype Body = Malformed | NoInput | Readable(listing: seq<Path>)

  /** waited: the incarnation whose end the answer had to wait for. */
  datatype Answer = Answer(id: TaskId, post: bool, code: Http, waited: Option<Ref>)

  datatype Handler =
    | Idle
    | FindForCreate(id: TaskId, body: Body)
    | Running(r: Ref, stage: Stage)
    | AddTask(r: Ref)
    | MarkRunning(r: Ref)
    | AddGroup(r: Ref)
    | ReadDetail(r: Ref)
    | Report(r: Ref, detail: Status, net: Net)
    | FindForDelete(id: TaskId)
    | CheckStatus(id: TaskId, g: Ref)
    | FindTaskEntry(id: TaskId, g: Ref)
    | Halt(id: TaskId, g: Ref, r: Ref)
    | Await(id: TaskId, g: Ref, r: Ref)
    | Reply(answer: Answer)

  datatype Callback =
    | Lookup(kind: Kind)
    | Decide(kind: Kind, r: Ref)
    | DropBox(kind: Kind, r: Ref)
    | Rerun(kind: Kind, r: Ref, stage: Stage)
    | FindGroup(kind: Kind, r: Ref)
    | Compare(kind: Kind, r: Ref, g: Ref)
    | SetStatus(kind: Kind, r: Ref, g: Ref)
    | ReadState(kind: Kind, r: Ref, g: Ref)
    | Tell(kind: Kind, r: Ref, g: Ref, detail: Status, net: Net)
    | EraseGroup(kind: Kind, r: Ref, g: Ref)
    | Notify(kind: Kind, r: Ref)
    | DeleteBox(kind: Kind, r: Ref)
    | Finish(kind: Kind, r: Ref)
    | EraseTask(kind: Kind, r: Ref)

  datatype Heartbeat =
    | Top
    | Collect(todo: set<TaskId>, acc: map<TaskId, Status>)  // holds task_group_map_mutex_
    | Sending(msg: map<TaskId, Status>, net: Net)
    | Waiting(sent: bool)                                   // sent: the last SendMsg succeeded
    | Exited

  datatype State = State(
    incs: seq<Incarnation>,
    groups: map<TaskId, Ref>,       // task_group_map_
    tasks: map<TaskId, Ref>,        // task_list_map_
    boxes: seq<Box>,
    handler: Handler,
    callbacks: map<BoxId, Callback>,
    beat: Heartbeat,
    update: bool,
    stop: bool,
    cloud: map<TaskId, Status>,     // the receiver's task table
    accepted: nat,                  // 201 answers; history
    ended: nat,                     // RUNNING-to-terminal transitions; history
    crashed: bool
  )

  datatype Choice = Ok | Fail | Deliver

  datatype Step =
    | Post(id: TaskId, body: Body)
    | Delete(id: TaskId)
    | HandlerStep(c: Choice)
    | Raise(m: BoxId, kind: Kind)
    | OtherStatus(m: BoxId, hit: Option<TaskId>)
    | CallbackLookup(m: BoxId, hit: Option<TaskId>)
    | CallbackStep(m: BoxId, c: Choice)
    | BeatStep(c: Choice, id: TaskId)
    | StopService

  ghost predicate Initial(s: State) {
    && s.incs == [] && s.groups == map[] && s.tasks == map[] && s.boxes == []
    && s.handler == Idle && s.callbacks == map[] && s.beat == Top
    && !s.update && !s.stop && s.accepted == 0 && s.ended == 0 && !s.crashed
  }

  // ------------------------------------------------------------------ well-formedness

  predicate HandlerInRange(s: State) {
    match s.handler
    case Running(r, _) => r < |s.incs|
    case AddTask(r) => r < |s.incs|
    case MarkRunning(r) => r < |s.incs|
    case AddGroup(r) => r < |s.incs|
    case ReadDetail(r) => r < |s.incs|
    case Report(r, _, _) => r < |s.incs|
    case CheckStatus(_, g) => g < |s.incs|
    case FindTaskEntry(_, g) => g < |s.incs|
    case Halt(_, g, r) => g < |s.incs| && r < |s.incs|
    case Await(_, g, r) => g < |s.incs| && r < |s.incs|
    case Reply(a) => a.waited.Some? ==> a.waited.value < |s.incs|
    case _ => true
  }

  predicate CallbackInRange(s: State, cb: Callback) {
    && (!cb.Lookup? ==> cb.r < |s.incs|)
    && (cb.Compare? || cb.SetStatus? || cb.ReadState? || cb.Tell? || cb.EraseGroup? ==> cb.g < |s.incs|)
  }

  /** Every reference held by a table or a thread denotes an existing object. */
  ghost predicate WF(s: State) {
    && (forall t | t in s.groups :: s.groups[t] < |s.incs|)
    && (forall t | t in s.tasks :: s.tasks[t] < |s.incs|)
    && (forall b | 0 <= b < |s.boxes| :: s.boxes[b].owner < |s.incs|)
    && (forall r | 0 <= r < |s.incs| && s.incs[r].box.Some? :: s.incs[r].box.value < |s.boxes|)
    && HandlerInRange(s)
    && (forall m | m in s.callbacks :: m < |s.boxes| && CallbackInRange(s, s.callbacks[m]))
    && (s.beat.Collect? ==> s.beat.todo <= s.groups.Keys)
  }

  /** The heartbeat holds the group table's lock while it collects the snapshot. */
  predicate GroupLockFree(s: State) {
    !s.beat.Collect?
  }

  /** The table a snapshot of task_group_map_ shows. */
  ghost function View(s: State): map<TaskId, Status>
    requires WF(s)
  {
    map t | t in s.groups :: s.incs[s.groups[t]].status
  }

  // ------------------------------------------------------------------ sending a message

  /** The receiver may process the attempt; the attempt succeeds only if it was processed; a lost
      reply leaves the message processed but the attempt failed. */
  predicate NetEnabled(net: Net, c: Choice) {
    match c
    case Deliver => !net.delivered
    case Ok => net.delivered
    case Fail => true
  }

  /** The call's next situation, None when SendMsg returns. */
  function NetNext(net: Net, c: Choice): Option<Net> {
    match c
    case Deliver => Some(net.(delivered := true))
    case Ok => None
    case Fail => if net.left > 1 then Some(Net(net.left - 1, false)) else None
  }

  // ------------------------------------------------------------------ the shared memory

  /** The one access a step makes to what the threads share. */
  datatype Access =
    | Silent
    | Create(id: TaskId, listing: seq<Path>)     // new TaskGroup and MATask
    | NewBoxFor(r: Ref)                          // modelbox_task_ := CreateTask()
    | NoBoxFor(r: Ref)                           // CreateTask failed: modelbox_task_ := null
    | Fill(r: Ref)                               // PreProcess hands over the next path
    | Lose(r: Ref)                               // PreProcess takes the next path and fails
    | LaunchBox(r: Ref)                          // modelbox_task_->Start()
    | RaiseBox(b: BoxId)                         // modelbox reports the end of b
    | DeleteTaskOf(r: Ref)                       // DeleteTaskById(modelbox_task_)
    | WriteStatus(r: Ref, status: Status)
    | WriteFinished(r: Ref)
    | InsertGroup(r: Ref)
    | RemoveGroup(id: TaskId)
    | InsertTask(r: Ref)
    | RemoveTask(id: TaskId)
    | Receive(id: TaskId, status: Status)        // the receiver handles a task message
    | ReceiveAll(table: map<TaskId, Status>)     // the receiver handles an instance message
    | SetUpdate
    | ClearUpdate
    | SetStop
    | Crash

  predicate AccessInRange(s: State, a: Access) {
    match a
    case NewBoxFor(r) => r < |s.incs|
    case NoBoxFor(r) => r < |s.incs|
    case Fill(r) => r < |s.incs|
    case Lose(r) => r < |s.incs|
    case LaunchBox(r) => r < |s.incs| && s.incs[r].box.Some? && s.incs[r].box.value < |s.boxes|
    case RaiseBox(b) => b < |s.boxes|
    case DeleteTaskOf(r) => r < |s.incs| && s.incs[r].box.Some? && s.incs[r].box.value < |s.boxes|
    case WriteStatus(r, _) => r < |s.incs|
    case WriteFinished(r) => r < |s.incs|
    case InsertGroup(r) => r < |s.incs|
    case InsertTask(r) => r < |s.incs|
    case _ => true
  }

  function NewIncarnation(id: TaskId, listing: seq<Path>): Incarnation {
    Incarnation(id, PENDING, None, None, listing, listing, [], [], 0, false)
  }

  function Take(inc: Incarnation): Incarnation {
    inc.(submitted := inc.submitted + [NextSource(inc.paths)], paths := RestPaths(inc.paths))
  }

  function Waste(inc: Incarnation): Incarnation {
    inc.(lost := inc.lost + [NextSource(inc.paths)], paths := RestPaths(inc.paths))
  }

  function IncsAfter(s: State, a: Access): seq<Incarnation>
    requires AccessInRange(s, a)
  {
    match a
    case Create(id, listing) => s.incs + [NewIncarnation(id, listing)]
    case NewBoxFor(r) => s.incs[r := s.incs[r].(box := Some(|s.boxes|), runs := s.incs[r].runs + 1)]
    case NoBoxFor(r) => s.incs[r := s.incs[r].(box := None)]
    case Fill(r) => s.incs[r := Take(s.incs[r])]
    case Lose(r) => s.incs[r := Waste(s.incs[r])]
    case LaunchBox(r) => s.incs[r := s.incs[r].(launched := s.incs[r].box)]
    case WriteStatus(r, status) => s.incs[r := s.incs[r].(status := status)]
    case WriteFinished(r) => s.incs[r := s.incs[r].(finished := true)]
    case _ => s.incs
  }

  function BoxesAfter(s: State, a: Access): seq<Box>
    requires AccessInRange(s, a)
  {
    match a
    case NewBoxFor(r) => s.boxes + [Box(r, Created, false)]
    case LaunchBox(r) => var b := s.incs[r].box.value; s.boxes[b := s.boxes[b].(phase := Started)]
    case RaiseBox(b) => s.boxes[b := s.boxes[b].(phase := Raised)]
    case DeleteTaskOf(r) => var b := s.incs[r].box.value; s.boxes[b := s.boxes[b].(deleted := true)]
    case _ => s.boxes
  }

  function GroupsAfter(s: State, a: Access): map<TaskId, Ref>
    requires AccessInRange(s, a)
  {
    match a
    case InsertGroup(r) => s.groups[s.incs[r].id := r]
    case RemoveGroup(id) => s.groups - {id}
    case _ => s.groups
  }

  function TasksAfter(s: State, a: Access): map<TaskId, Ref>
    requires AccessInRange(s, a)
  {
    match a
    case InsertTask(r) => s.tasks[s.incs[r].id := r]
    case RemoveTask(id) => s.tasks - {id}
    case _ => s.tasks
  }

  function CloudAfter(s: State, a: Access): map<TaskId, Status> {
    match a
    case Receive(id, status) => s.cloud[id := status]
    case ReceiveAll(table) => table
    case _ => s.cloud
  }

  /** The state after access a, with the threads standing at h, cbs and beat. */
  function Perform(s: State, a: Access, h: Handler, cbs: map<BoxId, Callback>, beat: Heartbeat): State
    requires AccessInRange(s, a)
  {
    State(
      IncsAfter(s, a), GroupsAfter(s, a), TasksAfter(s, a), BoxesAfter(s, a),
      h, cbs, beat,
      a == SetUpdate || (s.update && a != ClearUpdate),
      s.stop || a == SetStop,
      CloudAfter(s, a),
      if a.InsertGroup? then s.accepted + 1 else s.accepted,
      if a.WriteStatus? && Terminal(a.status) then s.ended + 1 else s.ended,
      s.crashed || a == Crash)
  }

  // ------------------------------------------------------------------ MATask::Run

  /** The access of one step inside Run. */
  function RunAccess(s: State, r: Ref, stage: Stage, c: Choice): Access
    requires r < |s.incs|
  {
    match stage
    case NewBox => if c == Ok then NewBoxFor(r) else NoBoxFor(r)
    case Prepare => if c == Ok then Fill(r) else Lose(r)
    case Launch => if s.incs[r].box.None? then Crash else if c == Ok then LaunchBox(r) else Silent
  }

  // ------------------------------------------------------------------ the HTTP handler

  predicate HandlerEnabled(s: State, c: Choice)
    requires HandlerInRange(s)
  {
    match s.handler
    case Idle => false
    case Running(_, _) => c != Deliver
    case Report(_, _, net) => NetEnabled(net, c)
    case Halt(_, _, _) => c != Deliver
    case FindForCreate(_, _) => c == Ok && GroupLockFree(s)
    case FindForDelete(_) => c == Ok && GroupLockFree(s)
    case AddGroup(_) => c == Ok && GroupLockFree(s)
    case Await(_, _, r) => c == Ok && s.incs[r].finished
    case _ => c == Ok
  }

  /** POST is answered 400 for an unreadable body or a known id, 500 when MATask::Init fails. */
  function Refusal(s: State, id: TaskId, body: Body): Option<Http> {
    if body.Malformed? || id in s.groups then Some(BAD400)
    else if body.NoInput? then Some(ERROR500)
    else None
  }

  function HandlerAccess(s: State, c: Choice): Access
    requires WF(s) && HandlerEnabled(s, c)
  {
    match s.handler
    case FindForCreate(id, body) =>
      if body.Readable? && Refusal(s, id, body).None? then Create(id, body.listing) else Silent
    case Running(r, stage) => RunAccess(s, r, stage, c)
    case AddTask(r) => InsertTask(r)
    case MarkRunning(r) => WriteStatus(r, RUNNING)
    case AddGroup(r) => InsertGroup(r)
    case Report(r, detail, _) => if c == Deliver then Receive(s.incs[r].id, detail) else Silent
    case Halt(_, _, r) => if s.incs[r].box.None? then Crash else Silent
    case Reply(_) => SetUpdate
    case _ => Silent
  }

  function HandlerMove(s: State, c: Choice): Handler
    requires WF(s) && HandlerEnabled(s, c)
  {
    match s.handler
    case FindForCreate(id, body) =>
      (match Refusal(s, id, body)
       case Some(code) => Reply(Answer(id, true, code, None))
       case None => Running(|s.incs|, NewBox))
    case Running(r, stage) =>
      if c == Fail then Reply(Answer(s.incs[r].id, true, ERROR500, None))
      else if stage == NewBox then Running(r, Prepare)
      else if stage == Prepare then Running(r, Launch)
      else AddTask(r)
    case AddTask(r) => MarkRunning(r)
    case MarkRunning(r) => AddGroup(r)
    case AddGroup(r) => ReadDetail(r)
    case ReadDetail(r) => Report(r, s.incs[r].status, Net(MAX_ATTEMPTS, false))
    case Report(r, detail, net) =>
      (match NetNext(net, c)
       case Some(net') => Report(r, detail, net')
       case None => Reply(Answer(s.incs[r].id, true, CREATED201, None)))
    case FindForDelete(id) =>
      if id in s.groups then CheckStatus(id, s.groups[id]) else Reply(Answer(id, false, MISSING404, None))
    case CheckStatus(id, g) =>
      if s.incs[g].status == RUNNING then FindTaskEntry(id, g) else Reply(Answer(id, false, ACCEPTED202, None))
    case FindTaskEntry(id, g) =>
      if id in s.tasks then Halt(id, g, s.tasks[id]) else Reply(Answer(id, false, ERROR500, None))
    case Halt(id, g, r) =>
      if c == Ok then Await(id, g, r) else Reply(Answer(id, false, ERROR500, None))
    case Await(id, g, r) => Reply(Answer(id, false, ACCEPTED202, Some(r)))
    case Reply(_) => Idle
  }

  function HandlerNext(s: State, c: Choice): State
    requires WF(s) && HandlerEnabled(s, c)
  {
    Perform(s, HandlerAccess(s, c), HandlerMove(s, c), s.callbacks, s.beat)
  }

  // ------------------------------------------------------------------ modelbox callbacks

  /** What FindTaskByModelboxTaskId may return for m when `boxes` gives each entry's modelbox task: the
      scan visits the entries in an unspecified order and gives up at one whose modelbox task is null. */
  ghost predicate ScanOutcome(boxes: map<TaskId, Option<BoxId>>, m: BoxId, hit: Option<TaskId>) {
    match hit
    case Some(t) => t in boxes && boxes[t] == Some(m)
    case None => (exists t | t in boxes :: boxes[t] == None) || (forall t | t in boxes :: boxes[t] != Some(m))
  }

  ghost function EntryBoxes(s: State): map<TaskId, Option<BoxId>>
    requires WF(s)
  {
    map t | t in s.tasks :: s.incs[s.tasks[t]].box
  }

  ghost predicate ScanResult(s: State, m: BoxId, hit: Option<TaskId>)
    requires WF(s)
  {
    ScanOutcome(EntryBoxes(s), m, hit)
  }

  predicate CallbackEnabled(s: State, m: BoxId, c: Choice) {
    && m in s.callbacks
    && match s.callbacks[m]
       case Lookup(_) => false
       case Rerun(_, _, _) => c != Deliver
       case Tell(_, _, _, _, net) => NetEnabled(net, c)
       case FindGroup(_, _) => c == Ok && GroupLockFree(s)
       case EraseGroup(_, _, _) => c == Ok && GroupLockFree(s)
       case _ => c == Ok
  }

  function CallbackAccess(s: State, m: BoxId, c: Choice): Access
    requires WF(s) && CallbackEnabled(s, m, c)
  {
    match s.callbacks[m]
    case DropBox(_, r) => if s.incs[r].box.None? then Crash else DeleteTaskOf(r)
    case Rerun(_, r, stage) => RunAccess(s, r, stage, c)
    case SetStatus(k, _, g) => WriteStatus(g, StatusOf(k))
    case Tell(_, _, g, detail, _) => if c == Deliver then Receive(s.incs[g].id, detail) else Silent
    case EraseGroup(_, _, g) => RemoveGroup(s.incs[g].id)
    case Notify(_, _) => SetUpdate
    case DeleteBox(_, r) => if s.incs[r].box.None? then Crash else DeleteTaskOf(r)
    case Finish(_, r) => WriteFinished(r)
    case EraseTask(_, r) => RemoveTask(s.incs[r].id)
    case _ => Silent
  }

  /** Where the callback stands next, None when it returns. */
  function CallbackMove(s: State, m: BoxId, c: Choice): Option<Callback>
    requires WF(s) && CallbackEnabled(s, m, c)
  {
    match s.callbacks[m]
    case Decide(k, r) =>
      if k == FINISHED && s.incs[r].paths != [] then Some(DropBox(k, r)) else Some(FindGroup(k, r))
    case DropBox(k, r) => Some(Rerun(k, r, NewBox))
    case Rerun(k, r, stage) =>
      if c == Fail || stage == Launch then None
      else Some(Rerun(k, r, if stage == NewBox then Prepare else Launch))
    case FindGroup(k, r) =>
      if s.incs[r].id in s.groups then Some(Compare(k, r, s.groups[s.incs[r].id])) else Some(DeleteBox(k, r))
    case Compare(k, r, g) =>
      if s.incs[g].status == StatusOf(k) then Some(DeleteBox(k, r)) else Some(SetStatus(k, r, g))
    case SetStatus(k, r, g) => Some(ReadState(k, r, g))
    case ReadState(k, r, g) => Some(Tell(k, r, g, s.incs[g].status, Net(MAX_ATTEMPTS, false)))
    case Tell(k, r, g, detail, net) =>
      (match NetNext(net, c)
       case Some(net') => Some(Tell(k, r, g, detail, net'))
       case None => Some(EraseGroup(k, r, g)))
    case EraseGroup(k, r, g) => Some(Notify(k, r))
    case Notify(k, r) => Some(DeleteBox(k, r))
    case DeleteBox(k, r) => Some(Finish(k, r))
    case Finish(k, r) => Some(EraseTask(k, r))
    case EraseTask(_, _) => None
  }

  /** The callback threads once callback m stands at cb, or has returned. */
  function Moved(cbs: map<BoxId, Callback>, m: BoxId, cb: Option<Callback>): map<BoxId, Callback> {
    match cb
    case Some(next) => cbs[m := next]
    case None => cbs - {m}
  }

  function CallbackNext(s: State, m: BoxId, c: Choice): State
    requires WF(s) && CallbackEnabled(s, m, c)
  {
    Perform(s, CallbackAccess(s, m, c), s.handler, Moved(s.callbacks, m, CallbackMove(s, m, c)), s.beat)
  }

  // ------------------------------------------------------------------ the heartbeat thread

  predicate BeatEnabled(s: State, c: Choice, id: TaskId) {
    match s.beat
    case Exited => false
    case Collect(todo, _) => c == Ok && (todo != {} ==> id in todo)
    case Sending(_, net) => NetEnabled(net, c)
    case _ => c == Ok
  }

  function BeatAccess(s: State, c: Choice): Access {
    match s.beat
    case Sending(msg, _) => if c == Deliver then ReceiveAll(msg) else Silent
    case Waiting(_) => if s.stop then Silent else ClearUpdate
    case _ => Silent
  }

  function BeatMove(s: State, c: Choice, id: TaskId): Heartbeat
    requires WF(s) && BeatEnabled(s, c, id)
  {
    match s.beat
    case Top => if s.stop then Exited else Collect(s.groups.Keys, map[])
    case Collect(todo, acc) =>
      if todo == {} then Sending(acc, Net(MAX_ATTEMPTS, false))
      else Collect(todo - {id}, acc[id := s.incs[s.groups[id]].status])
    case Sending(msg, net) =>
      (match NetNext(net, c)
       case Some(net') => Sending(msg, net')
       case None => Waiting(c == Ok))
    // woken by a notification or by the timeout: both continue the same way
    case Waiting(_) => if s.stop then Exited else Top
  }

  function BeatNext(s: State, c: Choice, id: TaskId): State
    requires WF(s) && BeatEnabled(s, c, id)
  {
    Perform(s, BeatAccess(s, c), s.handler, s.callbacks, BeatMove(s, c, id))
  }

  // ------------------------------------------------------------------ all steps

  ghost predicate Enabled(s: State, step: Step)
    requires WF(s)
  {
    && !s.crashed
    && match step
       case Post(_, _) => s.handler == Idle
       case Delete(_) => s.handler == Idle
       case HandlerStep(c) => HandlerEnabled(s, c)
       case Raise(m, _) => m < |s.boxes| && s.boxes[m].phase == Started
       case OtherStatus(m, hit) => m < |s.boxes| && s.boxes[m].phase == Started && ScanResult(s, m, hit)
       case CallbackLookup(m, hit) => m in s.callbacks && s.callbacks[m].Lookup? && ScanResult(s, m, hit)
       case CallbackStep(m, c) => CallbackEnabled(s, m, c)
       case BeatStep(c, id) => BeatEnabled(s, c, id)
       case StopService => true
  }

  ghost function StepAccess(s: State, step: Step): (a: Access)
    requires WF(s) && Enabled(s, step)
    ensures AccessInRange(s, a)
  {
    match step
    case HandlerStep(c) => HandlerAccess(s, c)
    case Raise(m, _) => RaiseBox(m)
    case OtherStatus(_, hit) => if hit.None? then Crash else Silent
    case CallbackLookup(_, hit) => if hit.None? then Crash else Silent
    case CallbackStep(m, c) => CallbackAccess(s, m, c)
    case BeatStep(c, _) => BeatAccess(s, c)
    case StopService => SetStop
    case _ => Silent
  }

  ghost function HandlerAfter(s: State, step: Step): Handler
    requires WF(s) && Enabled(s, step)
  {
    match step
    case Post(id, body) => FindForCreate(id, body)
    case Delete(id) => FindForDelete(id)
    case HandlerStep(c) => HandlerMove(s, c)
    case _ => s.handler
  }

  ghost function CallbacksAfter(s: State, step: Step): map<BoxId, Callback>
    requires WF(s) && Enabled(s, step)
  {
    match step
    case Raise(m, kind) => s.callbacks[m := Lookup(kind)]
    case CallbackLookup(m, Some(t)) => s.callbacks[m := Decide(s.callbacks[m].kind, s.tasks[t])]
    case CallbackStep(m, c) => Moved(s.callbacks, m, CallbackMove(s, m, c))
    case _ => s.callbacks
  }

  ghost function BeatAfter(s: State, step: Step): Heartbeat
    requires WF(s) && Enabled(s, step)
  {
    if step.BeatStep? then BeatMove(s, step.c, step.id) else s.beat
  }

  ghost function Next(s: State, step: Step): State
    requires WF(s) && Enabled(s, step)
  {
    Perform(s, StepAccess(s, step), HandlerAfter(s, step), CallbacksAfter(s, step), BeatAfter(s, step))
  }
}
