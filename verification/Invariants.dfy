/** What every step of the protocol keeps, whatever modelbox, the network and the callers do. */
module Invariants {
  import opened Types
  import opened Protocol

  /** The handler is between the creation of incarnation r and its insertion in the group table. */
  predicate Creating(h: Handler, r: Ref) {
    match h
    case Running(q, _) => q == r
    case AddTask(q) => q == r
    case MarkRunning(q) => q == r
    case AddGroup(q) => q == r
    case _ => false
  }

  /** The callback has not looked its group up yet. */
  predicate BeforeGroup(cb: Callback) {
    cb.Lookup? || cb.Decide? || cb.DropBox? || cb.Rerun? || cb.FindGroup?
  }

  /** The callback holds the group it found. */
  predicate HoldsGroup(cb: Callback) {
    cb.Compare? || cb.SetStatus? || Closing(cb)
  }

  /** The callback has set a terminal status and not erased the group yet. */
  predicate Closing(cb: Callback) {
    cb.ReadState? || cb.Tell? || cb.EraseGroup?
  }

  /** The callback is past its dealings with the group table. */
  predicate Leaving(cb: Callback) {
    cb.Notify? || cb.DeleteBox? || cb.Finish? || cb.EraseTask?
  }

  // ------------------------------------------------------------------ the parts

  /** How the group table sees an incarnation. */
  datatype Anchor = Making | Published | Absent

  function AnchorOf(h: Handler, groups: map<TaskId, Ref>, r: Ref, id: TaskId): Anchor {
    if Creating(h, r) then Making
    else if id in groups && groups[id] == r then Published
    else Absent
  }

  function CurrentBox(boxes: seq<Box>, inc: Incarnation): Option<Box> {
    if inc.box.Some? && inc.box.value < |boxes| then Some(boxes[inc.box.value]) else None
  }

  function CallbackOf(callbacks: map<BoxId, Callback>, b: Option<BoxId>): Option<Callback> {
    if b.Some? && b.value in callbacks then Some(callbacks[b.value]) else None
  }

  /** The current modelbox task of an incarnation is its own. */
  predicate IncOk(r: Ref, inc: Incarnation, current: Option<Box>) {
    current.Some? ==> current.value.owner == r
  }

  /** Only the last launched modelbox task of an incarnation can still end, and as long as it can,
      the group is published and RUNNING, or on its way there. */
  predicate BoxOk(b: BoxId, box: Box, inc: Incarnation, anchor: Anchor) {
    box.phase == Started ==>
      && inc.box == Some(b)
      && inc.launched == Some(b)
      && (anchor == Making || (anchor == Published && inc.status == RUNNING))
  }

  /** A callback belongs to the last launched modelbox task.  Until it sets the status the group is
      published and RUNNING, or on its way there; from then until it erases the group, terminal. */
  predicate CallbackOk(m: BoxId, cb: Callback, box: Box, inc: Incarnation, anchor: Anchor, current: Option<Box>) {
    && box.phase == Raised
    && inc.launched == Some(m)
    && (!cb.Lookup? ==> cb.r == box.owner)
    && (if cb.Rerun? && !cb.stage.NewBox? then current.Some? && current.value.phase == Created
        else inc.box == Some(m))
    && (BeforeGroup(cb) ==> anchor == Making || (anchor == Published && inc.status == RUNNING))
    && (HoldsGroup(cb) ==> anchor == Published && cb.g == box.owner)
    && (cb.Compare? || cb.SetStatus? ==> inc.status == RUNNING)
    && (Closing(cb) ==> inc.status == StatusOf(cb.kind))
    && (cb.Tell? ==> cb.detail == StatusOf(cb.kind))
  }

  /** A published group is never PENDING, and a terminal one is about to be erased. */
  predicate GroupOk(t: TaskId, g: Ref, inc: Incarnation, cb: Option<Callback>) {
    && inc.id == t
    && inc.status != PENDING
    && (inc.status != RUNNING ==> cb.Some? && Closing(cb.value) && cb.value.r == g)
  }

  /** The manager's table agrees with the group table wherever both know the id. */
  predicate TaskOk(t: TaskId, r: Ref, inc: Incarnation, groups: map<TaskId, Ref>) {
    inc.id == t && (t in groups ==> groups[t] == r)
  }

  /** The id of incarnation r is not published, and if the manager knows the id, as r. */
  predicate Unpublished(s: State, r: Ref)
    requires r < |s.incs|
  {
    s.incs[r].id !in s.groups
  }

  predicate TaskIs(s: State, id: TaskId, r: Ref) {
    id in s.tasks ==> s.tasks[id] == r
  }

  /** A DELETE in progress keeps pointing at the group it found. */
  predicate Deleting(s: State, id: TaskId, g: Ref)
    requires g < |s.incs|
  {
    s.incs[g].id == id && (id in s.groups ==> s.groups[id] == g) && TaskIs(s, id, g)
  }

  predicate HandlerOk(s: State)
    requires HandlerInRange(s)
  {
    match s.handler
    case Running(r, stage) =>
      var inc := s.incs[r];
      && Unpublished(s, r) && inc.status == PENDING && inc.launched == None
      && (!stage.NewBox? ==> CurrentBox(s.boxes, inc).Some? && CurrentBox(s.boxes, inc).value.phase == Created)
    case AddTask(r) => Unpublished(s, r) && s.incs[r].status == PENDING
    case MarkRunning(r) => Unpublished(s, r) && s.incs[r].status == PENDING && TaskIs(s, s.incs[r].id, r)
    case AddGroup(r) => Unpublished(s, r) && s.incs[r].status == RUNNING && TaskIs(s, s.incs[r].id, r)
    case CheckStatus(id, g) => Deleting(s, id, g)
    case FindTaskEntry(id, g) => Deleting(s, id, g)
    case Halt(id, g, r) => Deleting(s, id, g) && r == g
    case Await(id, g, r) => Deleting(s, id, g) && r == g
    case Reply(a) => a.waited.Some? ==> Deleting(s, a.id, a.waited.value) && !a.post && a.code == ACCEPTED202
    case _ => true
  }

  ghost predicate IncsOk(s: State) {
    forall r | 0 <= r < |s.incs| :: IncOk(r, s.incs[r], CurrentBox(s.boxes, s.incs[r]))
  }

  predicate BoxAt(s: State, b: BoxId, box: Box)
    requires box.owner < |s.incs|
  {
    BoxOk(b, box, s.incs[box.owner], AnchorOf(s.handler, s.groups, box.owner, s.incs[box.owner].id))
  }

  ghost predicate BoxesOk(s: State)
    requires WF(s)
  {
    forall b | 0 <= b < |s.boxes| :: BoxAt(s, b, s.boxes[b])
  }

  predicate CallbackAt(s: State, m: BoxId, cb: Callback)
    requires m < |s.boxes| && s.boxes[m].owner < |s.incs|
  {
    var inc := s.incs[s.boxes[m].owner];
    CallbackOk(m, cb, s.boxes[m], inc, AnchorOf(s.handler, s.groups, s.boxes[m].owner, inc.id),
        CurrentBox(s.boxes, inc))
  }

  ghost predicate CallbacksOk(s: State)
    requires WF(s)
  {
    forall m | m in s.callbacks :: CallbackAt(s, m, s.callbacks[m])
  }

  ghost predicate GroupsOk(s: State)
    requires WF(s)
  {
    forall t | t in s.groups ::
      GroupOk(t, s.groups[t], s.incs[s.groups[t]], CallbackOf(s.callbacks, s.incs[s.groups[t]].launched))
  }

  ghost predicate TasksOk(s: State)
    requires WF(s)
  {
    forall t | t in s.tasks :: TaskOk(t, s.tasks[t], s.incs[s.tasks[t]], s.groups)
  }

  ghost predicate Inv(s: State) {
    WF(s) && HandlerOk(s) && IncsOk(s) && BoxesOk(s) && CallbacksOk(s) && GroupsOk(s) && TasksOk(s)
  }

  // ------------------------------------------------------------------ frames

  function With(s: State, m: BoxId, cb: Callback): State {
    s.(callbacks := s.callbacks[m := cb])
  }

  function Return(s: State, m: BoxId): State {
    s.(callbacks := s.callbacks - {m})
  }

  /** The state after MATask::Delete on the incarnation's current modelbox task. */
  function DropCurrent(s: State, r: Ref): State
    requires r < |s.incs| && (s.incs[r].box.Some? ==> s.incs[r].box.value < |s.boxes|)
  {
    match s.incs[r].box
    case None => s.(crashed := true)
    case Some(b) => s.(boxes := s.boxes[b := s.boxes[b].(deleted := true)])
  }

  /** The fields the invariant does not read. */
  lemma Unread(s: State, s': State)
    requires Inv(s)
    requires s' == s.(beat := s'.beat, update := s'.update, stop := s'.stop, cloud := s'.cloud,
                      accepted := s'.accepted, ended := s'.ended, crashed := s'.crashed)
    requires s'.beat.Collect? ==> s'.beat.todo <= s'.groups.Keys
    ensures Inv(s')
  {
    hide CallbackOk, BoxOk, IncOk, GroupOk, TaskOk, AnchorOf, CurrentBox, CallbackOf;
  }

  /** The handler moves on; it may give up only a creation that was never launched. */
  lemma HandlerMoves(s: State, h: Handler)
    requires Inv(s) && HandlerInRange(s.(handler := h)) && HandlerOk(s.(handler := h))
    requires forall r | 0 <= r < |s.incs| :: Creating(h, r) ==> Creating(s.handler, r)
    requires forall r | 0 <= r < |s.incs| :: Creating(s.handler, r) && !Creating(h, r) ==> s.incs[r].launched == None
    ensures Inv(s.(handler := h))
  {
  }

  /** A callback moves on without touching the tables. */
  lemma CallbackMoves(s: State, m: BoxId, cb: Callback)
    requires Inv(s) && m in s.callbacks && CallbackInRange(s, cb)
    requires Closing(s.callbacks[m]) ==> Closing(cb) && cb.r == s.callbacks[m].r
    requires CallbackAt(s, m, cb)
    ensures Inv(With(s, m, cb))
  {
    hide CallbackOk, BoxOk, IncOk, TaskOk, Closing, AnchorOf, CurrentBox;
  }

  lemma SameReading(s: State, r: Ref, inc: Incarnation)
    requires WF(s) && r < |s.incs|
    requires inc == s.incs[r].(paths := inc.paths, submitted := inc.submitted, lost := inc.lost, runs := inc.runs,
                               finished := inc.finished)
    ensures CurrentBox(s.boxes, inc) == CurrentBox(s.boxes, s.incs[r])
    ensures forall m, cb, box, anchor, current ::
              CallbackOk(m, cb, box, s.incs[r], anchor, current) ==> CallbackOk(m, cb, box, inc, anchor, current)
    ensures forall b, box, anchor ::
              BoxOk(b, box, s.incs[r], anchor) ==> BoxOk(b, box, inc, anchor)
  {
  }

  lemma IncMovesRest(s: State, s': State, r: Ref, inc: Incarnation)
    requires Inv(s) && r < |s.incs| && s' == s.(incs := s.incs[r := inc])
    requires inc == s.incs[r].(paths := inc.paths, submitted := inc.submitted, lost := inc.lost, runs := inc.runs,
                               finished := inc.finished)
    ensures WF(s') && HandlerOk(s') && GroupsOk(s') && TasksOk(s')
  {
    hide IncsOk, BoxesOk, CallbacksOk;
  }

  /** Fields of an incarnation that the invariant does not read. */
  lemma IncMoves(s: State, r: Ref, inc: Incarnation)
    requires Inv(s) && r < |s.incs|
    requires inc == s.incs[r].(paths := inc.paths, submitted := inc.submitted, lost := inc.lost, runs := inc.runs,
                               finished := inc.finished)
    ensures Inv(s.(incs := s.incs[r := inc]))
  {
    hide AnchorOf, CurrentBox, CallbackOk, BoxOk, BeforeGroup, HoldsGroup, Closing;
    hide HandlerOk, GroupsOk, TasksOk;
    var s' := s.(incs := s.incs[r := inc]);
    SameReading(s, r, inc);
    IncMovesRest(s, s', r, inc);
  }

  /** Two callbacks never belong to the same incarnation, nor a callback and a started box. */
  lemma OwnersDiffer(s: State, m: BoxId, n: BoxId)
    requires Inv(s) && m in s.callbacks && n < |s.boxes|
    requires (n in s.callbacks && n != m) || s.boxes[n].phase == Started
    ensures s.boxes[m].owner != s.boxes[n].owner
  {
    hide AnchorOf, CurrentBox, BeforeGroup, HoldsGroup, Closing;
    assert CallbackAt(s, m, s.callbacks[m]);
    assert n in s.callbacks ==> CallbackAt(s, n, s.callbacks[n]);
  }

  /** A step that concerns incarnation r alone: its fields, boxes, callbacks, creation and entries. */
  ghost predicate Concerns(s: State, s': State, r: Ref)
    requires WF(s) && r < |s.incs|
  {
    var id := s.incs[r].id;
    && |s.incs| == |s'.incs| && |s.boxes| <= |s'.boxes| && s'.incs[r].id == id
    && (forall q | 0 <= q < |s.incs| :: q != r ==> s'.incs[q] == s.incs[q])
    && (forall b | 0 <= b < |s'.boxes| :: s'.boxes[b].owner == r || (b < |s.boxes| && s'.boxes[b] == s.boxes[b]))
    && (forall b | 0 <= b < |s.boxes| :: s.boxes[b].owner == s'.boxes[b].owner)
    && (forall q | 0 <= q < |s.incs| :: q != r ==> Creating(s'.handler, q) == Creating(s.handler, q))
    && (|| s'.groups == s.groups
        || (id in s.groups && s.groups[id] == r && s'.groups == s.groups - {id})
        || (id !in s.groups && s'.groups == s.groups[id := r]))
    && (s'.tasks == s.tasks || s'.tasks == s.tasks - {id} || s'.tasks == s.tasks[id := r])
  }

  ghost predicate OthersCallbacks(s: State, s': State, r: Ref)
    requires WF(s) && WF(s')
  {
    && (forall n | n in s.callbacks ::
          s.boxes[n].owner == r || (n in s'.callbacks && s'.callbacks[n] == s.callbacks[n]))
    && (forall n | n in s'.callbacks :: s'.boxes[n].owner == r || n in s.callbacks)
  }

  /** What the invariant says about incarnation r. */
  ghost predicate Own(s: State, r: Ref)
    requires WF(s) && r < |s.incs|
  {
    var inc := s.incs[r];
    && IncOk(r, inc, CurrentBox(s.boxes, inc))
    && (forall b | 0 <= b < |s.boxes| :: s.boxes[b].owner == r ==> BoxAt(s, b, s.boxes[b]))
    && (forall n | n in s.callbacks :: s.boxes[n].owner == r ==> CallbackAt(s, n, s.callbacks[n]))
    && (inc.id in s.groups && s.groups[inc.id] == r ==> GroupOk(inc.id, r, inc, CallbackOf(s.callbacks, inc.launched)))
    && (inc.id in s.tasks && inc.id in s.groups ==> s.tasks[inc.id] == s.groups[inc.id])
  }

  lemma AnchorStays(s: State, s': State, r: Ref, q: Ref)
    requires WF(s) && r < |s.incs| && Concerns(s, s', r) && q < |s.incs| && q != r
    ensures s'.incs[q] == s.incs[q]
    ensures AnchorOf(s'.handler, s'.groups, q, s.incs[q].id) == AnchorOf(s.handler, s.groups, q, s.incs[q].id)
  {
    hide Creating;
  }

  lemma CallbackStays(s: State, s': State, r: Ref, n: BoxId)
    requires Inv(s) && r < |s.incs| && Concerns(s, s', r)
    requires n in s.callbacks && s.boxes[n].owner != r
    ensures CallbackAt(s', n, s.callbacks[n])
  {
    hide CallbackOk, AnchorOf, HandlerOk, BoxesOk, GroupsOk, TasksOk;
    var q := s.boxes[n].owner;
    AnchorStays(s, s', r, q);
    assert CallbackAt(s, n, s.callbacks[n]);
    assert IncOk(q, s.incs[q], CurrentBox(s.boxes, s.incs[q]));
  }

  lemma BoxStays(s: State, s': State, r: Ref, b: BoxId)
    requires Inv(s) && r < |s.incs| && Concerns(s, s', r)
    requires b < |s.boxes| && s.boxes[b].owner != r
    ensures BoxAt(s', b, s'.boxes[b])
  {
    hide BoxOk, AnchorOf, HandlerOk, CallbacksOk, GroupsOk, TasksOk, IncsOk;
    AnchorStays(s, s', r, s.boxes[b].owner);
    assert BoxAt(s, b, s.boxes[b]);
  }

  lemma GroupStays(s: State, s': State, r: Ref, t: TaskId)
    requires Inv(s) && WF(s') && r < |s.incs| && Concerns(s, s', r) && OthersCallbacks(s, s', r)
    requires t in s'.groups && s'.groups[t] != r
    ensures GroupOk(t, s'.groups[t], s'.incs[s'.groups[t]], CallbackOf(s'.callbacks, s'.incs[s'.groups[t]].launched))
  {
    hide HandlerOk, TasksOk, IncsOk, BoxesOk, AnchorOf, CurrentBox, Creating;
    var g := s.groups[t];
    assert GroupOk(t, g, s.incs[g], CallbackOf(s.callbacks, s.incs[g].launched));
  }

  /** A step that concerns r alone keeps the invariant if it keeps what the invariant says about r. */
  lemma Local(s: State, s': State, r: Ref)
    requires Inv(s) && WF(s') && r < |s.incs| && Concerns(s, s', r) && OthersCallbacks(s, s', r)
    requires HandlerOk(s') && Own(s', r)
    ensures Inv(s')
  {
    LocalTables(s, s', r);
    LocalTokens(s, s', r);
  }

  lemma LocalTables(s: State, s': State, r: Ref)
    requires Inv(s) && WF(s') && r < |s.incs| && Concerns(s, s', r) && OthersCallbacks(s, s', r)
    requires Own(s', r)
    ensures TasksOk(s') && GroupsOk(s')
  {
    hide HandlerOk, IncsOk, BoxesOk, CallbacksOk, GroupOk, BoxAt, CallbackAt, IncOk, Creating, OthersCallbacks;
    forall t | t in s'.groups
      ensures GroupOk(t, s'.groups[t], s'.incs[s'.groups[t]], CallbackOf(s'.callbacks, s'.incs[s'.groups[t]].launched))
    {
      if s'.groups[t] == r {
        assert t == s.incs[r].id by { GroupIds(s, t); }
      } else {
        GroupStays(s, s', r, t);
      }
    }
  }

  lemma GroupIds(s: State, t: TaskId)
    requires Inv(s)
    ensures t in s.groups ==> s.incs[s.groups[t]].id == t
  {
    hide HandlerOk, IncsOk, BoxesOk, CallbacksOk;
  }

  lemma LocalTokens(s: State, s': State, r: Ref)
    requires Inv(s) && WF(s') && r < |s.incs| && Concerns(s, s', r) && OthersCallbacks(s, s', r)
    requires Own(s', r)
    ensures IncsOk(s') && BoxesOk(s') && CallbacksOk(s')
  {
    hide HandlerOk, GroupsOk, TasksOk, Creating, BoxAt, CallbackAt;
    forall q | 0 <= q < |s'.incs| ensures IncOk(q, s'.incs[q], CurrentBox(s'.boxes, s'.incs[q])) {
      assert IncOk(q, s.incs[q], CurrentBox(s.boxes, s.incs[q]));
    }
    forall b | 0 <= b < |s'.boxes| ensures BoxAt(s', b, s'.boxes[b]) {
      if s'.boxes[b].owner != r { BoxStays(s, s', r, b); }
    }
    forall n | n in s'.callbacks ensures CallbackAt(s', n, s'.callbacks[n]) {
      if s'.boxes[n].owner != r { CallbackStays(s, s', r, n); }
    }
  }

  // The invariant does not read the deleted flag.

  predicate HasBox(s: State, r: Ref) {
    r < |s.incs| && s.incs[r].box.Some? && s.incs[r].box.value < |s.boxes|
  }

  lemma DropInc(s: State, r: Ref, q: Ref)
    requires HasBox(s, r) && q < |s.incs| && IncOk(q, s.incs[q], CurrentBox(s.boxes, s.incs[q]))
    ensures IncOk(q, s.incs[q], CurrentBox(DropCurrent(s, r).boxes, s.incs[q]))
  {
  }

  lemma DropBoxAt(s: State, r: Ref, n: BoxId)
    requires HasBox(s, r) && n < |s.boxes| && s.boxes[n].owner < |s.incs| && BoxAt(s, n, s.boxes[n])
    ensures BoxAt(DropCurrent(s, r), n, DropCurrent(s, r).boxes[n])
  {
    hide AnchorOf;
  }

  lemma DropCallbackAt(s: State, r: Ref, m: BoxId, cb: Callback)
    requires HasBox(s, r) && m < |s.boxes| && s.boxes[m].owner < |s.incs| && CallbackAt(s, m, cb)
    ensures CallbackAt(DropCurrent(s, r), m, cb)
  {
    hide AnchorOf;
  }

  lemma DropHandler(s: State, r: Ref)
    requires HasBox(s, r) && HandlerInRange(s) && HandlerOk(s)
    ensures HandlerInRange(DropCurrent(s, r)) && HandlerOk(DropCurrent(s, r))
  {
  }

  lemma DropWF(s: State, r: Ref)
    requires WF(s) && HasBox(s, r)
    ensures WF(DropCurrent(s, r))
  {
  }

  lemma DropTables(s: State, r: Ref)
    requires WF(s) && HasBox(s, r) && GroupsOk(s) && TasksOk(s) && WF(DropCurrent(s, r))
    ensures GroupsOk(DropCurrent(s, r)) && TasksOk(DropCurrent(s, r))
  {
    hide GroupOk, TaskOk, HandlerInRange, CallbackInRange;
  }

  lemma DropKeeps(s: State, r: Ref)
    requires Inv(s) && r < |s.incs|
    ensures Inv(DropCurrent(s, r))
  {
    if s.incs[r].box.Some? {
      DropWF(s, r);
      DropHandler(s, r);
      DropTables(s, r);
      DropTokens(s, r);
    } else {
      Unread(s, DropCurrent(s, r));
    }
  }

  lemma DropTokens(s: State, r: Ref)
    requires Inv(s) && HasBox(s, r) && WF(DropCurrent(s, r))
    ensures IncsOk(DropCurrent(s, r)) && BoxesOk(DropCurrent(s, r)) && CallbacksOk(DropCurrent(s, r))
  {
    hide HandlerOk, GroupsOk, TasksOk, IncOk, BoxAt, CallbackAt;
    var s' := DropCurrent(s, r);
    forall q | 0 <= q < |s.incs| ensures IncOk(q, s'.incs[q], CurrentBox(s'.boxes, s'.incs[q])) { DropInc(s, r, q); }
    forall n | 0 <= n < |s'.boxes| ensures BoxAt(s', n, s'.boxes[n]) { DropBoxAt(s, r, n); }
    forall m | m in s'.callbacks ensures CallbackAt(s', m, s'.callbacks[m]) { DropCallbackAt(s, r, m, s.callbacks[m]); }
  }

  // ------------------------------------------------------------------ the handler keeps it

  lemma FindForCreateKeeps(s: State, c: Choice)
    requires Inv(s) && s.handler.FindForCreate? && HandlerEnabled(s, c)
    ensures Inv(HandlerNext(s, c))
  {
    hide WF, IncsOk, BoxesOk, GroupsOk, TasksOk, CallbacksOk;
    var id, body := s.handler.id, s.handler.body;
    if body.Malformed? || id in s.groups {
      HandlerMoves(s, Reply(Answer(id, true, BAD400, None)));
    } else if body.NoInput? {
      HandlerMoves(s, Reply(Answer(id, true, ERROR500, None)));
    } else {
      Begun(s, c);
      Begin(s, id, body.listing);
    }
  }

  lemma Begun(s: State, c: Choice)
    requires WF(s) && s.handler.FindForCreate? && HandlerEnabled(s, c)
    requires s.handler.body.Readable? && s.handler.id !in s.groups
    ensures HandlerNext(s, c) ==
            s.(incs := s.incs + [NewIncarnation(s.handler.id, s.handler.body.listing)],
                handler := Running(|s.incs|, NewBox))
  {
    hide WF;
  }

  function WithNew(s: State, id: TaskId, listing: seq<Path>): State {
    s.(incs := s.incs + [NewIncarnation(id, listing)], handler := Running(|s.incs|, NewBox))
  }

  lemma Begin(s: State, id: TaskId, listing: seq<Path>)
    requires Inv(s) && s.handler.FindForCreate? && id !in s.groups
    ensures Inv(WithNew(s, id, listing))
  {
    BeginWF(s, id, listing);
    BeginTables(s, id, listing);
    BeginTokens(s, id, listing);
  }

  lemma BeginWF(s: State, id: TaskId, listing: seq<Path>)
    requires WF(s) && s.handler.FindForCreate? && id !in s.groups
    ensures WF(WithNew(s, id, listing)) && HandlerOk(WithNew(s, id, listing))
  {
  }

  lemma BeginTables(s: State, id: TaskId, listing: seq<Path>)
    requires WF(s) && GroupsOk(s) && TasksOk(s) && s.handler.FindForCreate? && WF(WithNew(s, id, listing))
    ensures GroupsOk(WithNew(s, id, listing)) && TasksOk(WithNew(s, id, listing))
  {
    hide GroupOk, TaskOk, HandlerInRange, CallbackInRange, CallbackOf;
  }

  lemma BeginTokens(s: State, id: TaskId, listing: seq<Path>)
    requires Inv(s) && s.handler.FindForCreate? && WF(WithNew(s, id, listing))
    ensures IncsOk(WithNew(s, id, listing)) && BoxesOk(WithNew(s, id, listing)) && CallbacksOk(WithNew(s, id, listing))
  {
    hide HandlerOk, GroupsOk, TasksOk, CallbackOk, BoxOk, IncOk;
    assert IncOk(|s.incs|, NewIncarnation(id, listing), None) by { NewIncOk(|s.incs|, id, listing); }
  }

  lemma NewIncOk(r: Ref, id: TaskId, listing: seq<Path>)
    ensures IncOk(r, NewIncarnation(id, listing), None)
  {
  }

  // Inside Run, a creation that has not been launched owns no callback and no started box.

  lemma NewBoxConcerns(s: State, s': State, r: Ref, inc: Incarnation)
    requires Inv(s) && s.handler == Running(r, NewBox)
    requires inc == s.incs[r].(box := Some(|s.boxes|), runs := inc.runs)
    requires s' == s.(boxes := s.boxes + [Box(r, Created, false)], incs := s.incs[r := inc],
             handler := Running(r, Prepare))
    ensures WF(s') && Concerns(s, s', r) && OthersCallbacks(s, s', r)
  {
    hide HandlerOk, IncsOk, BoxesOk, CallbacksOk, GroupsOk, TasksOk;
  }

  lemma HandlerNewBox(s: State, r: Ref, inc: Incarnation)
    requires Inv(s) && s.handler == Running(r, NewBox)
    requires inc == s.incs[r].(box := Some(|s.boxes|), runs := inc.runs)
    ensures Inv(s.(boxes := s.boxes + [Box(r, Created, false)], incs := s.incs[r := inc],
            handler := Running(r, Prepare)))
  {
    hide GroupsOk, TasksOk;
    hide Concerns, OthersCallbacks;
    var s' := s.(boxes := s.boxes + [Box(r, Created, false)], incs := s.incs[r := inc], handler := Running(r, Prepare));
    NewBoxConcerns(s, s', r, inc);
    Local(s, s', r);
  }

  lemma NoBoxConcerns(s: State, s': State, r: Ref, inc: Incarnation)
    requires Inv(s) && s.handler == Running(r, NewBox) && inc == s.incs[r].(box := None)
    requires s' == s.(incs := s.incs[r := inc])
    ensures WF(s') && Concerns(s, s', r) && OthersCallbacks(s, s', r)
  {
    hide HandlerOk, IncsOk, BoxesOk, CallbacksOk, GroupsOk, TasksOk;
  }

  lemma HandlerNoBox(s: State, r: Ref, inc: Incarnation)
    requires Inv(s) && s.handler == Running(r, NewBox)
    requires inc == s.incs[r].(box := None)
    ensures Inv(s.(incs := s.incs[r := inc]))
  {
    hide GroupsOk, TasksOk;
    hide Concerns, OthersCallbacks;
    var s' := s.(incs := s.incs[r := inc]);
    NoBoxConcerns(s, s', r, inc);
    Local(s, s', r);
  }

  lemma LaunchConcerns(s: State, s': State, r: Ref, box: Box, inc: Incarnation)
    requires Inv(s) && s.handler == Running(r, Launch) && s.incs[r].box.Some?
    requires inc == s.incs[r].(launched := s.incs[r].box)
    requires box == s.boxes[s.incs[r].box.value].(phase := Started)
    requires s' == s.(boxes := s.boxes[s.incs[r].box.value := box], incs := s.incs[r := inc], handler := AddTask(r))
    ensures WF(s') && Concerns(s, s', r) && OthersCallbacks(s, s', r)
  {
    hide HandlerOk, IncsOk, BoxesOk, CallbacksOk, GroupsOk, TasksOk;
    IncHas(s, r);
  }

  lemma HandlerLaunch(s: State, r: Ref, box: Box, inc: Incarnation)
    requires Inv(s) && s.handler == Running(r, Launch)
    requires s.incs[r].box.Some?
    requires inc == s.incs[r].(launched := s.incs[r].box)
    requires box == s.boxes[s.incs[r].box.value].(phase := Started)
    ensures Inv(s.(boxes := s.boxes[s.incs[r].box.value := box], incs := s.incs[r := inc], handler := AddTask(r)))
  {
    hide GroupsOk, TasksOk;
    hide Concerns, OthersCallbacks;
    var s' := s.(boxes := s.boxes[s.incs[r].box.value := box], incs := s.incs[r := inc], handler := AddTask(r));
    LaunchConcerns(s, s', r, box, inc);
    Local(s, s', r);
  }

  lemma RunningNewBoxNext(s: State, c: Choice)
    requires Inv(s) && HandlerEnabled(s, c) && s.handler.Running? && s.handler.stage == NewBox
    ensures var r, inc := s.handler.r, s.incs[s.handler.r];
            HandlerNext(s, c) ==
            if c == Ok then
              s.(boxes := s.boxes + [Box(r, Created, false)],
                 incs := s.incs[r := inc.(box := Some(|s.boxes|), runs := inc.runs + 1)],
                     handler := Running(r, Prepare))
            else s.(incs := s.incs[r := inc.(box := None)], handler := HandlerMove(s, c))
  {
    hide IncsOk, BoxesOk, CallbacksOk, GroupsOk, TasksOk, HandlerOk;
  }

  lemma RunningNewBoxKeeps(s: State, c: Choice)
    requires Inv(s) && HandlerEnabled(s, c) && s.handler.Running? && s.handler.stage == NewBox
    ensures Inv(HandlerNext(s, c))
  {
    hide AnchorOf, CallbackInRange, IncsOk, BoxesOk, CallbacksOk, GroupsOk, TasksOk, HandlerNext;
    RunningNewBoxNext(s, c);
    var r := s.handler.r;
    var inc := s.incs[r];
    if c == Ok {
      HandlerNewBox(s, r, inc.(box := Some(|s.boxes|), runs := inc.runs + 1));
    } else {
      HandlerNoBox(s, r, inc.(box := None));
      HandlerMoves(s.(incs := s.incs[r := inc.(box := None)]), HandlerMove(s, c));
    }
  }

  lemma RunningPrepareKeeps(s: State, c: Choice)
    requires Inv(s) && HandlerEnabled(s, c) && s.handler.Running? && s.handler.stage == Prepare
    ensures Inv(HandlerNext(s, c))
  {
    hide IncsOk, BoxesOk, CallbacksOk, GroupsOk, TasksOk;
    var r := s.handler.r;
    var inc := if c == Ok then Take(s.incs[r]) else Waste(s.incs[r]);
    IncMoves(s, r, inc);
    HandlerMoves(s.(incs := s.incs[r := inc]), HandlerMove(s, c));
  }

  lemma RunningLaunchKeeps(s: State, c: Choice)
    requires Inv(s) && HandlerEnabled(s, c) && s.handler.Running? && s.handler.stage == Launch
    ensures Inv(HandlerNext(s, c))
  {
    hide IncsOk, BoxesOk, CallbacksOk, GroupsOk, TasksOk;
    var r := s.handler.r;
    var inc := s.incs[r];
    if c == Ok {
      HandlerLaunch(s, r, s.boxes[inc.box.value].(phase := Started), inc.(launched := inc.box));
    } else {
      HandlerMoves(s, HandlerMove(s, c));
    }
  }

  lemma RunningKeeps(s: State, c: Choice)
    requires Inv(s) && s.handler.Running? && HandlerEnabled(s, c)
    ensures Inv(HandlerNext(s, c))
  {
    hide Inv, HandlerNext;
    match s.handler.stage
    case NewBox => RunningNewBoxKeeps(s, c);
    case Prepare => RunningPrepareKeeps(s, c);
    case Launch => RunningLaunchKeeps(s, c);
  }

  lemma AddTaskKeeps(s: State, c: Choice)
    requires Inv(s) && s.handler.AddTask? && HandlerEnabled(s, c)
    ensures Inv(HandlerNext(s, c))
  {
    hide CallbackOk, BoxOk, GroupOk, CurrentBox;
  }

  /** What MarkRunning and AddGroup leave of r. */
  lemma MarkRunningOwn(s: State, c: Choice)
    requires Inv(s) && HandlerEnabled(s, c) && s.handler.MarkRunning?
    ensures WF(HandlerNext(s, c)) && Own(HandlerNext(s, c), s.handler.r)
  {
    hide GroupsOk, IncsOk;
    IncHas(s, s.handler.r);
  }

  lemma AddGroupOwn(s: State, c: Choice)
    requires Inv(s) && HandlerEnabled(s, c) && s.handler.AddGroup?
    ensures WF(HandlerNext(s, c)) && Own(HandlerNext(s, c), s.handler.r)
  {
    hide GroupsOk, IncsOk;
    IncHas(s, s.handler.r);
  }

  lemma IncHas(s: State, r: Ref)
    requires IncsOk(s) && r < |s.incs|
    ensures IncOk(r, s.incs[r], CurrentBox(s.boxes, s.incs[r]))
  {
  }

  lemma CreatorFrame(s: State, c: Choice)
    requires Inv(s) && HandlerEnabled(s, c) && (s.handler.MarkRunning? || s.handler.AddGroup?) && WF(HandlerNext(s, c))
    ensures var s' := HandlerNext(s, c);
            Concerns(s, s', s.handler.r) && OthersCallbacks(s, s', s.handler.r) && HandlerOk(s')
  {
    hide IncsOk, BoxesOk, CallbacksOk, GroupsOk, TasksOk;
  }

  lemma CreatorKeeps(s: State, c: Choice)
    requires Inv(s) && HandlerEnabled(s, c) && (s.handler.MarkRunning? || s.handler.AddGroup?)
    ensures Inv(HandlerNext(s, c))
  {
    hide IncsOk, BoxesOk, CallbacksOk, GroupsOk, TasksOk, Own, Concerns, OthersCallbacks, HandlerNext;
    if s.handler.MarkRunning? { MarkRunningOwn(s, c); } else { AddGroupOwn(s, c); }
    CreatorFrame(s, c);
    Local(s, HandlerNext(s, c), s.handler.r);
  }

  /** The handler's steps that only move it and write fields the invariant does not read. */
  lemma ReportingKeeps(s: State, c: Choice)
    requires Inv(s) && HandlerEnabled(s, c)
    requires s.handler.ReadDetail? || s.handler.Reply? || s.handler.Halt?
    ensures Inv(HandlerNext(s, c))
  {
    hide IncsOk, BoxesOk, CallbacksOk, GroupsOk, TasksOk;
    var s' := HandlerNext(s, c);
    HandlerMoves(s, s'.handler);
    Unread(s.(handler := s'.handler), s');
  }

  lemma ReportKeeps(s: State, c: Choice)
    requires Inv(s) && HandlerEnabled(s, c) && s.handler.Report?
    ensures Inv(HandlerNext(s, c))
  {
    hide IncsOk, BoxesOk, CallbacksOk, GroupsOk, TasksOk;
    var s' := HandlerNext(s, c);
    HandlerMoves(s, s'.handler);
    Unread(s.(handler := s'.handler), s');
  }

  lemma FoundGroup(s: State, id: TaskId)
    requires WF(s) && GroupsOk(s) && TasksOk(s) && id in s.groups
    ensures Deleting(s, id, s.groups[id])
  {
  }

  lemma FindForDeleteKeeps(s: State, c: Choice)
    requires Inv(s) && HandlerEnabled(s, c) && s.handler.FindForDelete?
    ensures Inv(HandlerNext(s, c))
  {
    hide IncsOk, BoxesOk, CallbacksOk, GroupsOk, TasksOk;
    var id := s.handler.id;
    if id in s.groups {
      FoundGroup(s, id);
      HandlerMoves(s, CheckStatus(id, s.groups[id]));
    } else {
      HandlerMoves(s, Reply(Answer(id, false, MISSING404, None)));
    }
  }

  lemma CheckStatusKeeps(s: State, c: Choice)
    requires Inv(s) && HandlerEnabled(s, c)
    requires s.handler.CheckStatus? || s.handler.Await?
    ensures Inv(HandlerNext(s, c))
  {
    hide IncsOk, BoxesOk, CallbacksOk, GroupsOk, TasksOk;
    HandlerMoves(s, HandlerNext(s, c).handler);
  }

  lemma FindTaskEntryKeeps(s: State, c: Choice)
    requires Inv(s) && HandlerEnabled(s, c) && s.handler.FindTaskEntry?
    ensures Inv(HandlerNext(s, c))
  {
    hide IncsOk, BoxesOk, CallbacksOk, GroupsOk, TasksOk;
    var id, g := s.handler.id, s.handler.g;
    if id in s.tasks {
      HandlerMoves(s, Halt(id, g, s.tasks[id]));
    } else {
      HandlerMoves(s, Reply(Answer(id, false, ERROR500, None)));
    }
  }

  lemma HandlerKeeps(s: State, c: Choice)
    requires Inv(s) && HandlerEnabled(s, c)
    ensures Inv(HandlerNext(s, c))
  {
    hide Inv, HandlerNext;
    match s.handler
    case FindForCreate(_, _) => FindForCreateKeeps(s, c);
    case Running(_, _) => RunningKeeps(s, c);
    case AddTask(_) => AddTaskKeeps(s, c);
    case MarkRunning(_) => CreatorKeeps(s, c);
    case AddGroup(_) => CreatorKeeps(s, c);
    case Halt(_, _, _) => ReportingKeeps(s, c);
    case ReadDetail(_) => ReportingKeeps(s, c);
    case Report(_, _, _) => ReportKeeps(s, c);
    case Reply(_) => ReportingKeeps(s, c);
    case FindForDelete(_) => FindForDeleteKeeps(s, c);
    case FindTaskEntry(_, _) => FindTaskEntryKeeps(s, c);
    case _ => CheckStatusKeeps(s, c);
  }

  // ------------------------------------------------------------------ the callbacks keep it
  lemma CallbackHas(s: State, m: BoxId)
    requires Inv(s) && m in s.callbacks
    ensures CallbackAt(s, m, s.callbacks[m])
  {
  }

  /** What is left to show when callback m acts: its own incarnation and group after the step. */
  ghost predicate Acted(s: State, m: BoxId, r: Ref)
    requires WF(s) && r < |s.incs| && m < |s.boxes|
  {
    var inc := s.incs[r];
    && IncOk(r, inc, CurrentBox(s.boxes, inc))
    && (m in s.callbacks ==> CallbackAt(s, m, s.callbacks[m]))
    && (inc.id in s.groups && s.groups[inc.id] == r ==> GroupOk(inc.id, r, inc, CallbackOf(s.callbacks, inc.launched)))
    && (inc.id in s.tasks && inc.id in s.groups ==> s.tasks[inc.id] == s.groups[inc.id])
  }

  ghost predicate Acts(s: State, s': State, m: BoxId)
    requires WF(s) && WF(s') && m in s.callbacks
  {
    var r := s.boxes[m].owner;
    && Concerns(s, s', r) && s'.handler == s.handler
    && (s'.callbacks == s.callbacks - {m} || (m in s'.callbacks && s'.callbacks == s.callbacks[m := s'.callbacks[m]]))
  }

  lemma CallbackLocal(s: State, s': State, m: BoxId, r: Ref)
    requires Inv(s) && WF(s') && m in s.callbacks && r == s.boxes[m].owner && Acts(s, s', m)
    requires HandlerOk(s') && Acted(s', m, r)
    requires forall b | 0 <= b < |s'.boxes| :: s'.boxes[b].owner == r && s'.boxes[b].phase == Started ==>
               (b < |s.boxes| && s.boxes[b].phase == Started) || BoxAt(s', b, s'.boxes[b])
    ensures Inv(s')
  {
    hide IncsOk, BoxesOk, GroupsOk, TasksOk, CallbacksOk, CallbackAt, Concerns, HandlerOk, GroupOk, AnchorOf;
    forall b | 0 <= b < |s'.boxes| && s'.boxes[b].owner == r ensures BoxAt(s', b, s'.boxes[b]) {
      if b < |s.boxes| && s.boxes[b].phase == Started {
        assert s.boxes[b].owner == r by { ConcernsOwners(s, s', r, b); }
        OwnersDiffer(s, m, b);
      }
    }
    forall n | n in s'.callbacks && s'.boxes[n].owner == r ensures CallbackAt(s', n, s'.callbacks[n]) {
      if n != m {
        ConcernsOwners(s, s', r, n);
        OwnersDiffer(s, m, n);
      }
    }
    assert s'.boxes[m].owner == r by { ConcernsOwners(s, s', r, m); }
    Local(s, s', r);
  }

  lemma ConcernsOwners(s: State, s': State, r: Ref, b: BoxId)
    requires WF(s) && r < |s.incs| && Concerns(s, s', r) && b < |s.boxes|
    ensures b < |s'.boxes| && s'.boxes[b].owner == s.boxes[b].owner
  {
  }

  lemma CallbackReturns(s: State, m: BoxId)
    requires Inv(s) && m in s.callbacks && !Closing(s.callbacks[m])
    ensures Inv(Return(s, m))
  {
    hide AnchorOf, CurrentBox, CallbackOk, BoxOk, IncOk, TaskOk, BeforeGroup, HoldsGroup, Closing;
  }

  lemma SetStatusKeeps(s: State, m: BoxId, c: Choice)
    requires Inv(s) && CallbackEnabled(s, m, c) && s.callbacks[m].SetStatus?
    ensures Inv(CallbackNext(s, m, c))
  {
    hide IncsOk, BoxesOk, GroupsOk, CallbacksOk;
    CallbackHas(s, m);
    CallbackLocal(s, CallbackNext(s, m, c), m, s.callbacks[m].r);
  }

  lemma EraseGroupKeeps(s: State, m: BoxId, c: Choice)
    requires Inv(s) && CallbackEnabled(s, m, c) && s.callbacks[m].EraseGroup?
    ensures Inv(CallbackNext(s, m, c))
  {
    hide BoxesOk, GroupsOk, CallbacksOk, TasksOk;
    CallbackHas(s, m);
    CallbackLocal(s, CallbackNext(s, m, c), m, s.callbacks[m].r);
  }

  lemma EraseTaskFrame(s: State, m: BoxId, c: Choice)
    requires Inv(s) && CallbackEnabled(s, m, c) && s.callbacks[m].EraseTask?
    ensures WF(CallbackNext(s, m, c)) && Acts(s, CallbackNext(s, m, c), m) && HandlerOk(CallbackNext(s, m, c))
  {
    hide IncsOk, BoxesOk, CallbacksOk, GroupsOk, TasksOk;
    CallbackHas(s, m);
  }

  lemma EraseTaskKeeps(s: State, m: BoxId, c: Choice)
    requires Inv(s) && CallbackEnabled(s, m, c) && s.callbacks[m].EraseTask?
    ensures Inv(CallbackNext(s, m, c))
  {
    hide BoxesOk, CallbacksOk, TasksOk, Acts, HandlerOk;
    CallbackHas(s, m);
    EraseTaskFrame(s, m, c);
    CallbackLocal(s, CallbackNext(s, m, c), m, s.callbacks[m].r);
  }

  lemma NewBoxFrame(s: State, m: BoxId)
    requires Inv(s) && CallbackEnabled(s, m, Ok) && s.callbacks[m].Rerun? && s.callbacks[m].stage == NewBox
    ensures WF(CallbackNext(s, m, Ok)) && Acts(s, CallbackNext(s, m, Ok), m) && HandlerOk(CallbackNext(s, m, Ok))
  {
    hide IncsOk, BoxesOk, CallbacksOk, GroupsOk, TasksOk;
    CallbackHas(s, m);
  }

  lemma LaunchFrame(s: State, m: BoxId)
    requires Inv(s) && CallbackEnabled(s, m, Ok) && s.callbacks[m].Rerun? && s.callbacks[m].stage == Launch
    ensures WF(CallbackNext(s, m, Ok)) && Acts(s, CallbackNext(s, m, Ok), m) && HandlerOk(CallbackNext(s, m, Ok))
  {
    hide IncsOk, BoxesOk, CallbacksOk, GroupsOk, TasksOk;
    CallbackHas(s, m);
    IncHas(s, s.boxes[m].owner);
    if s.handler.Running? { IncHas(s, s.handler.r); }
  }

  lemma RerunNewBoxKeeps(s: State, m: BoxId)
    requires Inv(s) && CallbackEnabled(s, m, Ok) && s.callbacks[m].Rerun? && s.callbacks[m].stage == NewBox
    ensures Inv(CallbackNext(s, m, Ok))
  {
    hide BoxesOk, CallbacksOk, IncsOk, GroupsOk, TasksOk, CallbackNext, Acts, Acted, CallbackAt, HandlerOk;
    CallbackHas(s, m);
    NewBoxFrame(s, m);
    RerunNewBoxActed(s, m);
    CallbackLocal(s, CallbackNext(s, m, Ok), m, s.callbacks[m].r);
  }

  lemma RerunNewBoxActed(s: State, m: BoxId)
    requires Inv(s) && CallbackEnabled(s, m, Ok) && s.callbacks[m].Rerun? && s.callbacks[m].stage == NewBox
    requires WF(CallbackNext(s, m, Ok))
    ensures s.callbacks[m].r < |s.incs| && m < |s.boxes| && s.boxes[m].owner == s.callbacks[m].r
    ensures Acted(CallbackNext(s, m, Ok), m, s.callbacks[m].r)
    ensures var s' := CallbackNext(s, m, Ok);
            forall b | 0 <= b < |s'.boxes| :: s'.boxes[b].owner == s.callbacks[m].r && s'.boxes[b].phase == Started ==>
              (b < |s.boxes| && s.boxes[b].phase == Started) || BoxAt(s', b, s'.boxes[b])
  {
    hide BoxesOk, CallbacksOk, HandlerOk, IncsOk;
    CallbackHas(s, m);
  }

  lemma NoBoxFrame(s: State, m: BoxId)
    requires Inv(s) && CallbackEnabled(s, m, Fail) && s.callbacks[m].Rerun? && s.callbacks[m].stage == NewBox
    ensures WF(CallbackNext(s, m, Fail)) && Acts(s, CallbackNext(s, m, Fail), m) && HandlerOk(CallbackNext(s, m, Fail))
  {
    hide IncsOk, BoxesOk, CallbacksOk, GroupsOk, TasksOk;
    CallbackHas(s, m);
  }

  lemma RerunNoBoxKeeps(s: State, m: BoxId)
    requires Inv(s) && CallbackEnabled(s, m, Fail) && s.callbacks[m].Rerun? && s.callbacks[m].stage == NewBox
    ensures Inv(CallbackNext(s, m, Fail))
  {
    hide BoxesOk, CallbacksOk, Acts, HandlerOk;
    CallbackHas(s, m);
    NoBoxFrame(s, m);
    CallbackLocal(s, CallbackNext(s, m, Fail), m, s.callbacks[m].r);
  }

  lemma PrepareNext(s: State, m: BoxId, c: Choice, inc: Incarnation)
    requires Inv(s) && CallbackEnabled(s, m, c) && s.callbacks[m].Rerun? && s.callbacks[m].stage == Prepare
    requires s.callbacks[m].r < |s.incs|
    requires inc == if c == Ok then Take(s.incs[s.callbacks[m].r]) else Waste(s.incs[s.callbacks[m].r])
    ensures var k, r, s' := s.callbacks[m].kind, s.callbacks[m].r, s.(incs := s.incs[s.callbacks[m].r := inc]);
            CallbackNext(s, m, c) == if c == Fail then Return(s', m) else With(s', m, Rerun(k, r, Launch))
  {
    hide WF, HandlerOk, IncsOk, BoxesOk, GroupsOk, TasksOk, CallbacksOk, Take, Waste;
  }

  lemma RerunPrepareKeeps(s: State, m: BoxId, c: Choice)
    requires Inv(s) && CallbackEnabled(s, m, c) && s.callbacks[m].Rerun? && s.callbacks[m].stage == Prepare
    ensures Inv(CallbackNext(s, m, c))
  {
    hide IncsOk, BoxesOk, GroupsOk, TasksOk, CallbacksOk, HandlerOk;
    var k, r := s.callbacks[m].kind, s.callbacks[m].r;
    var inc := if c == Ok then Take(s.incs[r]) else Waste(s.incs[r]);
    var s' := s.(incs := s.incs[r := inc]);
    IncMoves(s, r, inc);
    PrepareNext(s, m, c, inc);
    CallbackHas(s', m);
    hide CallbackNext, Take, Waste;
    if c == Fail { CallbackReturns(s', m); } else { CallbackMoves(s', m, Rerun(k, r, Launch)); }
  }

  lemma RerunLaunchKeeps(s: State, m: BoxId)
    requires Inv(s) && CallbackEnabled(s, m, Ok) && s.callbacks[m].Rerun? && s.callbacks[m].stage == Launch
    ensures Inv(CallbackNext(s, m, Ok))
  {
    hide BoxesOk, CallbacksOk, IncsOk, GroupsOk, TasksOk, CallbackNext, Acts, Acted, CallbackAt, HandlerOk;
    CallbackHas(s, m);
    LaunchFrame(s, m);
    RerunLaunchActed(s, m);
    CallbackLocal(s, CallbackNext(s, m, Ok), m, s.callbacks[m].r);
  }

  lemma RerunLaunchActed(s: State, m: BoxId)
    requires Inv(s) && CallbackEnabled(s, m, Ok) && s.callbacks[m].Rerun? && s.callbacks[m].stage == Launch
    requires WF(CallbackNext(s, m, Ok))
    ensures s.callbacks[m].r < |s.incs| && m < |s.boxes| && s.boxes[m].owner == s.callbacks[m].r
    ensures Acted(CallbackNext(s, m, Ok), m, s.callbacks[m].r)
    ensures var s' := CallbackNext(s, m, Ok);
            forall b | 0 <= b < |s'.boxes| :: s'.boxes[b].owner == s.callbacks[m].r && s'.boxes[b].phase == Started ==>
              (b < |s.boxes| && s.boxes[b].phase == Started) || BoxAt(s', b, s'.boxes[b])
  {
    hide BoxesOk, CallbacksOk, HandlerOk;
    CallbackHas(s, m);
  }

  lemma RerunKeeps(s: State, m: BoxId, c: Choice)
    requires Inv(s) && CallbackEnabled(s, m, c) && s.callbacks[m].Rerun?
    ensures Inv(CallbackNext(s, m, c))
  {
    hide HandlerOk, IncsOk, BoxesOk, GroupsOk, TasksOk, CallbacksOk;
    match s.callbacks[m].stage
    case NewBox => if c == Ok { RerunNewBoxKeeps(s, m); } else { RerunNoBoxKeeps(s, m); }
    case Prepare => RerunPrepareKeeps(s, m, c);
    case Launch =>
      if c == Ok {
        RerunLaunchKeeps(s, m);
      } else {
        CallbackReturns(s, m);
        CallbackHas(s, m);
      }
  }

  /** The steps that choose what the callback does next. */
  lemma DecidingKeeps(s: State, m: BoxId, c: Choice)
    requires Inv(s) && CallbackEnabled(s, m, c)
    requires s.callbacks[m].Decide? || s.callbacks[m].Compare? || s.callbacks[m].ReadState?
    ensures Inv(CallbackNext(s, m, c))
  {
    hide IncsOk, BoxesOk, GroupsOk, TasksOk, CallbacksOk, AnchorOf, HandlerOk;
    CallbackHas(s, m);
    CallbackMoves(s, m, CallbackNext(s, m, c).callbacks[m]);
  }

  lemma FindGroupKeeps(s: State, m: BoxId, c: Choice)
    requires Inv(s) && CallbackEnabled(s, m, c) && s.callbacks[m].FindGroup?
    ensures Inv(CallbackNext(s, m, c))
  {
    hide IncsOk, BoxesOk, GroupsOk, TasksOk, CallbacksOk;
    CallbackHas(s, m);
    CallbackMoves(s, m, CallbackNext(s, m, c).callbacks[m]);
  }

  lemma TellKeeps(s: State, m: BoxId, c: Choice)
    requires Inv(s) && CallbackEnabled(s, m, c)
    requires s.callbacks[m].Tell? || s.callbacks[m].Notify?
    ensures Inv(CallbackNext(s, m, c))
  {
    hide IncsOk, BoxesOk, GroupsOk, TasksOk, CallbacksOk, AnchorOf, HandlerOk;
    CallbackHas(s, m);
    var s' := CallbackNext(s, m, c);
    CallbackMoves(s, m, s'.callbacks[m]);
    Unread(With(s, m, s'.callbacks[m]), s');
  }

  lemma DropBoxKeeps(s: State, m: BoxId, c: Choice)
    requires Inv(s) && CallbackEnabled(s, m, c) && s.callbacks[m].DropBox?
    ensures Inv(CallbackNext(s, m, c))
  {
    hide IncsOk, BoxesOk, GroupsOk, TasksOk, CallbacksOk, AnchorOf, HandlerOk;
    var r := s.callbacks[m].r;
    CallbackHas(s, m);
    DropKeeps(s, r);
    CallbackHas(DropCurrent(s, r), m);
    CallbackMoves(DropCurrent(s, r), m, CallbackMove(s, m, c).value);
  }

  lemma DeleteBoxKeeps(s: State, m: BoxId, c: Choice)
    requires Inv(s) && CallbackEnabled(s, m, c) && s.callbacks[m].DeleteBox?
    ensures Inv(CallbackNext(s, m, c))
  {
    hide IncsOk, BoxesOk, GroupsOk, TasksOk, CallbacksOk, AnchorOf, HandlerOk;
    var r := s.callbacks[m].r;
    CallbackHas(s, m);
    DropKeeps(s, r);
    CallbackHas(DropCurrent(s, r), m);
    CallbackMoves(DropCurrent(s, r), m, CallbackMove(s, m, c).value);
  }

  lemma FinishKeeps(s: State, m: BoxId, c: Choice)
    requires Inv(s) && CallbackEnabled(s, m, c) && s.callbacks[m].Finish?
    ensures Inv(CallbackNext(s, m, c))
  {
    hide IncsOk, BoxesOk, GroupsOk, TasksOk, CallbacksOk, AnchorOf, HandlerOk;
    var k, r := s.callbacks[m].kind, s.callbacks[m].r;
    CallbackHas(s, m);
    CallbackMoves(s, m, EraseTask(k, r));
    IncMoves(With(s, m, EraseTask(k, r)), r, s.incs[r].(finished := true));
  }

  lemma CallbackKeeps(s: State, m: BoxId, c: Choice)
    requires Inv(s) && CallbackEnabled(s, m, c)
    ensures Inv(CallbackNext(s, m, c))
  {
    hide Inv, CallbackNext;
    match s.callbacks[m]
    case DropBox(_, _) => DropBoxKeeps(s, m, c);
    case DeleteBox(_, _) => DeleteBoxKeeps(s, m, c);
    case Rerun(_, _, _) => RerunKeeps(s, m, c);
    case FindGroup(_, _) => FindGroupKeeps(s, m, c);
    case SetStatus(_, _, _) => SetStatusKeeps(s, m, c);
    case Tell(_, _, _, _, _) => TellKeeps(s, m, c);
    case Notify(_, _) => TellKeeps(s, m, c);
    case EraseGroup(_, _, _) => EraseGroupKeeps(s, m, c);
    case Finish(_, _) => FinishKeeps(s, m, c);
    case EraseTask(_, _) => EraseTaskKeeps(s, m, c);
    case _ => DecidingKeeps(s, m, c);
  }

  // ------------------------------------------------------------------ every step keeps it

  lemma LookupNext(s: State, m: BoxId, hit: Option<TaskId>)
    requires Inv(s) && Enabled(s, CallbackLookup(m, hit))
    ensures Next(s, CallbackLookup(m, hit)) ==
            match hit
            case None => s.(crashed := true)
            case Some(t) => With(s, m, Decide(s.callbacks[m].kind, s.tasks[t]))
  {
    hide IncsOk, BoxesOk, GroupsOk, TasksOk, CallbacksOk, HandlerOk;
  }

  lemma LookupKeeps(s: State, m: BoxId, hit: Option<TaskId>)
    requires Inv(s) && Enabled(s, CallbackLookup(m, hit))
    ensures Inv(Next(s, CallbackLookup(m, hit)))
  {
    hide IncsOk, BoxesOk, GroupsOk, TasksOk, CallbacksOk, AnchorOf, HandlerOk;
    LookupNext(s, m, hit);
    match hit
    case None => Unread(s, s.(crashed := true));
    case Some(t) =>
      IncHas(s, s.tasks[t]);
      CallbackHas(s, m);
      hide Next;
      CallbackMoves(s, m, Decide(s.callbacks[m].kind, s.tasks[t]));
  }

  function Reported(s: State, m: BoxId, cb: Callback): State
    requires m < |s.boxes|
  {
    With(s, m, cb).(boxes := s.boxes[m := s.boxes[m].(phase := Raised)])
  }

  lemma RaiseWF(s: State, m: BoxId, kind: Kind)
    requires WF(s) && m < |s.boxes|
    ensures WF(Reported(s, m, Lookup(kind)))
  {
  }

  lemma RaiseHandler(s: State, m: BoxId, cb: Callback)
    requires HandlerInRange(s) && HandlerOk(s) && m < |s.boxes| && s.boxes[m].phase == Started
    ensures HandlerInRange(Reported(s, m, cb)) && HandlerOk(Reported(s, m, cb))
  {
  }

  lemma RaiseInc(s: State, m: BoxId, cb: Callback, q: Ref)
    requires m < |s.boxes| && q < |s.incs| && IncOk(q, s.incs[q], CurrentBox(s.boxes, s.incs[q]))
    ensures IncOk(q, s.incs[q], CurrentBox(Reported(s, m, cb).boxes, s.incs[q]))
  {
  }

  lemma RaiseBoxAt(s: State, m: BoxId, cb: Callback, n: BoxId)
    requires m < |s.boxes| && n < |s.boxes| && s.boxes[n].owner < |s.incs| && BoxAt(s, n, s.boxes[n])
    ensures BoxAt(Reported(s, m, cb), n, Reported(s, m, cb).boxes[n])
  {
    hide AnchorOf;
  }

  lemma RaiseCallbackAt(s: State, m: BoxId, cb: Callback, n: BoxId)
    requires m < |s.boxes| && s.boxes[m].phase == Started && n < |s.boxes| && n != m && n in s.callbacks
    requires s.boxes[n].owner < |s.incs| && CallbackAt(s, n, s.callbacks[n])
    ensures CallbackAt(Reported(s, m, cb), n, s.callbacks[n])
  {
    hide AnchorOf;
  }

  /** A modelbox task that has just ended: its callback starts from what its box promised. */
  lemma RaisedCallbackAt(s: State, m: BoxId, kind: Kind)
    requires m < |s.boxes| && s.boxes[m].phase == Started && s.boxes[m].owner < |s.incs| && BoxAt(s, m, s.boxes[m])
    ensures CallbackAt(Reported(s, m, Lookup(kind)), m, Lookup(kind))
  {
    hide AnchorOf;
  }

  lemma NotYetRaised(s: State, m: BoxId)
    requires Inv(s) && m < |s.boxes| && s.boxes[m].phase == Started
    ensures m !in s.callbacks
  {
    hide HandlerOk, IncsOk, BoxesOk, GroupsOk, TasksOk, AnchorOf;
    if m in s.callbacks { CallbackHas(s, m); }
  }

  lemma RaiseTables(s: State, m: BoxId, cb: Callback)
    requires WF(s) && m < |s.boxes| && m !in s.callbacks && GroupsOk(s) && TasksOk(s) && WF(Reported(s, m, cb))
    ensures GroupsOk(Reported(s, m, cb)) && TasksOk(Reported(s, m, cb))
  {
    hide TaskOk, HandlerInRange, CallbackInRange, Closing;
  }

  lemma RaiseKeeps(s: State, m: BoxId, kind: Kind)
    requires Inv(s) && m < |s.boxes| && s.boxes[m].phase == Started
    ensures Inv(Reported(s, m, Lookup(kind)))
  {
    hide IncOk, BoxAt, CallbackAt, GroupOk, TaskOk, HandlerOk;
    var s', cb := Reported(s, m, Lookup(kind)), Lookup(kind);
    NotYetRaised(s, m);
    RaiseWF(s, m, kind);
    RaiseHandler(s, m, cb);
    RaiseTables(s, m, cb);
    forall q | 0 <= q < |s.incs| ensures IncOk(q, s'.incs[q], CurrentBox(s'.boxes, s'.incs[q])) {
      RaiseInc(s, m, cb, q);
    }
    forall n | 0 <= n < |s'.boxes| ensures BoxAt(s', n, s'.boxes[n]) { RaiseBoxAt(s, m, cb, n); }
    forall n | n in s'.callbacks ensures CallbackAt(s', n, s'.callbacks[n]) {
      if n == m { RaisedCallbackAt(s, m, kind); } else { RaiseCallbackAt(s, m, cb, n); }
    }
  }

  lemma SendingFrame(s: State, c: Choice, id: TaskId)
    requires WF(s) && BeatEnabled(s, c, id) && s.beat.Sending?
    ensures var s' := BeatNext(s, c, id);
            s' == s.(beat := s'.beat, cloud := s'.cloud) && !s'.beat.Collect?
  {
    hide WF;
  }

  lemma CollectFrame(s: State, c: Choice, id: TaskId)
    requires WF(s) && BeatEnabled(s, c, id) && !s.beat.Sending?
    requires s.beat.Collect? ==> s.beat.todo <= s.groups.Keys
    ensures var s' := BeatNext(s, c, id);
            s' == s.(beat := s'.beat, update := s'.update) && (s'.beat.Collect? ==> s'.beat.todo <= s'.groups.Keys)
  {
    hide WF;
  }

  lemma BeatKeeps(s: State, c: Choice, id: TaskId)
    requires Inv(s) && BeatEnabled(s, c, id)
    ensures Inv(BeatNext(s, c, id))
  {
    hide IncsOk, BoxesOk, GroupsOk, TasksOk, CallbacksOk, HandlerOk, BeatNext, HandlerInRange, CallbackInRange;
    if s.beat.Sending? { SendingFrame(s, c, id); } else { CollectFrame(s, c, id); }
    Unread(s, BeatNext(s, c, id));
  }

  /** Every step keeps the invariant, whatever the environment does. */
  lemma StepKeeps(s: State, step: Step)
    requires Inv(s) && Enabled(s, step)
    ensures Inv(Next(s, step))
  {
    hide IncsOk, BoxesOk, GroupsOk, TasksOk, CallbacksOk;
    match step
    case Post(id, body) => HandlerMoves(s, FindForCreate(id, body));
    case Delete(id) => HandlerMoves(s, FindForDelete(id));
    case HandlerStep(c) => HandlerKeeps(s, c); assert Next(s, step) == HandlerNext(s, c);
    case Raise(m, kind) => RaiseKeeps(s, m, kind);
    case OtherStatus(_, _) => Unread(s, Next(s, step));
    case CallbackLookup(m, hit) => LookupKeeps(s, m, hit);
    case CallbackStep(m, c) => CallbackKeeps(s, m, c); assert Next(s, step) == CallbackNext(s, m, c);
    case BeatStep(c, id) => BeatKeeps(s, c, id); assert Next(s, step) == BeatNext(s, c, id);
    case StopService => Unread(s, Next(s, step));
  }
}
