/** The two managers as the code writes them: TaskManager with task_group_map_, ModelArtsManager with
    task_list_map_.  Each method is one request or callback running alone; Protocol interleaves them. */
module Service {
  import opened Types
  import opened ObsSource
  import opened Protocol
  import opened Communication
  import opened PluginTask

  /** A POST's body, as TaskInfo::Parse reads it. */
  datatype TaskRequest = Unreadable | Wanted(id: TaskId, own: Path)

  /** Report n ends a task with that many paths left: a FINISHED one only runs the next path. */
  predicate Decides(kinds: seq<Kind>, left: nat, n: nat) {
    && n < |kinds| && n <= left
    && (forall i :: 0 <= i < n ==> kinds[i] == FINISHED)
    && (n == left || kinds[n] != FINISHED)
  }

  /** MATask::Init succeeds. */
  predicate Inits(own: Path, listing: Option<seq<Path>>) {
    IsDirectory(own) ==> listing.Some? && listing.value != []
  }

  /** ModelArtsManager::CreateTaskProc succeeds. */
  predicate Makes(own: Path, listing: Option<seq<Path>>, o: RunOutcome) {
    Inits(own, listing) && o.created && o.prepared && o.started
  }

  /** One more modelbox task, neither started nor deleted. */
  predicate OneUnused(before: seq<BoxTask>, after: seq<BoxTask>) {
    && |after| == |before| + 1 && after[..|before|] == before
    && !after[|before|].started && !after[|before|].deleted
  }

  /** What a creation that fails leaves in modelbox: an unused task exactly when it came to create one. */
  predicate LeftBehind(own: Path, listing: Option<seq<Path>>, o: RunOutcome, before: seq<BoxTask>,
        after: seq<BoxTask>)
  {
    if Inits(own, listing) && o.created then OneUnused(before, after) else after == before
  }

  /** Modelbox task b is deleted. */
  function Dropped(boxes: seq<BoxTask>, b: BoxId): seq<BoxTask>
    requires b < |boxes|
  {
    boxes[b := boxes[b].(deleted := true)]
  }

  /** ... and the task run again on the last of its paths: the new modelbox task, if modelbox creates it, is not
      deleted, is started exactly when the run succeeds, and carries that path once it is prepared. */
  ghost predicate RanAgain(before: seq<BoxTask>, after: seq<BoxTask>, b: BoxId, task: MATask, paths: seq<Path>,
        o: RunOutcome)
    requires b < |before|
    reads task
  {
    if !o.created then after == Dropped(before, b)
    else
      && |after| == |before| + 1 && after[..|before|] == Dropped(before, b)
      && !after[|before|].deleted
      && (after[|before|].started <==> o.prepared && task.registered && o.started)
      && (o.prepared && paths != [] ==>
            var path := paths[|paths| - 1];
            after[|before|].input == path && after[|before|].session == if path != "" then path else task.own)
  }

  /** A new task over `given` and its modelbox task, the only one that joined. */
  ghost predicate Begun(task: MATask, own: Path, given: seq<Path>, before: seq<BoxTask>, after: seq<BoxTask>)
    reads task
  {
    && task.own == own && !task.finished && task.registered && task.box == Some(|before|)
    && if given == [] then task.paths == [] && after == before + [BoxTask(own, own, true, false)]
       else
         var path := given[|given| - 1];
         && task.paths == given[..|given| - 1]
         && after == before + [BoxTask(path, if path != "" then path else own, true, false)]
  }

  /** What MATask::Init stores. */
  function Given(own: Path, listing: Option<seq<Path>>): seq<Path> {
    if IsDirectory(own) && listing.Some? then listing.value else []
  }

  /** A modelbox task that was started and not deleted. */
  predicate Runs(box: Option<BoxId>, boxes: seq<BoxTask>) {
    box.Some? && box.value < |boxes| && boxes[box.value].started && !boxes[box.value].deleted
  }

  /** The receiver's table after the report of a status, if an attempt arrives. */
  ghost function Told(table: map<TaskId, Status>, id: TaskId, status: Status,
        net: nat -> Attempt): map<TaskId, Status> {
    if Arrives(net) then table[id := status] else table
  }

  /** A table after UpdateTaskStatus: the id goes unless its group, as `view` shows it, had the status already. */
  function Without<T>(table: map<TaskId, T>, view: map<TaskId, Status>, id: TaskId, status: Status): map<TaskId, T> {
    if id in view && view[id] != status then table - {id} else table
  }

  /** What UpdateTaskStatus tells the receiver and the heartbeat: nothing unless the status changes. */
  ghost predicate Announced(id: TaskId, status: Status, view: map<TaskId, Status>, update: bool, update': bool,
        table: map<TaskId, Status>, table': map<TaskId, Status>, net: nat -> Attempt)
  {
    if id in view && view[id] != status then update' && table' == Told(table, id, status, net)
    else update' == update && table' == table
  }

  class TaskGroup {
    const id: TaskId
    var status: Status

    constructor (id: TaskId)
      ensures this.id == id && status == PENDING
    {
      this.id := id;
      status := PENDING;
    }

    method SetTaskStatus(status: Status)
      modifies `status
      ensures this.status == status
    {
      this.status := status;
    }
  }

  // ------------------------------------------------------------------ task_manager.cc

  class TaskManager {
    var groups: map<TaskId, TaskGroup>   // task_group_map_
    var update: bool
    var stop: bool
    var waitTime: nat

    constructor ()
      ensures groups == map[] && !update && !stop && waitTime == 5
    {
      groups := map[];
      update := false;
      stop := false;
      waitTime := 5;
    }

    ghost predicate Valid()
      reads `groups, groups.Values
    {
      forall t | t in groups :: groups[t].id == t
    }

    /** What an instance message shows. */
    ghost function View(): map<TaskId, Status>
      reads `groups, groups.Values
    {
      map t | t in groups :: groups[t].status
    }

    method FindTask(id: TaskId) returns (g: TaskGroup?)
      ensures g == if id in groups then groups[id] else null
    {
      g := if id in groups then groups[id] else null;
    }

    ghost function Unfinished(): set<TaskId>
      reads `groups, groups.Values
    {
      set t | t in groups && (groups[t].status == PENDING || groups[t].status == RUNNING)
    }

    /** Counts the groups that are not terminal; the order of the table does not matter. */
    method GetRunningTaskCount() returns (sum: nat)
      ensures sum == |Unfinished()|
    {
      sum := 0;
      var todo := groups.Keys;
      ghost var seen: set<TaskId> := {};
      while todo != {}
        invariant todo + seen == groups.Keys && todo !! seen
        invariant sum == |set t | t in seen && !Terminal(groups[t].status)|
        decreases |todo|
      {
        var t :| t in todo;
        todo := todo - {t};
        ghost var before := set u | u in seen && !Terminal(groups[u].status);
        seen := seen + {t};
        ghost var after := set u | u in seen && !Terminal(groups[u].status);
        if !Terminal(groups[t].status) {
          assert after == before + {t};
          sum := sum + 1;
        } else {
          assert after == before;
        }
      }
      assert Unfinished() == set t | t in seen && !Terminal(groups[t].status);
    }

    /** Lists every group once, in the table's own order; the listing carries exactly the view. */
    method GetInstanceInfo() returns (tasks: seq<(TaskId, Status)>)
      requires Valid()
      ensures Table(tasks) == View() && |tasks| == |groups|
    {
      tasks := [];
      var todo := groups.Keys;
      while todo != {}
        invariant todo <= groups.Keys
        invariant forall i, j :: 0 <= i < j < |tasks| ==> tasks[i].0 != tasks[j].0
        invariant forall i :: 0 <= i < |tasks| ==>
                    tasks[i].0 in groups && tasks[i].0 !in todo && tasks[i].1 == groups[tasks[i].0].status
        invariant forall t | t in groups && t !in todo :: exists i :: 0 <= i < |tasks| && tasks[i].0 == t
        invariant |tasks| + |todo| == |groups.Keys|
        decreases |todo|
      {
        var t :| t in todo;
        ghost var before := tasks;
        tasks := tasks + [(groups[t].id, groups[t].status)];
        assert tasks[|tasks| - 1].0 == t;
        forall u | u in groups && u !in todo - {t} ensures exists i :: 0 <= i < |tasks| && tasks[i].0 == u {
          if u != t {
            var i :| 0 <= i < |before| && before[i].0 == u;
            assert tasks[i].0 == u;
          }
        }
        todo := todo - {t};
      }
      TableOfListing(tasks, View());
    }

    method SendTaskInfoToMA(g: TaskGroup, server: MaMockServer, net: nat -> Attempt)
      modifies server
      ensures server.taskInfo == if Arrives(net) then old(server.taskInfo)[g.id := g.status] else old(server.taskInfo)
    {
      var ok, attempts := SendWithRetry(server, TaskMsg(g.id, g.status), net);
    }

    method SendInstanceInfoToMA()
      modifies `update
      ensures update
    {
      update := true;
    }

    /** One round of the heartbeat's loop body up to its wait; `heard` when the message got through. */
    method HeartbeatRound(server: MaMockServer, net: nat -> Attempt) returns (heard: bool)
      requires Valid()
      modifies `waitTime, server
      ensures server.taskInfo == if Arrives(net) then View() else old(server.taskInfo)
      ensures heard && Honest(net) ==> Arrives(net)
      ensures waitTime == if heard then 60 else old(waitTime)
    {
      var tasks := GetInstanceInfo();
      var attempts;
      heard, attempts := SendWithRetry(server, InstanceMsg(tasks), net);
      if heard {
        if Honest(net) { SuccessArrives(net, attempts - 1); }
        waitTime := 60;
      }
    }

    /** What the loop does when its wait ends, woken or timed out. */
    method AfterWait() returns (exit: bool)
      modifies `update
      ensures exit == stop && update == (stop && old(update))
    {
      if stop { return true; }
      update := false;
      exit := false;
    }

    /** One turn of the heartbeat's loop. */
    method HeartbeatTurn(server: MaMockServer, net: nat -> Attempt) returns (heard: bool, exit: bool)
      requires Valid()
      modifies `waitTime, `update, server
      ensures server.taskInfo == if Arrives(net) then View() else old(server.taskInfo)
      ensures heard && Honest(net) ==> Arrives(net)
      ensures waitTime == if heard then 60 else old(waitTime)
      ensures exit == stop && update == (stop && old(update))
    {
      heard := HeartbeatRound(server, net);
      exit := AfterWait();
    }

    /** The group gets the status and the receiver is told; a terminal one then takes it out of the table. */
    method UpdateTaskStatus(id: TaskId, status: Status, server: MaMockServer, net: nat -> Attempt) returns (ok: bool)
      requires Valid()
      modifies `groups, `update, server, if id in groups then {groups[id]} else {}
      ensures Valid() && ok == (id in old(groups))
      ensures id in old(groups) ==> old(groups)[id].status == status
      ensures status == SUCCEEDED || status == FAILED ==>
                && groups == Without(old(groups), old(View()), id, status)
                && View() == Without(old(View()), old(View()), id, status)
      ensures status == PENDING || status == RUNNING ==>
                groups == old(groups) && View() == if ok then old(View())[id := status] else old(View())
      ensures Announced(id, status, old(View()), old(update), update, old(server.taskInfo), server.taskInfo, net)
    {
      var g := FindTask(id);
      if g == null { return false; }
      if g.status == status { return true; }
      g.SetTaskStatus(status);
      SendTaskInfoToMA(g, server, net);
      if Terminal(status) && g.id in groups { groups := groups - {g.id}; }
      SendInstanceInfoToMA();
      ok := true;
    }

    /** Under the request that asks for it, a TaskGroup that is not yet published, or the refusal. */
    method CreateTaskGroup(body: TaskRequest) returns (code: Http, g: TaskGroup?)
      ensures g == null <==> body.Unreadable? || body.id in groups
      ensures g == null ==> code == BAD400
      ensures g != null ==> fresh(g) && g.id == body.id && g.status == PENDING
    {
      code := OK200;
      if body.Unreadable? { return BAD400, null; }
      var known := FindTask(body.id);
      if known != null { return BAD400, null; }
      g := new TaskGroup(body.id);
    }

    /** The status first, then the entry in the table. */
    method Insert(g: TaskGroup)
      requires Valid() && forall t | t in groups :: groups[t] != g
      modifies `groups, g
      ensures Valid() && g.status == RUNNING
      ensures groups == old(groups)[g.id := g] && View() == old(View())[g.id := RUNNING]
    {
      g.SetTaskStatus(RUNNING);
      groups := groups[g.id := g];
    }

    /** ... which keeps the service ready.  `entries` is the manager's table before it got
        the entry for the task, `boxes` the modelbox tasks then. */
    method Publish(g: TaskGroup, manager: ModelArtsManager, mb: ModelBox, ghost entries: map<TaskId, Entry>,
          ghost boxes: seq<BoxTask>)
      requires Valid() && manager.Valid() && Settled(View(), entries, boxes)
      requires g.id !in groups && forall t | t in groups :: groups[t] != g
      requires g.id in manager.Entries() && manager.Entries() == entries[g.id := manager.Entries()[g.id]]
      requires var entry := manager.Entries()[g.id]; entry.box == Some(|boxes|) && !entry.finished && entry.registered
      requires |mb.tasks| == |boxes| + 1 && mb.tasks[..|boxes|] == boxes && Runs(Some(|boxes|), mb.tasks)
      modifies `groups, g
      ensures Ready(this, manager, mb)
      ensures g.status == RUNNING && groups == old(groups)[g.id := g]
    {
      hide Settled, Runs;
      ghost var view := View();
      Joined(view, entries, boxes, g.id, manager.Entries()[g.id], mb.tasks);
      assert View().Keys == groups.Keys;
      Insert(g);
    }

    /** create_func, and the publication when it succeeds. */
    method RunNew(g: TaskGroup, own: Path, manager: ModelArtsManager, listing: Option<seq<Path>>, mb: ModelBox,
          o: RunOutcome)
      returns (ok: bool)
      requires Ready(this, manager, mb) && g.id !in groups && forall t | t in groups :: groups[t] != g
      modifies `groups, g, manager`tasks, mb
      ensures Ready(this, manager, mb) && ok == Makes(own, listing, o)
      ensures !ok ==>
                && groups == old(groups) && manager.tasks == old(manager.tasks)
                && LeftBehind(own, listing, o, old(mb.tasks), mb.tasks)
      ensures !ok ==> NobodysBox(manager, old(|mb.tasks|))
      ensures ok ==>
                && g.status == RUNNING && groups == old(groups)[g.id := g]
                && g.id in manager.tasks
                && manager.tasks == old(manager.tasks)[g.id := manager.tasks[g.id]]
                && Begun(manager.tasks[g.id], own, Given(own, listing), old(mb.tasks), mb.tasks)
    {
      ghost var view, entries, boxes := View(), manager.Entries(), mb.tasks;
      hide Settled, Makes, Begun, Given;
      ok := manager.CreateTaskProc(g.id, own, listing, mb, o);
      assert View() == view;
      if ok {
        BegunRuns(manager.tasks[g.id], own, Given(own, listing), boxes, mb.tasks);
        Publish(g, manager, mb, entries, boxes);
      } else {
        NobodysEntry(view, entries, boxes);
        assert forall t | t in manager.tasks :: entries[t].box == manager.tasks[t].box;
        StillSettled(view, entries, boxes, mb.tasks);
      }
    }

    /** A POST: 400 for an unreadable body or a known id, 500 when the plugin cannot run the task,
        else 201 with the group published RUNNING and the entry made. */
    method CreateTaskProcess(body: TaskRequest, maxTaskNum: nat, manager: ModelArtsManager, listing: Option<seq<Path>>,
                             mb: ModelBox, o: RunOutcome)
      returns (code: Http, g: TaskGroup?)
      requires Ready(this, manager, mb)
      modifies `groups, manager`tasks, mb
      ensures Ready(this, manager, mb)
      ensures code == if body.Unreadable? || body.id in old(groups) then BAD400
                      else if Makes(body.own, listing, o) then CREATED201
                      else ERROR500
      ensures g == null <==> code != CREATED201
      ensures g == null ==> groups == old(groups) && manager.tasks == old(manager.tasks)
      ensures code == BAD400 ==> mb.tasks == old(mb.tasks)
      ensures code == ERROR500 ==>
                LeftBehind(body.own, listing, o, old(mb.tasks), mb.tasks) && NobodysBox(manager, old(|mb.tasks|))
      ensures g != null ==>
                && fresh(g) && g.id == body.id && g.status == RUNNING && groups == old(groups)[body.id := g]
                && body.id in manager.tasks
                && manager.tasks == old(manager.tasks)[body.id := manager.tasks[body.id]]
                && Begun(manager.tasks[body.id], body.own, Given(body.own, listing), old(mb.tasks), mb.tasks)
    {
      hide Makes, Ready, Begun, Given;
      code, g := CreateTaskGroup(body);
      if g == null { return; }
      var running := GetRunningTaskCount();
      var overLimit := running + 1 > maxTaskNum;   // logged, not enforced
      var ok := RunNew(g, body.own, manager, listing, mb, o);
      if !ok { return ERROR500, null; }
      code := CREATED201;
    }

    /** A DELETE: 404 for an unknown id, 202 once the task is over, 500 when Stop fails; no answer while
        it waits for a report that has not come. */
    method DeleteTaskProcess(id: TaskId, manager: ModelArtsManager, stopped: bool, kinds: seq<Kind>, mb: ModelBox,
                             server: MaMockServer, net: nat -> Attempt)
      returns (code: Http, waiting: bool)
      requires Ready(this, manager, mb)
      modifies manager`tasks, manager.tasks.Values, mb, server, `groups, `update, groups.Values
      ensures Ready(this, manager, mb)
      ensures id !in old(groups) ==> !waiting && code == MISSING404
      ensures id in old(groups) && !stopped ==> !waiting && code == ERROR500
      ensures id in old(groups) && stopped ==>
                && id in old(manager.tasks)
                && (!waiting ==> code == ACCEPTED202)
                && (!waiting <==> Enough(kinds, old(|manager.tasks[id].paths|)))
      ensures if id in old(groups) && stopped && !waiting then
                && groups == old(groups) - {id} && manager.tasks == old(manager.tasks) - {id} && update
                && exists n: nat :: Decides(kinds, old(|manager.tasks[id].paths|), n)
                               && Over(old(groups)[id], old(manager.tasks)[id], mb, kinds[n])
                               && server.taskInfo == Told(old(server.taskInfo), id, EndOf(kinds[n]), net)
              else
                && groups == old(groups) && manager.tasks == old(manager.tasks)
                && server.taskInfo == old(server.taskInfo) && update == old(update)
    {
      hide Ready, Over, Decides, Enough, EndOf, Told;
      SameIds(this, manager, mb);
      var g := FindTask(id);
      if g == null { return MISSING404, false; }
      waiting := false;
      if g.status == RUNNING {
        var ok;
        ok, waiting := manager.DeleteTaskProc(id, stopped, kinds, this, mb, server, net);
        if !ok { return ERROR500, waiting; }
      }
      code := ACCEPTED202;
    }

    /** A GET answers what the table shows. */
    method QueryTaskProcess(id: TaskId) returns (code: Http, state: Option<Status>)
      requires Valid()
      ensures code == if id in View() then OK200 else MISSING404
      ensures state == if id in View() then Some(View()[id]) else None
    {
      var g := FindTask(id);
      if g == null { return MISSING404, None; }
      return OK200, Some(g.status);
    }

    method Stop()
      modifies `stop
      ensures stop
    {
      stop := true;
    }
  }

  // ------------------------------------------------------------------ modelarts_manager.cc

  /** A status that modelbox reports for one of its tasks: terminal or not. */
  datatype Report = Ended(kind: Kind) | Progress

  /** What the manager's table shows of an entry. */
  datatype Entry = Entry(box: Option<BoxId>, paths: seq<Path>, finished: bool, registered: bool)

  /** The current modelbox task of every entry. */
  ghost function BoxesOf(entries: map<TaskId, Entry>): map<TaskId, Option<BoxId>> {
    map t | t in entries :: entries[t].box
  }

  /** The terminal report makes the callback run the task again. */
  predicate Reruns(report: Report, entry: Entry) {
    report == Ended(FINISHED) && entry.paths != []
  }

  /** The entry after MATask::Run, when n modelbox tasks existed before. */
  function AfterRun(entry: Entry, n: nat, o: RunOutcome): Entry {
    if !o.created then entry.(box := None)
    else entry.(box := Some(n), paths := if entry.paths == [] then [] else entry.paths[..|entry.paths| - 1])
  }

  class ModelArtsManager {
    var tasks: map<TaskId, MATask>   // task_list_map_

    constructor ()
      ensures tasks == map[]
    {
      tasks := map[];
    }

    ghost predicate Valid()
      reads `tasks, tasks.Values
    {
      forall t | t in tasks :: tasks[t].id == t
    }

    ghost function Entries(): map<TaskId, Entry>
      reads `tasks, tasks.Values
    {
      map t | t in tasks :: Entry(tasks[t].box, tasks[t].paths, tasks[t].finished, tasks[t].registered)
    }

    method FindTaskByMaTaskId(id: TaskId) returns (task: MATask?)
      ensures task == if id in tasks then tasks[id] else null
    {
      task := if id in tasks then tasks[id] else null;
    }

    /** Visits the entries in the table's own order up to the first without modelbox task, where it gives up,
        or with the one it searches. */
    method FindTaskByModelboxTaskId(b: BoxId) returns (task: MATask?, ghost visited: seq<TaskId>)
      requires Valid()
      ensures forall i :: 0 <= i < |visited| ==> visited[i] in tasks
      ensures forall i :: 0 <= i < |visited| - 1 ==> tasks[visited[i]].box.Some? && tasks[visited[i]].box != Some(b)
      ensures if task != null then visited != [] && tasks[visited[|visited| - 1]] == task && task.box == Some(b)
              else
                || (visited != [] && tasks[visited[|visited| - 1]].box == None)
                || (forall t | t in tasks :: t in visited && tasks[t].box != None && tasks[t].box != Some(b))
      ensures task != null ==> task.id in tasks && tasks[task.id] == task
      ensures ScanOutcome(BoxesOf(Entries()), b, if task == null then None else Some(task.id))
    {
      var todo := tasks.Keys;
      visited := [];
      while todo != {}
        invariant todo <= tasks.Keys
        invariant forall i :: 0 <= i < |visited| ==> visited[i] in tasks
        invariant forall i :: 0 <= i < |visited| ==> tasks[visited[i]].box.Some? && tasks[visited[i]].box != Some(b)
        invariant forall t | t in tasks && t !in todo :: t in visited && tasks[t].box != None && tasks[t].box != Some(b)
        decreases |todo|
      {
        var t :| t in todo;
        visited := visited + [t];
        if tasks[t].box.None? {
          assert t in BoxesOf(Entries()) && BoxesOf(Entries())[t] == None;
          return null, visited;
        }
        if tasks[t].box.value == b { return tasks[t], visited; }
        todo := todo - {t};
      }
      task := null;
    }

    /** Runs a new task and enters it; a task whose Init or Run fails leaves no entry. */
    method CreateTaskProc(id: TaskId, own: Path, listing: Option<seq<Path>>, mb: ModelBox,
          o: RunOutcome) returns (ok: bool)
      requires Valid()
      modifies `tasks, mb
      ensures Valid()
      ensures ok <==> Makes(own, listing, o)
      ensures !ok ==>
                && tasks == old(tasks) && Entries() == old(Entries())
                && LeftBehind(own, listing, o, old(mb.tasks), mb.tasks)
      ensures ok ==>
                && id in tasks && tasks == old(tasks)[id := tasks[id]] && fresh(tasks[id])
                && Entries() == old(Entries())[id := Entries()[id]]
                && Begun(tasks[id], own, Given(own, listing), old(mb.tasks), mb.tasks)
    {
      hide IsDirectory, Entries, Valid;
      var task := new MATask(id, own);
      ok := task.Init(listing);
      if !ok { return; }
      task.RegisterStatusCallback();
      ok := task.Run(mb, o);
      if !ok { return; }
      Enter(task);
    }

    /** The end of a terminal callback: the group first, then the modelbox task, then the waiter, then the entry. */
    method Close(task: MATask, status: Status, tm: TaskManager, mb: ModelBox, server: MaMockServer, net: nat -> Attempt)
      requires Valid() && tm.Valid() && (status == SUCCEEDED || status == FAILED)
      requires task.id in tasks && tasks[task.id] == task && task.box.Some? && task.box.value < |mb.tasks|
      modifies `tasks, task`finished, mb, server, tm`groups, tm`update, if task.id in tm.groups
          then {tm.groups[task.id]} else {}
      ensures Valid() && tm.Valid()
      ensures tasks == old(tasks) - {task.id} && Entries() == old(Entries()) - {task.id}
      ensures tm.groups == Without(old(tm.groups), old(tm.View()), task.id, status)
      ensures tm.View() == Without(old(tm.View()), old(tm.View()), task.id, status)
      ensures task.finished && (task.id in old(tm.groups) ==> old(tm.groups)[task.id].status == status)
      ensures Announced(task.id, status, old(tm.View()), old(tm.update), tm.update, old(server.taskInfo),
                        server.taskInfo, net)
      ensures mb.tasks == Dropped(old(mb.tasks), task.box.value)
    {
      hide Without, TaskManager.View, TaskManager.Valid, Entries, Valid, Told;
      ghost var entries := Entries();
      var ok := tm.UpdateTaskStatus(task.id, status, server, net);
      ghost var view := tm.View();
      task.Delete(mb);
      assert Entries() == entries && tm.View() == view;
      Release(task);
      assert tm.View() == view;
    }

    /** The waiter is woken before the entry is erased. */
    method Release(task: MATask)
      requires Valid() && task.id in tasks && tasks[task.id] == task
      modifies `tasks, task`finished
      ensures Valid() && task.finished
      ensures tasks == old(tasks) - {task.id} && Entries() == old(Entries()) - {task.id}
    {
      task.SetTaskFinishStatus(true);
      tasks := tasks - {task.id};
    }

    method Enter(task: MATask)
      requires Valid() && forall t | t in tasks :: tasks[t] != task
      modifies `tasks
      ensures Valid() && tasks == old(tasks)[task.id := task]
      ensures Entries() == old(Entries())[task.id := Entry(task.box, task.paths, task.finished, task.registered)]
    {
      tasks := tasks[task.id := task];
    }

    /** A rerun: the old modelbox task is deleted and another one runs the next path. */
    method Again(task: MATask, mb: ModelBox, o: RunOutcome)
      requires Valid() && task.id in tasks && tasks[task.id] == task && task.box.Some? && task.box.value < |mb.tasks|
      modifies task, mb
      ensures Valid() && Entries() == old(Entries())[task.id := AfterRun(old(Entries())[task.id], old(|mb.tasks|), o)]
      ensures task.finished == old(task.finished)
      ensures RanAgain(old(mb.tasks), mb.tasks, old(task.box.value), task, old(task.paths), o)
    {
      ghost var n, entry, others := |mb.tasks|, Entries()[task.id], Entries() - {task.id};
      task.Delete(mb);
      var ok := task.Run(mb, o);
      assert Entries()[task.id] == AfterRun(entry, n, o) && Entries() - {task.id} == others;
      hide AfterRun;
    }

    /** What a report asks for: nothing, another run, or the end with a status. */
    method Judge(task: MATask, report: Report) returns (again: bool, finish: bool, status: Status)
      ensures again <==> report == Ended(FINISHED) && task.paths != []
      ensures finish <==> report.Ended? && !again
      ensures finish ==> status == if report.kind == ABNORMAL then FAILED else SUCCEEDED
    {
      again, finish, status := false, false, RUNNING;
      match report {
        case Ended(ABNORMAL) => finish, status := true, FAILED;
        case Ended(STOPPED) => finish, status := true, SUCCEEDED;
        case Ended(FINISHED) =>
          var canFinish := task.TaskCanFinish();
          again, finish, status := !canFinish, canFinish, SUCCEEDED;
        case Progress =>
      }
    }

    /** What the callback does once it has its task. */
    method Act(task: MATask, report: Report, tm: TaskManager, mb: ModelBox, o: RunOutcome, server: MaMockServer,
          net: nat -> Attempt)
      requires Valid() && tm.Valid()
      requires task.id in tasks && tasks[task.id] == task && task.box.Some? && task.box.value < |mb.tasks|
      modifies `tasks, task, mb, server, tm`groups, tm`update, if task.id in tm.groups then {tm.groups[task.id]} else {}
      ensures Valid() && tm.Valid()
      ensures report.Progress? ==>
                && tasks == old(tasks) && tm.groups == old(tm.groups) && mb.tasks == old(mb.tasks)
                && Entries() == old(Entries()) && tm.View() == old(tm.View())
                && tm.update == old(tm.update) && server.taskInfo == old(server.taskInfo)
      ensures Reruns(report, old(Entries())[task.id]) ==>
                && tasks == old(tasks) && tm.groups == old(tm.groups) && tm.View() == old(tm.View())
                && Entries() == old(Entries())[task.id := AfterRun(old(Entries())[task.id], old(|mb.tasks|), o)]
                && RanAgain(old(mb.tasks), mb.tasks, old(task.box.value), task, old(task.paths), o)
                && tm.update == old(tm.update) && server.taskInfo == old(server.taskInfo)
      ensures report.Ended? && !Reruns(report, old(Entries())[task.id]) ==>
                var status := if report.kind == ABNORMAL then FAILED else SUCCEEDED;
                && tasks == old(tasks) - {task.id} && Entries() == old(Entries()) - {task.id}
                && tm.groups == Without(old(tm.groups), old(tm.View()), task.id, status)
                && tm.View() == Without(old(tm.View()), old(tm.View()), task.id, status)
                && (task.id in old(tm.groups) ==> old(tm.groups)[task.id].status == status)
                && Announced(task.id, status, old(tm.View()), old(tm.update), tm.update, old(server.taskInfo),
                             server.taskInfo, net)
                && task.finished && task.box == old(task.box)
                && mb.tasks == Dropped(old(mb.tasks), task.box.value)
    {
      hide Without, AfterRun, Valid, TaskManager.View, TaskManager.Valid, Dropped, RanAgain, Announced, Entries;
      EntryIs(this, task);
      var again, finish, status := Judge(task, report);
      if again {
        Again(task, mb, o);
        return;
      }
      if finish { Close(task, status, tm, mb, server, net); }
    }

    /** ModelBoxTaskStatusCallBack.  The code logs a missing entry and then uses it all the same:
        a null result stands for that use of a null pointer. */
    method ModelBoxTaskStatusCallBack(b: BoxId, report: Report, tm: TaskManager, mb: ModelBox, o: RunOutcome,
                                      server: MaMockServer, net: nat -> Attempt)
      returns (task: MATask?)
      requires Valid() && tm.Valid() && b < |mb.tasks|
      modifies `tasks, tasks.Values, mb, server, tm`groups, tm`update, tm.groups.Values
      ensures Valid() && tm.Valid()
      ensures ScanOutcome(BoxesOf(old(Entries())), b, if task == null then None else Some(task.id))
      ensures task != null ==> task.id in old(tasks) && old(tasks)[task.id] == task
      ensures task == null || report.Progress? ==>
                && tasks == old(tasks) && tm.groups == old(tm.groups) && mb.tasks == old(mb.tasks)
                && Entries() == old(Entries()) && tm.View() == old(tm.View())
                && tm.update == old(tm.update) && server.taskInfo == old(server.taskInfo)
      ensures task != null && Reruns(report, old(Entries())[task.id]) ==>
                && tasks == old(tasks) && tm.groups == old(tm.groups) && tm.View() == old(tm.View())
                && Entries() == old(Entries())[task.id := AfterRun(old(Entries())[task.id], old(|mb.tasks|), o)]
                && RanAgain(old(mb.tasks), mb.tasks, b, task, old(task.paths), o)
                && tm.update == old(tm.update) && server.taskInfo == old(server.taskInfo)
      ensures task != null && report.Ended? && !Reruns(report, old(Entries())[task.id]) ==>
                var status := if report.kind == ABNORMAL then FAILED else SUCCEEDED;
                && tasks == old(tasks) - {task.id} && Entries() == old(Entries()) - {task.id}
                && tm.groups == Without(old(tm.groups), old(tm.View()), task.id, status)
                && tm.View() == Without(old(tm.View()), old(tm.View()), task.id, status)
                && (task.id in old(tm.groups) ==> old(tm.groups)[task.id].status == status)
                && Announced(task.id, status, old(tm.View()), old(tm.update), tm.update, old(server.taskInfo),
                             server.taskInfo, net)
                && task.finished && task.box == Some(b)
                && mb.tasks == Dropped(old(mb.tasks), b)
    {
      hide Without, AfterRun, Reruns, RanAgain, Announced, ScanOutcome, Entries, Valid;
      hide TaskManager.View, TaskManager.Valid;
      ghost var visited;
      task, visited := FindTaskByModelboxTaskId(b);
      if task != null { Act(task, report, tm, mb, o, server, net); }
    }

    /** FINISHED with paths left, about the current modelbox task of an entry: modelbox accepts the rerun. */
    method ReportNext(task: MATask, tm: TaskManager, mb: ModelBox, server: MaMockServer, net: nat -> Attempt)
      requires Ready(tm, this, mb) && task.id in tasks && tasks[task.id] == task && task.paths != []
      modifies tasks.Values, mb, `tasks, server, tm`groups, tm`update, tm.groups.Values
      ensures Ready(tm, this, mb)
      ensures tasks == old(tasks) && tm.groups == old(tm.groups)
      ensures tm.update == old(tm.update) && server.taskInfo == old(server.taskInfo)
      ensures !task.finished && |task.paths| == old(|task.paths|) - 1
    {
      ghost var view, entries, boxes := tm.View(), Entries(), mb.tasks;
      assert entries[task.id] == Entry(task.box, task.paths, task.finished, task.registered);
      EntryOf(view, entries, boxes, task.id);
      hide ScanOutcome, Settled;
      ghost var paths := task.paths;
      var o := RunOutcome(true, true, true);
      var hit := ModelBoxTaskStatusCallBack(task.box.value, Ended(FINISHED), tm, mb, o, server, net);
      assert hit == task;
      assert Entries()[task.id] == Entry(task.box, task.paths, task.finished, task.registered);
      Renewed(view, entries, boxes, task.id, mb.tasks);
    }

    /** Any other terminal report about it. */
    method ReportLast(task: MATask, kind: Kind, tm: TaskManager, mb: ModelBox, server: MaMockServer,
          net: nat -> Attempt)
      requires Ready(tm, this, mb) && task.id in tasks && tasks[task.id] == task &&
               !(kind == FINISHED && task.paths != [])
      modifies tasks.Values, mb, `tasks, server, tm`groups, tm`update, tm.groups.Values
      ensures Ready(tm, this, mb)
      ensures tasks == old(tasks) - {task.id} && tm.groups == old(tm.groups) - {task.id}
      ensures task.id in old(tm.groups) && Over(old(tm.groups)[task.id], task, mb, kind)
      ensures tm.update && server.taskInfo == Told(old(server.taskInfo), task.id, EndOf(kind), net)
    {
      ghost var view, entries, boxes := tm.View(), Entries(), mb.tasks;
      assert entries[task.id] == Entry(task.box, task.paths, task.finished, task.registered);
      EntryOf(view, entries, boxes, task.id);
      hide ScanOutcome, Settled, Told;
      var hit := ModelBoxTaskStatusCallBack(task.box.value, Ended(kind), tm, mb, RunOutcome(true, true, true), server,
          net);
      assert hit == task;
      EntryDropped(view, entries, boxes, task.id);
    }

    /** DeleteTaskProc: Stop, then wait for is_finish_.  kinds are the ends of this task's modelbox
        tasks that are reported while it waits, and modelbox accepts every rerun; `waiting` when the
        reports ran out before is_finish_ was set. */
    method DeleteTaskProc(id: TaskId, stopped: bool, kinds: seq<Kind>, tm: TaskManager, mb: ModelBox,
                          server: MaMockServer, net: nat -> Attempt)
      returns (ok: bool, waiting: bool)
      requires Ready(tm, this, mb)
      modifies `tasks, tasks.Values, mb, server, tm`groups, tm`update, tm.groups.Values
      ensures Ready(tm, this, mb)
      ensures ok <==> id in old(tasks) && stopped && !waiting
      ensures !(id in old(tasks) && stopped) ==>
                !waiting && unchanged(this) && unchanged(tm) && unchanged(mb) && unchanged(server)
      ensures id in old(tasks) && stopped ==> (!waiting <==> Enough(kinds, old(|tasks[id].paths|)))
      ensures waiting ==>
                && tasks == old(tasks) && tm.groups == old(tm.groups)
                && server.taskInfo == old(server.taskInfo) && tm.update == old(tm.update)
      ensures id in old(tasks) && stopped && !waiting ==>
                && tasks == old(tasks) - {id} && tm.groups == old(tm.groups) - {id} && id in old(tm.groups) && tm.update
                && exists n: nat :: Decides(kinds, old(|tasks[id].paths|), n)
                               && Over(old(tm.groups)[id], old(tasks)[id], mb, kinds[n])
                               && server.taskInfo == Told(old(server.taskInfo), id, EndOf(kinds[n]), net)
    {
      var task := FindTaskByMaTaskId(id);
      if task == null || !stopped { return false, false; }
      ReadyEntry(tm, this, mb, id);
      hide Ready, Over, Told, EndOf, Decides, Enough;
      ghost var total := |task.paths|;
      var i := 0;
      while !task.finished && i < |kinds|
        invariant 0 <= i <= |kinds| && Ready(tm, this, mb) && (forall n :: 0 <= n < i - 1 ==> kinds[n] == FINISHED)
        invariant if task.finished then
                    && tasks == old(tasks) - {id} && tm.groups == old(tm.groups) - {id} && id in old(tm.groups)
                    && tm.update && 0 < i && Decides(kinds, total, i - 1)
                    && Over(old(tm.groups)[id], task, mb, kinds[i - 1])
                    && server.taskInfo == Told(old(server.taskInfo), id, EndOf(kinds[i - 1]), net)
                  else
                    && tasks == old(tasks) && tm.groups == old(tm.groups)
                    && server.taskInfo == old(server.taskInfo) && tm.update == old(tm.update)
                    && |task.paths| == total - i && forall n :: 0 <= n < i ==> kinds[n] == FINISHED
      {
        if kinds[i] == FINISHED && task.paths != [] {
          ReportNext(task, tm, mb, server, net);
        } else {
          assert Decides(kinds, total, i) by { LastReport(kinds, total, i); }
          ReportLast(task, kinds[i], tm, mb, server, net);
        }
        i := i + 1;
      }
      waiting := !task.finished;
      ok := !waiting;
      EnoughReports(kinds, total, i, waiting);
    }
  }

  // ------------------------------------------------------------------ the service between requests

  /** A report other than FINISHED, or more reports than paths left. */
  predicate Enough(kinds: seq<Kind>, left: nat) {
    (exists i :: 0 <= i < |kinds| && kinds[i] != FINISHED) || |kinds| > left
  }

  /** The status that a report leaves. */
  ghost function EndOf(kind: Kind): Status {
    if kind == ABNORMAL then FAILED else SUCCEEDED
  }

  lemma LastReport(kinds: seq<Kind>, left: nat, n: nat)
    requires n < |kinds| && n <= left && forall i :: 0 <= i < n ==> kinds[i] == FINISHED
    requires kinds[n] != FINISHED || n == left
    ensures Decides(kinds, left, n)
  {
  }

  lemma EnoughReports(kinds: seq<Kind>, left: nat, n: nat, waiting: bool)
    requires if waiting then n == |kinds| <= left && forall i :: 0 <= i < n ==> kinds[i] == FINISHED
             else 0 < n && Decides(kinds, left, n - 1)
    ensures waiting <==> !Enough(kinds, left)
  {
  }

  /** What every request and callback keeps: both tables hold the same ids, every group is RUNNING,
      every task unfinished, and every entry has a modelbox task of its own, started and not deleted. */
  ghost predicate Settled(view: map<TaskId, Status>, entries: map<TaskId, Entry>, boxes: seq<BoxTask>) {
    && view.Keys == entries.Keys
    && (forall t | t in view :: view[t] == RUNNING)
    && (forall t | t in entries :: !entries[t].finished && entries[t].registered && Runs(entries[t].box, boxes))
    && (forall t, u | t in entries && u in entries && t != u :: entries[t].box != entries[u].box)
  }

  ghost predicate Ready(tm: TaskManager, manager: ModelArtsManager, mb: ModelBox)
    reads tm`groups, manager`tasks, mb, tm.groups.Values, manager.tasks.Values
  {
    tm.Valid() && manager.Valid() && Settled(tm.View(), manager.Entries(), mb.tasks)
  }

  /** The old modelbox task of an entry is deleted, and a started one takes its place. */
  lemma Renewed(view: map<TaskId, Status>, entries: map<TaskId, Entry>, boxes: seq<BoxTask>, t: TaskId,
        after: seq<BoxTask>)
    requires Settled(view, entries, boxes) && t in entries
    requires |after| == |boxes| + 1 && Runs(Some(|boxes|), after)
    requires after[..|boxes|] == Dropped(boxes, entries[t].box.value)
    ensures Settled(view, entries[t := AfterRun(entries[t], |boxes|, RunOutcome(true, true, true))], after)
  {
    forall u | u in entries && u != t ensures Runs(entries[u].box, after) {
      assert after[..|boxes|][entries[u].box.value] == boxes[entries[u].box.value];
    }
  }

  lemma Joined(view: map<TaskId, Status>, entries: map<TaskId, Entry>, boxes: seq<BoxTask>, t: TaskId, entry: Entry,
        after: seq<BoxTask>)
    requires Settled(view, entries, boxes) && t !in view
    requires entry.box == Some(|boxes|) && !entry.finished && entry.registered
    requires |after| == |boxes| + 1 && Runs(Some(|boxes|), after) && after[..|boxes|] == boxes
    ensures Settled(view[t := RUNNING], entries[t := entry], after)
  {
    StillSettled(view, entries, boxes, after);
  }

  lemma EntryDropped(view: map<TaskId, Status>, entries: map<TaskId, Entry>, boxes: seq<BoxTask>, t: TaskId)
    requires Settled(view, entries, boxes) && t in entries
    ensures Settled(view - {t}, entries - {t}, Dropped(boxes, entries[t].box.value))
  {
  }

  lemma StillSettled(view: map<TaskId, Status>, entries: map<TaskId, Entry>, boxes: seq<BoxTask>, after: seq<BoxTask>)
    requires Settled(view, entries, boxes) && |after| >= |boxes| && after[..|boxes|] == boxes
    ensures Settled(view, entries, after)
  {
    forall u | u in entries ensures Runs(entries[u].box, after) {
      assert after[..|boxes|][entries[u].box.value] == boxes[entries[u].box.value];
    }
  }

  lemma BegunRuns(task: MATask, own: Path, given: seq<Path>, before: seq<BoxTask>, after: seq<BoxTask>)
    requires Begun(task, own, given, before, after)
    ensures |after| == |before| + 1 && after[..|before|] == before && Runs(Some(|before|), after)
    ensures task.box == Some(|before|) && !task.finished && task.registered
  {
  }

  lemma EntryIs(manager: ModelArtsManager, task: MATask)
    requires task.id in manager.tasks && manager.tasks[task.id] == task
    ensures task.id in manager.Entries()
    ensures manager.Entries()[task.id] == Entry(task.box, task.paths, task.finished, task.registered)
  {
  }

  /** No entry has modelbox task b. */
  ghost predicate NobodysBox(manager: ModelArtsManager, b: BoxId)
    reads manager`tasks, manager.tasks.Values
  {
    forall t | t in manager.tasks :: manager.tasks[t].box != Some(b)
  }

  lemma NobodysEntry(view: map<TaskId, Status>, entries: map<TaskId, Entry>, boxes: seq<BoxTask>)
    requires Settled(view, entries, boxes)
    ensures forall t | t in entries :: entries[t].box != Some(|boxes|)
  {
  }

  /** With every entry's modelbox task its own, the scan returns that task's entry and no other. */
  lemma EntryOf(view: map<TaskId, Status>, entries: map<TaskId, Entry>, boxes: seq<BoxTask>, t: TaskId)
    requires Settled(view, entries, boxes) && t in entries
    ensures t in view && view[t] == RUNNING && !entries[t].finished && entries[t].registered
    ensures Runs(entries[t].box, boxes)
    ensures forall hit :: ScanOutcome(BoxesOf(entries), entries[t].box.value, hit) <==> hit == Some(t)
  {
    assert forall u | u in entries :: u in BoxesOf(entries) && BoxesOf(entries)[u] == entries[u].box;
  }

  predicate SameStatus(groups: map<TaskId, TaskGroup>, status: Status)
    reads groups.Values
  {
    forall t | t in groups :: groups[t].status == status
  }

  lemma SameKeys(tm: TaskManager, manager: ModelArtsManager, mb: ModelBox)
    requires Ready(tm, manager, mb)
    ensures tm.groups.Keys == manager.tasks.Keys
  {
    assert tm.groups.Keys == tm.View().Keys && manager.tasks.Keys == manager.Entries().Keys;
  }

  lemma SameIds(tm: TaskManager, manager: ModelArtsManager, mb: ModelBox)
    requires Ready(tm, manager, mb)
    ensures tm.groups.Keys == manager.tasks.Keys && SameStatus(tm.groups, RUNNING)
  {
    SameKeys(tm, manager, mb);
    forall t | t in tm.groups ensures tm.groups[t].status == RUNNING { assert tm.View()[t] == tm.groups[t].status; }
  }

  lemma ReadyEntry(tm: TaskManager, manager: ModelArtsManager, mb: ModelBox, id: TaskId)
    requires Ready(tm, manager, mb) && id in manager.tasks
    ensures manager.tasks[id].id == id && !manager.tasks[id].finished && id in tm.groups
  {
    assert manager.Entries()[id].finished == manager.tasks[id].finished;
    assert id in tm.View();
  }

  /** The end a DELETE waits for, by a report of that kind. */
  ghost predicate Over(g: TaskGroup, task: MATask, mb: ModelBox, kind: Kind)
    reads g, task, mb
  {
    && g.status == EndOf(kind) && task.finished
    && task.box.Some? && task.box.value < |mb.tasks| && mb.tasks[task.box.value].deleted
  }

  // ------------------------------------------------------------------ restful_communication.cc

  datatype HttpRequest = Post(body: TaskRequest) | Delete(id: TaskId) | Get(id: TaskId) | OtherMethod | ForeignUrl

  /** What modelbox and the object store answer while one request is handled. */
  datatype Answers = Answers(listing: Option<seq<Path>>, run: RunOutcome, stopped: bool, kinds: seq<Kind>)

  class RestfulCommunication {
    const tm: TaskManager
    const manager: ModelArtsManager
    const mb: ModelBox
    const server: MaMockServer

    constructor (tm: TaskManager, manager: ModelArtsManager, mb: ModelBox, server: MaMockServer)
      ensures this.tm == tm && this.manager == manager && this.mb == mb && this.server == server
    {
      this.tm := tm;
      this.manager := manager;
      this.mb := mb;
      this.server := server;
    }

    /** CreateTaskPostProcess: tells the receiver about a new task, then asks for an instance message. */
    method CreateTaskPostProcess(g: TaskGroup?, net: nat -> Attempt)
      modifies server, tm`update
      ensures tm.update
      ensures g == null ==> server.taskInfo == old(server.taskInfo)
      ensures g != null ==>
                server.taskInfo == if Arrives(net) then old(server.taskInfo)[g.id := g.status] else old(server.taskInfo)
    {
      if g != null { tm.SendTaskInfoToMA(g, server, net); }
      tm.SendInstanceInfoToMA();
    }

    /** A POST and its post-processing. */
    method PostMsg(body: TaskRequest, maxTaskNum: nat, a: Answers, net: nat -> Attempt) returns (code: Http)
      requires Ready(tm, manager, mb)
      modifies tm`groups, tm`update, manager`tasks, mb, server
      ensures Ready(tm, manager, mb)
      ensures code == if body.Unreadable? || body.id in old(tm.groups) then BAD400
                      else if Makes(body.own, a.listing, a.run) then CREATED201
                      else ERROR500
      ensures if code == CREATED201 then
                && body.id in tm.groups && body.id in manager.tasks
                && tm.groups == old(tm.groups)[body.id := tm.groups[body.id]]
                && manager.tasks == old(manager.tasks)[body.id := manager.tasks[body.id]]
                && Begun(manager.tasks[body.id], body.own, Given(body.own, a.listing), old(mb.tasks), mb.tasks)
              else
                tm.groups == old(tm.groups) && manager.tasks == old(manager.tasks)
      ensures tm.update
      ensures server.taskInfo ==
              if code == CREATED201 && Arrives(net) then old(server.taskInfo)[body.id := RUNNING]
                  else old(server.taskInfo)
    {
      hide Ready, Makes, Begun, Given;
      var g;
      code, g := tm.CreateTaskProcess(body, maxTaskNum, manager, a.listing, mb, a.run);
      CreateTaskPostProcess(g, net);
    }

    /** A DELETE and its post-processing; None while it waits. */
    method DeleteMsg(id: TaskId, a: Answers, net: nat -> Attempt) returns (answer: Option<Http>)
      requires Ready(tm, manager, mb)
      modifies tm`groups, tm`update, tm.groups.Values, manager`tasks, manager.tasks.Values, mb, server
      ensures Ready(tm, manager, mb)
      ensures id !in old(tm.groups) ==> answer == Some(MISSING404)
      ensures id in old(tm.groups) && !a.stopped ==> answer == Some(ERROR500)
      ensures id in old(tm.groups) && a.stopped ==>
                && id in old(manager.tasks)
                && answer == if Enough(a.kinds, old(|manager.tasks[id].paths|)) then Some(ACCEPTED202) else None
      ensures if answer == Some(ACCEPTED202) then
                tm.groups == old(tm.groups) - {id} && manager.tasks == old(manager.tasks) - {id}
              else
                tm.groups == old(tm.groups) && manager.tasks == old(manager.tasks)
      ensures answer.Some? ==> tm.update
      ensures if answer == Some(ACCEPTED202) then
                exists n: nat :: Decides(a.kinds, old(|manager.tasks[id].paths|), n)
                                 && server.taskInfo == Told(old(server.taskInfo), id, EndOf(a.kinds[n]), net)
              else
                server.taskInfo == old(server.taskInfo) && (answer.None? ==> tm.update == old(tm.update))
    {
      hide Ready, Over, Decides, Enough, Told, EndOf;
      var code, waiting := tm.DeleteTaskProcess(id, manager, a.stopped, a.kinds, mb, server, net);
      if waiting { return None; }
      tm.SendInstanceInfoToMA();
      answer := Some(code);
    }

    /** One request, alone: its answer, None while a DELETE waits, and the two tables it leaves. */
    method MsgProcess(request: HttpRequest, maxTaskNum: nat, a: Answers,
          net: nat -> Attempt) returns (answer: Option<Http>)
      requires Ready(tm, manager, mb)
      modifies tm`groups, tm`update, tm.groups.Values, manager`tasks, manager.tasks.Values, mb, server
      ensures Ready(tm, manager, mb)
      ensures match request
              case ForeignUrl => answer == Some(BAD400)
              case OtherMethod => answer == Some(BAD400)
              case Get(id) => answer == Some(if id in old(tm.groups) then OK200 else MISSING404)
              case Post(body) =>
                answer == Some(if body.Unreadable? || body.id in old(tm.groups) then BAD400
                               else if Makes(body.own, a.listing, a.run) then CREATED201
                               else ERROR500)
              case Delete(id) =>
                && (id !in old(tm.groups) ==> answer == Some(MISSING404))
                && (id in old(tm.groups) && !a.stopped ==> answer == Some(ERROR500))
                && (id in old(tm.groups) && a.stopped ==>
                      && id in old(manager.tasks)
                      && answer == if Enough(a.kinds, old(|manager.tasks[id].paths|)) then Some(ACCEPTED202) else None)
      ensures if answer == Some(CREATED201) then
                && request.Post? && request.body.Wanted? && request.body.id in tm.groups &&
                   request.body.id in manager.tasks
                && tm.groups == old(tm.groups)[request.body.id := tm.groups[request.body.id]]
                && manager.tasks == old(manager.tasks)[request.body.id := manager.tasks[request.body.id]]
                && Begun(manager.tasks[request.body.id], request.body.own, Given(request.body.own, a.listing),
                         old(mb.tasks), mb.tasks)
              else if answer == Some(ACCEPTED202) then
                request.Delete? && tm.groups == old(tm.groups) - {request.id} &&
                    manager.tasks == old(manager.tasks) - {request.id}
              else
                tm.groups == old(tm.groups) && manager.tasks == old(manager.tasks)
      ensures (request.Post? || request.Delete?) && answer.Some? ==> tm.update
      ensures !request.Post? && !request.Delete? ==>
              tm.update == old(tm.update) && server.taskInfo == old(server.taskInfo)
    {
      assert tm.Valid();
      hide Ready, Makes, Begun, Given, Enough;
      match request
      case ForeignUrl => answer := Some(BAD400);
      case OtherMethod => answer := Some(BAD400);
      case Post(body) =>
        var code := PostMsg(body, maxTaskNum, a, net);
        answer := Some(code);
      case Delete(id) => answer := DeleteMsg(id, a, net);
      case Get(id) =>
        var code, state := tm.QueryTaskProcess(id);
        answer := Some(code);
    }
  }
}
