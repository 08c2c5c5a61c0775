/** One ModelArts task of the plugin, MATask, and the modelbox task manager it drives. */
module PluginTask {
  import opened Types
  import opened ObsSource
  import opened Protocol

  /** What a modelbox task was given, and how far it got. */
  datatype BoxTask = BoxTask(input: Path, session: Path, started: bool, deleted: bool)

  /** What modelbox and the buffers answer along one call of MATask::Run. */
  datatype RunOutcome = RunOutcome(created: bool, prepared: bool, started: bool)

  /** modelbox::TaskManager as the plugin uses it: fresh tasks, filled, started and deleted. */
  class ModelBox {
    var tasks: seq<BoxTask>

    constructor ()
      ensures tasks == []
    {
      tasks := [];
    }

    method CreateTask(created: bool) returns (b: Option<BoxId>)
      modifies this
      ensures if created then b == Some(old(|tasks|)) && tasks == old(tasks) + [BoxTask("", "", false, false)]
              else b == None && tasks == old(tasks)
    {
      if !created { return None; }
      b := Some(|tasks|);
      tasks := tasks + [BoxTask("", "", false, false)];
    }

    method Change(b: BoxId, task: BoxTask)
      requires b < |tasks|
      modifies this
      ensures tasks == old(tasks)[b := task]
    {
      tasks := tasks[b := task];
    }
  }

  /** A task over an OBS input; `own` is the path of its request. */
  class MATask {
    const id: TaskId
    const own: Path
    var paths: seq<Path>       // input_path_list_
    var running: Path          // input_path_running_
    var box: Option<BoxId>     // modelbox_task_
    var registered: bool       // func_ is set
    var finished: bool         // is_finish_

    constructor (id: TaskId, own: Path)
      ensures this.id == id && this.own == own
      ensures paths == [] && running == "" && box == None && !registered && !finished
    {
      this.id := id;
      this.own := own;
      paths := [];
      running := "";
      box := None;
      registered := false;
      finished := false;
    }

    /** listing is what the object store answers, None when the call fails. */
    method Init(listing: Option<seq<Path>>) returns (ok: bool)
      modifies `paths
      ensures ok <==> !IsDirectory(own) || (listing.Some? && listing.value != [])
      ensures paths == if IsDirectory(own) && listing.Some? then listing.value else old(paths)
    {
      ok := true;
      if IsDirectory(own) { ok := GetObsFileListByPath(listing); }
    }

    method GetObsFileListByPath(listing: Option<seq<Path>>) returns (ok: bool)
      modifies `paths
      ensures ok <==> listing.Some? && listing.value != []
      ensures paths == if listing.Some? then listing.value else old(paths)
    {
      if listing.None? { return false; }
      paths := listing.value;
      ok := paths != [];
    }

    method RegisterStatusCallback()
      modifies `registered
      ensures registered
    {
      registered := true;
    }

    /** Takes the next path from the back of the list. */
    method FillObsInputInfo() returns (path: Path)
      modifies `paths, `running
      ensures path == InputPath(NextSource(old(paths)), own)
      ensures paths == RestPaths(old(paths))
      ensures running == RunningAfter(old(running), NextSource(old(paths)))
    {
      if paths == [] {
        path := own;
      } else {
        path := paths[|paths| - 1];
        running := path;
        paths := paths[..|paths| - 1];
      }
    }

    method GetInputStringForActualPath() returns (path: Path)
      ensures path == SessionPath(running, own)
    {
      path := if running != "" then running else own;
    }

    /** FillInputData and FillSessionConfig; a failure anywhere after the path was taken is prepared == false. */
    method PreProcess(mb: ModelBox, prepared: bool) returns (ok: bool)
      requires box.Some? && box.value < |mb.tasks|
      modifies `paths, `running, mb
      ensures ok == prepared
      ensures paths == RestPaths(old(paths)) && running == RunningAfter(old(running), NextSource(old(paths)))
      ensures prepared ==>
                mb.tasks == old(mb.tasks)[box.value := old(mb.tasks)[box.value].(
                  input := InputPath(NextSource(old(paths)), own), session := SessionPath(running, own))]
      ensures !prepared ==> mb.tasks == old(mb.tasks)
    {
      var input := FillObsInputInfo();
      if !prepared { return false; }
      var session := GetInputStringForActualPath();
      mb.Change(box.value, mb.tasks[box.value].(input := input, session := session));
      ok := true;
    }

    /** A fresh modelbox task, filled and started; it becomes the current one however far it gets. */
    method Run(mb: ModelBox, o: RunOutcome) returns (ok: bool)
      modifies `box, `paths, `running, mb
      ensures ok == (o.created && o.prepared && registered && o.started)
      ensures box == if o.created then Some(old(|mb.tasks|)) else None
      ensures !o.created ==> paths == old(paths) && running == old(running) && mb.tasks == old(mb.tasks)
      ensures o.created ==>
                && paths == RestPaths(old(paths)) && running == RunningAfter(old(running), NextSource(old(paths)))
                && |mb.tasks| == old(|mb.tasks|) + 1 && mb.tasks[..old(|mb.tasks|)] == old(mb.tasks)
                && mb.tasks[old(|mb.tasks|)] ==
                   if o.prepared then
                     BoxTask(InputPath(NextSource(old(paths)), own), SessionPath(running, own), ok, false)
                   else BoxTask("", "", false, false)
    {
      box := mb.CreateTask(o.created);
      if box.None? { return false; }
      ok := PreProcess(mb, o.prepared);
      if !ok { return false; }
      if !registered { return false; }
      if !o.started { return false; }
      mb.Change(box.value, mb.tasks[box.value].(started := true));
      ok := true;
    }

    method Delete(mb: ModelBox)
      requires box.Some? && box.value < |mb.tasks|
      modifies mb
      ensures mb.tasks == old(mb.tasks)[box.value := old(mb.tasks)[box.value].(deleted := true)]
    {
      mb.Change(box.value, mb.tasks[box.value].(deleted := true));
    }

    method TaskCanFinish() returns (b: bool)
      ensures b <==> paths == []
    {
      b := paths == [];
    }

    method SetTaskFinishStatus(status: bool)
      modifies `finished
      ensures finished == status
    {
      finished := status;
    }
  }
}
