# ModelArts task plugin: a verified model

The repository runs ModelArts tasks on an edge device.  A POST makes a task: one `TaskGroup` in
`TaskManager::task_group_map_`, which is what the cloud is told, and one `MATask` in
`ModelArtsManager::task_list_map_`, which is what runs.  A task over an OBS directory becomes a chain of
modelbox tasks, one per listed object.  Modelbox reports the end of each of its tasks through a callback on
a thread of its own, a heartbeat thread sends the whole task table to the cloud, and a DELETE blocks on a
condition variable until a callback wakes it.

The project models that service in two ways and proves what it is for.

**The protocol** (`Protocol.dfy`) is a state machine whose atomic steps are the lock regions and the single
reads and writes of atomic fields in the code: the HTTP handler that holds `msg_concurrency_mutex_`
(`Handler`), one thread per modelbox callback (`Callback`), and the heartbeat (`Heartbeat`), over the two
tables, the tasks' fields, modelbox, the receiver's table and the two flags `update_` and `stop_`.  Every
outcome of modelbox and the network is a label of the step, so a run is a list of steps and every theorem is
about all of them.  An incarnation (`Ref`) is the pair of objects that one accepted POST makes.

| steps of the protocol | source |
|---|---|
| `FindForCreate`, `AddGroup`, `MarkRunning` | task_manager.cc:297-358 |
| `Running`, `Rerun` with their stages | modelarts_task.cc:96-125, 272-286 |
| `AddTask` | modelarts_manager.cc:77-80 |
| `ReadDetail`, `Report`, `Reply` | task_manager.cc:240-260, 433-449; restful_communication.cc:229-246 |
| `FindForDelete`, `CheckStatus`, `FindTaskEntry`, `Halt`, `Await` | task_manager.cc:383-409; modelarts_manager.cc:85-114; modelarts_task.cc:71-90, 456-459 |
| `Lookup`, `Decide`, `DropBox`, `DeleteBox`, `Finish`, `EraseTask` | modelarts_manager.cc:116-185; modelarts_task.cc:92-94, 448-461 |
| `FindGroup`, `Compare`, `SetStatus`, `ReadState`, `Tell`, `EraseGroup`, `Notify` | task_manager.cc:469-499 |
| `Top`, `Collect`, `Sending`, `Waiting`, `Exited` | task_manager.cc:176-226 |
| `Net` | restful_communication.cc:56-95 |

**The classes** (`PluginTask.dfy`, `Service.dfy`, `Communication.dfy`, `Cipher.dfy`) are the code's own
objects with the fields it updates in place; each method is one request or callback running alone and is
proved against the functions that the protocol uses; `Refinement.dfy` ties the tables the classes promise to
runs of the protocol.  `Masking.dfy`, `Quotes.dfy`, `KeyChain.dfy`, `MaskingTwice.dfy` and
`Secrets.dfy` are `DataMasking` as the pure function it is.

What is assumed of the surroundings, and where:

- Modelbox gives a fresh id to every task it creates and reports the end of a started task at most once.
  All theorems.
- An attempt to send succeeds only if the receiver processed it; an attempt that failed may have been
  processed, but not after `SendWithRetry` has gone on.  All theorems about the receiver.
- *Published*: modelbox does not report on a task from its Start until its creator has inserted the group in
  `task_group_map_` (`Published.AfterPublication`).  Needed by the delete contract and the agreement of the
  tables.  `Orphans.EarlyCallbackOrphans`,
  `Orphans.OrphanAnswers` and `Solo.CrashOccurs` show what happens without it,
  `Orphans.LostExactlyWhenEarly` that it is exactly the condition.
- *Settled ids*: a POST of an id that the manager still knows finds the group published
  (`Agreement.SettledIds`).  Ids that are never used again satisfy it; it is weaker than that.
- *Reruns succeed*: the result of `Run` that the callback ignores is a success (`Runs.RerunsSucceed`).
  It is all that the reverse lookup, the loss-free form of exactly-once and `Progress.AwaitedIsAlive` need.
  `Orphans.FailedRerunDooms`, `Stranded.FailedRerunBlocks` and `NullEntries.NullForever` show what a failure does.
- The invariant `Invariants.Inv`, status order, conservation, convergence, shutdown, exactly-once with its
  one path that a failed run may lose, the bounds, and the absence of deadlock need none of the three: in
  every reachable state a waiting DELETE can be answered exactly when `Waiting.AnsweredExactly` says so.

What the model shows about the code beyond what its comments promise:

- A terminal callback that looks its group up before the insertion leaves the task RUNNING in the table for
  good: every later DELETE answers 500, every later POST of the id 400.
- A rerun that fails leaves the task RUNNING with nothing that could end it: a DELETE whose Stop succeeds
  then waits for ever and with it every later request (`Stranded.FailedRerunBlocks`, `Stranded.DeleteHangs`).
- A `PreProcess` that fails has already taken its path, which no later run gets back (`Sources.ExactlyOnce`,
  `Sources.LossIsFinal`).
- A rerun whose `CreateTask` fails leaves an entry with a null modelbox task for good: every later report of
  any task can use it, and a DELETE that halts it does (`NullEntries.NullCrashes`).
- `ModelBoxTaskStatusCallBack` logs a missing entry and then dereferences it; the model calls that a crash
  and shows when it happens (`Lookup.LookupFailsExactly`, `Solo.CrashOccurs`) and that it does not under the
  three hypotheses.
- `Run` that fails after `CreateTask` leaves a modelbox task, never started, that no entry holds
  (`Service.TaskManager.RunNew`) and nobody ever deletes (`Leaks.LeakedForever`).
- `CipherMsg` takes its output buffer by value (src/modelarts_client/common/cipher.cc:280-281), so
  `DecryptMsg` would read a null buffer; the model hands the buffer back.  `DecryptFromBase64` passes the text
  it was given instead of the decoded one (line 184); the model starts at `DecryptMsg`.
- `DataMasking` is not idempotent as a whole although each pass is, and neither are its key passes alone.
  In `"sk":"ak":"v"ak":"x"` the "ak" pass masks `"ak":"v"` and so overlooks the match that begins with that
  value's closing quote; the "sk" pass then masks the `ak`, and the next call finds `"ak":"x"`.
  `MaskingTwice.IdempotentExactly` says exactly which texts a second call leaves alone.
- `DataMasking` can leave a secret: in `"ak":"v"ak":"x"` the second match begins with the quote that closes the
  first, which the pass has gone past, and `x` stays (`Secrets.SharedQuote`); and in `://a"ak":"/"b:c@` the key
  pass takes away the slash that kept the URL pass from matching (`Masking.ChainNotIdempotent`).
  `Secrets.AllMaskedExactly` and `Secrets.UrlsMaskedExactly` say exactly which texts come out without any, and
  `Secrets.NoSecretLeft` that a key can be left in no other way than the first.
- An encryption whose sizes leave the int range gets a buffer that is too small, or is refused
  (`Cipher.ShortOutside`); the model calls a write past the buffer's end an overrun.
- An empty OBS path counts as a directory, because `rfind` and `length() - 1` both give `npos`.

## Model

| member | source | states |
|---|---|---|
| `Invariants.StepKeeps` | src/modelarts_plugin/modelarts_manager.cc:51-185 | every step of every thread, whatever the environment answers, keeps the protocol's invariant: only the last launched modelbox task of a task can still end, a callback belongs to it, the tables agree wherever both know an id, a published group is never PENDING |
| `Runs.InitialInv` | src/modelarts_client/include/task_manager.h:157-171 | the service starts in the invariant |
| `Runs.StatusOrder` | src/modelarts_client/task/task_manager.cc:347-352 | over every run a status only moves PENDING, RUNNING, SUCCEEDED or FAILED; a terminal status is final; ids and listings never change |
| `Runs.StatusAccess` | src/modelarts_client/task/task_manager.cc:478-484 | RUNNING is written by the creator over PENDING only, a terminal status by a callback over RUNNING only |
| `Runs.GroupAccess` | src/modelarts_client/task/task_manager.cc:488-494 | an insertion in the group table adds an absent id of a RUNNING group; an erasure removes the callback's own, terminal group |
| `Runs.CreateNeverOverwrites` | src/modelarts_client/task/task_manager.cc:310-352 | no step replaces a published group; a 201 answer always adds an absent id, so at most one POST of an id is accepted while that task lives |
| `Runs.TasksAreConserved` | src/modelarts_client/task/task_manager.cc:347-357 | in every reachable state without a callback between status update and erase, the 201 answers are the published groups plus the RUNNING-to-terminal moves |
| `Runs.PublishedStatus` | src/modelarts_client/task/task_manager.cc:347-352 | a published group is RUNNING, or terminal with its own callback about to erase it |
| `Reachable.TraceSound` | src/modelarts_plugin/modelarts_task.cc:448-461 | in every reachable state: `is_finish_` means that nothing of the task runs and its callback is at its last step; a terminal status has its callback in progress or `is_finish_` set; entries and waiting DELETEs stand for launched tasks; before its entry is made no callback of a task is past its lookup |
| `Endings.EndsAsReported` | src/modelarts_plugin/modelarts_manager.cc:145-170 | in every run a task is FAILED exactly when the last modelbox task it started was reported ABNORMAL, and SUCCEEDED exactly when that one was reported STOPPED, or FINISHED with no path left |
| `Endings.EndsAtItsCallback` | src/modelarts_client/task/task_manager.cc:478-484 | and it becomes so at no other step than the status update of that report's callback, which always makes it so |
| `Endings.ToldAsReported` | src/modelarts_client/task/task_manager.cc:484-489 | the callback tells the receiver FAILED for a report of ABNORMAL that came and SUCCEEDED for any other, under the task's own id |
| `Deletions.DeletedWhenOver` | src/modelarts_plugin/modelarts_manager.cc:158-175 | in every run no modelbox task is deleted while it can still end; every one that has ended is, but for the last one its task started, and that one is before `is_finish_` is set |
| `Convergence.CloudConverges` | src/modelarts_client/task/task_manager.cc:199-238 | in every run, when nobody owes an update, the heartbeat waits, `update_` is false and its last send succeeded, the receiver's table is the view of the group table, whatever was stale, lost or repeated |
| `Convergence.DebtsArePaid` | src/modelarts_client/task/task_manager.cc:433-449 | whoever changed the view or told the receiver sets `update_` before it is done |
| `Convergence.QuietView` | src/modelarts_client/task/task_manager.cc:240-260 | while nobody owes an update no step but the heartbeat's changes the receiver or the view |
| `Convergence.BeatStaysClean` | src/modelarts_client/task/task_manager.cc:176-226 | the snapshot taken under the lock, the message built from it and what the receiver got stay equal to the view |
| `CatchingUp.CatchesUp` | src/modelarts_client/task/task_manager.cc:176-226 | from every reachable state that is not stopped, the heartbeat left alone with a network that answers reaches its wait with `update_` false and the receiver's table equal to the view |
| `Shutdown.ShutdownBound` | src/modelarts_client/task/task_manager.cc:199-226 | once `stop_` is set, in every interleaving the heartbeat takes a bounded number of steps and begins at most one more instance message, and only if it was collecting it |
| `Shutdown.HeartbeatExits` | src/modelarts_client/task/task_manager.cc:262-274 | from every such state the heartbeat reaches its exit by its own steps, within the bound, so `join` returns |
| `Shutdown.BeatCanStep` | src/modelarts_client/task/task_manager.cc:217-225 | the heartbeat is never blocked before its exit |
| `Sources.ExactlyOnce` | src/modelarts_plugin/modelarts_task.cc:132-148 | in every run, the paths handed to modelbox, at most one path lost by a run that failed after taking it, and the paths left are the listing from its end: no other is skipped, none repeated, the directory itself never handed over |
| `Sources.TakenExactly` | src/modelarts_plugin/modelarts_task.cc:272-286 | a path is handed over exactly by a `PreProcess` that succeeds, lost exactly by one that fails, it is the last one left, and no other step takes one |
| `Sources.LossIsFinal` | src/modelarts_plugin/modelarts_manager.cc:158-162 | after such a loss the task never takes or starts anything again, in every continuation |
| `Sources.NothingLost` | src/modelarts_plugin/modelarts_task.cc:96-125 | when reruns succeed, every task that was ever started has handed over the whole listing but for the paths left |
| `Sources.FinishedMeansAll` | src/modelarts_plugin/modelarts_manager.cc:158-166 | SUCCEEDED is written for FINISHED only after every listed path was handed over |
| `Sources.RunsBound` | src/modelarts_plugin/modelarts_task.cc:96-125 | a task over n listed objects creates at most max(1, n) modelbox tasks |
| `Sources.EndsBound` | src/modelarts_plugin/modelarts_manager.cc:149-166 | and receives at most max(1, n) terminal callbacks over any run |
| `Sources.PathAgreement` | src/modelarts_plugin/modelarts_task.cc:357-370 | for every run and every rerun, the submitted path equals the path in the session config exactly when the listed name is not empty or the request's own path is empty |
| `ObsSource.DirectoryPaths` | src/modelarts_plugin/modelarts_task.cc:57-69 | with size_t arithmetic, a path is taken for a directory exactly when it is empty or ends in a slash |
| `Published.DeleteContract` | src/modelarts_plugin/modelarts_manager.cc:85-104 | whenever a DELETE that waited is at its answer, that answer is 202, its id is out of the group table, the status of the task it waited for is terminal and its modelbox task deleted, however the callback and Stop interleaved |
| `Published.GoneStays` | src/modelarts_client/task/task_manager.cc:484-494 | a terminal group that is out of the table never comes back |
| `Published.EndedStays` | src/modelarts_plugin/modelarts_manager.cc:172-175 | nor does its modelbox task get replaced |
| `Published.StepPublished` | src/modelarts_plugin/modelarts_manager.cc:172-180 | under the published hypothesis the order erase the group, delete the modelbox task, wake the waiter, erase the entry is kept by every step of every thread |
| `Answers.AnswersTheLastRequest` | src/modelarts_client/communicate/restful_communication.cc:229-246 | in every run the answer belongs to the last request that came: its id, its method, and a code that this request may get |
| `Answers.PostAnswered` | src/modelarts_client/task/task_manager.cc:297-358 | a POST gets 400 exactly for an unreadable body or a published id, 500 exactly when Init refuses its input or a stage of Run fails, 201 exactly when its message has been sent or given up |
| `Answers.DeleteAnswered` | src/modelarts_client/task/task_manager.cc:383-409 | a DELETE gets 404 exactly for an id that is not published, 500 exactly when the manager has no entry or Stop fails, 202 exactly when the group it found has ended or the task it waits for is finished, and then a report of that task's end has come |
| `Answers.PostTells` | src/modelarts_client/task/task_manager.cc:433-443 | what a POST tells the receiver is its own id, RUNNING or the status with which the task has ended already |
| `Answers.TenAttempts` | src/modelarts_client/communicate/restful_communication.cc:56-95 | in every run each message, of a POST, a callback or the heartbeat, starts with ten attempts, loses one with each failure, and returns with the first success or the tenth failure |
| `Orphans.LostExactlyWhenEarly` | src/modelarts_client/task/task_manager.cc:471-476 | in every run a terminal callback misses its group exactly when it looks before the creator's insertion |
| `Orphans.EarlyCallbackDooms` | src/modelarts_plugin/modelarts_manager.cc:77-80 | such a callback dooms the task, wherever its creation stands |
| `Orphans.FailedRerunDooms` | src/modelarts_plugin/modelarts_manager.cc:158-162 | so does a rerun that fails, before the insertion of the group and after it |
| `Orphans.DoomedForever` | src/modelarts_client/task/task_manager.cc:347-352 | a doomed task is RUNNING in the group table in every continuation |
| `Orphans.EarlyCallbackOrphans` | src/modelarts_client/task/task_manager.cc:471-476 | when a terminal callback looked its group up before the insertion, then in every continuation, once it has returned and no request is in progress, its task is abandoned |
| `Orphans.OrphanBegins` | src/modelarts_plugin/modelarts_manager.cc:178-180 | the orphan begins when that callback erases the entry while the POST has not inserted the group |
| `Orphans.OrphanAnswers` | src/modelarts_client/task/task_manager.cc:323-358 | from then on, in every continuation: the POST itself is answered 201, the group is published RUNNING, every later POST of the id is answered 400 and every later DELETE 500 |
| `Orphans.OrphanForever` | src/modelarts_client/task/task_manager.cc:395-401 | an abandoned task stays so: RUNNING, every later DELETE of the id answered 500 and every later POST 400, in every continuation |
| `Orphans.OrphansOccur` | src/modelarts_plugin/modelarts_manager.cc:67-80 | from every idle state, for every unpublished id and every listing, some run ends in that state with a 201 answer |
| `Leaks.FailureLeaks` | src/modelarts_client/task/task_manager.cc:338-345 | when a POST's run fails after `CreateTask` succeeded, it is answered 500 and the modelbox task is leaked |
| `Leaks.LeakedForever` | src/modelarts_plugin/modelarts_manager.cc:67-75 | in every continuation it is neither started nor deleted |
| `Stranded.FailedRerunSilences` | src/modelarts_plugin/modelarts_manager.cc:158-162 | in every reachable state a failed rerun leaves its task without a running modelbox task, a callback or `is_finish_` |
| `Stranded.SilencedForever` | src/modelarts_plugin/modelarts_manager.cc:132-185 | in every continuation |
| `Stranded.FailedRerunBlocks` | src/modelarts_plugin/modelarts_manager.cc:93-99 | whatever follows, a DELETE that comes to wait for such a task waits for ever |
| `Stranded.WaitsForever` | src/modelarts_client/communicate/restful_communication.cc:229-246 | and meanwhile no other request is served |
| `Stranded.DeleteHangs` | src/modelarts_plugin/modelarts_manager.cc:85-99 | and a DELETE whose Stop succeeds does come to wait |
| `NullEntries.NullBegins` | src/modelarts_plugin/modelarts_task.cc:96-104 | a rerun whose `CreateTask` fails leaves an entry without a modelbox task, which lasts if no callback of an earlier task of the same id is left |
| `NullEntries.NullForever` | src/modelarts_plugin/modelarts_manager.cc:158-162 | in every continuation |
| `NullEntries.NullCrashes` | src/modelarts_plugin/modelarts_manager.cc:116-141 | while it is there every report of any task can dereference null, and a DELETE that halts it does |
| `Solo.PostAlone` | src/modelarts_client/task/task_manager.cc:323-358 | for every unpublished id and every listing, a POST left alone is a run within the three hypotheses that ends with the same new RUNNING task in both tables, its first path in a started modelbox task, and the receiver and the heartbeat told |
| `Solo.CrashOccurs` | src/modelarts_plugin/modelarts_manager.cc:134-141 | without the published hypothesis, from every idle state, for every unpublished id, every listing and every kind of report, some run dereferences the null entry |
| `Refinement.PostRefines` | src/modelarts_client/task/task_manager.cc:338-352 | a POST left alone changes what the two tables show as `RunNew` and `CreateTaskProc` promise, in a run within the three hypotheses |
| `Refinement.EndRefines` | src/modelarts_plugin/modelarts_manager.cc:172-180 | in every sound state, so does a report that ends a published task, with the callback left alone: the id leaves both tables as `Close` promises, the status is FAILED after ABNORMAL and SUCCEEDED otherwise, `is_finish_` is set and the other entries of both tables stay |
| `Agreement.ScanHits` | src/modelarts_plugin/modelarts_manager.cc:116-134 | the scan for a reporting modelbox task of a published group finds its entry |
| `Agreement.NoCrash` | src/modelarts_plugin/modelarts_manager.cc:134-141 | under the three hypotheses no step dereferences a null pointer |
| `Agreement.StepAgrees` | src/modelarts_plugin/modelarts_manager.cc:172-180 | every step keeps the accounts of both tables |
| `Agreement.TwoMapAgreement` | src/modelarts_plugin/modelarts_manager.cc:51-83 | in every such run: every group has its own entry, an entry without a group is the one being created or one whose callback has erased the group, and at rest the tables are equal and every group RUNNING |
| `Lookup.ReverseLookupExact` | src/modelarts_plugin/modelarts_manager.cc:116-130 | in every run whose reruns succeed, whenever reports come and whatever ids are used, all entries have distinct non-null modelbox tasks, and the scan returns an entry exactly when its current modelbox task is the one searched |
| `Lookup.LookupFailsExactly` | src/modelarts_plugin/modelarts_manager.cc:132-141 | in every such run a callback gets the null entry exactly when the table does not hold the owner of its modelbox task |
| `Progress.StepIsLive` | src/modelarts_plugin/modelarts_task.cc:456-459 | a launched task is never lost: it runs, or its callback is on the way to `is_finish_`, or that is set |
| `Progress.CallbackCompletes` | src/modelarts_plugin/modelarts_manager.cc:132-185 | in every reachable state, a callback that is past its lookup, or whose entry is there, can run to its return by its own steps and the heartbeat's release of the table lock, never the handler's; it then has set `is_finish_` and cleared both tables of the id, or relaunched the task and left both alone |
| `Progress.AwaitedIsAlive` | src/modelarts_plugin/modelarts_manager.cc:93-99 | while reruns succeed and nothing crashed, whenever a DELETE waits, its task runs, or its callback is in progress, or `is_finish_` is set |
| `Progress.DeleteIsReleased` | src/modelarts_client/communicate/restful_communication.cc:229-246 | deadlock freedom, without hypotheses: wherever a DELETE waits with the handlers' mutex and its terminal callback was delivered, and is past its lookup or finds the entry, that callback can step through and the DELETE can answer |
| `Progress.OneReport` | src/modelarts_plugin/modelarts_manager.cc:158-166 | in every reachable state with the entry present, a FINISHED report that finds paths left can run through to a relaunch with exactly one path fewer, any other report to `is_finish_` |
| `Waiting.DeleteReturns` | src/modelarts_plugin/modelarts_manager.cc:93-99 | however Stop and FINISHED race, at most one report per path left plus one, of any kinds, lets a releasable waiting DELETE answer |
| `Waiting.AnsweredExactly` | src/modelarts_plugin/modelarts_manager.cc:85-104 | in every reachable state in which a DELETE waits, some continuation without a step of the handler answers it if and only if `is_finish_` is set, or its callback is past the lookup and ends the task, or the entry is there and the task runs or reports |
| `Waiting.AnsweredUnlessSilenced` | src/modelarts_plugin/modelarts_manager.cc:85-104 | so while the entry is there, if and only if the task is not silenced |
| `Waiting.NeverSilenced` | src/modelarts_plugin/modelarts_manager.cc:158-162 | which never happens while reruns succeed |
| `Bounds.CallbackBound` | src/modelarts_plugin/modelarts_manager.cc:132-185 | in every interleaving and whatever modelbox and the network answer, the callback of an ended modelbox task takes a bounded number of steps and never comes back |
| `Bounds.ReportsBound` | src/modelarts_plugin/modelarts_manager.cc:149-166 | from every reachable state, in every continuation, a task receives at most as many further terminal reports as it has paths left, plus one |
| `Communication.MaMockServer.HandleInstanceMsg` | test/mock_server/ma_mock_server.cc:104-121 | clearing and refilling leaves exactly the listed table |
| `Communication.TableOfListing` | src/modelarts_client/task/task_manager.cc:176-197 | a message that lists every entry once, in any order, carries the table |
| `Communication.HandledTwice` | test/mock_server/ma_mock_server.cc:104-135 | a repeated message changes nothing |
| `Communication.SendWithRetry` | src/modelarts_client/communicate/restful_communication.cc:56-95 | success exactly when the last attempt is answered with a status from 200 to 299, no earlier one is, at most ten attempts and fewer only after a success; the receiver has the message exactly when one of them reached it |
| `Communication.SendRefinesNet` | src/modelarts_client/communicate/restful_communication.cc:59-94 | every call over an honest network is a play of the protocol's network steps |
| `Communication.SuccessArrives` | src/modelarts_client/communicate/restful_communication.cc:78-82 | a call that comes to a 2xx answer within its ten attempts was heard, when such answers come from a receiver that processed the request |
| `PluginTask.MATask.Init` | src/modelarts_plugin/modelarts_task.cc:57-69 | a directory must list something, any other path is taken as it is |
| `PluginTask.MATask.GetObsFileListByPath` | src/modelarts_plugin/modelarts_task.cc:34-55 | stores the listing; fails when the call fails or lists nothing |
| `PluginTask.MATask.FillObsInputInfo` | src/modelarts_plugin/modelarts_task.cc:132-148 | takes the last path and remembers it, or uses the request's own |
| `PluginTask.MATask.PreProcess` | src/modelarts_plugin/modelarts_task.cc:272-286 | consumes a path even when it fails later; on success both paths are written to the modelbox task |
| `PluginTask.MATask.Run` | src/modelarts_plugin/modelarts_task.cc:96-125 | the current modelbox task is the new one however far the run gets, null when none was created; exactly what was consumed and submitted |
| `Service.TaskManager.GetRunningTaskCount` | src/modelarts_client/task/task_manager.cc:276-286 | the number of groups that are PENDING or RUNNING, whatever the order of the table |
| `Service.TaskManager.GetInstanceInfo` | src/modelarts_client/task/task_manager.cc:176-197 | the listing has one entry per group and carries exactly the view |
| `Service.TaskManager.HeartbeatRound` | src/modelarts_client/task/task_manager.cc:203-212 | the receiver's table becomes the view exactly when an attempt arrives; success over an honest network means it did; `wait_time_` is raised on success only |
| `Service.TaskManager.SendTaskInfoToMA` | src/modelarts_client/task/task_manager.cc:240-260 | the receiver gets the group's status exactly when an attempt arrives |
| `Service.TaskManager.UpdateTaskStatus` | src/modelarts_client/task/task_manager.cc:469-499 | a new status is set, told to the receiver and asks for an update; SUCCEEDED and FAILED take the group out of the table, the others leave it there; the same status or an unknown id changes nothing |
| `Service.TaskManager.CreateTaskGroup` | src/modelarts_client/task/task_manager.cc:297-321 | null and 400 exactly for an unreadable body or a known id, else a fresh PENDING group |
| `Service.TaskManager.RunNew` | src/modelarts_client/task/task_manager.cc:338-352 | publishes the group RUNNING exactly when the plugin runs the task, with an entry whose only modelbox task is started with the last listed path, and keeps the service ready; otherwise both tables are unchanged, and one more modelbox task, unstarted, undeleted and in no entry, is left exactly when `CreateTask` had succeeded |
| `Service.TaskManager.CreateTaskProcess` | src/modelarts_client/task/task_manager.cc:323-358 | 400, 500 or 201 exactly as the body, the tables and modelbox demand; only 201 changes a table, with the entry's paths and its started modelbox task spelled out; 400 changes nothing in modelbox, 500 leaves at most the unused modelbox task; the task limit is not enforced |
| `Service.TaskManager.DeleteTaskProcess` | src/modelarts_client/task/task_manager.cc:383-409 | 404 exactly for an unpublished id, 500 exactly for a published one whose Stop fails, otherwise 202 once a report other than FINISHED has come or the reports outnumber the paths left, and no answer before; after 202 the id is out of both tables, FAILED or SUCCEEDED as the deciding report says and the receiver told so, the modelbox task deleted |
| `Service.TaskManager.QueryTaskProcess` | src/modelarts_client/task/task_manager.cc:360-381 | answers what the table shows |
| `Service.ModelArtsManager.FindTaskByModelboxTaskId` | src/modelarts_plugin/modelarts_manager.cc:116-130 | the first entry, in the order it visits them, whose modelbox task is the one searched, or null at the first entry without a modelbox task, or when it has visited all |
| `Service.ModelArtsManager.CreateTaskProc` | src/modelarts_plugin/modelarts_manager.cc:51-83 | enters the task exactly when Init and Run succeed, with its last path submitted to one started modelbox task and the rest kept; otherwise leaves the table alone and one unused modelbox task exactly when one was created |
| `Service.ModelArtsManager.Close` | src/modelarts_plugin/modelarts_manager.cc:172-180 | the task leaves both tables, its group has the status and the receiver is told, it is finished and its modelbox task deleted |
| `Service.ModelArtsManager.Again` | src/modelarts_plugin/modelarts_manager.cc:159-162 | the old modelbox task is deleted; the next one, if modelbox creates it, is not deleted, is started exactly when the run succeeds and carries the last path, which leaves the entry; null when its creation failed |
| `Service.ModelArtsManager.ModelBoxTaskStatusCallBack` | src/modelarts_plugin/modelarts_manager.cc:132-185 | what each report does to both tables, the entry, modelbox and the receiver: nothing; a rerun of the last path; or the end of the task, FAILED for ABNORMAL and SUCCEEDED for STOPPED and for FINISHED with no path left; null for the missing entry that the code dereferences |
| `Service.ModelArtsManager.DeleteTaskProc` | src/modelarts_plugin/modelarts_manager.cc:85-104 | the wait ends exactly when a report other than FINISHED comes or the reports outnumber the paths left; then the id is out of both tables and the status is that of the report that ended the wait |
| `Service.RestfulCommunication.CreateTaskPostProcess` | src/modelarts_client/task/task_manager.cc:433-443 | tells the receiver about a created task only, and always asks for an update |
| `Service.RestfulCommunication.PostMsg` | src/modelarts_client/communicate/restful_communication.cc:229-246 | a POST with its post-processing |
| `Service.RestfulCommunication.DeleteMsg` | src/modelarts_client/communicate/restful_communication.cc:229-246 | a DELETE with its post-processing: 404, 500 or 202 for the same causes, unanswered exactly while it waits; only 202 changes the tables or tells the receiver |
| `Service.RestfulCommunication.MsgProcess` | src/modelarts_client/communicate/restful_communication.cc:211-256 | every request keeps the tables in step and every entry's modelbox task started and undeleted; the answer of each method spelled out as a code for each cause; a table changes only with a 201 or a 202 |
| `Service.EntryOf` | src/modelarts_plugin/modelarts_manager.cc:116-130 | while every entry has its own modelbox task the scan returns that entry and no other |
| `Cipher.SizeExact` | src/modelarts_client/common/cipher.cc:192-215 | in 32-bit arithmetic with wrap-around, for messages of any length, blocks of k bytes and k - 66 bytes: the buffer size is ceil(n / block) * k exactly when neither the sum nor the product exceeds 2147483647 |
| `Cipher.DecryptSizeExact` | src/modelarts_client/common/cipher.cc:195-208 | for a decryption exactly when n <= INT_MAX - k + 1 |
| `Cipher.BlocksIsCeiling` | src/modelarts_client/common/cipher.cc:206-207 | the number of blocks is the rounded-up quotient |
| `Cipher.PiecesPartition` | src/modelarts_client/common/cipher.cc:315-329 | the pieces the loop cuts partition the message: whole blocks, and a non-empty rest |
| `Cipher.CipherBlocks` | src/modelarts_client/common/cipher.cc:312-330 | the loop over a buffer of any length: it ends as `Fate` says, and when it is done it took exactly ceil(n / block) rounds and wrote the pieces' outputs in order |
| `Cipher.NeverOverrun` | src/modelarts_client/common/cipher.cc:312-330 | with k bytes of room for every piece no write passes the end of the buffer, and the loop is done exactly when every block works |
| `Cipher.OfferFits` | src/modelarts_client/common/cipher.cc:318-322 | and before every piece there is room for the k bytes that the primitive is offered, behind what is written |
| `Cipher.DoneExactly` | src/modelarts_client/common/cipher.cc:312-330 | with any room it is done exactly when every block works and all outputs together fit |
| `Cipher.CipherBlock` | src/modelarts_client/common/cipher.cc:257-278 | one block: refused exactly when the primitive fails or yields nothing, an overrun exactly when its output would pass the end, else the output follows what was there |
| `Cipher.Cipher.GetCleanBuff` | src/modelarts_client/common/cipher.cc:41-64 | a zeroed buffer of the length; a length of 0 is refused |
| `Cipher.Cipher.CipherMsg` | src/modelarts_client/common/cipher.cc:280-333 | for messages of any length: how it ends, in wrapping int arithmetic; when it is done the output is exactly the blocks' outputs |
| `Cipher.SafeInRange` | src/modelarts_client/common/cipher.cc:280-333 | while the sizes stay in the int range it writes nothing past its buffer and succeeds exactly for a non-empty message, a key that may do it and blocks that all work |
| `Cipher.ShortOutside` | src/modelarts_client/common/cipher.cc:206-212 | an encryption whose sizes leave the int range gets a buffer that is too small, or none |
| `Cipher.EncryptsExactly` | src/modelarts_client/common/cipher.cc:280-333 | so under the facts of RFC 8017 it encrypts exactly with a public key a non-empty message of n bytes with n + k - 67 and ceil(n / (k - 66)) * k at most 2147483647 |
| `Cipher.Cipher.DecryptMsg` | src/modelarts_client/common/cipher.cc:335-356 | an empty text is refused; otherwise it ends as `CipherMsg` does and the plain text is what the loop wrote |
| `Cipher.RoundTrip` | src/modelarts_client/common/cipher.cc:315-330 | section 7.1 of RFC 8017 lifted to messages: encrypting in blocks of k - 66 gives whole blocks of k bytes, and decrypting those gives the message back, whatever the randomness |
| `Cipher.MessageSurvives` | src/modelarts_client/common/cipher.cc:280-356 | a message survives encryption and decryption if and only if it is not empty and its cipher text has at most INT_MAX - k + 1 bytes |
| `Masking.ScanIsShortest` | src/modelarts_client/common/utils.cc:46-67 | the hand-written scan finds exactly the shortest prefix in the regular expression's language |
| `Masking.MatchIsShortest` | src/modelarts_client/common/utils.cc:47-49 | so does the match of both pattern shapes |
| `Masking.SplitIsText` | src/modelarts_client/common/utils.cc:48-50 | gaps and matches make up the text |
| `Masking.SplitHits` | src/modelarts_client/common/utils.cc:48-50 | every piece called a match is one |
| `Masking.ReplaceIsMasks` | src/modelarts_client/common/utils.cc:48-50 | the replacement keeps the gaps and puts the mask for every match |
| `Masking.Resplit` | src/modelarts_client/common/utils.cc:48-66 | putting matches for matches moves no match and makes no new one |
| `Masking.OnlyMasksLeft` | src/modelarts_client/common/utils.cc:49-66 | after a pass the gaps are the same and every match the pass would find is its mask |
| `Masking.PassIdempotent` | src/modelarts_client/common/utils.cc:47-66 | a pass is idempotent on every text |
| `Masking.SecretsDoNotShow` | src/modelarts_client/common/utils.cc:47-66 | texts with the same gaps have the same output, whatever their secrets |
| `Masking.KeyHit` | src/modelarts_client/common/utils.cc:49-52 | any spacing around the colon and any value without quotes and line ends is such a secret |
| `Masking.UrlHit` | src/modelarts_client/common/utils.cc:47-48 | any user and password without blanks and slashes is one |
| `Masking.EachPass` | src/modelarts_client/common/utils.cc:46-67 | each of the nine passes, by the names of the eight keys, is idempotent, and every match it would still find is `"name":"*"` or `://*:*@` |
| `Masking.ChainNotIdempotent` | src/modelarts_client/common/utils.cc:46-67 | a concrete line whose URL a second call masks: the first took away the slash that hid it |
| `Quotes.PartsJoin` | src/modelarts_client/common/utils.cc:49-66 | cutting a text at its quotes and joining the parts again are inverse |
| `Quotes.ReplaceIsSweep` | src/modelarts_client/common/utils.cc:49-52 | on the parts between the quotes a key pass is a left-to-right sweep that masks three parts at a match |
| `KeyChain.PassesMask` | src/modelarts_client/common/utils.cc:49-66 | the key passes one after the other mask, at once, exactly the matches that no earlier pass took the name of and no match of the same key shares its first quote with |
| `KeyChain.SecondPasses` | src/modelarts_client/common/utils.cc:49-66 | a second round of the key passes changes nothing exactly when the matches overlooked in a broken row are masks already |
| `KeyChain.NamesAreNoValues` | src/modelarts_client/common/utils.cc:49-66 | which holds wherever no value is the name of the match after it |
| `MaskingTwice.FixedByUrl` | src/modelarts_client/common/utils.cc:47-48 | the URL pass leaves a text alone exactly when each of its matches is the mask |
| `MaskingTwice.SecondUrl` | src/modelarts_client/common/utils.cc:47-66 | after the key passes the URL pass finds nothing new exactly when no key match that the text after a `://` runs over, up to its at sign, held a blank or a slash |
| `MaskingTwice.IdempotentExactly` | src/modelarts_client/common/utils.cc:46-67 | masking twice is masking once exactly when both guards hold of the text that the URL pass leaves |
| `MaskingTwice.IdempotentWithoutUrl` | src/modelarts_client/common/utils.cc:46-67 | a text without at sign or without `://` needs the guard of the keys only |
| `MaskingTwice.KeysNotIdempotent` | src/modelarts_client/common/utils.cc:49-66 | a concrete line without URL that a second call masks further |
| `Secrets.NoSecretLeft` | src/modelarts_client/common/utils.cc:46-67 | wherever one of the eight keys, with any spacing, stands in the output, its value is an asterisk, or its first quote is the one that closes a mask |
| `Secrets.AllMaskedExactly` | src/modelarts_client/common/utils.cc:49-66 | every such key in the output has an asterisk exactly when no masked match shares its last quote with another match of its key, other than a mask |
| `Secrets.SharedQuote` | src/modelarts_client/common/utils.cc:49-50 | a concrete line whose second match shares a quote with the first and keeps its value |
| `Secrets.WholeMatchMasked` | src/modelarts_client/common/utils.cc:46-67 | a text that is one of the eight keys with its value comes out as `"name":"*"` |
| `Secrets.UrlsMaskedExactly` | src/modelarts_client/common/utils.cc:47-66 | every user and password of a URL in the output is an asterisk exactly when no key pass took a blank or a slash from between a `://` and its at sign |
| `Secrets.UrlsMaskedWithoutQuotes` | src/modelarts_client/common/utils.cc:47-48 | as is always so for a text without quotes |
| `Secrets.WholeUrlMasked` | src/modelarts_client/common/utils.cc:47-48 | a text that is one URL with user and password, quotes in them included, comes out as `://*:*@` |

## Left out

- Service.ModelArtsManager.DeleteTaskProc: only reports of the task's own modelbox tasks come while it waits, and modelbox accepts every rerun; the protocol has every interleaving.
- Service.ModelArtsManager.ModelBoxTaskStatusCallBack: runs alone; what other threads do between its lock regions is in the protocol only.
- PluginTask.MATask.PreProcess: OBS inputs only; other kinds of input have no path list, and their JSON text is not modelled.
- Cipher.Cipher.CipherMsg: signed overflow is modelled as wrap-around, and what a write past the buffer does afterwards is not modelled.
- Refinement.EndRefines: a report that makes a rerun is tied to the protocol by `Progress.CallbackCompletes` and `Service.ModelArtsManager.Again` separately.
- Convergence.CloudConverges: says what holds whenever the heartbeat is waiting after a success, not that it gets there; timeouts are wake-ups at any time.
- Reads of `modelbox_task_` by the scan while a callback's `Run` writes it are data races in the code; the protocol treats them as atomic.
- The heartbeat and post-processing when `communication_` is null, and exceptions of the JSON library.
- A send that fails before its first attempt (no key, no host) is modelled as ten failed attempts.
- GET requests in the protocol: they change nothing; `Service.TaskManager.QueryTaskProcess` has them alone.
- `DeleteAllTaskProcess`: no HTTP method maps to its message type, and it calls itself with a task id.
- The task limit: `max_task_num_` is only logged.
- HTTP server and client, TLS, request signing, URL parsing, reading of certificates and keys, OpenSSL and Base64.
- JSON parsing and printing, and the field copies of task_io.cc.
- `Config`, the communication factory, plugin start-up, logging, and date and time helpers.
