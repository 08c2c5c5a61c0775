/** Messages to the cloud: bounded delivery (SendWithRetry) and the receiver's two handlers. */
module Communication {
  import opened Types
  import opened Protocol

  /** One HTTP attempt: whether the receiver processed the request, and the status code that came
      back, None when SendHttpRequest failed. */
  datatype Attempt = Attempt(delivered: bool, reply: Option<nat>)

  predicate Success(a: Attempt) {
    a.reply.Some? && a.reply.value / 100 == 2
  }

  /** A 2xx answer comes from a receiver that has processed the request. */
  ghost predicate Honest(net: nat -> Attempt) {
    forall i :: Success(net(i)) ==> net(i).delivered
  }

  // ------------------------------------------------------------------ the receiver

  datatype Message =
    | TaskMsg(id: TaskId, state: Status)
    | InstanceMsg(tasks: seq<(TaskId, Status)>)

  /** The table an instance message lists; a later entry for an id replaces an earlier one. */
  function Table(tasks: seq<(TaskId, Status)>): map<TaskId, Status> {
    if tasks == [] then map[]
    else
      var last := tasks[|tasks| - 1];
      Table(tasks[..|tasks| - 1])[last.0 := last.1]
  }

  /** The receiver's table after it has processed a message. */
  function Handled(table: map<TaskId, Status>, msg: Message): map<TaskId, Status> {
    match msg
    case TaskMsg(id, state) => table[id := state]
    case InstanceMsg(tasks) => Table(tasks)
  }

  /** The receiver, as the repository's mock server spells it out. */
  class MaMockServer {
    var taskInfo: map<TaskId, Status>

    constructor ()
      ensures taskInfo == map[]
    {
      taskInfo := map[];
    }

    method HandleInstanceMsg(tasks: seq<(TaskId, Status)>)
      modifies this
      ensures taskInfo == Handled(old(taskInfo), InstanceMsg(tasks))
    {
      taskInfo := map[];
      for i := 0 to |tasks|
        invariant taskInfo == Table(tasks[..i])
      {
        assert tasks[..i + 1][..i] == tasks[..i];
        taskInfo := taskInfo[tasks[i].0 := tasks[i].1];
      }
      assert tasks[..|tasks|] == tasks;
    }

    method HandleTaskMsg(id: TaskId, state: Status)
      modifies this
      ensures taskInfo == Handled(old(taskInfo), TaskMsg(id, state))
    {
      taskInfo := taskInfo[id := state];
    }

    method Handle(msg: Message)
      modifies this
      ensures taskInfo == Handled(old(taskInfo), msg)
    {
      match msg
      case TaskMsg(id, state) => HandleTaskMsg(id, state);
      case InstanceMsg(tasks) => HandleInstanceMsg(tasks);
    }
  }

  /** A message that lists every entry of a table exactly once carries the table. */
  lemma {:induction false} TableOfListing(tasks: seq<(TaskId, Status)>, table: map<TaskId, Status>)
    requires forall i, j :: 0 <= i < j < |tasks| ==> tasks[i].0 != tasks[j].0
    requires forall i :: 0 <= i < |tasks| ==> tasks[i].0 in table && table[tasks[i].0] == tasks[i].1
    requires forall t | t in table :: exists i :: 0 <= i < |tasks| && tasks[i].0 == t
    ensures Table(tasks) == table
  {
    TableEntries(tasks);
    forall t | t in table ensures t in Table(tasks) && Table(tasks)[t] == table[t] {
      var i :| 0 <= i < |tasks| && tasks[i].0 == t;
    }
  }

  lemma {:induction false} TableEntries(tasks: seq<(TaskId, Status)>)
    requires forall i, j :: 0 <= i < j < |tasks| ==> tasks[i].0 != tasks[j].0
    ensures forall i :: 0 <= i < |tasks| ==> tasks[i].0 in Table(tasks) && Table(tasks)[tasks[i].0] == tasks[i].1
    ensures forall t | t in Table(tasks) :: exists i :: 0 <= i < |tasks| && tasks[i].0 == t
  {
    if tasks == [] {
    } else {
      var front := tasks[..|tasks| - 1];
      TableEntries(front);
      forall i | 0 <= i < |tasks|
        ensures tasks[i].0 in Table(tasks) && Table(tasks)[tasks[i].0] == tasks[i].1
      {
        if i < |front| { assert front[i] == tasks[i]; }
      }
      forall t | t in Table(tasks) ensures exists i :: 0 <= i < |tasks| && tasks[i].0 == t {
        if t in Table(front) {
          var i :| 0 <= i < |front| && front[i].0 == t;
          assert tasks[i].0 == t;
        } else {
          assert tasks[|tasks| - 1].0 == t;
        }
      }
    }
  }

  /** Processing a message again, as a retry after a lost answer does, changes nothing. */
  lemma HandledTwice(table: map<TaskId, Status>, msg: Message)
    ensures Handled(Handled(table, msg), msg) == Handled(table, msg)
  {
    if msg.TaskMsg? { assert table[msg.id := msg.state][msg.id := msg.state] == table[msg.id := msg.state]; }
  }

  // ------------------------------------------------------------------ bounded delivery

  /** The call ends with its n-th attempt: the first success, or the tenth attempt. */
  ghost predicate EndsAt(net: nat -> Attempt, n: nat) {
    && 1 <= n <= MAX_ATTEMPTS
    && (forall i :: 0 <= i < n - 1 ==> !Success(net(i)))
    && (n < MAX_ATTEMPTS ==> Success(net(n - 1)))
  }

  /** One of the first n attempts reached the receiver. */
  ghost predicate Reached(net: nat -> Attempt, n: nat) {
    exists i :: 0 <= i < n && net(i).delivered
  }

  /** One of the attempts the call makes reaches the receiver. */
  ghost predicate Arrives(net: nat -> Attempt) {
    exists n :: EndsAt(net, n) && Reached(net, n)
  }

  lemma ArrivesWhenReached(net: nat -> Attempt, n: nat)
    requires EndsAt(net, n)
    ensures Arrives(net) <==> Reached(net, n)
  {
    if Arrives(net) {
      var m :| EndsAt(net, m) && Reached(net, m);
      EndsOnce(net, m, n);
    }
  }

  lemma EndsOnce(net: nat -> Attempt, m: nat, n: nat)
    requires EndsAt(net, m) && EndsAt(net, n)
    ensures m == n
  {
  }

  lemma SuccessCodes()
    ensures forall a :: Success(a) <==> a.reply.Some? && 200 <= a.reply.value < 300
  {
  }

  /** SendWithRetry: at most ten attempts, the first success ends the call; the receiver ends up with
      the message exactly when some attempt reached it, however many did. */
  method SendWithRetry(server: MaMockServer, msg: Message, net: nat -> Attempt) returns (ok: bool, attempts: nat)
    modifies server
    ensures 1 <= attempts <= 10 && (attempts < 10 ==> ok)
    ensures ok <==> net(attempts - 1).reply.Some? && 200 <= net(attempts - 1).reply.value < 300
    ensures forall i :: 0 <= i < attempts - 1 ==> !(net(i).reply.Some? && 200 <= net(i).reply.value < 300)
    ensures EndsAt(net, attempts)
    ensures Arrives(net) <==> exists i :: 0 <= i < attempts && net(i).delivered
    ensures server.taskInfo == if Arrives(net) then Handled(old(server.taskInfo), msg) else old(server.taskInfo)
  {
    hide Handled, Table, Success;
    SuccessCodes();
    var retryCount := MAX_ATTEMPTS;
    attempts := 0;
    ghost var table := server.taskInfo;
    HandledTwice(table, msg);
    while true
      invariant 0 < retryCount <= MAX_ATTEMPTS && attempts + retryCount == MAX_ATTEMPTS
      invariant forall i :: 0 <= i < attempts ==> !Success(net(i))
      invariant server.taskInfo == if Reached(net, attempts) then Handled(table, msg) else table
      decreases retryCount
    {
      if net(attempts).delivered { server.Handle(msg); }
      ReachedNext(net, attempts);
      attempts := attempts + 1;
      if Success(net(attempts - 1)) {
        ArrivesWhenReached(net, attempts);
        return true, attempts;
      }
      retryCount := retryCount - 1;
      if retryCount == 0 {
        ArrivesWhenReached(net, attempts);
        return false, attempts;
      }
    }
  }

  lemma ReachedNext(net: nat -> Attempt, n: nat)
    ensures Reached(net, n + 1) <==> Reached(net, n) || net(n).delivered
  {
    if net(n).delivered { assert Reached(net, n + 1); }
  }

  /** Over a network whose 2xx answers come from a receiver that has processed the request, a call that
      comes to a 2xx answer within its ten attempts has been heard. */
  lemma SuccessArrives(net: nat -> Attempt, n: nat)
    requires n < 10 && net(n).reply.Some? && 200 <= net(n).reply.value < 300
    requires forall i :: net(i).reply.Some? && 200 <= net(i).reply.value < 300 ==> net(i).delivered
    ensures Arrives(net)
  {
    var first := FirstSuccess(net, n);
    assert Reached(net, first + 1);
  }

  lemma FirstSuccess(net: nat -> Attempt, n: nat) returns (first: nat)
    requires n < 10 && net(n).reply.Some? && 200 <= net(n).reply.value < 300
    ensures first <= n && EndsAt(net, first + 1) && net(first).reply.Some? && 200 <= net(first).reply.value < 300
  {
    first := 0;
    while !(net(first).reply.Some? && 200 <= net(first).reply.value < 300)
      invariant first <= n && forall i :: 0 <= i < first ==> !Success(net(i))
      decreases n - first
    {
      first := first + 1;
    }
  }

  // ------------------------------------------------------------------ the protocol's view of a call

  /** In the protocol, with `left` attempts left, the attempts i, ..., i + n - 1 are enabled one after
      the other and the call returns ok exactly with the last of them. */
  ghost predicate Plays(left: nat, net: nat -> Attempt, i: nat, n: nat, ok: bool)
    decreases n
  {
    && n > 0
    && var c := if Success(net(i)) then Ok else Fail;
    && (net(i).delivered ==>
          NetEnabled(Net(left, false), Deliver) && NetNext(Net(left, false), Deliver) == Some(Net(left, true)))
    && NetEnabled(Net(left, net(i).delivered), c)
    && match NetNext(Net(left, net(i).delivered), c)
       case None => n == 1 && ok == (c == Ok)
       case Some(rest) => rest == Net(left - 1, false) && Plays(left - 1, net, i + 1, n - 1, ok)
  }

  /** Every outcome of SendWithRetry over an honest network is a play of the protocol's Net. */
  lemma {:induction false} SendRefinesNet(left: nat, net: nat -> Attempt, i: nat, n: nat, ok: bool)
    requires Honest(net) && 1 <= n <= left
    requires forall j :: i <= j < i + n - 1 ==> !Success(net(j))
    requires if ok then Success(net(i + n - 1)) else n == left && !Success(net(i + n - 1))
    ensures Plays(left, net, i, n, ok)
    decreases n
  {
    if n <= 1 {
    } else {
      SendRefinesNet(left - 1, net, i + 1, n - 1, ok);
    }
  }
}
