/** `poll_task_status`: fetch the task again and again until its status is
    terminal. The remote job is a scripted sequence of task snapshots, one
    per fetch; a fetch past the end of the script returns nothing, which
    gives the finite model a third outcome (no terminal status seen) in
    place of the Python loop's endless wait. */
module Poller {
  import opened Wrappers

  /** The JSON of `GET /tasks/{task_id}`, reduced to the two keys read. */
  datatype Task = Task(status: string, result: string)

  /** Returned task, raised failure, or script exhausted. */
  datatype PollOutcome =
    | Succeeded(task: Task)
    | TaskFailed(status: string, result: string)
    | NoTerminalStatus

  predicate IsFailureStatus(status: string) {
    status == "FAILURE" || status == "ERROR"
  }

  predicate IsTerminal(status: string) {
    status == "SUCCESS" || IsFailureStatus(status)
  }

  /** Index of the first terminal status of the script, if any. */
  function FirstTerminal(script: seq<Task>): (k: Option<nat>)
    ensures k.Some? ==>
      k.value < |script| && IsTerminal(script[k.value].status)
      && forall j :: 0 <= j < k.value ==> !IsTerminal(script[j].status)
    ensures k.None? ==> forall j :: 0 <= j < |script| ==> !IsTerminal(script[j].status)
    decreases |script|
  {
    if script == [] then None
    else if IsTerminal(script[0].status) then Some(0)
    else
      match FirstTerminal(script[1..])
      case None => None
      case Some(k) => Some(k + 1)
  }

  /** What polling ends with at a terminal snapshot. */
  function Stop(t: Task): (o: PollOutcome)
    requires IsTerminal(t.status)
    ensures o.Succeeded? <==> t.status == "SUCCESS"
    ensures o.TaskFailed? <==> IsFailureStatus(t.status)
    ensures o.Succeeded? ==> o.task == t
    ensures o.TaskFailed? ==> o.status == t.status && o.result == t.result
  {
    if t.status == "SUCCESS" then Succeeded(t) else TaskFailed(t.status, t.result)
  }

  /** Only the snapshots up to and including the first terminal one decide
      the outcome: anything may follow them. */
  lemma {:induction false} LaterStatusesIrrelevant(script: seq<Task>, rest: seq<Task>)
    requires FirstTerminal(script).Some?
    ensures
      var k := FirstTerminal(script).value;
      FirstTerminal(script[..k + 1] + rest) == Some(k) && (script[..k + 1] + rest)[k] == script[k]
    decreases |script|
  {
    var k := FirstTerminal(script).value;
    if k > 0 {
      assert (script[..k + 1] + rest)[1..] == script[1..][..k] + rest;
      LaterStatusesIrrelevant(script[1..], rest);
    }
  }

  /** The remote task: its successive snapshots and how many were fetched. */
  class RemoteTask {
    const script: seq<Task>
    var fetched: nat

    ghost predicate Valid()
      reads this
    {
      fetched <= |script|
    }

    /** The snapshots not fetched yet. */
    ghost function Pending(): seq<Task>
      reads this
      requires Valid()
    {
      script[fetched..]
    }

    constructor (script: seq<Task>)
      ensures Valid() && this.script == script && fetched == 0
    {
      this.script := script;
      fetched := 0;
    }

    /** `get_task(task_id)`: the next snapshot, or None once the script is used up. */
    method GetTask() returns (t: Option<Task>)
      requires Valid()
      modifies this
      ensures Valid()
      ensures old(fetched) < |script| ==> t == Some(script[old(fetched)]) && fetched == old(fetched) + 1
      ensures old(fetched) == |script| ==> t == None && fetched == old(fetched)
    {
      if fetched < |script| {
        t := Some(script[fetched]);
        fetched := fetched + 1;
      } else {
        t := None;
      }
    }
  }

  /** The `while True` loop: stop at the first SUCCESS (returning the task) or
      FAILURE/ERROR (raising), sleep after any other status. `sleeps` counts
      the sleeps; the fetches stop right after the terminal snapshot. */
  method PollTaskStatus(job: RemoteTask) returns (outcome: PollOutcome, sleeps: nat)
    requires job.Valid()
    modifies job
    ensures job.Valid()
    ensures FirstTerminal(old(job.Pending())) == None ==>
      outcome == NoTerminalStatus && sleeps == |old(job.Pending())| && job.fetched == |job.script|
    ensures FirstTerminal(old(job.Pending())) == Some(sleeps) ==>
      outcome == Stop(old(job.Pending())[sleeps]) && job.fetched == old(job.fetched) + sleeps + 1
    ensures outcome == NoTerminalStatus <==> FirstTerminal(old(job.Pending())) == None
    ensures outcome != NoTerminalStatus ==> FirstTerminal(old(job.Pending())) == Some(sleeps)
  {
    ghost var pending := job.Pending();
    ghost var start := job.fetched;
    sleeps := 0;
    while true
      invariant job.Valid() && job.fetched == start + sleeps
      invariant sleeps <= |pending| && pending == job.script[start..]
      invariant forall j :: 0 <= j < sleeps ==> !IsTerminal(pending[j].status)
      decreases |job.script| - job.fetched
    {
      var task := job.GetTask();
      if task.None? {
        return NoTerminalStatus, sleeps;
      }
      var status := task.value.status;
      if status == "SUCCESS" {
        return Succeeded(task.value), sleeps;
      } else if status == "FAILURE" || status == "ERROR" {
        return TaskFailed(status, task.value.result), sleeps;
      }
      sleeps := sleeps + 1;
    }
  }

  /** PENDING, RUNNING, SUCCESS: the successful task is returned after two sleeps. */
  lemma PendingRunningSuccess(a: Task, b: Task, c: Task)
    requires a.status == "PENDING" && b.status == "RUNNING" && c.status == "SUCCESS"
    ensures FirstTerminal([a, b, c]) == Some(2) && Stop([a, b, c][2]) == Succeeded(c)
  {
    assert FirstTerminal([c]) == Some(0);
    assert [b, c][1..] == [c];
    assert FirstTerminal([b, c]) == Some(1);
    assert [a, b, c][1..] == [b, c];
  }

  /** A job reporting PENDING, RUNNING, SUCCESS: polling returns the last
      snapshot after two sleeps, having fetched all three. */
  method PollPendingRunningSuccess(a: Task, b: Task, c: Task) returns (o: PollOutcome, s: nat, fetched: nat)
    requires a.status == "PENDING" && b.status == "RUNNING" && c.status == "SUCCESS"
    ensures o == Succeeded(c) && s == 2 && fetched == 3
  {
    var job := new RemoteTask([a, b, c]);
    PendingRunningSuccess(a, b, c);
    assert job.Pending() == [a, b, c];
    o, s := PollTaskStatus(job);
    fetched := job.fetched;
  }

  /** A job reporting RUNNING then ERROR: polling raises with the ERROR
      snapshot's status and result after one sleep, and never fetches the
      third snapshot. */
  method PollRunningError(a: Task, b: Task, c: Task) returns (o: PollOutcome, s: nat, fetched: nat)
    requires a.status == "RUNNING" && b.status == "ERROR"
    ensures o == TaskFailed("ERROR", b.result) && s == 1 && fetched == 2
  {
    var job := new RemoteTask([a, b, c]);
    assert [a, b, c][1..] == [b, c];
    assert FirstTerminal([a, b, c]) == Some(1);
    assert job.Pending() == [a, b, c];
    o, s := PollTaskStatus(job);
    fetched := job.fetched;
  }
}
