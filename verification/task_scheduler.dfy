/**
 * The scheduler of cors_config.py (`TaskScheduler`).
 *
 * A priority queue of `(priority, task)` tuples, a dictionary of running tasks,
 * two bounded histories (`deque(maxlen=1000)` of completions, `deque(maxlen=500)`
 * of permanent failures) and a submission counter.  One pass of the body of
 * `worker_function` is one deterministic `Step`: the clock readings, the worker's
 * number and the outcome of a task's body are its parameters.
 *
 * `Task` objects are values here.  Between two steps each task is reachable only
 * through its own queue entry (a step removes it from `running_tasks` before it
 * ends), so no update through an alias can be observed.
 */
module TaskScheduling {
  import opened Wrappers
  import Bounded

  const MaxRetries: nat := 3
  const CompletedCapacity: nat := 1000
  const FailedCapacity: nat := 500
  const DefaultWorkerCount: nat := 3
  const DefaultPriority: int := 5

  function Max(a: int, b: int): int { if a < b then b else a }

  datatype Status = Pending | Running | Completed | Failed

  /** The id `task_<n>_<seconds>`: the counter after its increment and the clock's whole seconds. */
  datatype TaskId = TaskId(serial: nat, stamp: int)

  datatype Task = Task(
    id: TaskId,
    name: string,
    priority: int,
    scheduled: int,
    createdAt: int,
    startedAt: Option<int>,
    completedAt: Option<int>,
    status: Status,
    result: Option<string>,
    error: Option<string>,
    retries: nat,
    maxRetries: nat,
    worker: Option<nat>)

  /** An element of the priority queue: the tuple `(priority, task)` that was put on it. */
  datatype Entry = Entry(key: int, task: Task)

  /** What a task's body did on one attempt: returned a value or raised an exception. */
  datatype Outcome = Succeeded(value: string) | Raised(message: string)

  /** `Task.to_dict()`. */
  datatype TaskRecord = TaskRecord(
    id: TaskId, name: string, priority: int, scheduled: int,
    status: Status, retries: nat, duration: Option<int>)

  /** An element of `completed_tasks`. */
  datatype CompletionRecord = CompletionRecord(task: TaskRecord, result: string, worker: nat)

  datatype SchedulerState = SchedulerState(
    queue: seq<Entry>,
    completed: seq<CompletionRecord>,
    failed: seq<TaskRecord>,
    running: map<TaskId, Task>,
    counter: nat)

  /** How one pass of the worker loop ended. */
  datatype StepKind = Idle | Deferred | Finished | Retried | GaveUp

  datatype StepResult = StepResult(state: SchedulerState, kind: StepKind)

  /** `get_stats()` without the floating-point `uptime`. */
  datatype Stats = Stats(queueSize: nat, completedCount: nat, failedCount: nat, runningCount: nat, workers: nat)

  /** `Task.__init__`: `scheduled_time or time.time()` replaces a zero scheduled time by the clock. */
  function NewTask(id: TaskId, name: string, priority: int, scheduledTime: int, now: int): Task
  {
    Task(id, name, priority, if scheduledTime == 0 then now else scheduledTime, now,
         None, None, Pending, None, None, 0, MaxRetries, None)
  }

  /** `Task.to_dict()`: the duration is present only when both timestamps are set and non-zero. */
  function ToRecord(t: Task): TaskRecord
  {
    var duration :=
      if t.completedAt.Some? && t.completedAt.value != 0 && t.startedAt.Some? && t.startedAt.value != 0
      then Some(t.completedAt.value - t.startedAt.value)
      else None;
    TaskRecord(t.id, t.name, t.priority, t.scheduled, t.status, t.retries, duration)
  }

  /** `Task.__lt__`: tasks compare by their current priority alone. */
  predicate TaskLess(a: Task, b: Task)
  {
    a.priority < b.priority
  }

  /** Python's `<` on `(priority, task)` tuples: keys first, `Task.__lt__` between equal keys. */
  predicate EntryLess(a: Entry, b: Entry)
  {
    a.key < b.key || (a.key == b.key && TaskLess(a.task, b.task))
  }

  /**
   * `PriorityQueue.get()`: the position of an entry that no other entry is smaller
   * than.  Among equivalent entries the earliest one is taken.
   */
  function MinIndex(q: seq<Entry>): (k: nat)
    requires |q| > 0
    ensures k < |q|
    ensures forall j :: 0 <= j < |q| ==> !EntryLess(q[j], q[k])
    ensures forall j :: 0 <= j < k ==> EntryLess(q[k], q[j])
    decreases |q|
  {
    if |q| == 1 then 0
    else
      var m := 1 + MinIndex(q[1..]);
      if EntryLess(q[m], q[0]) then m else 0
  }

  function RemoveAt<T>(q: seq<T>, k: nat): (r: seq<T>)
    requires k < |q|
  {
    q[..k] + q[k + 1..]
  }

  lemma RemoveAtContents<T>(q: seq<T>, k: nat)
    requires k < |q|
    ensures |RemoveAt(q, k)| == |q| - 1
    ensures forall i :: 0 <= i < k ==> RemoveAt(q, k)[i] == q[i]
    ensures forall i :: k <= i < |q| - 1 ==> RemoveAt(q, k)[i] == q[i + 1]
    ensures multiset(RemoveAt(q, k)) + multiset{q[k]} == multiset(q)
  {
    assert q == q[..k] + [q[k]] + q[k + 1..];
  }

  /** The priority of a task first queued with priority `p` after `n` failed attempts. */
  function Decayed(p: int, n: nat): int
  {
    if n == 0 then p else Max(1, Decayed(p, n - 1) - 1)
  }

  /**
   * Retries lower the priority by one per failure, never below 1: for a task queued
   * with priority `p >= 1` it is `max(1, p - n)`.  A priority below 1 is raised to 1
   * by the first failure.
   */
  lemma {:induction false} DecayedClosedForm(p: int, n: nat)
    ensures p >= 1 ==> Decayed(p, n) == Max(1, p - n)
    ensures p >= 1 ==> 1 <= Decayed(p, n) <= p
    ensures n > 0 ==> Decayed(p, n) >= 1
    ensures n > 0 ==> Decayed(p, n) <= Max(1, Decayed(p, n - 1))
  {
    if n > 0 {
      DecayedClosedForm(p, n - 1);
    }
  }

  /** What holds of every entry waiting in the queue. */
  ghost predicate Queued(e: Entry, counter: nat)
  {
    var t := e.task;
    && t.maxRetries == MaxRetries
    && t.retries < t.maxRetries
    && t.priority == Decayed(e.key, t.retries)
    && t.status == (if t.retries == 0 then Pending else Failed)
    && 1 <= t.id.serial <= counter
  }

  /** Every entry is a well-formed queued entry, no task id twice, none of them running. */
  ghost predicate QueueOk(q: seq<Entry>, counter: nat, running: map<TaskId, Task>)
  {
    && (forall i :: 0 <= i < |q| ==> Queued(q[i], counter))
    && (forall i, j :: 0 <= i < j < |q| ==> q[i].task.id != q[j].task.id)
    && (forall i :: 0 <= i < |q| ==> q[i].task.id !in running)
  }

  /**
   * The scheduler's invariant: bounded histories, every queued task below its retry
   * limit and keyed by its first priority, task ids unique in the queue, and no
   * queued task in the running map.
   */
  ghost predicate Inv(s: SchedulerState)
  {
    && |s.completed| <= CompletedCapacity
    && |s.failed| <= FailedCapacity
    && QueueOk(s.queue, s.counter, s.running)
    && (forall id :: id in s.running ==> id.serial <= s.counter)
  }

  lemma {:induction false} RemoveKeepsQueueOk(q: seq<Entry>, k: nat, counter: nat, running: map<TaskId, Task>, gone: TaskId)
    requires QueueOk(q, counter, running) && k < |q|
    ensures QueueOk(RemoveAt(q, k), counter, running - {gone})
    ensures forall i :: 0 <= i < |q| - 1 ==> RemoveAt(q, k)[i].task.id != q[k].task.id
  {
    var rest := RemoveAt(q, k);
    RemoveAtContents(q, k);
    forall i | 0 <= i < |rest|
      ensures Queued(rest[i], counter) && rest[i].task.id !in running - {gone} && rest[i].task.id != q[k].task.id
    {
      var j := if i < k then i else i + 1;
      assert rest[i] == q[j];
    }
    forall i, j | 0 <= i < j < |rest|
      ensures rest[i].task.id != rest[j].task.id
    {
      var i' := if i < k then i else i + 1;
      var j' := if j < k then j else j + 1;
      assert rest[i] == q[i'] && rest[j] == q[j'];
    }
  }

  lemma {:induction false} PushKeepsQueueOk(q: seq<Entry>, x: Entry, counter: nat, running: map<TaskId, Task>)
    requires QueueOk(q, counter, running) && Queued(x, counter) && x.task.id !in running
    requires forall i :: 0 <= i < |q| ==> q[i].task.id != x.task.id
    ensures QueueOk(q + [x], counter, running)
  {
    var q' := q + [x];
    forall i | 0 <= i < |q'|
      ensures Queued(q'[i], counter) && q'[i].task.id !in running
    {
      if i < |q| { assert q'[i] == q[i]; }
    }
    forall i, j | 0 <= i < j < |q'|
      ensures q'[i].task.id != q'[j].task.id
    {
      assert q'[i] == q[i];
      if j < |q| { assert q'[j] == q[j]; }
    }
  }

  function Initial(): (s: SchedulerState)
    ensures Inv(s)
  {
    SchedulerState([], [], [], map[], 0)
  }

  /**
   * `add_task(name, priority, delay)`: one fresh pending task, scheduled `delay`
   * after the clock reading `now`, queued under its own priority.
   */
  function Submit(s: SchedulerState, name: string, priority: int, delay: int, now: int): (r: (SchedulerState, TaskId))
    ensures r.0.counter == s.counter + 1
    ensures r.1 == TaskId(s.counter + 1, now)
    ensures |r.0.queue| == |s.queue| + 1 && r.0.queue[..|s.queue|] == s.queue
    ensures var e := r.0.queue[|s.queue|];
      && e.key == priority
      && e.task.id == r.1 && e.task.name == name && e.task.priority == priority
      && e.task.status == Pending && e.task.retries == 0 && e.task.maxRetries == MaxRetries
      && e.task.createdAt == now
      && e.task.scheduled == (if now + delay == 0 then now else now + delay)
    ensures r.0.completed == s.completed && r.0.failed == s.failed && r.0.running == s.running
  {
    var id := TaskId(s.counter + 1, now);
    var t := NewTask(id, name, priority, now + delay, now);
    (s.(queue := s.queue + [Entry(priority, t)], counter := s.counter + 1), id)
  }

  lemma SubmitPreservesInv(s: SchedulerState, name: string, priority: int, delay: int, now: int)
    requires Inv(s)
    ensures Inv(Submit(s, name, priority, delay, now).0)
  {
    var s' := Submit(s, name, priority, delay, now).0;
    var x := s'.queue[|s.queue|];
    assert s'.queue == s.queue + [x];
    forall i | 0 <= i < |s.queue|
      ensures Queued(s.queue[i], s'.counter) && s.queue[i].task.id != x.task.id
    {
      assert Queued(s.queue[i], s.counter);
    }
    assert QueueOk(s.queue, s'.counter, s.running);
    PushKeepsQueueOk(s.queue, x, s'.counter, s.running);
  }

  /** The dequeued task after it has been marked running by `worker` at `now`. */
  function Start(t: Task, worker: nat, now: int): Task
  {
    t.(status := Running, startedAt := Some(now), worker := Some(worker))
  }

  /** The dequeued task after a failed attempt, before any requeueing. */
  function Fail(t: Task, worker: nat, now: int, message: string): Task
  {
    var started := Start(t, worker, now);
    started.(status := Failed, error := Some(message), retries := started.retries + 1)
  }

  /**
   * One pass of the `worker_function` loop body, run by `worker` with clock reading
   * `now` (eligibility and start) and `finish` (completion time of the attempt).
   */
  function Step(s: SchedulerState, worker: nat, now: int, finish: int, outcome: Outcome): StepResult
  {
    if s.queue == [] then StepResult(s, Idle)
    else
      var k := MinIndex(s.queue);
      var e := s.queue[k];
      if e.task.scheduled > now then StepResult(s.(queue := RemoveAt(s.queue, k) + [e]), Deferred)
      else Attempt(s, k, worker, now, finish, outcome)
  }

  /** The attempt at the eligible entry dequeued from position `k`, and where it goes. */
  function Attempt(s: SchedulerState, k: nat, worker: nat, now: int, finish: int, outcome: Outcome): StepResult
    requires k < |s.queue|
  {
    var e := s.queue[k];
    var rest := RemoveAt(s.queue, k);
    var running := s.running - {e.task.id};
    match outcome
    case Succeeded(value) =>
      var t := Start(e.task, worker, now).(status := Completed, completedAt := Some(finish), result := Some(value));
      var record := CompletionRecord(ToRecord(t), value, worker);
      StepResult(s.(queue := rest,
                    completed := Bounded.Append(s.completed, record, CompletedCapacity),
                    running := running), Finished)
    case Raised(message) =>
      var t := Fail(e.task, worker, now, message);
      if t.retries < t.maxRetries then
        var requeued := t.(priority := Max(1, t.priority - 1));
        StepResult(s.(queue := rest + [Entry(e.key, requeued)], running := running), Retried)
      else
        StepResult(s.(queue := rest, failed := Bounded.Append(s.failed, ToRecord(t), FailedCapacity),
                      running := running), GaveUp)
  }

  /** A not-yet-eligible entry goes back unchanged, and nothing else changes. */
  lemma DeferredStep(s: SchedulerState, worker: nat, now: int, finish: int, outcome: Outcome)
    requires s.queue != []
    requires s.queue[MinIndex(s.queue)].task.scheduled > now
    ensures var r := Step(s, worker, now, finish, outcome);
      && r.kind == Deferred
      && multiset(r.state.queue) == multiset(s.queue)
      && r.state.queue[|s.queue| - 1] == s.queue[MinIndex(s.queue)]
      && r.state.(queue := s.queue) == s
  {
    RemoveAtContents(s.queue, MinIndex(s.queue));
  }

  /**
   * A deferred entry that orders strictly before every other entry is again the one
   * the next `get` returns: until its scheduled time it holds back every other task,
   * eligible or not.
   */
  lemma DeferredEntryStaysFirst(s: SchedulerState, worker: nat, now: int, finish: int, outcome: Outcome)
    requires s.queue != []
    requires s.queue[MinIndex(s.queue)].task.scheduled > now
    requires forall j :: 0 <= j < |s.queue| && j != MinIndex(s.queue) ==>
      EntryLess(s.queue[MinIndex(s.queue)], s.queue[j])
    ensures var q := Step(s, worker, now, finish, outcome).state.queue;
      q != [] && q[MinIndex(q)] == s.queue[MinIndex(s.queue)]
  {
    var k := MinIndex(s.queue);
    var e := s.queue[k];
    var rest := RemoveAt(s.queue, k);
    RemoveAtContents(s.queue, k);
    var q := rest + [e];
    assert Step(s, worker, now, finish, outcome).state.queue == q;
    forall i | 0 <= i < |rest|
      ensures EntryLess(q[|q| - 1], q[i])
    {
      var j := if i < k then i else i + 1;
      assert q[i] == s.queue[j] && j != k;
    }
  }

  /** Updating a key and then deleting it is deleting it. */
  lemma PutThenDelete<K, V>(m: map<K, V>, key: K, v: V)
    ensures m[key := v] - {key} == m - {key}
  {
    assert forall x :: x in m[key := v] - {key} <==> x in m - {key};
  }

  /**
   * A successful attempt: the dequeued entry leaves the queue, one completion record
   * with status completed and the body's result is appended to the bounded history,
   * and the running map ends as it began.
   */
  lemma SucceededAttempt(s: SchedulerState, k: nat, worker: nat, now: int, finish: int, value: string)
    requires Inv(s) && k < |s.queue|
    ensures Attempt(s, k, worker, now, finish, Succeeded(value)).kind == Finished
    ensures multiset(Attempt(s, k, worker, now, finish, Succeeded(value)).state.queue) + multiset{s.queue[k]}
            == multiset(s.queue)
    ensures var c := Attempt(s, k, worker, now, finish, Succeeded(value)).state.completed;
      && |c| <= CompletedCapacity
      && c[..|c| - 1] == (if |s.completed| < CompletedCapacity then s.completed else s.completed[1..])
      && c[|c| - 1].task.id == s.queue[k].task.id
      && c[|c| - 1].task.status == Completed
      && c[|c| - 1].result == value && c[|c| - 1].worker == worker
      && c[|c| - 1].task.duration == (if finish != 0 && now != 0 then Some(finish - now) else None)
    ensures var r := Attempt(s, k, worker, now, finish, Succeeded(value)).state;
      r.failed == s.failed && r.running == s.running && r.counter == s.counter
  {
    RemoveAtContents(s.queue, k);
    assert s.queue[k].task.id !in s.running;
    assert s.running - {s.queue[k].task.id} == s.running;
  }

  /**
   * A failed attempt: one more retry and status failed.  Below the retry limit the
   * task goes back with priority `max(1, p - 1)` but under the key it was dequeued
   * with; at the limit its record goes to the bounded failure history instead.
   */
  lemma FailedAttempt(s: SchedulerState, k: nat, worker: nat, now: int, finish: int, message: string)
    requires Inv(s) && k < |s.queue|
    ensures s.queue[k].task.retries + 1 <= MaxRetries
    ensures var r := Attempt(s, k, worker, now, finish, Raised(message)).state;
      r.running == s.running && r.counter == s.counter && r.completed == s.completed
    ensures s.queue[k].task.retries + 1 < MaxRetries ==>
      var e := s.queue[k];
      var r := Attempt(s, k, worker, now, finish, Raised(message));
      && r.kind == Retried
      && r.state.failed == s.failed
      && |r.state.queue| == |s.queue|
      && r.state.queue[..|s.queue| - 1] == RemoveAt(s.queue, k)
      && var q := r.state.queue[|s.queue| - 1];
      && q.key == e.key
      && q.task.id == e.task.id && q.task.scheduled == e.task.scheduled
      && q.task.status == Failed && q.task.retries == e.task.retries + 1 && q.task.error == Some(message)
      && q.task.priority == Max(1, e.task.priority - 1)
    ensures s.queue[k].task.retries + 1 == MaxRetries ==>
      var r := Attempt(s, k, worker, now, finish, Raised(message));
      && r.kind == GaveUp
      && multiset(r.state.queue) + multiset{s.queue[k]} == multiset(s.queue)
      && |r.state.failed| <= FailedCapacity
      && r.state.failed[..|r.state.failed| - 1] == (if |s.failed| < FailedCapacity then s.failed else s.failed[1..])
      && r.state.failed[|r.state.failed| - 1].id == s.queue[k].task.id
      && r.state.failed[|r.state.failed| - 1].status == Failed
      && r.state.failed[|r.state.failed| - 1].retries == MaxRetries
  {
    RemoveAtContents(s.queue, k);
    Bounded.AppendContents(s.failed, ToRecord(Fail(s.queue[k].task, worker, now, message)), FailedCapacity);
    assert Queued(s.queue[k], s.counter);
    assert s.queue[k].task.id !in s.running;
    assert s.running - {s.queue[k].task.id} == s.running;
  }

  lemma StepPreservesInv(s: SchedulerState, worker: nat, now: int, finish: int, outcome: Outcome)
    requires Inv(s)
    ensures Inv(Step(s, worker, now, finish, outcome).state)
  {
    if s.queue != [] {
      var k := MinIndex(s.queue);
      if s.queue[k].task.scheduled > now {
        DeferKeepsInv(s, k);
      } else {
        AttemptKeepsInv(s, k, worker, now, finish, outcome);
      }
    }
  }

  /** Putting the dequeued entry back keeps the invariant. */
  lemma DeferKeepsInv(s: SchedulerState, k: nat)
    requires Inv(s) && k < |s.queue|
    ensures Inv(s.(queue := RemoveAt(s.queue, k) + [s.queue[k]]))
  {
    var e := s.queue[k];
    assert Queued(e, s.counter);
    RemoveKeepsQueueOk(s.queue, k, s.counter, s.running, e.task.id);
    assert s.running - {e.task.id} == s.running;
    PushKeepsQueueOk(RemoveAt(s.queue, k), e, s.counter, s.running);
  }

  /** An attempt at any queued entry keeps the invariant, whatever its outcome. */
  lemma AttemptKeepsInv(s: SchedulerState, k: nat, worker: nat, now: int, finish: int, outcome: Outcome)
    requires Inv(s) && k < |s.queue|
    ensures Inv(Attempt(s, k, worker, now, finish, outcome).state)
  {
    var e := s.queue[k];
    var rest := RemoveAt(s.queue, k);
    var running := s.running - {e.task.id};
    assert Queued(e, s.counter);
    RemoveKeepsQueueOk(s.queue, k, s.counter, s.running, e.task.id);
    if outcome.Raised? {
      var t := Fail(e.task, worker, now, outcome.message);
      if t.retries < t.maxRetries {
        var requeued := Entry(e.key, t.(priority := Max(1, t.priority - 1)));
        assert Queued(requeued, s.counter);
        PushKeepsQueueOk(rest, requeued, s.counter, running);
      }
    }
  }

  /**
   * A task whose body always fails runs exactly three times: the first two failures
   * requeue it, the third sends it to the failure history with three retries, and the
   * queue is then empty.
   */
  lemma AlwaysFailingTaskRunsThreeTimes(s: SchedulerState, worker: nat, now: int, finish: int, message: string)
    requires Inv(s)
    requires |s.queue| == 1 && s.queue[0].task.retries == 0 && s.queue[0].task.scheduled <= now
    ensures var r1 := Step(s, worker, now, finish, Raised(message));
      var r2 := Step(r1.state, worker, now, finish, Raised(message));
      var r3 := Step(r2.state, worker, now, finish, Raised(message));
      && r1.kind == Retried && r2.kind == Retried && r3.kind == GaveUp
      && |r1.state.queue| == 1 && r1.state.queue[0].task.retries == 1
      && |r2.state.queue| == 1 && r2.state.queue[0].task.retries == 2
      && r3.state.queue == []
      && r3.state.completed == s.completed
      && r3.state.failed[|r3.state.failed| - 1].id == s.queue[0].task.id
      && r3.state.failed[|r3.state.failed| - 1].retries == MaxRetries
      && r3.state.failed[|r3.state.failed| - 1].status == Failed
  {
    var r1 := Step(s, worker, now, finish, Raised(message));
    LoneTaskFails(s, worker, now, finish, message);
    var r2 := Step(r1.state, worker, now, finish, Raised(message));
    LoneTaskFails(r1.state, worker, now, finish, message);
    LoneTaskFails(r2.state, worker, now, finish, message);
  }

  /** One failed attempt of the only queued task, when it is due. */
  lemma LoneTaskFails(s: SchedulerState, worker: nat, now: int, finish: int, message: string)
    requires Inv(s)
    requires |s.queue| == 1 && s.queue[0].task.scheduled <= now
    ensures var r := Step(s, worker, now, finish, Raised(message));
      var t := s.queue[0].task;
      && Inv(r.state)
      && r.state.completed == s.completed
      && (t.retries + 1 < MaxRetries ==>
            && r.kind == Retried && |r.state.queue| == 1
            && r.state.queue[0].task.id == t.id && r.state.queue[0].task.scheduled == t.scheduled
            && r.state.queue[0].task.retries == t.retries + 1)
      && (t.retries + 1 == MaxRetries ==>
            && r.kind == GaveUp && r.state.queue == []
            && r.state.failed[|r.state.failed| - 1].id == t.id
            && r.state.failed[|r.state.failed| - 1].retries == MaxRetries
            && r.state.failed[|r.state.failed| - 1].status == Failed)
  {
    assert MinIndex(s.queue) == 0;
    assert Step(s, worker, now, finish, Raised(message)) == Attempt(s, 0, worker, now, finish, Raised(message));
    FailedAttempt(s, 0, worker, now, finish, message);
    StepPreservesInv(s, worker, now, finish, Raised(message));
  }

  /** Fields of `TaskScheduler`; threads, the `running` flag and the worker list are not modelled. */
  class TaskScheduler {
    var queue: seq<Entry>
    var completed: seq<CompletionRecord>
    var failed: seq<TaskRecord>
    var running: map<TaskId, Task>
    var counter: nat
    var workerCount: nat

    function State(): SchedulerState
      reads this
    {
      SchedulerState(queue, completed, failed, running, counter)
    }

    ghost predicate Valid()
      reads this
    {
      Inv(State())
    }

    constructor ()
      ensures Valid()
      ensures State() == Initial() && workerCount == DefaultWorkerCount
    {
      queue := [];
      completed := [];
      failed := [];
      running := map[];
      counter := 0;
      workerCount := DefaultWorkerCount;
    }

    /** `add_task(name, priority=5, delay=0)` with the clock reading `now`. */
    method AddTask(now: int, name: string, priority: int := DefaultPriority, delay: int := 0) returns (id: TaskId)
      requires Valid()
      modifies this
      ensures Valid()
      ensures (State(), id) == Submit(old(State()), name, priority, delay, now)
      ensures workerCount == old(workerCount)
    {
      SubmitPreservesInv(State(), name, priority, delay, now);
      counter := counter + 1;
      id := TaskId(counter, now);
      var scheduledTime := now + delay;
      var task := NewTask(id, name, priority, scheduledTime, now);
      queue := queue + [Entry(priority, task)];
    }

    /** One pass of the body of `worker_function(worker)`. */
    method WorkerStep(worker: nat, now: int, finish: int, outcome: Outcome) returns (kind: StepKind)
      requires Valid()
      modifies this
      ensures Valid()
      ensures StepResult(State(), kind) == Step(old(State()), worker, now, finish, outcome)
      ensures workerCount == old(workerCount)
    {
      StepPreservesInv(State(), worker, now, finish, outcome);
      if queue == [] {
        // queue.Empty after the one-second timeout
        return Idle;
      }
      var k := MinIndex(queue);
      var entry := queue[k];
      if entry.task.scheduled > now {
        queue := RemoveAt(queue, k) + [entry];
        return Deferred;
      }
      kind := RunAttempt(k, worker, now, finish, outcome);
    }

    /** The part of the loop body after an eligible entry has been taken from position `k`. */
    method RunAttempt(k: nat, worker: nat, now: int, finish: int, outcome: Outcome) returns (kind: StepKind)
      requires k < |queue|
      modifies this
      ensures StepResult(State(), kind) == Attempt(old(State()), k, worker, now, finish, outcome)
      ensures workerCount == old(workerCount)
    {
      ghost var before := State();
      var entry := queue[k];
      queue := RemoveAt(queue, k);
      var task := entry.task;
      task := task.(status := Running, startedAt := Some(now), worker := Some(worker));
      running := running[task.id := task];
      match outcome {
        case Succeeded(value) =>
          task := task.(status := Completed, completedAt := Some(finish), result := Some(value));
          var record := CompletionRecord(ToRecord(task), value, worker);
          completed := Bounded.Append(completed, record, CompletedCapacity);
          kind := Finished;
        case Raised(message) =>
          task := task.(status := Failed, error := Some(message), retries := task.retries + 1);
          assert task == Fail(entry.task, worker, now, message);
          if task.retries < task.maxRetries {
            task := task.(priority := Max(1, task.priority - 1));
            queue := queue + [Entry(entry.key, task)];
            kind := Retried;
          } else {
            var record := ToRecord(task);
            failed := Bounded.Append(failed, record, FailedCapacity);
            kind := GaveUp;
          }
      }
      PutThenDelete(before.running, task.id, task);
      if task.id in running {
        running := running - {task.id};
      }
    }

    /** `get_stats()`, without `uptime`. */
    function GetStats(): (st: Stats)
      reads this
      requires Valid()
      ensures st.queueSize == |queue| && st.runningCount == |running| && st.workers == workerCount
      ensures st.completedCount == |completed| <= CompletedCapacity
      ensures st.failedCount == |failed| <= FailedCapacity
    {
      Stats(|queue|, |completed|, |failed|, |running|, workerCount)
    }
  }
}
