/** The two-tier job/task scheduler of `@core/jobs.js`, as pure transitions
    over abstract stores.

    A job has a job queue (entries named "read") consumed one at a time by the
    job runner, which calls the job's `run`; and a task queue (entries named
    "queueTask" or "execute") consumed by the task executor, which calls the
    job's `execute`. Named tasks keep their payloads in a mailbox (a Redis
    list) and only a trigger goes through the task queue.

    The queues are modelled as the log of `add` calls they receive, in order;
    how the durable queue deduplicates, delays and hands out entries is its own
    business and stays outside. The clock, the pending-task count, the
    random-id generator and the outcomes of the job's own `run`/`execute` are
    parameters. */
module Jobs {
  import opened Js
  import opened Base
  import Mailboxes

  /** Default width of the task executor pool (`MAX_WORKERS`). */
  const MaxWorkers := 5
  /** Default backpressure delay in milliseconds (`RETRY_DELAY`). */
  const RetryDelay := 5000
  /** Delay before a job that produced tasks runs again. */
  const ContinueDelay := 1000

  /** An options object literal as passed to `queue.add`. */
  type Options = map<string, Value>

  /** One `queue.add(name, data, opts)` call, stamped with the clock reading
      the queue records as the entry's timestamp. */
  datatype Entry = Entry(name: string, data: Value, opts: Options, timestamp: int)

  /** The scheduler's view of the outside world for one job. */
  datatype Store = Store(jobQueue: seq<Entry>, taskQueue: seq<Entry>, mailboxes: Mailboxes.Store)

  /** `JSON.stringify` and `JSON.parse`, kept abstract. */
  datatype Json = Json(stringify: Value -> string, parse: string -> Value)

  /** A codec that round-trips every value and never produces the empty text
      (which the code would read as "nothing popped"). */
  ghost predicate Faithful(json: Json) {
    forall v :: json.parse(json.stringify(v)) == v && json.stringify(v) != ""
  }

  /** The registration of one job: its name, the `workers` and `delay` fields of
      its decorator metadata, and whether it defines `poll`. A job gets a runner
      worker only when it defines `run` and an executor only when it defines
      `execute`; the runner and executor steps below are those workers' steps. */
  datatype JobDef = JobDef(
    name: string,
    workers: Option<int>,
    delay: Option<int>,
    hasPoll: bool)

  /** `job.workers || MAX_WORKERS`: a missing or zero setting falls back. */
  function Workers(def: JobDef): (w: int)
    ensures w != 0
    ensures def.workers.Some? && def.workers.value != 0 ==> w == def.workers.value
    ensures def.workers.None? || def.workers.value == 0 ==> w == MaxWorkers
  {
    if def.workers.Some? && def.workers.value != 0 then def.workers.value else MaxWorkers
  }

  /** `job.delay || RETRY_DELAY`. */
  function Delay(def: JobDef): (d: int)
    ensures d != 0
    ensures def.delay.Some? && def.delay.value != 0 ==> d == def.delay.value
    ensures def.delay.None? || def.delay.value == 0 ==> d == RetryDelay
  {
    if def.delay.Some? && def.delay.value != 0 then def.delay.value else RetryDelay
  }

  /** A retention window `{age, count}` for completed or failed entries. */
  function Retain(age: int, count: int): Value {
    Obj(map["age" := Num(age), "count" := Num(count)])
  }

  /** The options `start` hands to the job queue: a job id and retention
      windows (1 hour / 100 entries on success, 24 hours / 500 on failure),
      then the caller's options spread over them. */
  function StartOptions(options: Options, freshId: string): (r: Options)
    ensures r.Keys == options.Keys + {"jobId", "removeOnComplete", "removeOnFail"}
    ensures forall k :: k in options ==> r[k] == options[k]
    ensures "jobId" !in options ==> r["jobId"] == Str(freshId)
    ensures "removeOnComplete" !in options ==> r["removeOnComplete"] == Retain(3600, 100)
    ensures "removeOnFail" !in options ==> r["removeOnFail"] == Retain(24 * 3600, 500)
  {
    var defaults := map[
      "jobId" := Or(Get(options, "jobId"), Str(freshId)),
      "removeOnComplete" := Retain(3600, 100),
      "removeOnFail" := Retain(24 * 3600, 500)];
    defaults + options
  }

  /** `JobClass.start(data, options)`: add a "read" entry to the job queue.
      `freshId` is the id `crypto.randomUUID()` would return. */
  function Start(s: Store, data: Value, options: Options, freshId: string, now: int): (r: Store)
    ensures r.taskQueue == s.taskQueue && r.mailboxes == s.mailboxes
    ensures |r.jobQueue| == |s.jobQueue| + 1 && r.jobQueue[..|s.jobQueue|] == s.jobQueue
    ensures var e := r.jobQueue[|s.jobQueue|];
      && e.name == "read" && e.data == data && e.timestamp == now
      && "jobId" in e.opts
      && e.opts["jobId"] == (if "jobId" in options then options["jobId"] else Str(freshId))
      && forall k :: k in options ==> k in e.opts && e.opts[k] == options[k]
  {
    s.(jobQueue := s.jobQueue + [Entry("read", data, StartOptions(options, freshId), now)])
  }

  /** The options of a named-task trigger: its id is the mailbox name, it is
      removed on completion and on failure, and the caller's `options` come last. */
  function NamedTaskOptions(queue: Value, options: Options): (r: Options)
    ensures forall k :: k in options ==> k in r && r[k] == options[k]
    ensures "jobId" in r && ("jobId" !in options ==> r["jobId"] == queue)
  {
    map["jobId" := queue, "removeOnComplete" := Bool(true), "removeOnFail" := Bool(true)] + options
  }

  /** The options of an anonymous task: the task options spread first, then a
      fresh id, removal on completion, a 1 hour / 1000 entry failure window,
      and the caller's `options` last. */
  function AnonymousTaskOptions(taskOptions: Options, options: Options, freshId: string): (r: Options)
    ensures forall k :: k in options ==> k in r && r[k] == options[k]
    ensures "jobId" in r && ("jobId" !in options ==> r["jobId"] == Str(freshId))
    ensures forall k :: k in taskOptions && k !in options && k !in {"jobId", "removeOnComplete", "removeOnFail"} ==>
      k in r && r[k] == taskOptions[k]
  {
    taskOptions
      + map["jobId" := Str(freshId), "removeOnComplete" := Bool(true), "removeOnFail" := Retain(3600, 1000)]
      + options
  }

  /** The mailbox a named task goes to: `taskOptions.queue`, as Redis reads a key. */
  function QueueKey(taskOptions: Options): string {
    ToStr(Get(taskOptions, "queue"))
  }

  /** `JobClass.task(data, taskOptions, options)`. A truthy `taskOptions.queue`
      selects named mode: the serialized data (only if `data` is truthy) goes to
      the tail of that mailbox and a "queueTask" trigger whose id is the mailbox
      name is added. Otherwise an "execute" entry carrying `data` is added under
      a fresh id. */
  function AddTask(s: Store, json: Json, data: Value, taskOptions: Options, options: Options,
                   freshId: string, now: int): (r: Store)
    ensures r.jobQueue == s.jobQueue
    ensures |r.taskQueue| == |s.taskQueue| + 1 && r.taskQueue[..|s.taskQueue|] == s.taskQueue
    ensures var e := r.taskQueue[|s.taskQueue|]; var queue := Get(taskOptions, "queue");
      && e.timestamp == now
      && (forall k :: k in options ==> k in e.opts && e.opts[k] == options[k])
      && (Truthy(queue) ==>
            && e.name == "queueTask" && e.data == Obj(taskOptions)
            && "jobId" in e.opts && ("jobId" !in options ==> e.opts["jobId"] == queue)
            && Mailboxes.ListOf(r.mailboxes, QueueKey(taskOptions))
               == Mailboxes.ListOf(s.mailboxes, QueueKey(taskOptions))
                  + (if Truthy(data) then [json.stringify(data)] else [])
            && Mailboxes.OthersUnchanged(s.mailboxes, r.mailboxes, QueueKey(taskOptions)))
      && (!Truthy(queue) ==>
            && e.name == "execute" && e.data == data
            && "jobId" in e.opts && ("jobId" !in options ==> e.opts["jobId"] == Str(freshId))
            && r.mailboxes == s.mailboxes)
  {
    var queue := Get(taskOptions, "queue");
    if Truthy(queue) then
      var key := QueueKey(taskOptions);
      var mailboxes := if Truthy(data) then Mailboxes.RPush(s.mailboxes, key, json.stringify(data)) else s.mailboxes;
      var trigger := Entry("queueTask", Obj(taskOptions), NamedTaskOptions(queue, options), now);
      s.(mailboxes := mailboxes, taskQueue := s.taskQueue + [trigger])
    else
      var entry := Entry("execute", data, AnonymousTaskOptions(taskOptions, options, freshId), now);
      s.(taskQueue := s.taskQueue + [entry])
  }

  /** The truthy elements of `xs`, in order (`xs.filter(t => !!t)`). */
  function Filter(xs: seq<Value>): (r: seq<Value>)
    ensures |r| <= |xs|
    ensures forall i :: 0 <= i < |r| ==> Truthy(r[i])
    ensures forall v :: v in r <==> v in xs && Truthy(v)
    decreases |xs|
  {
    if |xs| == 0 then []
    else
      var rest := Filter(xs[1..]);
      assert forall v :: v in xs <==> v == xs[0] || v in xs[1..];
      if Truthy(xs[0]) then [xs[0]] + rest else rest
  }

  /** Filtering distributes over concatenation, so filtering the merged list
      keeps the collector's tasks ahead of the returned ones. */
  lemma {:induction false} FilterAppend(a: seq<Value>, b: seq<Value>)
    ensures Filter(a + b) == Filter(a) + Filter(b)
    decreases |a|
  {
    if |a| == 0 {
      assert a + b == b;
    } else {
      assert (a + b)[1..] == a[1..] + b;
      FilterAppend(a[1..], b);
    }
  }

  /** A list whose elements are all truthy filters to itself. */
  lemma {:induction false} FilterKeepsTruthy(xs: seq<Value>)
    requires forall i :: 0 <= i < |xs| ==> Truthy(xs[i])
    ensures Filter(xs) == xs
    decreases |xs|
  {
    if |xs| > 0 {
      FilterKeepsTruthy(xs[1..]);
      assert xs == [xs[0]] + xs[1..];
    }
  }

  /** The task list the job runner acts on, as written: the collector's tasks
      in call order, then the returned array; falsy entries are dropped only
      when `run` returned an array. */
  function MergeTasks(collected: seq<Value>, returned: Value): (tasks: seq<Value>)
    ensures returned.Arr? ==> tasks == Filter(collected) + Filter(returned.items)
    ensures returned.Arr? ==> forall i :: 0 <= i < |tasks| ==> Truthy(tasks[i])
    ensures !returned.Arr? ==> tasks == collected
  {
    FilterAppend(collected, if returned.Arr? then returned.items else []);
    if returned.Arr? then Filter(collected + returned.items) else collected
  }

  /** The task list with falsy entries dropped whatever `run` returned: what
      the runner evidently means to act on. */
  function MergeTasksFiltered(collected: seq<Value>, returned: Value): (tasks: seq<Value>)
    ensures forall i :: 0 <= i < |tasks| ==> Truthy(tasks[i])
    ensures forall v :: v in tasks <==> (v in collected || (returned.Arr? && v in returned.items)) && Truthy(v)
    ensures |tasks| > 0 <==> exists v :: (v in collected || (returned.Arr? && v in returned.items)) && Truthy(v)
    ensures returned.Arr? ==> tasks == MergeTasks(collected, returned)
  {
    var all := collected + if returned.Arr? then returned.items else [];
    assert forall v :: v in all <==> v in collected || (returned.Arr? && v in returned.items);
    var r := Filter(all);
    assert |r| > 0 ==> r[0] in r;
    r
  }

  /** The task-queue entry `JobClass.task(t)` adds for a task `run` produced. */
  function AnonymousEntry(t: Value, id: string, now: int): Entry {
    Entry("execute", t, AnonymousTaskOptions(map[], map[], id), now)
  }

  /** The entries for tasks `ts` whose ids are the generator's outputs from `next` on. */
  function AnonymousEntries(ts: seq<Value>, uuid: nat -> string, next: nat, now: int): seq<Entry> {
    seq(|ts|, i requires 0 <= i < |ts| => AnonymousEntry(ts[i], uuid(next + i), now))
  }

  /** `task(t)` with no options adds exactly the anonymous entry for `t`. */
  lemma AddAnonymous(s: Store, json: Json, t: Value, id: string, now: int)
    ensures AddTask(s, json, t, map[], map[], id, now) == s.(taskQueue := s.taskQueue + [AnonymousEntry(t, id, now)])
  {
  }

  lemma AnonymousEntriesCons(t: Value, ts: seq<Value>, uuid: nat -> string, next: nat, now: int)
    ensures AnonymousEntries([t] + ts, uuid, next, now)
         == [AnonymousEntry(t, uuid(next), now)] + AnonymousEntries(ts, uuid, next + 1, now)
  {
    var l := AnonymousEntries([t] + ts, uuid, next, now);
    var r := [AnonymousEntry(t, uuid(next), now)] + AnonymousEntries(ts, uuid, next + 1, now);
    assert |l| == |r|;
    forall i | 0 <= i < |l| ensures l[i] == r[i] {
      if i > 0 {
        assert ([t] + ts)[i] == ts[i - 1];
        assert next + i == (next + 1) + (i - 1);
      }
    }
  }

  /** `JobClass.task(t)` for a task the runner produced: exactly one anonymous
      entry is added. */
  function TaskFromRunner(s: Store, json: Json, t: Value, id: string, now: int): (r: Store)
    ensures r == s.(taskQueue := s.taskQueue + [AnonymousEntry(t, id, now)])
  {
    AddAnonymous(s, json, t, id, now);
    AddTask(s, json, t, map[], map[], id, now)
  }

  /** `for (let task of pushedTask) if (task) await JobClass.task(task)`: each
      truthy task, in order, becomes an anonymous task under the next fresh id. */
  function PushTasks(s: Store, json: Json, tasks: seq<Value>, uuid: nat -> string, next: nat, now: int): (r: Store)
    ensures r.jobQueue == s.jobQueue && r.mailboxes == s.mailboxes
    ensures r.taskQueue == s.taskQueue + AnonymousEntries(Filter(tasks), uuid, next, now)
    decreases |tasks|
  {
    if |tasks| == 0 then s
    else if Truthy(tasks[0]) then
      var s1 := TaskFromRunner(s, json, tasks[0], uuid(next), now);
      var r := PushTasks(s1, json, tasks[1..], uuid, next + 1, now);
      RunnerEntriesStep(tasks, uuid, next, now);
      AppendAssoc(s.taskQueue, [AnonymousEntry(tasks[0], uuid(next), now)],
                  AnonymousEntries(Filter(tasks[1..]), uuid, next + 1, now));
      r
    else
      RunnerEntriesStep(tasks, uuid, next, now);
      PushTasks(s, json, tasks[1..], uuid, next, now)
  }

  /** How the entries for the runner's tasks unfold by one task. */
  lemma RunnerEntriesStep(tasks: seq<Value>, uuid: nat -> string, next: nat, now: int)
    requires |tasks| > 0
    ensures Truthy(tasks[0]) ==>
      AnonymousEntries(Filter(tasks), uuid, next, now)
      == [AnonymousEntry(tasks[0], uuid(next), now)] + AnonymousEntries(Filter(tasks[1..]), uuid, next + 1, now)
    ensures !Truthy(tasks[0]) ==>
      AnonymousEntries(Filter(tasks), uuid, next, now) == AnonymousEntries(Filter(tasks[1..]), uuid, next, now)
  {
    if Truthy(tasks[0]) {
      assert Filter(tasks) == [tasks[0]] + Filter(tasks[1..]);
      AnonymousEntriesCons(tasks[0], Filter(tasks[1..]), uuid, next, now);
    }
  }

  lemma AppendAssoc<T>(a: seq<T>, b: seq<T>, c: seq<T>)
    ensures (a + b) + c == a + (b + c)
  {
  }

  /** A job-queue entry as the job runner receives it: the id the queue gave it
      and its data. */
  datatype Job = Job(name: string, id: string, data: Value)

  /** What the job's `run(job.data, collector)` did: the arguments passed to
      `collector.task(...)` across all its calls, and its return value; or it
      threw. */
  datatype RunOutcome = Ran(collected: seq<Value>, returned: Value) | RunThrew

  datatype RunnerDecision = Continued | Finished | Backpressured | Failed

  datatype RunnerStep = RunnerStep(store: Store, decision: RunnerDecision)

  /** The options the runner re-submits a job with: same id, given delay. */
  function Resubmit(job: Job, delay: int): Options {
    map["delay" := Num(delay), "jobId" := Str(job.id)]
  }

  /** What the runner does with the task list `run` yielded: push the tasks and
      come back in one second, or stop. */
  function AfterRun(s: Store, json: Json, job: Job, tasks: seq<Value>, uuid: nat -> string, now: int): RunnerStep {
    if |tasks| > 0 then
      var s1 := PushTasks(s, json, tasks, uuid, 0, now);
      RunnerStep(Start(s1, job.data, Resubmit(job, ContinueDelay), uuid(|Filter(tasks)|), now), Continued)
    else
      RunnerStep(s, Finished)
  }

  /** Below the backpressure threshold, a `run` that returned acts on the merged
      task list. */
  lemma RunBelowThreshold(s: Store, json: Json, def: JobDef, job: Job, pending: int, collected: seq<Value>,
                          returned: Value, uuid: nat -> string, now: int)
    requires pending < Workers(def) * 2
    ensures RunJob(s, json, def, job, pending, Ran(collected, returned), uuid, now)
         == AfterRun(s, json, job, MergeTasks(collected, returned), uuid, now)
  {
  }

  /** After a `run` that produced tasks, the task queue gains their entries and
      the job queue exactly one re-submission of the same job, under the job's
      own id (`job.id`) and after 1000 ms. */
  lemma AfterRunEnqueues(s: Store, json: Json, job: Job, tasks: seq<Value>, uuid: nat -> string, now: int)
    requires |tasks| > 0
    ensures var r := AfterRun(s, json, job, tasks, uuid, now);
      && r.decision == Continued
      && r.store.taskQueue == s.taskQueue + AnonymousEntries(Filter(tasks), uuid, 0, now)
      && r.store.jobQueue == s.jobQueue + [Entry("read", job.data, StartOptions(Resubmit(job, ContinueDelay), uuid(|Filter(tasks)|)), now)]
      && Get(r.store.jobQueue[|s.jobQueue|].opts, "jobId") == Str(job.id)
      && Get(r.store.jobQueue[|s.jobQueue|].opts, "delay") == Num(ContinueDelay)
  {
    var s1 := PushTasks(s, json, tasks, uuid, 0, now);
    assert AfterRun(s, json, job, tasks, uuid, now).store == Start(s1, job.data, Resubmit(job, ContinueDelay), uuid(|Filter(tasks)|), now);
    ResubmitKeepsId(job, ContinueDelay, uuid(|Filter(tasks)|));
  }

  /** A re-submission keeps the job's own id, whatever id the generator offers,
      and carries the given delay. */
  lemma ResubmitKeepsId(job: Job, delay: int, freshId: string)
    ensures Get(StartOptions(Resubmit(job, delay), freshId), "jobId") == Str(job.id)
    ensures Get(StartOptions(Resubmit(job, delay), freshId), "delay") == Num(delay)
  {
  }

  /** One call of the job-queue worker, as written. `pending` is what
      `taskQueue.count()` returned; `run` is consulted only below the
      backpressure threshold of twice the pool width. */
  function RunJob(s: Store, json: Json, def: JobDef, job: Job, pending: int, run: RunOutcome,
                  uuid: nat -> string, now: int): (r: RunnerStep)
    ensures r.decision == Backpressured <==> pending >= Workers(def) * 2
    ensures r.decision == Failed <==> pending < Workers(def) * 2 && run.RunThrew?
    ensures r.decision in {Finished, Failed} ==> r.store == s
    ensures r.decision in {Backpressured, Continued} ==>
      && |r.store.jobQueue| == |s.jobQueue| + 1
      && r.store.jobQueue[..|s.jobQueue|] == s.jobQueue
      && var e := r.store.jobQueue[|s.jobQueue|];
         e.name == "read" && e.data == job.data && "jobId" in e.opts && e.opts["jobId"] == Str(job.id)
         && "delay" in e.opts && e.opts["delay"] == Num(if r.decision == Backpressured then Delay(def) else ContinueDelay)
    ensures r.decision == Backpressured ==> r.store.taskQueue == s.taskQueue && r.store.mailboxes == s.mailboxes
    ensures r.decision == Continued ==>
      && run.Ran? && |MergeTasks(run.collected, run.returned)| > 0
      && r.store.mailboxes == s.mailboxes
      && r.store.taskQueue == s.taskQueue + AnonymousEntries(Filter(MergeTasks(run.collected, run.returned)), uuid, 0, now)
    ensures r.decision == Finished <==> pending < Workers(def) * 2 && run.Ran? && MergeTasks(run.collected, run.returned) == []
  {
    if pending < Workers(def) * 2 then
      match run
      case RunThrew => RunnerStep(s, Failed)
      case Ran(collected, returned) => AfterRun(s, json, job, MergeTasks(collected, returned), uuid, now)
    else
      RunnerStep(Start(s, job.data, Resubmit(job, Delay(def)), uuid(0), now), Backpressured)
  }

  /** The job-queue worker with the task list filtered whatever `run` returned. */
  function RunJobFiltered(s: Store, json: Json, def: JobDef, job: Job, pending: int, run: RunOutcome,
                          uuid: nat -> string, now: int): (r: RunnerStep)
    ensures r.decision == Finished <==>
      pending < Workers(def) * 2 && run.Ran?
      && forall v :: (v in run.collected || (run.returned.Arr? && v in run.returned.items)) ==> !Truthy(v)
    ensures r.decision == Continued ==>
      && run.Ran?
      && r.store.taskQueue == s.taskQueue + AnonymousEntries(MergeTasksFiltered(run.collected, run.returned), uuid, 0, now)
    ensures run.Ran? && run.returned.Arr? ==> r == RunJob(s, json, def, job, pending, run, uuid, now)
  {
    if pending < Workers(def) * 2 then
      match run
      case RunThrew => RunnerStep(s, Failed)
      case Ran(collected, returned) =>
        var tasks := MergeTasksFiltered(collected, returned);
        FilterKeepsTruthy(tasks);
        AfterRun(s, json, job, tasks, uuid, now)
    else
      RunnerStep(Start(s, job.data, Resubmit(job, Delay(def)), uuid(0), now), Backpressured)
  }

  /** What the job's `execute(data, meta)` did. */
  datatype ExecOutcome = Completed | ExecThrew

  /** One call of `execute(data, meta)`. */
  datatype Invocation = Invocation(data: Value, meta: Options)

  datatype DrainStep = DrainStep(store: Store, executed: Option<Invocation>)

  /** The `{id, queue}` meta a named drain passes to `execute`, which is also
      the task options of its continuation. */
  function DrainMeta(name: string): Options {
    map["id" := Str(name), "queue" := Str(name)]
  }

  /** The trigger `JobClass.task(null, {id, queue})` adds after a drain. */
  function ContinuationTrigger(name: string, now: int): Entry {
    Entry("queueTask", Obj(DrainMeta(name)), NamedTaskOptions(Str(name), map[]), now)
  }

  /** `task(null, {id, queue})` for a non-empty mailbox name adds the
      continuation trigger and pushes nothing to the mailbox. */
  lemma AddContinuation(s: Store, json: Json, name: string, now: int)
    requires name != ""
    ensures AddTask(s, json, Null, DrainMeta(name), map[], "", now)
         == s.(taskQueue := s.taskQueue + [ContinuationTrigger(name, now)])
  {
    assert Get(DrainMeta(name), "queue") == Str(name);
  }

  /** One call of the task-queue worker. A "queueTask" trigger pops the head of
      the mailbox named by its id; a non-empty message is parsed and executed
      with `{id, queue}`, and, when `execute` returns, a continuation trigger
      for the same mailbox is added. Any other entry is executed directly with
      `{id}`. The pop happens before `execute`, so a throwing `execute` loses
      the popped message and adds no continuation. */
  function DrainTask(s: Store, json: Json, task: Job, outcome: ExecOutcome, now: int): (r: DrainStep)
    ensures r.store.jobQueue == s.jobQueue
    ensures task.name != "queueTask" ==>
      r == DrainStep(s, Some(Invocation(task.data, map["id" := Str(task.id)])))
    ensures task.name == "queueTask" ==>
      var list := Mailboxes.ListOf(s.mailboxes, task.id);
      && Mailboxes.OthersUnchanged(s.mailboxes, r.store.mailboxes, task.id)
      && (list == [] ==> r == DrainStep(s, None))
      && (list != [] ==>
            && Mailboxes.ListOf(r.store.mailboxes, task.id) == list[1..]
            && (list[0] == "" ==> r.executed == None && r.store.taskQueue == s.taskQueue)
            && (list[0] != "" ==> r.executed == Some(Invocation(json.parse(list[0]), DrainMeta(task.id))))
            && (list[0] != "" && outcome == Completed && task.id != "" ==>
                  r.store.taskQueue == s.taskQueue + [ContinuationTrigger(task.id, now)])
            && (outcome == ExecThrew ==> r.store.taskQueue == s.taskQueue))
  {
    if task.name == "queueTask" then
      var popped := Mailboxes.LPop(s.mailboxes, task.id);
      var s1 := s.(mailboxes := popped.store);
      match popped.item
      case None => DrainStep(s1, None)
      case Some(message) =>
        if message == "" then DrainStep(s1, None)
        else
          var meta := DrainMeta(task.id);
          var invocation := Invocation(json.parse(message), meta);
          if outcome == ExecThrew then DrainStep(s1, Some(invocation))
          else
            var s2 := AddTask(s1, json, Null, meta, map[], "", now);
            if task.id != "" then
              AddContinuation(s1, json, task.id, now);
              DrainStep(s2, Some(invocation))
            else DrainStep(s2, Some(invocation))
    else
      DrainStep(s, Some(Invocation(task.data, map["id" := Str(task.id)])))
  }

  /** The id the queue gives an entry: the `jobId` option when it is set,
      otherwise an id of its own (`generated`). */
  function DeliveredId(e: Entry, generated: string): string {
    var id := Get(e.opts, "jobId");
    if Truthy(id) then ToStr(id) else generated
  }

  /** An entry as a worker receives it. */
  function Deliver(e: Entry, generated: string): Job {
    Job(e.name, DeliveredId(e, generated), e.data)
  }

  /** The `delay` option of an entry when it is a number (0 otherwise). */
  function DelayOf(opts: Options): int {
    var d := Get(opts, "delay");
    if d.Num? then d.n else 0
  }

  /** The delay left for a delayed entry at recovery time:
      `max(0, timestamp + delay - now)`, or 0 when the timestamp or the delay
      is missing (zero). */
  function RemainingDelay(e: Entry, now: int): (d: int)
    ensures d >= 0
    ensures e.timestamp != 0 && DelayOf(e.opts) != 0 && now <= e.timestamp + DelayOf(e.opts) ==>
      now + d == e.timestamp + DelayOf(e.opts)
    ensures e.timestamp == 0 || DelayOf(e.opts) == 0 || now >= e.timestamp + DelayOf(e.opts) ==> d == 0
  {
    if e.timestamp != 0 && DelayOf(e.opts) != 0 then
      var left := e.timestamp + DelayOf(e.opts) - now;
      if left > 0 then left else 0
    else 0
  }

  /** The entry recovery adds for a delayed entry `e`, under `name`, with the
      remaining delay and no id of its own. */
  function Readd(name: string, e: Entry, now: int): Entry {
    Entry(name, e.data, map["delay" := Num(RemainingDelay(e, now))], now)
  }

  /** The entries recovery adds for `delayed`, in order. */
  function Readded(name: string, delayed: seq<Entry>, now: int): seq<Entry> {
    seq(|delayed|, i requires 0 <= i < |delayed| => Readd(name, delayed[i], now))
  }

  /** One of the two loops of `recoverJobs`: re-add each delayed entry under
      `name`, in order. */
  method RecoverQueue(queue: seq<Entry>, delayed: seq<Entry>, name: string, now: int) returns (r: seq<Entry>)
    ensures r == queue + Readded(name, delayed, now)
    ensures forall i :: |queue| <= i < |r| ==>
      r[i].name == name && r[i].data == delayed[i - |queue|].data && r[i].opts.Keys == {"delay"}
      && r[i].opts["delay"].Num? && r[i].opts["delay"].n >= 0
  {
    r := queue;
    var i := 0;
    while i < |delayed|
      invariant 0 <= i <= |delayed|
      invariant r == queue + Readded(name, delayed[..i], now)
    {
      assert Readded(name, delayed[..i + 1], now) == Readded(name, delayed[..i], now) + [Readd(name, delayed[i], now)];
      r := r + [Readd(name, delayed[i], now)];
      i := i + 1;
    }
    assert delayed[..i] == delayed;
  }

  /** `recoverJobs`, as written: delayed job entries are re-added as "read" and
      delayed task entries as "execute", whatever their original name. */
  method Recover(s: Store, delayedJobs: seq<Entry>, delayedTasks: seq<Entry>, now: int) returns (r: Store)
    ensures r.mailboxes == s.mailboxes
    ensures r.jobQueue == s.jobQueue + Readded("read", delayedJobs, now)
    ensures r.taskQueue == s.taskQueue + Readded("execute", delayedTasks, now)
  {
    var jobs := RecoverQueue(s.jobQueue, delayedJobs, "read", now);
    var tasks := RecoverQueue(s.taskQueue, delayedTasks, "execute", now);
    r := Store(jobs, tasks, s.mailboxes);
  }

  /** The options the corrected recovery gives a delayed entry: the remaining
      delay, and the entry's own `jobId` when it had one. */
  function KeptOptions(e: Entry, now: int): Options {
    var delay := map["delay" := Num(RemainingDelay(e, now))];
    if "jobId" in e.opts then delay["jobId" := e.opts["jobId"]] else delay
  }

  /** Task recovery that re-adds every entry under its own name and with its own
      id, so a named trigger stays a trigger for the same mailbox. */
  function ReaddedKeepingName(delayed: seq<Entry>, now: int): (r: seq<Entry>)
    ensures |r| == |delayed|
    ensures forall i :: 0 <= i < |r| ==>
      && r[i].name == delayed[i].name && r[i].data == delayed[i].data && r[i].timestamp == now
      && r[i].opts.Keys <= {"delay", "jobId"}
      && Get(r[i].opts, "delay") == Num(RemainingDelay(delayed[i], now))
      && Get(r[i].opts, "jobId") == Get(delayed[i].opts, "jobId")
  {
    seq(|delayed|, i requires 0 <= i < |delayed| => Entry(delayed[i].name, delayed[i].data, KeptOptions(delayed[i], now), now))
  }

  /** The external mailbox for events aimed at `topic` within `app`. */
  function MailboxName(app: string, topic: string): string {
    "eq:app:" + app + ":topic:" + topic
  }

  /** What one `executeOnQueue` pop yielded: nothing, the payload handed to
      `poll`, or a `TypeError` from reading `.data` of a null event. */
  datatype PollRead = NothingPopped | Polled(payload: Value) | Crashed

  /** `executeOnQueue(app, topic, job)`: pop the TAIL of the external mailbox
      and, for a non-empty message, hand `event.data` to `poll`. */
  function ExecuteOnQueue(m: Mailboxes.Store, json: Json, app: string, topic: string): (r: (Mailboxes.Store, PollRead))
    ensures var name := MailboxName(app, topic); var list := Mailboxes.ListOf(m, name);
      && Mailboxes.OthersUnchanged(m, r.0, name)
      && Mailboxes.ListOf(r.0, name) == DropLast(list)
      && r.1 == ReadOf(json, list)
  {
    var name := MailboxName(app, topic);
    var popped := Mailboxes.RPop(m, name);
    assert Mailboxes.ListOf(m, name) != [] ==> Mailboxes.ListOf(popped.store, name) == Mailboxes.ListOf(m, name)[..|Mailboxes.ListOf(m, name)| - 1];
    match popped.item
    case None => (popped.store, NothingPopped)
    case Some(message) =>
      if message == "" then (popped.store, NothingPopped)
      else
        var event := json.parse(message);
        if event.Null? || event.Undefined? then (popped.store, Crashed)
        else (popped.store, Polled(Prop(event, "data")))
  }

  /** One `poll` call made by the poller. */
  datatype PollCall = PollCall(job: string, payload: Value)

  /** The payloads one pop hands to `poll`. */
  function Calls(job: string, read: PollRead): seq<PollCall> {
    if read.Polled? then [PollCall(job, read.payload)] else []
  }

  /** For one topic, the app-scoped and the wildcard mailboxes differ unless the
      app is literally "*". */
  lemma WildcardMailboxIsDistinct(app: string, topic: string)
    requires app != "*"
    ensures MailboxName(app, topic) != MailboxName("*", topic)
  {
    var n1 := MailboxName(app, topic);
    var n2 := MailboxName("*", topic);
    if |app| != 1 {
      assert |n1| != |n2|;
    } else {
      assert app == [app[0]];
      assert n1[7] == app[0] != '*' == n2[7];
    }
  }

  /** The list left by popping the tail of `list`. */
  function DropLast(list: seq<string>): seq<string> {
    if list == [] then [] else list[..|list| - 1]
  }

  /** What popping the tail of `list` yields, read off the list itself. */
  function ReadOf(json: Json, list: seq<string>): PollRead {
    if list == [] || list[|list| - 1] == "" then NothingPopped
    else
      var event := json.parse(list[|list| - 1]);
      if event.Null? || event.Undefined? then Crashed else Polled(Prop(event, "data"))
  }

  /** Whether a read ends the job's turn: reading `.data` of a null event
      throws, and so does a `poll` that throws before returning (`throws`). */
  predicate Stops(read: PollRead, job: string, throws: PollCall -> bool) {
    read.Crashed? || (read.Polled? && throws(PollCall(job, read.payload)))
  }

  /** The two pops of a job with `poll`, in the order the code makes them. */
  function PollTurn(m: Mailboxes.Store, json: Json, app: string, job: string, throws: PollCall -> bool): (Mailboxes.Store, seq<PollCall>) {
    var first := ExecuteOnQueue(m, json, app, job);
    if Stops(first.1, job, throws) then (first.0, Calls(job, first.1))
    else
      var second := ExecuteOnQueue(first.0, json, "*", job);
      (second.0, Calls(job, first.1) + Calls(job, second.1))
  }

  /** What a turn does to the mailboxes and which calls it makes, read off the
      lists it pops. */
  ghost predicate TurnEffect(m: Mailboxes.Store, json: Json, app: string, job: string, throws: PollCall -> bool,
                             r: (Mailboxes.Store, seq<PollCall>)) {
    var a := MailboxName(app, job);
    var w := MailboxName("*", job);
    var first := ReadOf(json, Mailboxes.ListOf(m, a));
    var wild := if app == "*" then DropLast(Mailboxes.ListOf(m, a)) else Mailboxes.ListOf(m, w);
    var stop := Stops(first, job, throws);
    && (app != "*" ==> Mailboxes.ListOf(r.0, a) == DropLast(Mailboxes.ListOf(m, a)))
    && Mailboxes.ListOf(r.0, w) == (if stop then wild else DropLast(wild))
    && (forall n :: n != a && n != w ==> Mailboxes.ListOf(r.0, n) == Mailboxes.ListOf(m, n))
    && r.1 == Calls(job, first) + (if stop then [] else Calls(job, ReadOf(json, wild)))
  }

  /** A turn has the effect read off the lists, one branch at a time. */
  lemma PollTurnEffect(m: Mailboxes.Store, json: Json, app: string, job: string, throws: PollCall -> bool)
    ensures TurnEffect(m, json, app, job, throws, PollTurn(m, json, app, job, throws))
  {
    var a := MailboxName(app, job);
    var w := MailboxName("*", job);
    if app != "*" {
      WildcardMailboxIsDistinct(app, job);
    }
    var first := ExecuteOnQueue(m, json, app, job);
    if !Stops(first.1, job, throws) {
      var second := ExecuteOnQueue(first.0, json, "*", job);
      assert Mailboxes.ListOf(first.0, w) == (if app == "*" then DropLast(Mailboxes.ListOf(m, a)) else Mailboxes.ListOf(m, w));
    }
  }

  /** One job's turn in `initQueues`: for a job with `poll`, the app-scoped
      mailbox and then the `*` mailbox; an exception from the first pop ends the
      turn before the second. `throws` says which `poll` calls throw
      synchronously; a rejected promise of an async `poll` does not stop the
      turn, as the call is not awaited. */
  function PollJob(m: Mailboxes.Store, json: Json, app: string, def: JobDef, throws: PollCall -> bool): (r: (Mailboxes.Store, seq<PollCall>))
    ensures !def.hasPoll ==> r == (m, [])
    ensures def.hasPoll ==> TurnEffect(m, json, app, def.name, throws, r)
    ensures |r.1| <= 2
    ensures forall i :: 0 <= i < |r.1| ==> r.1[i].job == def.name
  {
    if !def.hasPoll then (m, [])
    else
      PollTurnEffect(m, json, app, def.name, throws);
      PollTurn(m, json, app, def.name, throws)
  }

  /** One pass of `initQueues` over the registered jobs, in registration order. */
  function PollPass(m: Mailboxes.Store, json: Json, app: string, defs: seq<JobDef>, throws: PollCall -> bool): (r: (Mailboxes.Store, seq<PollCall>))
    ensures |r.1| <= 2 * |defs|
    ensures forall c :: c in r.1 ==> exists d :: d in defs && d.hasPoll && d.name == c.job
    decreases |defs|
  {
    if |defs| == 0 then (m, [])
    else
      var head := PollJob(m, json, app, defs[0], throws);
      var rest := PollPass(head.0, json, app, defs[1..], throws);
      assert forall c :: c in head.1 ==> defs[0].hasPoll && c.job == defs[0].name;
      assert forall d :: d in defs[1..] ==> d in defs;
      (rest.0, head.1 + rest.1)
  }
}
