/** Properties of the scheduler that relate several calls: backpressure,
    per-mailbox FIFO delivery, the continuation chain, recovery and the
    external-mailbox poller. */
module JobsProperties {
  import opened Js
  import opened Base
  import Mailboxes
  import opened Jobs

  /** Above the threshold the outcome of `run` is irrelevant: the runner never
      calls it, and re-submits the same job id with the job's full delay. */
  lemma BackpressureSkipsRun(s: Store, json: Json, def: JobDef, job: Job, pending: int,
                             run1: RunOutcome, run2: RunOutcome, uuid: nat -> string, now: int)
    requires pending >= Workers(def) * 2
    ensures RunJob(s, json, def, job, pending, run1, uuid, now) == RunJob(s, json, def, job, pending, run2, uuid, now)
    ensures var r := RunJob(s, json, def, job, pending, run1, uuid, now);
      && r.decision == Backpressured
      && r.store == Start(s, job.data, map["delay" := Num(Delay(def)), "jobId" := Str(job.id)], uuid(0), now)
  {
  }

  /** A job with four workers whose `run` returns two tasks, below the
      threshold of eight: two anonymous tasks are added, in order, and the job
      comes back with the same id after 1000 ms. */
  lemma TwoTasksContinue(s: Store, json: Json, job: Job, t1: Value, t2: Value, uuid: nat -> string, now: int)
    requires Truthy(t1) && Truthy(t2)
    ensures var def := JobDef("sendCampaign", Some(4), None, false);
      var r := RunJob(s, json, def, job, 7, Ran([], Arr([t1, t2])), uuid, now);
      && r.decision == Continued
      && r.store.taskQueue == s.taskQueue + [AnonymousEntry(t1, uuid(0), now), AnonymousEntry(t2, uuid(1), now)]
      && r.store.jobQueue == s.jobQueue + [Entry("read", job.data, StartOptions(Resubmit(job, 1000), uuid(2)), now)]
  {
    var def := JobDef("sendCampaign", Some(4), None, false);
    var tasks := [t1, t2];
    FilterKeepsTruthy(tasks);
    assert MergeTasks([], Arr(tasks)) == tasks by {
      assert Filter([]) == [];
    }
    RunBelowThreshold(s, json, def, job, 7, [], Arr(tasks), uuid, now);
    AfterRunEnqueues(s, json, job, tasks, uuid, now);
    AnonymousEntriesPair(t1, t2, uuid, now);
  }

  lemma AnonymousEntriesPair(t1: Value, t2: Value, uuid: nat -> string, now: int)
    ensures AnonymousEntries([t1, t2], uuid, 0, now) == [AnonymousEntry(t1, uuid(0), now), AnonymousEntry(t2, uuid(1), now)]
  {
  }

  /** Finding, as written: a collector call with a falsy task and no returned
      array keeps the job alive, re-submitting it every second although no
      task was added. */
  lemma FalsyCollectedTaskKeepsJobAlive(s: Store, json: Json, def: JobDef, job: Job, uuid: nat -> string, now: int)
    requires Workers(def) > 0
    ensures var r := RunJob(s, json, def, job, 0, Ran([Null], Undefined), uuid, now);
      && r.decision == Continued
      && r.store.taskQueue == s.taskQueue
      && |r.store.jobQueue| == |s.jobQueue| + 1
  {
    assert Filter([Null]) == [];
  }

  /** The same call with the task list filtered whatever `run` returned ends
      the job instance. */
  lemma FalsyCollectedTaskFinishesWhenFiltered(s: Store, json: Json, def: JobDef, job: Job, uuid: nat -> string, now: int)
    requires Workers(def) > 0
    ensures RunJobFiltered(s, json, def, job, 0, Ran([Null], Undefined), uuid, now) == RunnerStep(s, Finished)
  {
    assert forall v :: v in [Null] ==> !Truthy(v);
  }

  /** The task options `task(data, {queue: q})` is called with. */
  function Named(q: string): Options {
    map["queue" := Str(q)]
  }

  /** `task(d, {queue: q})` for each `d` of `ds`, in order. */
  function AddNamedAll(s: Store, json: Json, q: string, ds: seq<Value>, now: int): Store
    decreases |ds|
  {
    if |ds| == 0 then s
    else AddNamedAll(AddTask(s, json, ds[0], Named(q), map[], "", now), json, q, ds[1..], now)
  }

  /** The mailbox texts of `vs`. */
  function Stringified(json: Json, vs: seq<Value>): seq<string> {
    seq(|vs|, i requires 0 <= i < |vs| => json.stringify(vs[i]))
  }

  /** One `task(d, {queue: q})` call, seen from the mailboxes. */
  lemma NamedStep(s: Store, json: Json, q: string, d: Value, now: int)
    requires q != ""
    ensures var s1 := AddTask(s, json, d, Named(q), map[], "", now);
      && Mailboxes.ListOf(s1.mailboxes, q)
         == Mailboxes.ListOf(s.mailboxes, q) + (if Truthy(d) then [json.stringify(d)] else [])
      && Mailboxes.OthersUnchanged(s.mailboxes, s1.mailboxes, q)
  {
    assert Get(Named(q), "queue") == Str(q);
    assert QueueKey(Named(q)) == q;
  }

  /** Named tasks append their truthy payloads to the tail of their mailbox in
      call order, and touch no other mailbox. */
  lemma {:induction false} NamedTasksAppendInOrder(s: Store, json: Json, q: string, ds: seq<Value>, now: int)
    requires q != ""
    ensures Mailboxes.ListOf(AddNamedAll(s, json, q, ds, now).mailboxes, q)
         == Mailboxes.ListOf(s.mailboxes, q) + Stringified(json, Filter(ds))
    ensures Mailboxes.OthersUnchanged(s.mailboxes, AddNamedAll(s, json, q, ds, now).mailboxes, q)
    decreases |ds|
  {
    if |ds| == 0 {
      assert Stringified(json, Filter(ds)) == [];
    } else {
      var s1 := AddTask(s, json, ds[0], Named(q), map[], "", now);
      assert AddNamedAll(s, json, q, ds, now) == AddNamedAll(s1, json, q, ds[1..], now);
      NamedStep(s, json, q, ds[0], now);
      NamedTasksAppendInOrder(s1, json, q, ds[1..], now);
      StringifiedFilterStep(json, ds);
      AppendAssoc(Mailboxes.ListOf(s.mailboxes, q), if Truthy(ds[0]) then [json.stringify(ds[0])] else [],
                  Stringified(json, Filter(ds[1..])));
    }
  }

  /** How the mailbox texts of the truthy payloads unfold by one payload. */
  lemma StringifiedFilterStep(json: Json, ds: seq<Value>)
    requires |ds| > 0
    ensures Stringified(json, Filter(ds))
         == (if Truthy(ds[0]) then [json.stringify(ds[0])] else []) + Stringified(json, Filter(ds[1..]))
  {
    if Truthy(ds[0]) {
      assert Filter(ds) == [ds[0]] + Filter(ds[1..]);
      StringifiedCons(json, ds[0], Filter(ds[1..]));
    } else {
      assert Filter(ds) == Filter(ds[1..]);
    }
  }

  lemma StringifiedCons(json: Json, v: Value, vs: seq<Value>)
    ensures Stringified(json, [v] + vs) == [json.stringify(v)] + Stringified(json, vs)
  {
    var l := Stringified(json, [v] + vs);
    var r := [json.stringify(v)] + Stringified(json, vs);
    assert |l| == |r|;
    forall i | 0 <= i < |l| ensures l[i] == r[i] {
      if i > 0 {
        assert ([v] + vs)[i] == vs[i - 1];
      }
    }
  }

  /** The drain trigger for mailbox `q`, as the task executor receives it. */
  function Trigger(q: string): Job {
    Job("queueTask", q, Obj(DrainMeta(q)))
  }

  /** `n` successive drains of mailbox `q` whose `execute` calls all return:
      the store afterwards and the payloads executed, in order. */
  function DrainRepeatedly(s: Store, json: Json, q: string, n: nat, now: int): (Store, seq<Value>)
    decreases n
  {
    if n == 0 then (s, [])
    else
      var step := DrainTask(s, json, Trigger(q), Completed, now);
      var rest := DrainRepeatedly(step.store, json, q, n - 1, now);
      (rest.0, (if step.executed.Some? then [step.executed.value.data] else []) + rest.1)
  }

  /** The values the codec reads from `texts`. */
  function Parsed(json: Json, texts: seq<string>): seq<Value> {
    seq(|texts|, i requires 0 <= i < |texts| => json.parse(texts[i]))
  }

  /** No text is the empty string, which a drain would skip. */
  predicate NonEmptyTexts(texts: seq<string>) {
    forall i :: 0 <= i < |texts| ==> texts[i] != ""
  }

  /** One drain of a mailbox starting with non-empty `texts` and then `tail`
      executes the parsed head and leaves the rest. */
  lemma DrainPopsHead(s: Store, json: Json, q: string, texts: seq<string>, tail: seq<string>, now: int)
    requires |texts| > 0 && texts[0] != ""
    requires Mailboxes.ListOf(s.mailboxes, q) == texts + tail
    ensures var step := DrainTask(s, json, Trigger(q), Completed, now);
      && step.executed == Some(Invocation(json.parse(texts[0]), DrainMeta(q)))
      && Mailboxes.ListOf(step.store.mailboxes, q) == texts[1..] + tail
  {
    assert (texts + tail)[0] == texts[0];
    assert (texts + tail)[1..] == texts[1..] + tail;
  }

  lemma ParsedCons(json: Json, texts: seq<string>)
    requires |texts| > 0
    ensures Parsed(json, texts) == [json.parse(texts[0])] + Parsed(json, texts[1..])
  {
    var l := Parsed(json, texts);
    var r := [json.parse(texts[0])] + Parsed(json, texts[1..]);
    assert |l| == |r|;
    forall i | 0 <= i < |l| ensures l[i] == r[i] {
      if i > 0 {
        assert texts[1..][i - 1] == texts[i];
      }
    }
  }

  /** Draining a mailbox that starts with the non-empty `texts` once per text
      executes their parsed values, head first, and leaves `tail`. */
  lemma {:induction false} DrainPopsInOrder(s: Store, json: Json, q: string, texts: seq<string>,
                                            tail: seq<string>, now: int)
    requires NonEmptyTexts(texts)
    requires Mailboxes.ListOf(s.mailboxes, q) == texts + tail
    ensures DrainRepeatedly(s, json, q, |texts|, now).1 == Parsed(json, texts)
    ensures Mailboxes.ListOf(DrainRepeatedly(s, json, q, |texts|, now).0.mailboxes, q) == tail
    decreases |texts|
  {
    if |texts| > 0 {
      var step := DrainTask(s, json, Trigger(q), Completed, now);
      DrainPopsHead(s, json, q, texts, tail, now);
      assert NonEmptyTexts(texts[1..]) by {
        assert forall i :: 0 <= i < |texts| - 1 ==> texts[1..][i] == texts[i + 1];
      }
      DrainPopsInOrder(step.store, json, q, texts[1..], tail, now);
      ParsedCons(json, texts);
    } else {
      assert Parsed(json, texts) == [];
    }
  }

  /** The codec reads back each of `vs` from its text, and no text is empty. */
  predicate RoundTrips(json: Json, vs: seq<Value>) {
    forall i :: 0 <= i < |vs| ==> json.parse(json.stringify(vs[i])) == vs[i] && json.stringify(vs[i]) != ""
  }

  /** Draining a mailbox that holds the texts of `vs` followed by `tail`
      executes exactly `vs`, head first, and leaves `tail`. */
  lemma DrainExecutesHeadsInOrder(s: Store, json: Json, q: string, vs: seq<Value>, tail: seq<string>, now: int)
    requires RoundTrips(json, vs)
    requires Mailboxes.ListOf(s.mailboxes, q) == Stringified(json, vs) + tail
    ensures DrainRepeatedly(s, json, q, |vs|, now).1 == vs
    ensures Mailboxes.ListOf(DrainRepeatedly(s, json, q, |vs|, now).0.mailboxes, q) == tail
  {
    var texts := Stringified(json, vs);
    assert NonEmptyTexts(texts);
    DrainPopsInOrder(s, json, q, texts, tail, now);
    assert Parsed(json, texts) == vs;
  }

  /** Per-mailbox FIFO: named tasks submitted to an empty mailbox are executed
      in submission order (falsy payloads are never queued), and the mailbox is
      empty once they all ran. */
  lemma NamedDeliveryIsFifo(s: Store, json: Json, q: string, ds: seq<Value>, now: int)
    requires Faithful(json) && q != ""
    requires Mailboxes.ListOf(s.mailboxes, q) == []
    ensures var s1 := AddNamedAll(s, json, q, ds, now);
      var drained := DrainRepeatedly(s1, json, q, |Filter(ds)|, now);
      drained.1 == Filter(ds) && Mailboxes.ListOf(drained.0.mailboxes, q) == []
  {
    var s1 := AddNamedAll(s, json, q, ds, now);
    NamedTasksAppendInOrder(s, json, q, ds, now);
    assert Mailboxes.ListOf(s1.mailboxes, q) == Stringified(json, Filter(ds)) + [];
    DrainExecutesHeadsInOrder(s1, json, q, Filter(ds), [], now);
  }

  /** Two named tasks for the same mailbox before any drain: the mailbox holds
      both payloads in order, and both triggers carry the mailbox name as id,
      so the queue sees a single trigger identity. */
  lemma TwoNamedTasksShareTrigger(s: Store, json: Json, q: string, d1: Value, d2: Value, now: int)
    requires q != "" && Truthy(d1) && Truthy(d2)
    requires Mailboxes.ListOf(s.mailboxes, q) == []
    ensures var s2 := AddNamedAll(s, json, q, [d1, d2], now);
      && Mailboxes.ListOf(s2.mailboxes, q) == [json.stringify(d1), json.stringify(d2)]
      && |s2.taskQueue| == |s.taskQueue| + 2
      && DeliveredId(s2.taskQueue[|s.taskQueue|], "") == q
      && DeliveredId(s2.taskQueue[|s.taskQueue| + 1], "") == q
  {
    NamedTasksAppendInOrder(s, json, q, [d1, d2], now);
    assert Filter([d1, d2]) == [d1, d2] by {
      assert [d1, d2][1..] == [d2];
    }
    assert Get(Named(q), "queue") == Str(q);
    var s1 := AddTask(s, json, d1, Named(q), map[], "", now);
    assert [d1, d2][1..] == [d2];
    assert [d2][1..] == [];
    var s2 := AddTask(s1, json, d2, Named(q), map[], "", now);
    assert AddNamedAll(s1, json, q, [d2], now) == AddNamedAll(s2, json, q, [], now) == s2;
    assert AddNamedAll(s, json, q, [d1, d2], now) == AddNamedAll(s1, json, q, [d2], now);
    assert s2.taskQueue[|s.taskQueue|] == s1.taskQueue[|s.taskQueue|];
  }

  /** The trigger a named task adds, once delivered, drains the mailbox the
      payload went to: it executes the oldest waiting payload. */
  lemma NamedTriggerDrainsItsMailbox(s: Store, json: Json, q: string, d: Value, now: int)
    requires Faithful(json) && q != "" && Truthy(d)
    requires Mailboxes.ListOf(s.mailboxes, q) == []
    ensures var s1 := AddTask(s, json, d, Named(q), map[], "", now);
      var step := DrainTask(s1, json, Deliver(s1.taskQueue[|s.taskQueue|], ""), Completed, now);
      && step.executed == Some(Invocation(d, DrainMeta(q)))
      && Mailboxes.ListOf(step.store.mailboxes, q) == []
      && step.store.taskQueue == s1.taskQueue + [ContinuationTrigger(q, now)]
  {
    assert Get(Named(q), "queue") == Str(q);
    assert QueueKey(Named(q)) == q;
    assert json.parse(json.stringify(d)) == d && json.stringify(d) != "";
  }

  /** The continuation a drain adds pushes no payload: once delivered on an
      emptied mailbox, it executes nothing and adds nothing, so the chain
      stops by itself. */
  lemma ContinuationStopsOnEmptyMailbox(s: Store, json: Json, q: string, now: int)
    requires q != "" && Mailboxes.ListOf(s.mailboxes, q) == []
    ensures DeliveredId(ContinuationTrigger(q, now), "") == q
    ensures DrainTask(s, json, Deliver(ContinuationTrigger(q, now), ""), Completed, now) == DrainStep(s, None)
  {
  }

  /** At odds with the at-least-once reading of named tasks: the message is
      popped before `execute` runs, so when `execute` throws the message is
      gone and no continuation is added, leaving the rest of the mailbox
      waiting for the next `task` call on that name. */
  lemma ThrowingExecuteLosesMessage(s: Store, json: Json, q: string, first: string, rest: seq<string>, now: int)
    requires first != "" && Mailboxes.ListOf(s.mailboxes, q) == [first] + rest
    ensures var step := DrainTask(s, json, Trigger(q), ExecThrew, now);
      && step.executed.Some?
      && Mailboxes.ListOf(step.store.mailboxes, q) == rest
      && step.store.taskQueue == s.taskQueue
  {
    assert ([first] + rest)[1..] == rest;
  }

  /** Recovery keeps the due time of an entry that is not yet due: re-added at
      `now` with the remaining delay, it falls due when the original would have. */
  lemma RecoveredDueTime(e: Entry, now: int)
    requires e.timestamp != 0 && DelayOf(e.opts) != 0
    ensures var r := Readd(e.name, e, now);
      r.timestamp + DelayOf(r.opts) == if now <= e.timestamp + DelayOf(e.opts) then e.timestamp + DelayOf(e.opts) else now
  {
  }

  /** Finding, as written: a delayed named trigger comes back from recovery as
      an "execute" entry, so the executor hands the trigger's own options to
      `execute` and the mailbox is never popped. */
  lemma RecoveredTriggerBecomesExecute(s: Store, json: Json, q: string, now: int, generated: string)
    ensures var trigger := Entry("queueTask", Obj(Named(q)), map["delay" := Num(500)], now - 100);
      var back := Readded("execute", [trigger], now)[0];
      var step := DrainTask(s, json, Deliver(back, generated), Completed, now);
      && back.name == "execute"
      && step == DrainStep(s, Some(Invocation(Obj(Named(q)), map["id" := Str(generated)])))
  {
  }

  /** Recovery that keeps entry names and ids re-adds a named trigger as a
      trigger: whatever id the queue would generate, the recovered entry is
      delivered under the mailbox name and pops that mailbox. */
  lemma RecoveredTriggerKeepsDraining(s: Store, json: Json, q: string, delay: int, now: int, generated: string)
    requires Faithful(json) && q != "" && Mailboxes.ListOf(s.mailboxes, q) != []
    requires Mailboxes.ListOf(s.mailboxes, q)[0] != ""
    ensures var trigger := Entry("queueTask", Obj(Named(q)), NamedTaskOptions(Str(q), map["delay" := Num(delay)]), now);
      var back := ReaddedKeepingName([trigger], now)[0];
      var step := DrainTask(s, json, Deliver(back, generated), Completed, now);
      && back.name == "queueTask"
      && step.executed == Some(Invocation(json.parse(Mailboxes.ListOf(s.mailboxes, q)[0]), DrainMeta(q)))
      && Mailboxes.ListOf(step.store.mailboxes, q) == Mailboxes.ListOf(s.mailboxes, q)[1..]
  {
    var trigger := Entry("queueTask", Obj(Named(q)), NamedTaskOptions(Str(q), map["delay" := Num(delay)]), now);
    var back := ReaddedKeepingName([trigger], now)[0];
    assert Get(back.opts, "jobId") == Str(q);
    assert Deliver(back, generated) == Job("queueTask", q, back.data);
  }

  /** Names built from apps without ':' determine both the app and the topic. */
  lemma MailboxNameInjective(a1: string, t1: string, a2: string, t2: string)
    requires ':' !in a1 && ':' !in a2
    requires MailboxName(a1, t1) == MailboxName(a2, t2)
    ensures a1 == a2 && t1 == t2
  {
    var n := MailboxName(a1, t1);
    assert n == "eq:app:" + a1 + ":topic:" + t1;
    assert n == "eq:app:" + a2 + ":topic:" + t2;
    assert forall i :: 0 <= i < |a1| ==> n[7 + i] == a1[i];
    assert forall i :: 0 <= i < |a2| ==> n[7 + i] == a2[i];
    assert |a1| < |n| - 7 ==> n[7 + |a1|] == ':';
    assert |a2| < |n| - 7 ==> n[7 + |a2|] == ':';
    if |a1| < |a2| {
      assert false;
    } else if |a2| < |a1| {
      assert false;
    }
    assert a1 == n[7..7 + |a1|] == a2;
    assert t1 == n[7 + |a1| + 7..] == t2;
  }

  /** A pass for one job with `poll` whose first call returns: the app-scoped
      mailbox is popped first, then the wildcard one, each from its tail, and
      `poll` gets each event's `data` in that order. */
  lemma PollAppBeforeWildcard(m: Mailboxes.Store, json: Json, app: string, def: JobDef, throws: PollCall -> bool)
    requires def.hasPoll && app != "*"
    requires var a := Mailboxes.ListOf(m, MailboxName(app, def.name));
      && a != [] && a[|a| - 1] != "" && json.parse(a[|a| - 1]).Obj?
      && !throws(PollCall(def.name, Prop(json.parse(a[|a| - 1]), "data")))
    requires var w := Mailboxes.ListOf(m, MailboxName("*", def.name));
      w != [] && w[|w| - 1] != "" && json.parse(w[|w| - 1]).Obj?
    ensures var a := Mailboxes.ListOf(m, MailboxName(app, def.name));
      var w := Mailboxes.ListOf(m, MailboxName("*", def.name));
      PollJob(m, json, app, def, throws).1 == [
        PollCall(def.name, Prop(json.parse(a[|a| - 1]), "data")),
        PollCall(def.name, Prop(json.parse(w[|w| - 1]), "data"))]
  {
    var a := Mailboxes.ListOf(m, MailboxName(app, def.name));
    var w := Mailboxes.ListOf(m, MailboxName("*", def.name));
    var first := ReadOf(json, a);
    assert first == Polled(Prop(json.parse(a[|a| - 1]), "data"));
    assert !Stops(first, def.name, throws);
    assert ReadOf(json, w) == Polled(Prop(json.parse(w[|w| - 1]), "data"));
  }

  /** A `poll` that throws on the app-scoped event ends the job's turn: the
      wildcard mailbox keeps its events for the next pass. */
  lemma ThrowingPollSkipsWildcard(m: Mailboxes.Store, json: Json, app: string, def: JobDef, throws: PollCall -> bool)
    requires def.hasPoll && app != "*"
    requires var a := Mailboxes.ListOf(m, MailboxName(app, def.name));
      && a != [] && a[|a| - 1] != "" && json.parse(a[|a| - 1]).Obj?
      && throws(PollCall(def.name, Prop(json.parse(a[|a| - 1]), "data")))
    ensures var r := PollJob(m, json, app, def, throws);
      var a := Mailboxes.ListOf(m, MailboxName(app, def.name));
      && r.1 == [PollCall(def.name, Prop(json.parse(a[|a| - 1]), "data"))]
      && Mailboxes.ListOf(r.0, MailboxName("*", def.name)) == Mailboxes.ListOf(m, MailboxName("*", def.name))
  {
  }

  /** The id a job is started under: the caller's `jobId` whenever the caller
      passes that key, even a falsy one, and the generated id only otherwise. */
  lemma StartUsesFreshIdOnlyWithoutJobId(s: Store, data: Value, options: Options, freshId: string, now: int)
    requires Str(freshId) !in options.Values
    ensures var e := Start(s, data, options, freshId, now).jobQueue[|s.jobQueue|];
      e.opts["jobId"] == Str(freshId) <==> "jobId" !in options
  {
  }
}
