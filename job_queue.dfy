/**
 * The single-worker FIFO job runner of server/services/jobQueue.service.js,
 * as a sequential state machine. A job's run is split into the step that
 * starts it (`runNext` shifting it off the queue) and the step that ends it
 * (the `finally` block); the `setImmediate(() => this.runNext())` callback it
 * schedules is the separate `Wake` step. Jobs are opaque values.
 */
module JobQueue {

  import opened Wrappers

  /** How a job's promise settled. */
  datatype Outcome = Returns | Throws(error: string)

  /** The queue's state. `wakeups` counts scheduled `setImmediate` callbacks
    * that have not run yet; `started` (in start order) and `finished` are
    * bookkeeping that the service does not keep. */
  datatype QueueState<Job> = QueueState(queue: seq<Job>, running: bool, wakeups: nat, started: seq<Job>, finished: nat)

  function Empty<Job>(): QueueState<Job> {
    QueueState([], false, 0, [], 0)
  }

  /** `runNext`: nothing while a job runs or when the queue is empty;
    * otherwise shift the head and mark the queue as running. */
  function RunNextStep<Job>(s: QueueState<Job>): QueueState<Job> {
    if s.running || s.queue == [] then s
    else s.(queue := s.queue[1..], running := true, started := s.started + [s.queue[0]])
  }

  /** `enqueue`: push at the tail, then `runNext`. */
  function EnqueueStep<Job>(s: QueueState<Job>, job: Job): QueueState<Job> {
    RunNextStep(s.(queue := s.queue + [job]))
  }

  /** The `finally` block after the running job settles, whatever the outcome:
    * clear `running`, and schedule `runNext` if jobs are waiting. */
  function FinishStep<Job>(s: QueueState<Job>, outcome: Outcome): QueueState<Job>
    requires s.running
  {
    s.(running := false, finished := s.finished + 1,
       wakeups := s.wakeups + if |s.queue| > 0 then 1 else 0)
  }

  /** A scheduled `setImmediate` callback fires and calls `runNext`. */
  function WakeStep<Job>(s: QueueState<Job>): QueueState<Job>
    requires s.wakeups > 0
  {
    RunNextStep(s.(wakeups := s.wakeups - 1))
  }

  /** The queue's invariant, given everything enqueued so far: the enqueued
    * jobs are the started ones followed by the waiting ones (FIFO, none lost,
    * none repeated); at most one started job has not finished; and an idle
    * queue with waiting jobs always has a callback scheduled. */
  ghost predicate Inv<Job>(s: QueueState<Job>, enqueued: seq<Job>) {
    Counts(s, enqueued) && (!s.running && s.queue != [] ==> s.wakeups > 0)
  }

  /** The first two parts of `Inv`, which also hold between the two halves
    * of `enqueue` and of a callback (before their `runNext`). */
  ghost predicate Counts<Job>(s: QueueState<Job>, enqueued: seq<Job>) {
    && enqueued == s.started + s.queue
    && |s.started| == s.finished + (if s.running then 1 else 0)
  }

  // ---------------------------------------------------------------------
  // Each step preserves the invariant
  // ---------------------------------------------------------------------

  lemma EmptyInv<Job>()
    ensures Inv(Empty<Job>(), [])
  {
  }

  /** `enqueue` appends at the tail; if the queue was idle the new head starts. */
  lemma EnqueuePreservesInv<Job>(s: QueueState<Job>, enqueued: seq<Job>, job: Job)
    requires Inv(s, enqueued)
    ensures Inv(EnqueueStep(s, job), enqueued + [job])
    ensures var t := EnqueueStep(s, job); t.running
    ensures s.running ==> EnqueueStep(s, job).queue == s.queue + [job]
  {
    var t := s.(queue := s.queue + [job]);
    if !s.running {
      assert t.queue != [];
      assert t.started + [t.queue[0]] + t.queue[1..] == s.started + s.queue + [job];
    }
  }

  /** `runNext` while a job runs, or on an empty queue, changes nothing;
    * otherwise the head starts and the invariant is kept. */
  lemma RunNextPreservesInv<Job>(s: QueueState<Job>, enqueued: seq<Job>)
    requires Counts(s, enqueued)
    ensures Counts(RunNextStep(s), enqueued)
    ensures Inv(s, enqueued) ==> Inv(RunNextStep(s), enqueued)
    ensures !s.running ==> RunNextStep(s).running || RunNextStep(s).queue == []
    ensures s.running ==> RunNextStep(s) == s
    ensures s.queue == [] ==> RunNextStep(s) == s && (!s.running ==> !RunNextStep(s).running)
    ensures !s.running && s.queue != [] ==>
      RunNextStep(s).started == s.started + [s.queue[0]] && RunNextStep(s).queue == s.queue[1..]
  {
    if !s.running && s.queue != [] {
      assert s.started + [s.queue[0]] + s.queue[1..] == s.started + s.queue;
    }
  }

  /** A thrown job is caught like a returning one: `finally` does the same. */
  lemma FinishPreservesInv<Job>(s: QueueState<Job>, enqueued: seq<Job>, outcome: Outcome)
    requires Inv(s, enqueued) && s.running
    ensures Inv(FinishStep(s, outcome), enqueued)
    ensures !FinishStep(s, outcome).running
    ensures FinishStep(s, outcome) == FinishStep(s, Returns)
    ensures FinishStep(s, outcome).queue == s.queue && FinishStep(s, outcome).started == s.started
  {
  }

  lemma WakePreservesInv<Job>(s: QueueState<Job>, enqueued: seq<Job>)
    requires Inv(s, enqueued) && s.wakeups > 0
    ensures Inv(WakeStep(s), enqueued)
  {
    RunNextPreservesInv(s.(wakeups := s.wakeups - 1), enqueued);
  }

  // ---------------------------------------------------------------------
  // Draining
  // ---------------------------------------------------------------------

  /** Let the queue run: the running job settles with the next outcome, a
    * scheduled callback starts the next job, until nothing is left. */
  function Drain<Job>(s: QueueState<Job>, enqueued: seq<Job>, outcomes: seq<Outcome>): QueueState<Job>
    requires Inv(s, enqueued)
    requires |outcomes| == |s.queue| + (if s.running then 1 else 0)
    decreases |outcomes|, if s.running then 0 else 1
  {
    if s.running then
      FinishPreservesInv(s, enqueued, outcomes[0]);
      Drain(FinishStep(s, outcomes[0]), enqueued, outcomes[1..])
    else if s.queue == [] then s
    else
      WakePreservesInv(s, enqueued);
      Drain(WakeStep(s), enqueued, outcomes)
  }

  /** Every job enqueued is started exactly once, in enqueue order, whatever
    * outcome the earlier jobs had; at the end the queue is idle and empty. */
  lemma {:induction false} DrainRunsEveryJobInOrder<Job>(s: QueueState<Job>, enqueued: seq<Job>, outcomes: seq<Outcome>)
    requires Inv(s, enqueued)
    requires |outcomes| == |s.queue| + (if s.running then 1 else 0)
    ensures var t := Drain(s, enqueued, outcomes);
      && t.queue == [] && !t.running
      && t.started == s.started + s.queue
      && t.started == enqueued
      && t.finished == |enqueued|
    decreases |outcomes|, if s.running then 0 else 1
  {
    if s.running {
      FinishPreservesInv(s, enqueued, outcomes[0]);
      DrainRunsEveryJobInOrder(FinishStep(s, outcomes[0]), enqueued, outcomes[1..]);
    } else if s.queue != [] {
      WakePreservesInv(s, enqueued);
      RunNextPreservesInv(s.(wakeups := s.wakeups - 1), enqueued);
      var t := WakeStep(s);
      assert t.started + t.queue == s.started + s.queue;
      DrainRunsEveryJobInOrder(t, enqueued, outcomes);
    }
  }

  // ---------------------------------------------------------------------
  // The service object
  // ---------------------------------------------------------------------

  class JobQueueService<Job> {
    var queue: seq<Job>
    var running: bool
    var wakeups: nat
    ghost var started: seq<Job>
    ghost var finished: nat
    ghost var enqueued: seq<Job>

    ghost function State(): QueueState<Job>
      reads this
    {
      QueueState(queue, running, wakeups, started, finished)
    }

    ghost predicate Valid()
      reads this
    {
      Inv(State(), enqueued)
    }

    constructor ()
      ensures Valid() && State() == Empty() && enqueued == []
    {
      queue, running, wakeups := [], false, 0;
      started, finished, enqueued := [], 0, [];
    }

    /** `runNext`, returning the job it started, if any. */
    method RunNext() returns (job: Option<Job>)
      requires Counts(State(), enqueued)
      modifies this
      ensures Counts(State(), enqueued) && enqueued == old(enqueued)
      ensures old(Valid()) ==> Valid()
      ensures !old(running) ==> running || queue == []
      ensures State() == RunNextStep(old(State()))
      ensures job == if old(running) || old(queue) == [] then None else Some(old(queue)[0])
    {
      RunNextPreservesInv(State(), enqueued);
      if running {
        return None;
      }
      if queue == [] {
        return None;
      }
      job := Some(queue[0]);
      queue := queue[1..];
      running := true;
      started := started + [job.value];
    }

    /** `enqueue`: push at the tail, then try to start the head. */
    method Enqueue(job: Job)
      requires Valid()
      modifies this
      ensures Valid() && enqueued == old(enqueued) + [job]
      ensures State() == EnqueueStep(old(State()), job)
    {
      EnqueuePreservesInv(State(), enqueued, job);
      queue := queue + [job];
      enqueued := enqueued + [job];
      var _ := RunNext();
    }

    /** The running job settled (returned or threw): the `finally` block. */
    method Finish(outcome: Outcome)
      requires Valid() && running
      modifies this
      ensures Valid() && enqueued == old(enqueued)
      ensures State() == FinishStep(old(State()), outcome)
    {
      FinishPreservesInv(State(), enqueued, outcome);
      running := false;
      finished := finished + 1;
      if |queue| > 0 {
        wakeups := wakeups + 1;
      }
    }

    /** A scheduled `setImmediate` callback runs `runNext`. */
    method Wake() returns (job: Option<Job>)
      requires Valid() && wakeups > 0
      modifies this
      ensures Valid() && enqueued == old(enqueued)
      ensures State() == WakeStep(old(State()))
      ensures job == if old(running) || old(queue) == [] then None else Some(old(queue)[0])
    {
      WakePreservesInv(State(), enqueued);
      wakeups := wakeups - 1;
      job := RunNext();
    }
  }
}
