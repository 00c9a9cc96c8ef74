/**
 * Call-rate control: `RateLimiter`, a bounded first-in-first-out queue whose task
 * starts are spaced by a minimum interval, and `throttle`, which runs a call at
 * once or defers it so that it runs `delay` after the previous execution.
 *
 * Time is a logical clock: `clock` is what `Date.now()` reads, and every event
 * handler advances it by a non-negative amount before it acts. The `while` loop of
 * `processQueue` is suspended at its two `await`s (the spacing sleep and the running
 * task), so it is modelled as the pass that runs up to the next `await`
 * (`LoopIteration`) and the two events that resume it (`Wake`, `TaskDone`).
 */
module RateLimiting {
  import opened Common

  /** A task start (or a throttled execution): what ran, and the clock reading when it started. */
  datatype Start<T> = Start(task: T, at: int)

  /** The tasks of a list of starts, in the same order. */
  function Tasks<T>(starts: seq<Start<T>>): (ts: seq<T>)
    ensures |ts| == |starts|
    ensures forall i :: 0 <= i < |starts| ==> ts[i] == starts[i].task
    decreases |starts|
  {
    if starts == [] then [] else Tasks(starts[..|starts| - 1]) + [starts[|starts| - 1].task]
  }

  /** Each start is at least `gap` after the one before it. */
  ghost predicate Spaced<T>(starts: seq<Start<T>>, gap: int) {
    forall i :: 0 < i < |starts| ==> starts[i - 1].at + gap <= starts[i].at
  }

  /** With consecutive starts `gap` apart, starts i and j are (j - i) gaps apart. */
  lemma {:induction false} SpacedApart<T>(starts: seq<Start<T>>, gap: nat, i: nat, j: nat)
    requires Spaced(starts, gap)
    requires i <= j < |starts|
    ensures starts[i].at + (j - i) * gap <= starts[j].at
    decreases j - i
  {
    if i < j {
      SpacedApart(starts, gap, i, j - 1);
      assert (j - i) * gap == (j - 1 - i) * gap + gap;
    }
  }

  const DefaultMinInterval: nat := 1000
  const DefaultMaxQueueSize: nat := 10
  const QueueFullMessage: string := "Rate limit queue is full. Please try again later."

  class RateLimiter<T> {
    var queue: seq<T>
    var processing: bool
    var lastCallTime: int
    const minInterval: nat
    const maxQueueSize: nat
    /** The `processQueue` loop is suspended in its spacing sleep; otherwise, while processing, it awaits the running task. */
    var sleeping: bool
    /** The logical clock. */
    var clock: int
    /** Every task started so far, in order. */
    var started: seq<Start<T>>
    /** Every task `execute` accepted so far, in order. */
    ghost var accepted: seq<T>

    /** The invariant of the limiter between events, except the link between idleness and the queue. */
    ghost predicate Consistent()
      reads this
    {
      && |queue| <= maxQueueSize
      && Tasks(started) + queue == accepted
      && Spaced(started, minInterval)
      && (started == [] ==> lastCallTime == 0)
      && (started != [] ==> lastCallTime == started[|started| - 1].at)
      && (sleeping ==> processing && queue != [])
    }

    /** The invariant: when no loop is running, nothing is waiting. */
    ghost predicate Valid()
      reads this
    {
      Consistent() && (!processing ==> queue == [])
    }

    constructor (minInterval: nat, maxQueueSize: nat, now: int)
      ensures Valid()
      ensures this.minInterval == minInterval && this.maxQueueSize == maxQueueSize
      ensures queue == [] && !processing && !sleeping && lastCallTime == 0
      ensures clock == now && started == [] && accepted == []
    {
      this.minInterval := minInterval;
      this.maxQueueSize := maxQueueSize;
      queue := [];
      processing := false;
      sleeping := false;
      lastCallTime := 0;
      clock := now;
      started := [];
      accepted := [];
    }

    /** `new RateLimiter()`: one task start per second, at most ten waiting. */
    constructor Default(now: int)
      ensures Valid()
      ensures minInterval == DefaultMinInterval && maxQueueSize == DefaultMaxQueueSize
      ensures queue == [] && !processing && !sleeping && lastCallTime == 0
      ensures clock == now && started == [] && accepted == []
    {
      minInterval := DefaultMinInterval;
      maxQueueSize := DefaultMaxQueueSize;
      queue := [];
      processing := false;
      sleeping := false;
      lastCallTime := 0;
      clock := now;
      started := [];
      accepted := [];
    }

    /** `queue.shift()` followed by the task's start at the current clock reading. */
    method StartHead()
      requires Consistent() && processing && queue != []
      requires clock >= lastCallTime + minInterval
      modifies this`queue, this`lastCallTime, this`started, this`sleeping
      ensures Consistent() && processing
      ensures queue == old(queue)[1..]
      ensures started == old(started) + [Start(old(queue)[0], clock)]
      ensures lastCallTime == clock && !sleeping
    {
      var fn := queue[0];
      queue := queue[1..];
      lastCallTime := clock;
      started := started + [Start(fn, clock)];
      sleeping := false;
      assert Tasks(started) == Tasks(old(started)) + [fn];
    }

    /**
     * One pass of the `processQueue` loop at the current clock reading, up to its
     * next `await`: the loop ends on an empty queue; it sleeps when the previous
     * start was less than `minInterval` ago; otherwise it starts the head task.
     */
    method LoopIteration()
      requires Consistent() && processing && !sleeping
      modifies this`queue, this`lastCallTime, this`started, this`sleeping, this`processing
      ensures Valid()
      ensures old(queue) == [] ==> !processing && queue == [] && started == old(started)
      ensures old(queue) != [] && clock - old(lastCallTime) < minInterval ==>
        processing && sleeping && queue == old(queue) && started == old(started)
      ensures old(queue) != [] && clock - old(lastCallTime) >= minInterval ==>
        && processing && !sleeping
        && queue == old(queue)[1..]
        && started == old(started) + [Start(old(queue)[0], clock)]
      ensures lastCallTime == (if old(queue) != [] && clock - old(lastCallTime) >= minInterval then clock else old(lastCallTime))
    {
      if queue == [] {
        processing := false;
        return;
      }
      if clock - lastCallTime < minInterval {
        sleeping := true;
        return;
      }
      StartHead();
    }

    /** `processQueue`: starts the loop unless it is already running or there is nothing to do. */
    method ProcessQueue()
      requires Consistent()
      modifies this`queue, this`lastCallTime, this`started, this`sleeping, this`processing
      ensures Valid()
      ensures old(processing) || old(queue) == [] ==>
        queue == old(queue) && started == old(started) && processing == old(processing) && sleeping == old(sleeping)
      ensures !old(processing) && old(queue) != [] && clock - old(lastCallTime) < minInterval ==>
        processing && sleeping && queue == old(queue) && started == old(started)
      ensures !old(processing) && old(queue) != [] && clock - old(lastCallTime) >= minInterval ==>
        && processing && !sleeping
        && queue == old(queue)[1..]
        && started == old(started) + [Start(old(queue)[0], clock)]
    {
      if processing || queue == [] {
        return;
      }
      processing := true;
      LoopIteration();
    }

    /**
     * `execute(fn)` after `elapsed` time units: rejected, with nothing changed, when
     * the queue is full; otherwise the task joins the back of the queue and the loop
     * is started if it was not running.
     */
    method Execute(task: T, elapsed: nat) returns (r: Result<(), string>)
      requires Valid()
      modifies this
      ensures Valid()
      ensures clock == old(clock) + elapsed
      ensures r.Err? <==> |old(queue)| >= maxQueueSize
      ensures r.Err? ==> r.error == QueueFullMessage
      ensures r.Err? ==>
        && queue == old(queue) && accepted == old(accepted) && started == old(started)
        && processing == old(processing) && sleeping == old(sleeping) && lastCallTime == old(lastCallTime)
      ensures r.Ok? ==> accepted == old(accepted) + [task]
      ensures r.Ok? && old(processing) ==>
        queue == old(queue) + [task] && started == old(started) && sleeping == old(sleeping)
      ensures r.Ok? && !old(processing) && clock - old(lastCallTime) < minInterval ==>
        processing && sleeping && queue == [task] && started == old(started)
      ensures r.Ok? && !old(processing) && clock - old(lastCallTime) >= minInterval ==>
        processing && !sleeping && queue == [] && started == old(started) + [Start(task, clock)]
    {
      clock := clock + elapsed;
      if |queue| >= maxQueueSize {
        return Err(QueueFullMessage);
      }
      ghost var done := Tasks(started);
      assert done + queue == accepted;
      queue := queue + [task];
      accepted := accepted + [task];
      assert done + queue == accepted;
      assert !processing ==> queue == [task];
      ProcessQueue();
      r := Ok(());
    }

    /** The spacing sleep ends after `elapsed` more time units, if it is due by then; the head task starts. */
    method Wake(elapsed: nat)
      requires Valid()
      modifies this
      ensures Valid()
      ensures clock == old(clock) + elapsed
      ensures accepted == old(accepted) && processing == old(processing)
      ensures old(sleeping) && clock >= old(lastCallTime) + minInterval ==>
        && !sleeping
        && queue == old(queue)[1..]
        && started == old(started) + [Start(old(queue)[0], clock)]
      ensures !(old(sleeping) && clock >= old(lastCallTime) + minInterval) ==>
        queue == old(queue) && started == old(started) && sleeping == old(sleeping) && lastCallTime == old(lastCallTime)
    {
      clock := clock + elapsed;
      if sleeping && clock >= lastCallTime + minInterval {
        StartHead();
      }
    }

    /** The running task settles after `elapsed` more time units; the loop makes its next pass. */
    method TaskDone(elapsed: nat)
      requires Valid()
      modifies this
      ensures Valid()
      ensures clock == old(clock) + elapsed
      ensures accepted == old(accepted)
      ensures !(old(processing) && !old(sleeping)) ==>
        queue == old(queue) && started == old(started) && sleeping == old(sleeping) && processing == old(processing)
      ensures old(processing) && !old(sleeping) && old(queue) == [] ==>
        !processing && started == old(started)
      ensures old(processing) && !old(sleeping) && old(queue) != [] && clock - old(lastCallTime) < minInterval ==>
        processing && sleeping && queue == old(queue) && started == old(started)
      ensures old(processing) && !old(sleeping) && old(queue) != [] && clock - old(lastCallTime) >= minInterval ==>
        && processing && !sleeping
        && queue == old(queue)[1..]
        && started == old(started) + [Start(old(queue)[0], clock)]
    {
      clock := clock + elapsed;
      if processing && !sleeping {
        LoopIteration();
      }
    }
  }

  // ---------------------------------------------------------------------------
  // throttle
  // ---------------------------------------------------------------------------

  /** What `throttle` does with a call: run it now, or schedule it `wait` time units later. */
  datatype ThrottleStep = RunNow | Defer(wait: int)

  /** The timing rule of `throttle` for a call at `now` whose previous execution was at `lastExecTime`. */
  function ThrottleDecision(now: int, lastExecTime: int, delay: int): (d: ThrottleStep)
    ensures d.RunNow? <==> now - lastExecTime >= delay
    ensures d.Defer? ==> d.wait > 0 && now + d.wait == lastExecTime + delay
  {
    var timeSinceLastExec := now - lastExecTime;
    if timeSinceLastExec >= delay then RunNow else Defer(delay - timeSinceLastExec)
  }

  /** A deferred call: its arguments and the clock reading at which its timeout fires. */
  datatype Scheduled<A> = Scheduled(args: A, due: int)

  /** The closure returned by `throttle(func, delay)`, with its captured `lastExecTime` and timeout. */
  class Throttled<A> {
    const delay: nat
    var lastExecTime: int
    /** The call whose timeout is set and has not fired yet (at most one). */
    var pending: Option<Scheduled<A>>
    var clock: int
    /** Every execution of `func` so far: its arguments and when it ran. */
    var executed: seq<Start<A>>

    ghost predicate Valid()
      reads this
    {
      && (executed == [] ==> lastExecTime == 0)
      && (executed != [] ==> lastExecTime == executed[|executed| - 1].at)
      && (pending.Some? ==> pending.value.due <= lastExecTime + delay)
    }

    constructor (delay: nat, now: int)
      ensures Valid()
      ensures this.delay == delay && lastExecTime == 0 && pending == None
      ensures clock == now && executed == []
    {
      this.delay := delay;
      lastExecTime := 0;
      pending := None;
      clock := now;
      executed := [];
    }

    /**
     * A call with `args` after `elapsed` time units: runs at once when `delay` has
     * passed since the last execution; otherwise it replaces any deferred call with
     * itself, due `delay` after the last execution.
     */
    method Invoke(args: A, elapsed: nat)
      requires Valid()
      modifies this
      ensures Valid()
      ensures clock == old(clock) + elapsed
      ensures clock - old(lastExecTime) >= delay ==>
        executed == old(executed) + [Start(args, clock)] && lastExecTime == clock && pending == old(pending)
      ensures clock - old(lastExecTime) < delay ==>
        && executed == old(executed) && lastExecTime == old(lastExecTime)
        && pending == Some(Scheduled(args, old(lastExecTime) + delay))
    {
      clock := clock + elapsed;
      match ThrottleDecision(clock, lastExecTime, delay)
      case RunNow =>
        lastExecTime := clock;
        executed := executed + [Start(args, clock)];
      case Defer(wait) =>
        pending := Some(Scheduled(args, clock + wait));
    }

    /** The deferred call's timeout fires after `elapsed` time units, if it is due by then. */
    method Fire(elapsed: nat)
      requires Valid()
      modifies this
      ensures Valid()
      ensures clock == old(clock) + elapsed
      ensures old(pending).Some? && clock >= old(pending).value.due ==>
        && executed == old(executed) + [Start(old(pending).value.args, clock)]
        && lastExecTime == clock && pending == None
      ensures !(old(pending).Some? && clock >= old(pending).value.due) ==>
        executed == old(executed) && lastExecTime == old(lastExecTime) && pending == old(pending)
    {
      clock := clock + elapsed;
      if pending.Some? && clock >= pending.value.due {
        lastExecTime := clock;
        executed := executed + [Start(pending.value.args, clock)];
        pending := None;
      }
    }
  }
}
