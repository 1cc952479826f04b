/**
  The queue-item poller: it observes a queue item until Jenkins either
  cancels it or schedules it as a build, and returns the build number.

  The remote end is a script with one `Round` per loop iteration: the
  snapshot (or failure) `GetQueueItem` answers with, and how the wait after
  it ends. A run is the outcome plus the calls each iteration made.
 */
module QueueItemPolling {
  import opened Common

  datatype QueueItemPoller = QueueItemPoller(pollingInterval: Duration, queueItemId: int, timeout: Duration)

  /** `newQueueItemPoller`: a one-second interval and no timeout. */
  function NewQueueItemPoller(queueItemId: int): QueueItemPoller
  {
    QueueItemPoller(Second, queueItemId, 0)
  }

  function WithPollingInterval(p: QueueItemPoller, pollingInterval: Duration): QueueItemPoller
  {
    p.(pollingInterval := pollingInterval)
  }

  function WithTimeout(p: QueueItemPoller, timeout: Duration): QueueItemPoller
  {
    p.(timeout := timeout)
  }

  /** The answers the remote end gives in one iteration. */
  datatype Round = Round(item: Reply<QueueItem>, wait: WaitOutcome)

  /** A snapshot that is neither cancelled nor scheduled yet. */
  predicate Unscheduled(r: Round) {
    r.item.Ok? && !r.item.value.cancelled && r.item.value.executable.number == 0
  }

  /** A round after which the loop goes on: unscheduled, and the wait ran its course. */
  predicate Pending(r: Round) {
    Unscheduled(r) && r.wait.Elapsed?
  }

  /** One iteration: `stop` is the poll's result when the loop ends here. */
  datatype Step = Step(stop: Option<Outcome<int>>, trace: seq<Call>)

  /** One pass of the loop body of `Poll`. */
  function Iterate(p: QueueItemPoller, r: Round): (s: Step)
    ensures s.stop.None? <==> Pending(r)
    ensures s.stop.Some? ==> !s.stop.value.OutOfScript?
    ensures s.stop == Some(Failed(JobCancelled)) <==> r.item.Ok? && r.item.value.cancelled
    ensures s.stop.Some? && s.stop.value.Returned? <==>
      r.item.Ok? && !r.item.value.cancelled && r.item.value.executable.number != 0
    ensures s.stop.Some? && s.stop.value.Returned? ==>
      r.item.Ok? && s.stop.value.value == r.item.value.executable.number
    ensures s.trace == if Unscheduled(r) then [GetQueueItem(p.queueItemId), Wait(p.pollingInterval)]
                       else [GetQueueItem(p.queueItemId)]
  {
    var get := GetQueueItem(p.queueItemId);
    match r.item
    case Err(e) => Step(Some(Failed(Wrapped("failed to get queue item", e))), [get])
    case Ok(q) =>
      if q.cancelled then Step(Some(Failed(JobCancelled)), [get])
      else if q.executable.number != 0 then Step(Some(Returned(q.executable.number)), [get])
      else
        match r.wait
        case Elapsed => Step(None, [get, Wait(p.pollingInterval)])
        case ContextDone(c) => Step(Some(Failed(Context(c))), [get, Wait(p.pollingInterval)])
  }

  /** The result of the loop: how it ended and what each iteration did. */
  datatype LoopRun = LoopRun(outcome: Outcome<int>, iterations: seq<seq<Call>>)

  /** The `for` loop of `Poll`, run against a script. */
  function Loop(p: QueueItemPoller, script: seq<Round>): (r: LoopRun)
    ensures |r.iterations| <= |script|
    ensures forall k :: 0 <= k < |r.iterations| - 1 ==> Pending(script[k])
    ensures r.outcome.OutOfScript? <==> |r.iterations| == |script| && forall k :: 0 <= k < |script| ==> Pending(script[k])
    ensures !r.outcome.OutOfScript? ==>
      && |r.iterations| > 0
      && Iterate(p, script[|r.iterations| - 1]).stop == Some(r.outcome)
    ensures r.outcome.Returned? ==> r.outcome.value != 0
    decreases |script|
  {
    if |script| == 0 then LoopRun(OutOfScript, [])
    else
      var step := Iterate(p, script[0]);
      if step.stop.Some? then LoopRun(step.stop.value, [step.trace])
      else
        var rest := Loop(p, script[1..]);
        LoopRun(rest.outcome, [step.trace] + rest.iterations)
  }

  /** Iteration k of the loop is one pass of the body over round k. */
  lemma {:induction false} LoopIteration(p: QueueItemPoller, script: seq<Round>, k: nat)
    requires k < |Loop(p, script).iterations|
    ensures Loop(p, script).iterations[k] == Iterate(p, script[k]).trace
    decreases k
  {
    var r := Loop(p, script);
    if k > 0 {
      var rest := Loop(p, script[1..]);
      assert r.iterations == [Iterate(p, script[0]).trace] + rest.iterations;
      LoopIteration(p, script[1..], k - 1);
      assert script[1..][k - 1] == script[k];
    }
  }

  /** A poll: the deadline it puts on its context, and its loop. */
  datatype Run = Run(deadline: Option<Duration>, outcome: Outcome<int>, iterations: seq<seq<Call>>)

  /** `Poll`: apply the timeout, if any, then run the loop. */
  function Poll(p: QueueItemPoller, script: seq<Round>): (r: Run)
    ensures r.deadline.None? <==> p.timeout == 0
    ensures r.outcome.Returned? ==> r.outcome.value != 0
  {
    var loop := Loop(p, script);
    Run(DerivedDeadline(p.timeout), loop.outcome, loop.iterations)
  }

  /** Every call the poll made, in order. */
  function Trace(r: Run): seq<Call>
  {
    Flatten(r.iterations)
  }

  predicate IsQuery(c: Call) {
    c.GetQueueItem?
  }

  /**
    Each iteration queries exactly once; every iteration but the last
    waits once, and the last one waits only when its snapshot was
    unscheduled.
   */
  lemma {:induction false} LoopCounts(p: QueueItemPoller, script: seq<Round>)
    ensures var r := Loop(p, script);
      && Count(Flatten(r.iterations), IsQuery) == |r.iterations|
      && (r.outcome.Returned? ==> Count(Flatten(r.iterations), IsWait) == |r.iterations| - 1)
    decreases |script|
  {
    if |script| > 0 {
      var step := Iterate(p, script[0]);
      var t := step.trace;
      assert Count(t, IsQuery) == 1 && Count(t, IsWait) == (if Unscheduled(script[0]) then 1 else 0) by {
        assert t[0] == GetQueueItem(p.queueItemId);
        if Unscheduled(script[0]) {
          var w := t[1..];
          assert w == [Wait(p.pollingInterval)];
          assert w[1..] == [];
          assert Count(w, IsQuery) == 0;
          assert Count(w, IsWait) == 1;
        } else {
          assert t[1..] == [];
        }
      }
      var r := Loop(p, script);
      if step.stop.None? {
        var rest := Loop(p, script[1..]);
        LoopCounts(p, script[1..]);
        assert r.iterations == [t] + rest.iterations;
        assert Flatten(r.iterations) == t + Flatten(rest.iterations);
        CountAppend(t, Flatten(rest.iterations), IsQuery);
        CountAppend(t, Flatten(rest.iterations), IsWait);
      } else {
        assert Flatten(r.iterations) == t + [];
        assert t + [] == t;
      }
    }
  }

  /**
    The loop runs through the pending rounds and stops at the first round
    that is not pending, with that round's verdict; the number of queries
    is that round's index plus one, and nothing is asked afterwards.
   */
  lemma PollStopsAtFirstDecidedRound(p: QueueItemPoller, script: seq<Round>, i: nat)
    requires i < |script|
    requires forall k :: 0 <= k < i ==> Pending(script[k])
    requires !Pending(script[i])
    ensures var r := Poll(p, script);
      && |r.iterations| == i + 1
      && Some(r.outcome) == Iterate(p, script[i]).stop
      && Count(Trace(r), IsQuery) == i + 1
  {
    var r := Poll(p, script);
    assert |r.iterations| == i + 1;
    LoopCounts(p, script);
  }

  /**
    If the first decided snapshot is scheduled with a non-zero number and
    not cancelled, the poll returns that number, having queried i + 1 times
    and waited once after each earlier snapshot.
   */
  lemma PollReturnsNumber(p: QueueItemPoller, script: seq<Round>, i: nat)
    requires i < |script|
    requires forall k :: 0 <= k < i ==> Pending(script[k])
    requires script[i].item.Ok? && !script[i].item.value.cancelled
    requires script[i].item.value.executable.number != 0
    ensures var r := Poll(p, script);
      && r.outcome == Returned(script[i].item.value.executable.number)
      && Count(Trace(r), IsQuery) == i + 1
      && Count(Trace(r), IsWait) == i
  {
    PollStopsAtFirstDecidedRound(p, script, i);
    LoopCounts(p, script);
  }

  /** Cancellation is checked first: a cancelled snapshot fails the poll even when it has a number. */
  lemma PollCancelledWinsOverNumber(p: QueueItemPoller, script: seq<Round>, i: nat)
    requires i < |script|
    requires forall k :: 0 <= k < i ==> Pending(script[k])
    requires script[i].item.Ok? && script[i].item.value.cancelled
    ensures Poll(p, script).outcome == Failed(JobCancelled)
    ensures |Poll(p, script).iterations| == i + 1
  {
    PollStopsAtFirstDecidedRound(p, script, i);
  }

  /** A failed query ends the poll at once with the wrapped error; that query is the last call. */
  lemma PollQueryFailureAborts(p: QueueItemPoller, script: seq<Round>, i: nat)
    requires i < |script|
    requires forall k :: 0 <= k < i ==> Pending(script[k])
    requires script[i].item.Err?
    ensures var r := Poll(p, script);
      && r.outcome == Failed(Wrapped("failed to get queue item", script[i].item.error))
      && |r.iterations| == i + 1
      && r.iterations[i] == [GetQueueItem(p.queueItemId)]
  {
    PollStopsAtFirstDecidedRound(p, script, i);
    LoopIteration(p, script, i);
  }

  /** A context that is done during a wait ends the poll with the context's error. */
  lemma PollContextDoneAtWait(p: QueueItemPoller, script: seq<Round>, i: nat)
    requires i < |script|
    requires forall k :: 0 <= k < i ==> Pending(script[k])
    requires Unscheduled(script[i]) && script[i].wait.ContextDone?
    ensures var r := Poll(p, script);
      && r.outcome == Failed(Context(script[i].wait.err))
      && |r.iterations| == i + 1
      && r.iterations[i] == [GetQueueItem(p.queueItemId), Wait(p.pollingInterval)]
  {
    PollStopsAtFirstDecidedRound(p, script, i);
    LoopIteration(p, script, i);
  }

  /** A new poller waits one second between queries, applies no deadline, and queries its own item. */
  lemma NewPollerDefaults(queueItemId: int, script: seq<Round>)
    ensures var p := NewQueueItemPoller(queueItemId);
      var r := Poll(p, script);
      && p.pollingInterval == Second && p.timeout == 0
      && r.deadline == None
      && forall k :: 0 <= k < |r.iterations| ==> |r.iterations[k]| > 0 && r.iterations[k][0] == GetQueueItem(queueItemId)
  {
    var p := NewQueueItemPoller(queueItemId);
    var r := Poll(p, script);
    forall k | 0 <= k < |r.iterations|
      ensures |r.iterations[k]| > 0 && r.iterations[k][0] == GetQueueItem(queueItemId)
    {
      LoopIteration(p, script, k);
    }
  }

  /** The interval changes nothing in a pass but the interval of its wait. */
  lemma IterateRetimed(p: QueueItemPoller, d: Duration, r: Round)
    ensures var s := Iterate(p.(pollingInterval := d), r);
      var s0 := Iterate(p, r);
      s.stop == s0.stop && Retimed(s0.trace, s.trace, d)
  {
  }

  /** Rounds are decided the same way whatever the interval, so the loop stops at the same round. */
  lemma {:induction false} LoopRetimed(p: QueueItemPoller, d: Duration, script: seq<Round>)
    ensures var r := Loop(p.(pollingInterval := d), script);
      var r0 := Loop(p, script);
      r.outcome == r0.outcome && |r.iterations| == |r0.iterations|
    decreases |script|
  {
    if |script| > 0 {
      IterateRetimed(p, d, script[0]);
      if Iterate(p, script[0]).stop.None? {
        LoopRetimed(p, d, script[1..]);
      }
    }
  }

  /**
    `WithPollingInterval` changes only the interval of the waits: the poll
    has the same deadline and outcome, runs as many iterations, and each
    iteration makes the same calls, except that its waits last `d`.
   */
  lemma WithPollingIntervalRetimes(p: QueueItemPoller, d: Duration, script: seq<Round>)
    ensures var r := Poll(WithPollingInterval(p, d), script);
      var r0 := Poll(p, script);
      && r.deadline == r0.deadline
      && r.outcome == r0.outcome
      && |r.iterations| == |r0.iterations|
      && forall k :: 0 <= k < |r.iterations| ==> Retimed(r0.iterations[k], r.iterations[k], d)
  {
    var q := WithPollingInterval(p, d);
    var r := Poll(q, script);
    var r0 := Poll(p, script);
    LoopRetimed(p, d, script);
    forall k | 0 <= k < |r.iterations|
      ensures Retimed(r0.iterations[k], r.iterations[k], d)
    {
      LoopIteration(q, script, k);
      LoopIteration(p, script, k);
      IterateRetimed(p, d, script[k]);
    }
  }

  /** The loop never reads the timeout. */
  lemma {:induction false} LoopIgnoresTimeout(p: QueueItemPoller, t: Duration, script: seq<Round>)
    ensures Loop(p.(timeout := t), script) == Loop(p, script)
    decreases |script|
  {
    if |script| > 0 {
      assert Iterate(p.(timeout := t), script[0]) == Iterate(p, script[0]);
      LoopIgnoresTimeout(p, t, script[1..]);
    }
  }

  /** `WithTimeout` changes only the deadline the poll puts on its context. */
  lemma WithTimeoutSetsDeadline(p: QueueItemPoller, t: Duration, script: seq<Round>)
    ensures Poll(WithTimeout(p, t), script) == Poll(p, script).(deadline := DerivedDeadline(t))
  {
    LoopIgnoresTimeout(p, t, script);
  }

  /**
    An unscheduled snapshot, then one scheduled as build 42: the poll
    returns 42 after exactly one wait.
   */
  lemma ScheduledOnSecondQuery(p: QueueItemPoller, w: WaitOutcome)
    ensures var script := [Round(Ok(QueueItem(false, QueueItemExecutable(0))), Elapsed),
                           Round(Ok(QueueItem(false, QueueItemExecutable(42))), w)];
      var r := Poll(p, script);
      && r.outcome == Returned(42)
      && Trace(r) == [GetQueueItem(p.queueItemId), Wait(p.pollingInterval), GetQueueItem(p.queueItemId)]
  {
    var script := [Round(Ok(QueueItem(false, QueueItemExecutable(0))), Elapsed),
                   Round(Ok(QueueItem(false, QueueItemExecutable(42))), w)];
    var r := Poll(p, script);
    assert script[1..] == [script[1]];
    var first := [GetQueueItem(p.queueItemId), Wait(p.pollingInterval)];
    var second := [GetQueueItem(p.queueItemId)];
    assert Loop(p, script[1..]) == LoopRun(Returned(42), [second]);
    assert r.iterations == [first, second];
    assert r.iterations[1..] == [second];
    assert Flatten([second]) == second + [];
  }

  /** The loop's run once `done` has been recorded for the rounds already handled. */
  function Resume(done: seq<seq<Call>>, rest: LoopRun): LoopRun
  {
    LoopRun(rest.outcome, done + rest.iterations)
  }

  /** One pass of the loop over the rest of the script. */
  lemma LoopAdvance(p: QueueItemPoller, script: seq<Round>, i: nat, done: seq<seq<Call>>)
    requires i < |script|
    requires Loop(p, script) == Resume(done, Loop(p, script[i..]))
    ensures var step := Iterate(p, script[i]);
      if step.stop.Some? then Loop(p, script) == LoopRun(step.stop.value, done + [step.trace])
      else Loop(p, script) == Resume(done + [step.trace], Loop(p, script[i + 1..]))
  {
    assert script[i..][0] == script[i];
    assert script[i..][1..] == script[i + 1..];
    var step := Iterate(p, script[i]);
    var rest := Loop(p, script[i + 1..]);
    assert Loop(p, script[i..]) ==
      if step.stop.Some? then LoopRun(step.stop.value, [step.trace])
      else LoopRun(rest.outcome, [step.trace] + rest.iterations);
    ResumeStep(done, step.trace, rest);
  }

  lemma ResumeStep(done: seq<seq<Call>>, t: seq<Call>, rest: LoopRun)
    ensures Resume(done, LoopRun(rest.outcome, [t] + rest.iterations)) == Resume(done + [t], rest)
  {
    assert done + ([t] + rest.iterations) == done + [t] + rest.iterations;
  }

  /** With the whole script handled, the loop has run out of it. */
  lemma LoopAtEnd(p: QueueItemPoller, script: seq<Round>, done: seq<seq<Call>>)
    requires Loop(p, script) == Resume(done, Loop(p, script[|script|..]))
    ensures Loop(p, script) == LoopRun(OutOfScript, done)
  {
    assert script[|script|..] == [];
    assert done + [] == done;
  }

  /**
    The loop as the source writes it, an unbounded `for` with early
    returns, consuming one round per pass; it agrees with `Poll`.
   */
  method PollLoop(p: QueueItemPoller, script: seq<Round>) returns (outcome: Outcome<int>, trace: seq<Call>)
    ensures outcome == Poll(p, script).outcome
    ensures trace == Trace(Poll(p, script))
  {
    var i := 0;
    ghost var done: seq<seq<Call>> := [];
    trace := [];
    while true
      invariant 0 <= i <= |script|
      invariant Loop(p, script) == Resume(done, Loop(p, script[i..]))
      invariant trace == Flatten(done)
      decreases |script| - i
    {
      if i == |script| {
        outcome := OutOfScript;
        LoopAtEnd(p, script, done);
        return;
      }
      var step := Iterate(p, script[i]);
      LoopAdvance(p, script, i, done);
      FlattenSnoc(done, step.trace);
      done := done + [step.trace];
      trace := trace + step.trace;
      if step.stop.Some? {
        outcome := step.stop.value;
        return;
      }
      i := i + 1;
    }
  }
}
