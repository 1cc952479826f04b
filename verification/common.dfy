/**
  Data shapes of the Jenkins client (builds, queue items, pending input
  actions), the errors the client produces, and the vocabulary shared by the
  pollers: the replies a scripted remote end gives, the outcome of a polling
  run, and the calls a run records in its trace.
 */
module Common {

  /** Go's `time.Duration`: a count of nanoseconds. */
  type Duration = int

  const Second: Duration := 1_000_000_000

  /** A build's result as Jenkins reports it; any value but "SUCCESS" is not a success. */
  type BuildResult = string

  const BuildResultSuccess: BuildResult := "SUCCESS"
  const BuildResultFailure: BuildResult := "FAILURE"

  datatype Build = Build(building: bool, result: BuildResult, url: string)

  /** The caller-level check made on a finished build. */
  predicate Succeeded(b: Build) {
    b.result == BuildResultSuccess
  }

  datatype PendingInputAction = PendingInputAction(id: string)

  datatype QueueItemExecutable = QueueItemExecutable(number: int)

  /** A queue item: `executable.number` stays 0 until the item is scheduled. */
  datatype QueueItem = QueueItem(cancelled: bool, executable: QueueItemExecutable)

  /** The two values `ctx.Err()` can take once a context is done. */
  datatype ContextError = Canceled | DeadlineExceeded

  datatype NumErrorKind = ErrSyntax | ErrRange

  datatype Error =
    /** A failure reported by the remote end or by a caller-supplied handler. */
    | Remote(reason: string)
    /** `fmt.Errorf("<message>: %w", cause)` */
    | Wrapped(message: string, cause: Error)
    /** `errors.New("job was cancelled")` */
    | JobCancelled
    /** the error of a context that is done */
    | Context(ctx: ContextError)
    /** `strconv.NumError{Func, Num, Err}` */
    | NumError(fn: string, num: string, kind: NumErrorKind)

  /** The answer a remote call (or a handler) gives: a value or a failure. */
  datatype Reply<T> = Ok(value: T) | Err(error: Error)

  /** How a cancellable wait ends: the interval elapses, or the context is done first. */
  datatype WaitOutcome = Elapsed | ContextDone(err: ContextError)

  /**
    How a scripted run ends: a value, an error, or the script ran out while
    the operation would still go on (the source's loops are unbounded).
   */
  datatype Outcome<T> = Returned(value: T) | Failed(error: Error) | OutOfScript

  /** The calls a run makes, in the order it makes them. */
  datatype Call =
    | GetQueueItem(queueItemId: int)
    | GetBuild(jobPath: string, buildId: int)
    | GetBuildLogs(jobPath: string, buildId: int, start: int)
    | InvokeLogsHandler(logs: string)
    | GetPendingInputActions(jobPath: string, buildId: int)
    | InvokeInputHandler(jobPath: string, buildId: int, actions: seq<PendingInputAction>)
    | ProceedEmpty(jobPath: string, buildId: int, inputId: string)
    | Wait(interval: Duration)

  /** The deadline `Poll` puts on its context: none when the timeout is 0. */
  function DerivedDeadline(timeout: Duration): (d: Option<Duration>)
    ensures d.None? <==> timeout == 0
    ensures d.Some? ==> d.value == timeout
  {
    if timeout != 0 then Some(timeout) else None
  }

  datatype Option<T> = None | Some(value: T)

  /** The concatenation of the per-iteration traces of a run. */
  function Flatten(iterations: seq<seq<Call>>): seq<Call>
  {
    if |iterations| == 0 then [] else iterations[0] + Flatten(iterations[1..])
  }

  lemma {:induction false} FlattenAppend(a: seq<seq<Call>>, b: seq<seq<Call>>)
    ensures Flatten(a + b) == Flatten(a) + Flatten(b)
  {
    if |a| == 0 {
      assert a + b == b;
    } else {
      assert (a + b)[0] == a[0];
      assert (a + b)[1..] == a[1..] + b;
      FlattenAppend(a[1..], b);
    }
  }

  lemma FlattenSingle(t: seq<Call>)
    ensures Flatten([t]) == t
  {
    assert [t][1..] == [];
    assert t + [] == t;
  }

  predicate IsWait(c: Call) {
    c.Wait?
  }

  /** A trace that contains no wait. */
  predicate NoWait(t: seq<Call>) {
    forall j :: 0 <= j < |t| ==> !t[j].Wait?
  }

  /** `u` is `t` with the interval of every wait set to `d`: otherwise the same calls in the same order. */
  predicate Retimed(t: seq<Call>, u: seq<Call>, d: Duration) {
    |u| == |t| && forall j :: 0 <= j < |t| ==> u[j] == if t[j].Wait? then Wait(d) else t[j]
  }

  /** A trace that ends in a single wait is retimed by changing that wait alone. */
  lemma RetimedLastWait(t: seq<Call>, x: Duration, d: Duration)
    requires NoWait(t)
    ensures Retimed(t + [Wait(x)], t + [Wait(d)], d)
  {
  }

  /** A trace without waits is its own retiming. */
  lemma RetimedNoWait(t: seq<Call>, d: Duration)
    requires NoWait(t)
    ensures Retimed(t, t, d)
  {
  }

  /** Recording one more iteration extends the flat trace by that iteration's calls. */
  lemma FlattenSnoc(done: seq<seq<Call>>, t: seq<Call>)
    ensures Flatten(done + [t]) == Flatten(done) + t
  {
    FlattenAppend(done, [t]);
    FlattenSingle(t);
  }

  /** The number of calls in a trace that satisfy `isKind`. */
  function Count(t: seq<Call>, isKind: Call -> bool): nat
  {
    if |t| == 0 then 0 else (if isKind(t[0]) then 1 else 0) + Count(t[1..], isKind)
  }

  lemma {:induction false} CountNone(t: seq<Call>, isKind: Call -> bool)
    requires forall i :: 0 <= i < |t| ==> !isKind(t[i])
    ensures Count(t, isKind) == 0
  {
    if |t| > 0 {
      CountNone(t[1..], isKind);
    }
  }

  lemma {:induction false} CountAppend(a: seq<Call>, b: seq<Call>, isKind: Call -> bool)
    ensures Count(a + b, isKind) == Count(a, isKind) + Count(b, isKind)
  {
    if |a| == 0 {
      assert a + b == b;
    } else {
      assert (a + b)[0] == a[0];
      assert (a + b)[1..] == a[1..] + b;
      CountAppend(a[1..], b, isKind);
    }
  }
}
