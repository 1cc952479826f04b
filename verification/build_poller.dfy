/**
  The build poller: it observes a build until it is no longer building and
  returns it. Optionally it tails the build's progressive log, handing each
  chunk to a logs handler and carrying the server's next offset into the
  following query, and optionally it hands the build's pending input
  actions to an input handler while the build runs.

  The remote end and both handlers are scripted with one `BuildRound` per
  loop iteration. A run is the outcome, the calls each iteration made, and
  the poller as it is left afterwards (its log cursor advanced).
 */
module BuildPolling {
  import opened Common
  import Client

  /**
    The input handler attached to a poller: one whose answer the script
    gives, or the client's auto-proceed handler, whose requests the script
    answers one by one.
   */
  datatype InputHandler = Custom | AutoProceed

  datatype BuildPoller = BuildPoller(
    buildId: int,
    inputHandler: Option<InputHandler>,
    jobPath: string,
    /** whether a logs handler is attached */
    logsHandler: bool,
    /** the offset the next log query starts from */
    logsStart: int,
    pollingInterval: Duration,
    timeout: Duration)

  /** `newBuildPoller`: a five-second interval, no timeout, no handlers, and the log cursor at 0. */
  function NewBuildPoller(jobPath: string, buildId: int): BuildPoller
  {
    BuildPoller(buildId, None, jobPath, false, 0, 5 * Second, 0)
  }

  function OnInput(p: BuildPoller, handler: InputHandler): BuildPoller
  {
    p.(inputHandler := Some(handler))
  }

  function OnLogs(p: BuildPoller): BuildPoller
  {
    p.(logsHandler := true)
  }

  function WithPollingInterval(p: BuildPoller, pollingInterval: Duration): BuildPoller
  {
    p.(pollingInterval := pollingInterval)
  }

  function WithTimeout(p: BuildPoller, timeout: Duration): BuildPoller
  {
    p.(timeout := timeout)
  }

  /**
    The answers given in one iteration: to `GetBuild`, to `GetBuildLogs`
    (what the client returns once it has read the response headers, see
    `Client.GetBuildLogs`), by the logs handler, to the pending-input query,
    by a custom input handler, to each `proceedEmpty` request of the
    auto-proceed handler, and how the wait ends. An answer the iteration
    does not ask for is ignored.
   */
  datatype BuildRound = BuildRound(
    build: Reply<Build>,
    logs: Reply<Client.LogChunk>,
    logsHandler: Reply<()>,
    inputs: Reply<seq<PendingInputAction>>,
    inputHandler: Reply<()>,
    proceed: seq<Reply<()>>,
    wait: WaitOutcome)

  /** The log step goes through: no logs handler, or the chunk is read and the handler accepts it. */
  predicate LogsOk(p: BuildPoller, r: BuildRound) {
    !p.logsHandler || (r.logs.Ok? && r.logsHandler.Ok?)
  }

  /** The input handler accepts a non-empty list of `n` actions. */
  predicate HandlerOk(h: InputHandler, r: BuildRound, n: nat) {
    match h
    case Custom => r.inputHandler.Ok?
    case AutoProceed => n <= |r.proceed| && forall k :: 0 <= k < n ==> r.proceed[k].Ok?
  }

  /** The input step goes through: no input handler, or no pending action, or the handler accepts them. */
  predicate InputOk(p: BuildPoller, r: BuildRound) {
    || p.inputHandler.None?
    || (r.inputs.Ok? && (|r.inputs.value| == 0 || HandlerOk(p.inputHandler.value, r, |r.inputs.value|)))
  }

  /** A round after which the loop goes on. */
  predicate Pending(p: BuildPoller, r: BuildRound) {
    && r.build.Ok? && r.build.value.building
    && LogsOk(p, r) && InputOk(p, r)
    && r.wait.Elapsed?
  }

  /** The log step of an iteration: the error that ends the poll, if any, the calls, and the cursor after it. */
  datatype LogsPhase = LogsPhase(failure: Option<Error>, trace: seq<Call>, cursor: int)

  function FetchLogs(p: BuildPoller, r: BuildRound): (s: LogsPhase)
    ensures s.failure.None? <==> LogsOk(p, r)
  {
    if !p.logsHandler then LogsPhase(None, [], p.logsStart)
    else
      var fetch := GetBuildLogs(p.jobPath, p.buildId, p.logsStart);
      match r.logs
      case Err(e) => LogsPhase(Some(Wrapped("failed to get build logs", e)), [fetch], p.logsStart)
      case Ok(chunk) =>
        var trace := [fetch, InvokeLogsHandler(chunk.text)];
        match r.logsHandler
        case Err(e) => LogsPhase(Some(Wrapped("failed to invoke logs handler", e)), trace, chunk.nextStart)
        case Ok(_) => LogsPhase(None, trace, chunk.nextStart)
  }

  /** The input step of an iteration: the poll's result if it ends here, and the calls. */
  datatype InputPhase = InputPhase(stop: Option<Outcome<Build>>, trace: seq<Call>)

  /** Handing a non-empty list of pending actions to the attached handler. */
  function InvokeHandler(p: BuildPoller, h: InputHandler, actions: seq<PendingInputAction>, r: BuildRound): (s: InputPhase)
    ensures s.stop.None? <==> HandlerOk(h, r, |actions|)
  {
    var invoke := InvokeInputHandler(p.jobPath, p.buildId, actions);
    match h
    case Custom =>
      (match r.inputHandler
       case Err(e) => InputPhase(Some(Failed(Wrapped("failed to invoke input handler", e))), [invoke])
       case Ok(_) => InputPhase(None, [invoke]))
    case AutoProceed =>
      var run := Client.Proceed(p.jobPath, p.buildId, actions, r.proceed);
      match run.outcome
      case Returned(_) => InputPhase(None, [invoke] + run.trace)
      case Failed(e) => InputPhase(Some(Failed(Wrapped("failed to invoke input handler", e))), [invoke] + run.trace)
      case OutOfScript => InputPhase(Some(OutOfScript), [invoke] + run.trace)
  }

  function CheckInput(p: BuildPoller, r: BuildRound): (s: InputPhase)
    ensures s.stop.None? <==> InputOk(p, r)
  {
    if p.inputHandler.None? then InputPhase(None, [])
    else
      var query := GetPendingInputActions(p.jobPath, p.buildId);
      match r.inputs
      case Err(e) => InputPhase(Some(Failed(Wrapped("failed to check if build is paused for input", e))), [query])
      case Ok(actions) =>
        if |actions| == 0 then InputPhase(None, [query])
        else
          var h := InvokeHandler(p, p.inputHandler.value, actions, r);
          InputPhase(h.stop, [query] + h.trace)
  }

  /** One iteration: `stop` is the poll's result when the loop ends here; `cursor` is the log cursor after it. */
  datatype Step = Step(stop: Option<Outcome<Build>>, trace: seq<Call>, cursor: int)

  /** One pass of the loop body of `Poll`. */
  function Iterate(p: BuildPoller, r: BuildRound): (s: Step)
    ensures s.stop.None? <==> Pending(p, r)
    ensures (s.stop.Some? && s.stop.value.Returned?) <==> r.build.Ok? && !r.build.value.building && LogsOk(p, r)
    ensures s.stop.Some? && s.stop.value.Returned? ==> r.build == Ok(s.stop.value.value)
  {
    var get := GetBuild(p.jobPath, p.buildId);
    match r.build
    case Err(e) => Step(Some(Failed(Wrapped("failed to get build", e))), [get], p.logsStart)
    case Ok(b) =>
      var logs := FetchLogs(p, r);
      var seen := [get] + logs.trace;
      if logs.failure.Some? then Step(Some(Failed(logs.failure.value)), seen, logs.cursor)
      else if !b.building then Step(Some(Returned(b)), seen, logs.cursor)
      else
        var input := CheckInput(p, r);
        var asked := seen + input.trace;
        if input.stop.Some? then Step(input.stop, asked, logs.cursor)
        else
          match r.wait
          case Elapsed => Step(None, asked + [Wait(p.pollingInterval)], logs.cursor)
          case ContextDone(c) => Step(Some(Failed(Context(c))), asked + [Wait(p.pollingInterval)], logs.cursor)
  }

  /** The result of the loop: how it ended, what each iteration did, and the final log cursor. */
  datatype LoopRun = LoopRun(outcome: Outcome<Build>, iterations: seq<seq<Call>>, cursor: int)

  /** The `for` loop of `Poll`, run against a script; each pass starts from the cursor the last one left. */
  function Loop(p: BuildPoller, script: seq<BuildRound>): (r: LoopRun)
    ensures |r.iterations| <= |script|
    ensures |script| > 0 ==> |r.iterations| > 0
    ensures forall k :: 0 <= k < |r.iterations| - 1 ==> Pending(p, script[k])
    ensures |r.iterations| < |script| ==> !Pending(p, script[|r.iterations| - 1])
    ensures r.outcome.Returned? ==>
      && |r.iterations| > 0
      && script[|r.iterations| - 1].build == Ok(r.outcome.value)
      && !r.outcome.value.building
    decreases |script|
  {
    if |script| == 0 then LoopRun(OutOfScript, [], p.logsStart)
    else
      var s := Iterate(p, script[0]);
      if s.stop.Some? then LoopRun(s.stop.value, [s.trace], s.cursor)
      else
        var rest := Loop(p.(logsStart := s.cursor), script[1..]);
        LoopRun(rest.outcome, [s.trace] + rest.iterations, rest.cursor)
  }

  /** A poll: the deadline it puts on its context, its loop, and the poller as the loop leaves it. */
  datatype Run = Run(deadline: Option<Duration>, outcome: Outcome<Build>, iterations: seq<seq<Call>>, poller: BuildPoller)

  /** `Poll`: apply the timeout, if any, then run the loop; only the log cursor of the poller changes. */
  function Poll(p: BuildPoller, script: seq<BuildRound>): (r: Run)
    ensures r.deadline.None? <==> p.timeout == 0
    ensures r.poller == p.(logsStart := r.poller.logsStart)
    ensures r.outcome.Returned? ==> !r.outcome.value.building
  {
    var loop := Loop(p, script);
    Run(DerivedDeadline(p.timeout), loop.outcome, loop.iterations, p.(logsStart := loop.cursor))
  }

  /** Every call the poll made, in order. */
  function Trace(r: Run): seq<Call>
  {
    Flatten(r.iterations)
  }

  /** The next offset a round's log response reports. */
  function NextOffset(r: BuildRound): int
    requires r.logs.Ok?
  {
    r.logs.value.nextStart
  }

  /**
    The offset the log query of iteration k starts from, by the rule that
    each query starts where the one before it said the log ends: the
    poller's own cursor first, then the offset the previous round reported.
   */
  function StartOf(p: BuildPoller, script: seq<BuildRound>, k: nat): int
    requires k <= |script|
    requires 0 < k && p.logsHandler ==> script[k - 1].logs.Ok?
  {
    if k == 0 || !p.logsHandler then p.logsStart else NextOffset(script[k - 1])
  }

  /** An iteration moves the cursor to the reported offset as soon as the log chunk is read. */
  lemma IterateCursor(p: BuildPoller, r: BuildRound)
    ensures Iterate(p, r).cursor ==
      if r.build.Ok? && p.logsHandler && r.logs.Ok? then NextOffset(r) else p.logsStart
  {
  }

  /** Iteration k of the loop is one pass of the body with the cursor at `StartOf(p, script, k)`. */
  lemma {:induction false} LoopIteration(p: BuildPoller, script: seq<BuildRound>, k: nat)
    requires k < |Loop(p, script).iterations|
    ensures 0 < k && p.logsHandler ==> script[k - 1].logs.Ok?
    ensures Loop(p, script).iterations[k] == Iterate(p.(logsStart := StartOf(p, script, k)), script[k]).trace
    decreases k
  {
    var s := Iterate(p, script[0]);
    var r := Loop(p, script);
    if k == 0 {
      assert r.iterations[0] == s.trace;
      assert p.(logsStart := StartOf(p, script, k)) == p;
    } else {
      assert s.stop.None?;
      var p1 := p.(logsStart := s.cursor);
      var rest := Loop(p1, script[1..]);
      assert r.iterations == [s.trace] + rest.iterations;
      LoopIteration(p1, script[1..], k - 1);
      IterateCursor(p, script[0]);
      assert script[1..][k - 1] == script[k];
      StartOfShift(p, script, s.cursor, k - 1);
    }
  }

  /**
    Moving the cursor to the first round's reported offset and dropping that
    round shifts `StartOf` by one position.
   */
  lemma StartOfShift(p: BuildPoller, script: seq<BuildRound>, cursor: int, m: nat)
    requires m + 1 <= |script|
    requires p.logsHandler ==> script[0].logs.Ok? && script[m].logs.Ok?
    requires cursor == if p.logsHandler then NextOffset(script[0]) else p.logsStart
    ensures var p1 := p.(logsStart := cursor);
      p1.(logsStart := StartOf(p1, script[1..], m)) == p.(logsStart := StartOf(p, script, m + 1))
  {
    if m > 0 {
      assert script[1..][m - 1] == script[m];
    }
  }

  /** The last iteration decides the outcome and leaves the final cursor. */
  lemma {:induction false} LoopLast(p: BuildPoller, script: seq<BuildRound>)
    requires |script| > 0
    ensures var r := Loop(p, script);
      var n := |r.iterations|;
      && (1 < n && p.logsHandler ==> script[n - 2].logs.Ok?)
      && var s := Iterate(p.(logsStart := StartOf(p, script, n - 1)), script[n - 1]);
        && r.cursor == s.cursor
        && if s.stop.Some? then r.outcome == s.stop.value else r.outcome == OutOfScript && n == |script|
    decreases |script|
  {
    var s := Iterate(p, script[0]);
    IterateCursor(p, script[0]);
    var r := Loop(p, script);
    if s.stop.Some? {
      assert p.(logsStart := StartOf(p, script, 0)) == p;
    } else if |script| == 1 {
      assert p.(logsStart := StartOf(p, script, 0)) == p;
    } else {
      var p1 := p.(logsStart := s.cursor);
      var rest := Loop(p1, script[1..]);
      LoopLast(p1, script[1..]);
      assert r == LoopRun(rest.outcome, [s.trace] + rest.iterations, rest.cursor);
      var n := |r.iterations|;
      assert n == |rest.iterations| + 1;
      assert script[1..][n - 2] == script[n - 1];
      StartOfShift(p, script, s.cursor, n - 2);
    }
  }

  /**
    The loop runs through the pending rounds and stops at the first round
    that is not pending: that pass, with the threaded cursor, decides the
    outcome and the cursor the poller is left with.
   */
  lemma PollStopsAtFirstDecidedRound(p: BuildPoller, script: seq<BuildRound>, i: nat)
    requires i < |script|
    requires forall k :: 0 <= k < i ==> Pending(p, script[k])
    requires !Pending(p, script[i])
    ensures 0 < i && p.logsHandler ==> script[i - 1].logs.Ok?
    ensures var r := Poll(p, script);
      var s := Iterate(p.(logsStart := StartOf(p, script, i)), script[i]);
      && |r.iterations| == i + 1
      && Some(r.outcome) == s.stop
      && r.iterations[i] == s.trace
      && r.poller.logsStart == s.cursor
  {
    var r := Loop(p, script);
    assert |r.iterations| == i + 1;
    LoopIteration(p, script, i);
    LoopLast(p, script);
  }

  /**
    With a logs handler attached, the log query of every iteration whose
    build was read starts at the poller's cursor in the first iteration and
    at the offset the previous response reported in each later one.
   */
  lemma LogQueriesChainOffsets(p: BuildPoller, script: seq<BuildRound>, k: nat)
    requires p.logsHandler
    requires k < |Poll(p, script).iterations|
    requires script[k].build.Ok?
    ensures 0 < k ==> script[k - 1].logs.Ok?
    ensures var t := Poll(p, script).iterations[k];
      |t| > 1 && t[1] == GetBuildLogs(p.jobPath, p.buildId, if k == 0 then p.logsStart else NextOffset(script[k - 1]))
  {
    LoopIteration(p, script, k);
    IterateLogQuery(p.(logsStart := StartOf(p, script, k)), script[k]);
  }

  /** With a logs handler, the call after `GetBuild` is the log query from the current cursor. */
  lemma IterateLogQuery(p: BuildPoller, r: BuildRound)
    requires p.logsHandler && r.build.Ok?
    ensures var t := Iterate(p, r).trace;
      |t| > 1 && t[1] == GetBuildLogs(p.jobPath, p.buildId, p.logsStart)
  {
    var logs := FetchLogs(p, r);
    assert logs.trace[0] == GetBuildLogs(p.jobPath, p.buildId, p.logsStart);
    var t := Iterate(p, r).trace;
    assert t[..1 + |logs.trace|] == [GetBuild(p.jobPath, p.buildId)] + logs.trace;
  }

  /**
    The cursor moves to the reported offset before the logs handler runs: a
    failing handler ends the poll with the wrapped error, the handler call is
    the last call made, and the poller keeps the new offset.
   */
  lemma LogsHandlerFailureKeepsOffset(p: BuildPoller, script: seq<BuildRound>, i: nat)
    requires p.logsHandler
    requires i < |script|
    requires forall k :: 0 <= k < i ==> Pending(p, script[k])
    requires script[i].build.Ok? && script[i].logs.Ok? && script[i].logsHandler.Err?
    ensures var r := Poll(p, script);
      && r.outcome == Failed(Wrapped("failed to invoke logs handler", script[i].logsHandler.error))
      && |r.iterations| == i + 1
      && r.iterations[i] == [GetBuild(p.jobPath, p.buildId),
                             GetBuildLogs(p.jobPath, p.buildId, StartOf(p, script, i)),
                             InvokeLogsHandler(script[i].logs.value.text)]
      && r.poller.logsStart == NextOffset(script[i])
  {
    PollStopsAtFirstDecidedRound(p, script, i);
  }

  /**
    The poll returns the build it read as soon as that build is no longer
    building, whatever its result, once the log step of that iteration goes
    through; with a logs handler the final chunk is still fetched and
    handed over, and nothing else is asked.
   */
  lemma PollReturnsFinishedBuild(p: BuildPoller, script: seq<BuildRound>, i: nat)
    requires i < |script|
    requires forall k :: 0 <= k < i ==> Pending(p, script[k])
    requires script[i].build.Ok? && !script[i].build.value.building
    requires LogsOk(p, script[i])
    ensures var r := Poll(p, script);
      && r.outcome == Returned(script[i].build.value)
      && |r.iterations| == i + 1
      && r.iterations[i] ==
        [GetBuild(p.jobPath, p.buildId)] +
        if p.logsHandler then
          [GetBuildLogs(p.jobPath, p.buildId, StartOf(p, script, i)), InvokeLogsHandler(script[i].logs.value.text)]
        else []
  {
    PollStopsAtFirstDecidedRound(p, script, i);
  }

  predicate IsInputQuery(c: Call) {
    c.GetPendingInputActions?
  }

  predicate IsHandlerCall(c: Call) {
    c.InvokeInputHandler?
  }

  /** A call made on behalf of the input step: the query, the handler, or a request the handler makes. */
  predicate IsInputCall(c: Call) {
    c.GetPendingInputActions? || c.InvokeInputHandler? || c.ProceedEmpty?
  }

  /** The calls of the input step: one query, then one handler call when there are pending actions. */
  lemma InputStepCalls(p: BuildPoller, r: BuildRound)
    ensures var t := CheckInput(p, r).trace;
      && (p.inputHandler.None? ==> t == [])
      && (p.inputHandler.Some? ==> Count(t, IsInputQuery) == 1)
      && (p.inputHandler.Some? && r.inputs.Ok? ==>
            Count(t, IsHandlerCall) == if |r.inputs.value| > 0 then 1 else 0)
      && (p.inputHandler.Some? && r.inputs.Ok? && |r.inputs.value| > 0 ==>
            |t| > 1 && t[1] == InvokeInputHandler(p.jobPath, p.buildId, r.inputs.value))
  {
    var t := CheckInput(p, r).trace;
    if p.inputHandler.Some? {
      assert t[0] == GetPendingInputActions(p.jobPath, p.buildId);
      var rest := t[1..];
      if r.inputs.Ok? && |r.inputs.value| > 0 {
        var actions := r.inputs.value;
        var h := InvokeHandler(p, p.inputHandler.value, actions, r);
        assert rest == h.trace;
        var run := Client.Proceed(p.jobPath, p.buildId, actions, r.proceed);
        var requests := if p.inputHandler.value.Custom? then [] else run.trace;
        assert h.trace == [InvokeInputHandler(p.jobPath, p.buildId, actions)] + requests;
        assert h.trace[1..] == requests;
        CountNone(requests, IsInputQuery);
        CountNone(requests, IsHandlerCall);
      } else {
        assert rest == [];
      }
      assert Count(rest, IsInputQuery) == 0;
    }
  }

  /**
    The calls of an iteration in which the build is still building and the
    log step went through: the input step's calls, surrounded by calls
    that are not input calls.
   */
  lemma IterateAroundInput(p: BuildPoller, r: BuildRound)
    requires r.build.Ok? && r.build.value.building && LogsOk(p, r)
    ensures var t := Iterate(p, r).trace;
      var before := [GetBuild(p.jobPath, p.buildId)] + FetchLogs(p, r).trace;
      var after := t[|before| + |CheckInput(p, r).trace|..];
      && t == before + CheckInput(p, r).trace + after
      && (forall j :: 0 <= j < |before| ==> !IsInputCall(before[j]))
      && (forall j :: 0 <= j < |after| ==> !IsInputCall(after[j]))
  {
    var logs := FetchLogs(p, r);
    var input := CheckInput(p, r);
    var before := [GetBuild(p.jobPath, p.buildId)] + logs.trace;
    var after := if input.stop.Some? then [] else [Wait(p.pollingInterval)];
    var t := Iterate(p, r).trace;
    assert t == before + input.trace + after;
    assert t[|before| + |input.trace|..] == after;
    LogsStepCalls(p, r);
  }

  /** The log step makes only log calls. */
  lemma LogsStepCalls(p: BuildPoller, r: BuildRound)
    ensures var t := FetchLogs(p, r).trace;
      forall j :: 0 <= j < |t| ==> t[j].GetBuildLogs? || t[j].InvokeLogsHandler?
  {
  }

  /** The input calls of one pass of the loop body over a building build. */
  lemma IterateInputCalls(p: BuildPoller, r: BuildRound)
    requires r.build.Ok? && r.build.value.building && LogsOk(p, r)
    ensures var t := Iterate(p, r).trace;
      && (p.inputHandler.None? ==> forall j :: 0 <= j < |t| ==> !IsInputCall(t[j]))
      && (p.inputHandler.Some? ==> Count(t, IsInputQuery) == 1)
      && (p.inputHandler.Some? && r.inputs.Ok? ==>
            Count(t, IsHandlerCall) == if |r.inputs.value| > 0 then 1 else 0)
      && (p.inputHandler.Some? && r.inputs.Ok? && |r.inputs.value| > 0 ==>
            InvokeInputHandler(p.jobPath, p.buildId, r.inputs.value) in t)
  {
    IterateAroundInput(p, r);
    InputStepCalls(p, r);
    var before := [GetBuild(p.jobPath, p.buildId)] + FetchLogs(p, r).trace;
    var input := CheckInput(p, r).trace;
    var t := Iterate(p, r).trace;
    var after := t[|before| + |input|..];
    if p.inputHandler.Some? {
      CountNone(before, IsInputQuery);
      CountNone(after, IsInputQuery);
      CountAppend(before, input, IsInputQuery);
      CountAppend(before + input, after, IsInputQuery);
      if r.inputs.Ok? {
        CountNone(before, IsHandlerCall);
        CountNone(after, IsHandlerCall);
        CountAppend(before, input, IsHandlerCall);
        CountAppend(before + input, after, IsHandlerCall);
        if |r.inputs.value| > 0 {
          assert t[|before| + 1] == input[1];
        }
      }
    }
  }

  /**
    In an iteration whose build is still building, pending inputs are
    queried exactly when an input handler is attached, and the handler is
    called once, with the whole list, exactly when the list is not empty.
   */
  lemma InputGate(p: BuildPoller, script: seq<BuildRound>, k: nat)
    requires k < |Poll(p, script).iterations|
    requires script[k].build.Ok? && script[k].build.value.building && LogsOk(p, script[k])
    ensures var t := Poll(p, script).iterations[k];
      && (p.inputHandler.None? ==> forall j :: 0 <= j < |t| ==> !IsInputCall(t[j]))
      && (p.inputHandler.Some? ==> Count(t, IsInputQuery) == 1)
      && (p.inputHandler.Some? && script[k].inputs.Ok? ==>
            Count(t, IsHandlerCall) == if |script[k].inputs.value| > 0 then 1 else 0)
      && (p.inputHandler.Some? && script[k].inputs.Ok? && |script[k].inputs.value| > 0 ==>
            InvokeInputHandler(p.jobPath, p.buildId, script[k].inputs.value) in t)
  {
    LoopIteration(p, script, k);
    IterateInputCalls(p.(logsStart := StartOf(p, script, k)), script[k]);
  }

  /**
    The input handler is never called, pending inputs are never queried and
    no wait happens in an iteration whose build is no longer building.
   */
  lemma FinishedBuildSkipsInput(p: BuildPoller, script: seq<BuildRound>, k: nat)
    requires k < |Poll(p, script).iterations|
    requires script[k].build.Ok? && !script[k].build.value.building
    ensures var t := Poll(p, script).iterations[k];
      forall j :: 0 <= j < |t| ==> !IsInputCall(t[j]) && !t[j].Wait?
  {
    LoopIteration(p, script, k);
    var q := p.(logsStart := StartOf(p, script, k));
    var r := script[k];
    var logs := FetchLogs(q, r);
    assert Iterate(q, r).trace == [GetBuild(q.jobPath, q.buildId)] + logs.trace;
    LogsStepCalls(q, r);
  }

  /** A failed build query or log query ends the poll at once with the wrapped error. */
  lemma ReadFailuresAbort(p: BuildPoller, script: seq<BuildRound>, i: nat)
    requires i < |script|
    requires forall k :: 0 <= k < i ==> Pending(p, script[k])
    ensures var r := Poll(p, script);
      && (script[i].build.Err? ==>
            && r.outcome == Failed(Wrapped("failed to get build", script[i].build.error))
            && r.iterations[i] == [GetBuild(p.jobPath, p.buildId)]
            && |r.iterations| == i + 1)
      && (script[i].build.Ok? && p.logsHandler && script[i].logs.Err? ==>
            && r.outcome == Failed(Wrapped("failed to get build logs", script[i].logs.error))
            && r.iterations[i] == [GetBuild(p.jobPath, p.buildId), GetBuildLogs(p.jobPath, p.buildId, StartOf(p, script, i))]
            && |r.iterations| == i + 1)
  {
    if script[i].build.Err? || (p.logsHandler && script[i].logs.Err?) {
      PollStopsAtFirstDecidedRound(p, script, i);
    }
  }

  /**
    While the build runs, a failed pending-input query or a failing custom
    input handler ends the poll at once with the wrapped error.
   */
  lemma InputFailuresAbort(p: BuildPoller, script: seq<BuildRound>, i: nat)
    requires i < |script|
    requires forall k :: 0 <= k < i ==> Pending(p, script[k])
    requires script[i].build.Ok? && script[i].build.value.building && LogsOk(p, script[i])
    requires p.inputHandler.Some?
    ensures var r := Poll(p, script);
      && (script[i].inputs.Err? ==>
            && r.outcome == Failed(Wrapped("failed to check if build is paused for input", script[i].inputs.error))
            && |r.iterations| == i + 1)
      && (script[i].inputs.Ok? && |script[i].inputs.value| > 0 && p.inputHandler.value.Custom? && script[i].inputHandler.Err? ==>
            && r.outcome == Failed(Wrapped("failed to invoke input handler", script[i].inputHandler.error))
            && |r.iterations| == i + 1)
  {
    if !InputOk(p, script[i]) {
      PollStopsAtFirstDecidedRound(p, script, i);
    }
  }

  /**
    With the auto-proceed handler, the first failing `proceedEmpty` request
    ends the poll with the wrapped error; it is the last call made, and no
    later action is attempted.
   */
  lemma AutoProceedFailureAborts(p: BuildPoller, script: seq<BuildRound>, i: nat, j: nat)
    requires i < |script|
    requires forall k :: 0 <= k < i ==> Pending(p, script[k])
    requires script[i].build.Ok? && script[i].build.value.building && LogsOk(p, script[i])
    requires p.inputHandler == Some(AutoProceed) && script[i].inputs.Ok?
    requires j < |script[i].inputs.value| && j < |script[i].proceed|
    requires script[i].proceed[j].Err?
    requires forall k :: 0 <= k < j ==> script[i].proceed[k].Ok?
    ensures var r := Poll(p, script);
      var t := r.iterations[|r.iterations| - 1];
      && r.outcome == Failed(Wrapped("failed to invoke input handler", script[i].proceed[j].error))
      && |r.iterations| == i + 1
      && |t| > 0 && t[|t| - 1] == ProceedEmpty(p.jobPath, p.buildId, script[i].inputs.value[j].id)
  {
    var q := p.(logsStart := StartOf(p, script, i));
    IterateAutoProceedFailure(q, script[i], j);
    PollStopsAtFirstDecidedRound(p, script, i);
  }

  /** One pass of the loop body in which the j-th `proceedEmpty` request is the first to fail. */
  lemma IterateAutoProceedFailure(p: BuildPoller, r: BuildRound, j: nat)
    requires r.build.Ok? && r.build.value.building && LogsOk(p, r)
    requires p.inputHandler == Some(AutoProceed) && r.inputs.Ok?
    requires j < |r.inputs.value| && j < |r.proceed|
    requires r.proceed[j].Err?
    requires forall k :: 0 <= k < j ==> r.proceed[k].Ok?
    ensures var s := Iterate(p, r);
      && s.stop == Some(Failed(Wrapped("failed to invoke input handler", r.proceed[j].error)))
      && |s.trace| > 0 && s.trace[|s.trace| - 1] == ProceedEmpty(p.jobPath, p.buildId, r.inputs.value[j].id)
  {
    var actions := r.inputs.value;
    Client.ProceedStopsAtFirstFailure(p.jobPath, p.buildId, actions, r.proceed, j);
    var run := Client.Proceed(p.jobPath, p.buildId, actions, r.proceed);
    var input := CheckInput(p, r);
    assert input.stop == Some(Failed(Wrapped("failed to invoke input handler", r.proceed[j].error)));
    assert input.trace == [GetPendingInputActions(p.jobPath, p.buildId), InvokeInputHandler(p.jobPath, p.buildId, actions)] + run.trace;
    var s := Iterate(p, r);
    assert s.trace == [GetBuild(p.jobPath, p.buildId)] + FetchLogs(p, r).trace + input.trace;
  }

  /** A context that is done during the wait ends the poll with the context's error. */
  lemma ContextDoneAtWait(p: BuildPoller, script: seq<BuildRound>, i: nat)
    requires i < |script|
    requires forall k :: 0 <= k < i ==> Pending(p, script[k])
    requires script[i].build.Ok? && script[i].build.value.building
    requires LogsOk(p, script[i]) && InputOk(p, script[i])
    requires script[i].wait.ContextDone?
    ensures var r := Poll(p, script);
      var t := r.iterations[|r.iterations| - 1];
      && r.outcome == Failed(Context(script[i].wait.err))
      && |r.iterations| == i + 1
      && |t| > 0 && t[|t| - 1] == Wait(p.pollingInterval)
  {
    PollStopsAtFirstDecidedRound(p, script, i);
  }

  /**
    With no handler attached, each iteration queries the build once and,
    while it is building, waits; the poller is left as it was.
   */
  lemma NoHandlersIterations(p: BuildPoller, script: seq<BuildRound>)
    requires !p.logsHandler && p.inputHandler.None?
    ensures var r := Poll(p, script);
      && r.poller == p
      && forall k :: 0 <= k < |r.iterations| ==>
           r.iterations[k] ==
             if script[k].build.Ok? && script[k].build.value.building
             then [GetBuild(p.jobPath, p.buildId), Wait(p.pollingInterval)]
             else [GetBuild(p.jobPath, p.buildId)]
  {
    var r := Poll(p, script);
    forall k | 0 <= k < |r.iterations|
      ensures r.iterations[k] ==
             if script[k].build.Ok? && script[k].build.value.building
             then [GetBuild(p.jobPath, p.buildId), Wait(p.pollingInterval)]
             else [GetBuild(p.jobPath, p.buildId)]
    {
      LoopIteration(p, script, k);
      assert p.(logsStart := StartOf(p, script, k)) == p;
    }
    if |script| > 0 {
      LoopLast(p, script);
      var n := |r.iterations|;
      assert p.(logsStart := StartOf(p, script, n - 1)) == p;
      IterateCursor(p, script[n - 1]);
    }
  }

  /**
    A new poller waits five seconds between queries, applies no deadline,
    has no handler and starts the log cursor at 0; attaching handlers
    changes nothing else, and the first log query then starts at offset 0.
   */
  lemma NewBuildPollerDefaults(jobPath: string, buildId: int, h: InputHandler, script: seq<BuildRound>)
    ensures var p := NewBuildPoller(jobPath, buildId);
      && p.pollingInterval == 5 * Second && p.timeout == 0 && p.logsStart == 0
      && !p.logsHandler && p.inputHandler.None?
      && Poll(p, script).deadline == None
      && OnLogs(OnInput(p, h)) == p.(logsHandler := true, inputHandler := Some(h))
    ensures var p := OnLogs(NewBuildPoller(jobPath, buildId));
      |script| > 0 && script[0].build.Ok? ==>
        var t := Poll(p, script).iterations[0];
        |t| > 1 && t[1] == GetBuildLogs(jobPath, buildId, 0)
  {
    var p := OnLogs(NewBuildPoller(jobPath, buildId));
    if |script| > 0 && script[0].build.Ok? {
      LogQueriesChainOffsets(p, script, 0);
    }
  }

  /** The log step makes no wait. */
  lemma FetchLogsNoWait(p: BuildPoller, r: BuildRound)
    ensures NoWait(FetchLogs(p, r).trace)
  {
  }

  /** The input step makes no wait: its calls are the query, the handler call and `proceedEmpty` requests. */
  lemma CheckInputNoWait(p: BuildPoller, r: BuildRound)
    ensures NoWait(CheckInput(p, r).trace)
  {
    if p.inputHandler.Some? && r.inputs.Ok? && |r.inputs.value| > 0 {
      var actions := r.inputs.value;
      var h := InvokeHandler(p, p.inputHandler.value, actions, r);
      if p.inputHandler.value.AutoProceed? {
        var run := Client.Proceed(p.jobPath, p.buildId, actions, r.proceed);
        assert NoWait(run.trace);
        assert h.trace == [InvokeInputHandler(p.jobPath, p.buildId, actions)] + run.trace;
      }
      assert NoWait(h.trace);
    }
  }

  /** The interval changes nothing in a pass but the interval of its wait. */
  lemma IterateRetimed(p: BuildPoller, d: Duration, r: BuildRound)
    ensures var s := Iterate(p.(pollingInterval := d), r);
      var s0 := Iterate(p, r);
      s.stop == s0.stop && s.cursor == s0.cursor && Retimed(s0.trace, s.trace, d)
  {
    var q := p.(pollingInterval := d);
    var s := Iterate(q, r);
    var s0 := Iterate(p, r);
    assert FetchLogs(q, r) == FetchLogs(p, r);
    assert CheckInput(q, r) == CheckInput(p, r);
    if r.build.Ok? {
      var get := GetBuild(p.jobPath, p.buildId);
      var logs := FetchLogs(p, r);
      var input := CheckInput(p, r);
      FetchLogsNoWait(p, r);
      CheckInputNoWait(p, r);
      var asked := [get] + logs.trace + input.trace;
      assert NoWait(asked);
      if s0.stop.None? || (s0.stop.value.Failed? && s0.stop.value.error.Context?) {
        assert s0.trace == asked + [Wait(p.pollingInterval)];
        assert s.trace == asked + [Wait(d)];
        RetimedLastWait(asked, p.pollingInterval, d);
      } else {
        assert s.trace == s0.trace;
        assert NoWait(s0.trace);
        RetimedNoWait(s0.trace, d);
      }
    } else {
      RetimedNoWait(s0.trace, d);
    }
  }

  /** Rounds are decided the same way whatever the interval, so the loop stops at the same round with the same cursor. */
  lemma {:induction false} LoopRetimed(p: BuildPoller, d: Duration, script: seq<BuildRound>)
    ensures var r := Loop(p.(pollingInterval := d), script);
      var r0 := Loop(p, script);
      r.outcome == r0.outcome && |r.iterations| == |r0.iterations| && r.cursor == r0.cursor
    decreases |script|
  {
    if |script| > 0 {
      IterateRetimed(p, d, script[0]);
      var s0 := Iterate(p, script[0]);
      if s0.stop.None? {
        var c := s0.cursor;
        assert p.(pollingInterval := d).(logsStart := c) == p.(logsStart := c).(pollingInterval := d);
        LoopRetimed(p.(logsStart := c), d, script[1..]);
      }
    }
  }

  /**
    `WithPollingInterval` changes only the interval of the waits: the poll
    has the same deadline and outcome, runs as many iterations, leaves the
    same cursor, and each iteration makes the same calls, except that its
    waits last `d`.
   */
  lemma WithPollingIntervalRetimes(p: BuildPoller, d: Duration, script: seq<BuildRound>)
    ensures var r := Poll(WithPollingInterval(p, d), script);
      var r0 := Poll(p, script);
      && r.deadline == r0.deadline
      && r.outcome == r0.outcome
      && r.poller == r0.poller.(pollingInterval := d)
      && |r.iterations| == |r0.iterations|
      && forall k :: 0 <= k < |r.iterations| ==> Retimed(r0.iterations[k], r.iterations[k], d)
  {
    var q := WithPollingInterval(p, d);
    var r := Poll(q, script);
    var r0 := Poll(p, script);
    LoopRetimed(p, d, script);
    forall k | 0 <= k < |r.iterations|
      ensures Retimed(r0.iterations[k], r.iterations[k], d)
    {
      LoopIteration(q, script, k);
      LoopIteration(p, script, k);
      var x := StartOf(p, script, k);
      assert StartOf(q, script, k) == x;
      assert q.(logsStart := x) == p.(logsStart := x).(pollingInterval := d);
      IterateRetimed(p.(logsStart := x), d, script[k]);
    }
  }

  /** The loop never reads the timeout. */
  lemma {:induction false} LoopIgnoresTimeout(p: BuildPoller, t: Duration, script: seq<BuildRound>)
    ensures Loop(p.(timeout := t), script) == Loop(p, script)
    decreases |script|
  {
    if |script| > 0 {
      var q := p.(timeout := t);
      assert FetchLogs(q, script[0]) == FetchLogs(p, script[0]);
      assert CheckInput(q, script[0]) == CheckInput(p, script[0]);
      var s := Iterate(p, script[0]);
      assert Iterate(q, script[0]) == s;
      if s.stop.None? {
        assert q.(logsStart := s.cursor) == p.(logsStart := s.cursor).(timeout := t);
        LoopIgnoresTimeout(p.(logsStart := s.cursor), t, script[1..]);
      }
    }
  }

  /** `WithTimeout` changes only the deadline the poll puts on its context, and the poller's own timeout. */
  lemma WithTimeoutSetsDeadline(p: BuildPoller, t: Duration, script: seq<BuildRound>)
    ensures var r0 := Poll(p, script);
      Poll(WithTimeout(p, t), script) == r0.(deadline := DerivedDeadline(t), poller := r0.poller.(timeout := t))
  {
    LoopIgnoresTimeout(p, t, script);
  }

  /**
    A build paused at one input on the first query, resolved by the
    auto-proceed handler, and finished with "SUCCESS" on the second: the
    poll returns that build, which counts as a success, after one wait.
   */
  lemma InputGateThenSuccess(jobPath: string, buildId: int, a: PendingInputAction, url: string, r0: BuildRound, r1: BuildRound)
    requires r0.build == Ok(Build(true, "", url)) && r0.inputs == Ok([a]) && r0.proceed == [Ok(())] && r0.wait == Elapsed
    requires r1.build == Ok(Build(false, BuildResultSuccess, url))
    ensures var p := OnInput(NewBuildPoller(jobPath, buildId), AutoProceed);
      var r := Poll(p, [r0, r1]);
      && r.outcome == Returned(Build(false, BuildResultSuccess, url))
      && Succeeded(r.outcome.value)
      && Trace(r) == [GetBuild(jobPath, buildId), GetPendingInputActions(jobPath, buildId),
                      InvokeInputHandler(jobPath, buildId, [a]), ProceedEmpty(jobPath, buildId, a.id),
                      Wait(5 * Second), GetBuild(jobPath, buildId)]
  {
    var p := OnInput(NewBuildPoller(jobPath, buildId), AutoProceed);
    var script := [r0, r1];
    var first := [GetBuild(jobPath, buildId), GetPendingInputActions(jobPath, buildId),
                  InvokeInputHandler(jobPath, buildId, [a]), ProceedEmpty(jobPath, buildId, a.id),
                  Wait(5 * Second)];
    var second := [GetBuild(jobPath, buildId)];
    var run := Client.Proceed(jobPath, buildId, [a], [Ok(())]);
    assert Client.Proceed(jobPath, buildId, [a][1..], [Ok(())][1..]) == Client.ProceedRun(Returned(()), []) by {
      assert [a][1..] == [];
    }
    assert run == Client.ProceedRun(Returned(()), [ProceedEmpty(jobPath, buildId, a.id)]);
    assert Iterate(p, r0) == Step(None, first, 0);
    assert script[1..] == [r1];
    assert Iterate(p, r1) == Step(Some(Returned(Build(false, BuildResultSuccess, url))), second, 0);
    assert p.(logsStart := 0) == p;
    assert Loop(p, [r1]) == LoopRun(Returned(Build(false, BuildResultSuccess, url)), [second], 0);
    assert Loop(p, script) == LoopRun(Returned(Build(false, BuildResultSuccess, url)), [first, second], 0);
    var r := Poll(p, script);
    assert r.iterations[1..] == [second];
    FlattenSingle(second);
  }

  /**
    A build that has already finished with "FAILURE" on the first query:
    the poll returns it at once, with no wait, and it is not a success.
   */
  lemma FinishedWithFailure(jobPath: string, buildId: int, url: string, script: seq<BuildRound>)
    requires |script| > 0 && script[0].build == Ok(Build(false, BuildResultFailure, url))
    ensures var r := Poll(NewBuildPoller(jobPath, buildId), script);
      && r.outcome == Returned(Build(false, BuildResultFailure, url))
      && !Succeeded(r.outcome.value)
      && Trace(r) == [GetBuild(jobPath, buildId)]
      && Count(Trace(r), IsWait) == 0
  {
    var p := NewBuildPoller(jobPath, buildId);
    PollReturnsFinishedBuild(p, script, 0);
    var r := Poll(p, script);
    FlattenSingle(r.iterations[0]);
    assert r.iterations == [r.iterations[0]];
  }

  /** The loop's run once `done` has been recorded for the rounds already handled. */
  function Resume(done: seq<seq<Call>>, rest: LoopRun): LoopRun
  {
    LoopRun(rest.outcome, done + rest.iterations, rest.cursor)
  }

  /** One pass of the loop over the rest of the script, from the poller the last pass left. */
  lemma LoopAdvance(p: BuildPoller, q: BuildPoller, script: seq<BuildRound>, i: nat, done: seq<seq<Call>>)
    requires i < |script|
    requires Loop(p, script) == Resume(done, Loop(q, script[i..]))
    ensures var step := Iterate(q, script[i]);
      if step.stop.Some? then Loop(p, script) == LoopRun(step.stop.value, done + [step.trace], step.cursor)
      else Loop(p, script) == Resume(done + [step.trace], Loop(q.(logsStart := step.cursor), script[i + 1..]))
  {
    assert script[i..][0] == script[i];
    assert script[i..][1..] == script[i + 1..];
    var step := Iterate(q, script[i]);
    var rest := Loop(q.(logsStart := step.cursor), script[i + 1..]);
    assert Loop(q, script[i..]) ==
      if step.stop.Some? then LoopRun(step.stop.value, [step.trace], step.cursor)
      else LoopRun(rest.outcome, [step.trace] + rest.iterations, rest.cursor);
    ResumeStep(done, step.trace, rest);
  }

  lemma ResumeStep(done: seq<seq<Call>>, t: seq<Call>, rest: LoopRun)
    ensures Resume(done, LoopRun(rest.outcome, [t] + rest.iterations, rest.cursor)) == Resume(done + [t], rest)
  {
    assert done + ([t] + rest.iterations) == done + [t] + rest.iterations;
  }

  /** With the whole script handled, the loop has run out of it, leaving the cursor where it is. */
  lemma LoopAtEnd(p: BuildPoller, q: BuildPoller, script: seq<BuildRound>, done: seq<seq<Call>>)
    requires Loop(p, script) == Resume(done, Loop(q, script[|script|..]))
    ensures Loop(p, script) == LoopRun(OutOfScript, done, q.logsStart)
  {
    assert script[|script|..] == [];
    assert done + [] == done;
  }

  /**
    The loop as the source writes it: an unbounded `for` with early returns
    that updates the poller's log cursor in place; it agrees with `Poll`.
   */
  method PollLoop(p: BuildPoller, script: seq<BuildRound>) returns (outcome: Outcome<Build>, trace: seq<Call>, poller: BuildPoller)
    ensures outcome == Poll(p, script).outcome
    ensures trace == Trace(Poll(p, script))
    ensures poller == Poll(p, script).poller
  {
    poller := p;
    var i := 0;
    ghost var done: seq<seq<Call>> := [];
    trace := [];
    while true
      invariant 0 <= i <= |script|
      invariant poller == p.(logsStart := poller.logsStart)
      invariant Loop(p, script) == Resume(done, Loop(poller, script[i..]))
      invariant trace == Flatten(done)
      decreases |script| - i
    {
      if i == |script| {
        outcome := OutOfScript;
        LoopAtEnd(p, poller, script, done);
        return;
      }
      var step := Iterate(poller, script[i]);
      LoopAdvance(p, poller, script, i, done);
      FlattenSnoc(done, step.trace);
      done := done + [step.trace];
      trace := trace + step.trace;
      poller := poller.(logsStart := step.cursor);
      if step.stop.Some? {
        outcome := step.stop.value;
        return;
      }
      i := i + 1;
    }
  }
}
