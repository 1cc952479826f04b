# Jenkins client pollers, modelled in Dafny

This project models the core of a small Go client for the Jenkins CI server:

- the **queue-item poller**, which watches a triggered build request until
  Jenkins either cancels it or schedules it as a build, and returns the
  build number;
- the **build poller**, which watches a build until it stops building and
  returns it. Along the way it can tail the build's progressive log into a
  logs handler and hand pending input actions to an input handler;
- the pure helpers of the client:
  - `parseJobPath`, which turns `a/b/c` into Jenkins' nested `a/job/b/job/c`;
  - reading the queue-item id from the `Location` header of a trigger
    response (`BuildJob`, `BuildJobWithParameters`);
  - interpreting the `X-Text-Size` and `X-More-Data` headers of a
    progressive-log response (`GetBuildLogs`);
  - the auto-proceed input handler (`Proceed`).

Every remote call and every handler is an oracle. A poll is a pure function
from a finite script to an outcome plus the calls it made. The script has one
record per loop iteration. That record holds the answer to each call the
iteration may make: a value or a failure. It also says whether the wait
ended normally or because the context was done. If the script runs out
while the loop would go on, the outcome is `OutOfScript`, because the
source's loops are unbounded. Each poller also has a `PollLoop` method. It
is written as the source's `for` loop with early returns, and it is proved
to agree with the functional model.

Files and modules:

| file | module | contents |
|---|---|---|
| `common.dfy` | `Common` | builds, queue items, input actions, errors, replies, outcomes, the call vocabulary |
| `text.dfy` | `TextUtil` | `strings.Split`, `Join`, `TrimLeftFunc`/`TrimRightFunc`/`TrimFunc` (by the index of the first and last rune kept, as Go computes them), `TrimSpace` |
| `decimal.dfy` | `Decimal` | `strconv.Atoi` (64-bit `int`), `Itoa`, `ParseBool` |
| `paths.dfy` | `PathLex` | `path.Clean` by its lexical rules, `path.Base` |
| `client.dfy` | `Client` | `parseJobPath`, the queue-item id from `Location`, `GetBuildLogs` header reading, `Proceed` |
| `queue_poller.dfy` | `QueueItemPolling` | the queue-item poller |
| `build_poller.dfy` | `BuildPolling` | the build poller |

When a logs handler is attached, the poller queries logs in every
iteration, including the one that sees the build finish
(build_poller.go:71-85); `BuildPolling.PollReturnsFinishedBuild` states this.

## Model

| member | source | states |
|---|---|---|
| Common.DerivedDeadline | queue_item_poller.go:37-41 | there is a deadline exactly when the timeout is not 0, and it is the timeout |
| TextUtil.SplitJoin | jenkins.go:402-403 | splitting the separator-joined fields (which hold no separator) gives the fields back |
| TextUtil.JoinSplit | jenkins.go:402-403 | joining the fields of a split with the same separator gives the original string |
| TextUtil.SplitConcat | jenkins.go:402 | a separator between two strings splits the fields of the concatenation into the fields of each side |
| TextUtil.TrimFuncKeepsMiddle | jenkins.go:249 | trimming keeps a contiguous middle part of the string: every rune cut off either side is trimmable, and the kept part starts and ends with a rune that is not |
| Decimal.Atoi | jenkins.go:236-239 | succeeds exactly on an optional sign plus at least one digit whose value fits a 64-bit int, with that value; every error names `Atoi` and the input, and an out-of-range number is a range error |
| Decimal.AtoiItoa | jenkins.go:73-76 | formatting any 64-bit integer in decimal and parsing it back gives the integer |
| PathLex.BaseOfClean | jenkins.go:73 | the base of a cleaned path is its last kept element, or `/` for a rooted path with none, or `.` otherwise |
| PathLex.ElementsOfPlainJoin | jenkins.go:402 | cleaning ordinary segments joined by slashes keeps exactly those segments, whatever leading or trailing slash is added |
| Client.ParseJobPathElements | jenkins.go:401-404 | the result is the elements `path.Clean` keeps joined by `/job/`; with no elements it is "" for a rooted path and "." otherwise |
| Client.ParseJobPathPlain | jenkins.go:401-404 | ordinary segments joined by `/`, with or without a leading or trailing slash, become the same segments joined by `/job/` |
| Client.ParseJobPathSingle | jenkins.go:402-403 | a single ordinary segment is returned unchanged |
| Client.QueueItemIdFromLocation | jenkins.go:73-76 | succeeds exactly when the last element of the cleaned `Location` is a decimal integer (optional sign, any leading zeros) within 64-bit range, and then yields its value; otherwise the `Atoi` error is wrapped as "failed to parse queue item ID" |
| Client.TriggeredQueueItem | jenkins.go:63-78 | a failed trigger request is passed on unchanged; an accepted one succeeds exactly when the last element of its cleaned `Location` header is an in-range decimal integer, yields that value, and otherwise fails with the wrapped `Atoi` error |
| Client.LocationRoundTrip | jenkins.go:73-76 | a `Location` whose last element is a formatted 64-bit id yields that id, whatever precedes it and with or without a trailing slash |
| Client.MissingLocationFails | jenkins.go:73-76 | a response without `Location` is a syntax error on "." |
| Client.GetBuildLogs | jenkins.go:235-249 | succeeds exactly when `X-Text-Size` is a 64-bit integer and `X-More-Data` is absent, empty or a boolean; the next offset is that integer, an absent `X-More-Data` reads as false, and the text is the whitespace-trimmed body; a bad size is reported before a bad flag, each with its own message |
| Client.Proceed | jenkins.go:374-397 | one `proceedEmpty` request per action in list order; succeeds exactly when every request succeeds; a failure is the error of the last request made, all earlier ones having succeeded |
| Client.ProceedEmptyList | jenkins.go:374-397 | no actions: no request, and success |
| Client.ProceedStopsAtFirstFailure | jenkins.go:374-395 | when request i is the first to fail, the handler fails with its error after exactly i + 1 requests |
| QueueItemPolling.Iterate | queue_item_poller.go:43-61 | an iteration goes on exactly when the snapshot is read, not cancelled, unscheduled, and the wait elapsed; cancellation wins over a number; the result is the non-zero number; a wait follows only an unscheduled snapshot |
| QueueItemPolling.Loop | queue_item_poller.go:43-62 | the loop consumes pending rounds and stops at the first round that is not pending, with that round's verdict; it runs out of script only if every round is pending; a returned number is never 0 |
| QueueItemPolling.LoopIteration | queue_item_poller.go:43-62 | iteration k of the loop makes exactly the calls of one pass of the body over round k |
| QueueItemPolling.Poll | queue_item_poller.go:36-42 | no deadline exactly when the timeout is 0; a returned number is never 0 |
| QueueItemPolling.LoopCounts | queue_item_poller.go:43-61 | one query per iteration; a poll that returns has waited once fewer than it queried |
| QueueItemPolling.PollStopsAtFirstDecidedRound | queue_item_poller.go:43-55 | the poll ends at the first decided snapshot with its verdict; the number of queries is its index plus one |
| QueueItemPolling.PollReturnsNumber | queue_item_poller.go:49-55 | a first decided snapshot that is not cancelled and has number N != 0 makes the poll return N after i + 1 queries and i waits |
| QueueItemPolling.PollCancelledWinsOverNumber | queue_item_poller.go:49-54 | a cancelled snapshot fails the poll with "job was cancelled", even when it carries a number |
| QueueItemPolling.PollQueryFailureAborts | queue_item_poller.go:44-47 | a failed query ends the poll with "failed to get queue item" wrapping the error; that query is the last call |
| QueueItemPolling.PollContextDoneAtWait | queue_item_poller.go:57-61 | a context that is done during the wait ends the poll with the context's error |
| QueueItemPolling.NewPollerDefaults | queue_item_poller.go:17-24 | a new poller has a one-second interval and no timeout, applies no deadline, and queries its own item |
| QueueItemPolling.WithPollingIntervalRetimes | queue_item_poller.go:26-29 | setting the interval leaves the deadline, the outcome and the number of iterations as they were, and each iteration makes the same calls except that its waits last the new interval |
| QueueItemPolling.WithTimeoutSetsDeadline | queue_item_poller.go:31-34 | setting the timeout changes only the deadline the poll applies |
| QueueItemPolling.ScheduledOnSecondQuery | queue_item_poller.go:43-61 | an unscheduled snapshot and then one scheduled as build 42 give 42 after query, wait, query |
| QueueItemPolling.PollLoop | queue_item_poller.go:43-62 | the imperative loop gives the same outcome and calls as `Poll` |
| BuildPolling.FetchLogs | build_poller.go:71-81 | the log step goes through exactly when no logs handler is attached, or the log query succeeds and the handler accepts the text |
| BuildPolling.InvokeHandler | build_poller.go:93-96 | the input handler call goes through exactly when the handler accepts the actions; for auto-proceed, when every `proceedEmpty` request succeeds |
| BuildPolling.CheckInput | build_poller.go:87-98 | the input step goes through exactly when no input handler is attached, or the query succeeds and the list is empty or the handler accepts it |
| BuildPolling.Iterate | build_poller.go:66-104 | an iteration goes on exactly when the build is read and building, the log and input steps go through and the wait elapses; it returns exactly when the build it read is not building and the log step went through, and then returns that build |
| BuildPolling.Loop | build_poller.go:65-105 | the loop consumes pending rounds and stops at the first round that is not pending; a returned build is the one read in the last iteration, and it is not building |
| BuildPolling.Poll | build_poller.go:58-63 | no deadline exactly when the timeout is 0; only the log cursor of the poller changes; a returned build is not building |
| BuildPolling.IterateCursor | build_poller.go:71-77 | an iteration moves the cursor to the reported offset as soon as a log chunk is read, and leaves it otherwise |
| BuildPolling.LoopIteration | build_poller.go:65-105 | iteration k of the loop is one pass of the body with the cursor threaded through the earlier iterations |
| BuildPolling.LoopLast | build_poller.go:65-105 | the last iteration decides the outcome and the cursor the poller is left with |
| BuildPolling.PollStopsAtFirstDecidedRound | build_poller.go:65-105 | the poll ends at the first round that is not pending; that pass decides the outcome and the final cursor |
| BuildPolling.LogQueriesChainOffsets | build_poller.go:71-77 | each log query starts at the poller's cursor in the first iteration and at the offset the previous response reported afterwards |
| BuildPolling.LogsHandlerFailureKeepsOffset | build_poller.go:77-80 | a failing logs handler ends the poll with "failed to invoke logs handler", and the poller keeps the new offset: the cursor moves before the handler runs |
| BuildPolling.PollReturnsFinishedBuild | build_poller.go:71-85 | the poll returns the build as soon as it is not building, whatever its result, after fetching and handing over that iteration's log chunk, with no input call and no wait |
| BuildPolling.InputStepCalls | build_poller.go:87-98 | the input step queries once when a handler is attached, and calls the handler, with the whole list, once and only when the list is not empty |
| BuildPolling.IterateInputCalls | build_poller.go:87-98 | within one pass over a building build, the only input calls are those of the input step |
| BuildPolling.InputGate | build_poller.go:87-98 | in an iteration over a building build, pending inputs are queried exactly when an input handler is attached, and the handler is called once, with the whole list, exactly when the list is not empty |
| BuildPolling.FinishedBuildSkipsInput | build_poller.go:83-98 | an iteration whose build is no longer building makes no input call and no wait |
| BuildPolling.ReadFailuresAbort | build_poller.go:66-75 | a failed build query or log query ends the poll at once with "failed to get build" or "failed to get build logs" |
| BuildPolling.InputFailuresAbort | build_poller.go:88-96 | a failed pending-input query or a failing custom handler ends the poll at once with its wrapped error |
| BuildPolling.AutoProceedFailureAborts | build_poller.go:93-96 | with the auto-proceed handler, the first failing `proceedEmpty` request ends the poll with "failed to invoke input handler"; it is the last call made |
| BuildPolling.ContextDoneAtWait | build_poller.go:100-104 | a context that is done during the wait ends the poll with the context's error |
| BuildPolling.NoHandlersIterations | build_poller.go:66-104 | with no handler, each iteration queries the build once and waits only while it is building; the poller is unchanged |
| BuildPolling.NewBuildPollerDefaults | build_poller.go:25-46 | a new poller has a five-second interval, no timeout, no handler and cursor 0; attaching handlers changes nothing else; the first log query starts at 0 |
| BuildPolling.WithPollingIntervalRetimes | build_poller.go:48-51 | setting the interval leaves the deadline, the outcome, the number of iterations and the final cursor as they were, and each iteration makes the same calls except that its waits last the new interval |
| BuildPolling.WithTimeoutSetsDeadline | build_poller.go:53-56 | setting the timeout changes only the deadline the poll applies and the poller's own timeout |
| BuildPolling.InputGateThenSuccess | build_poller.go:65-105 | a build paused at one input that auto-proceed resolves, then finished with "SUCCESS", is returned as a success after one wait |
| BuildPolling.FinishedWithFailure | build_poller.go:66-85 | a build already finished with "FAILURE" is returned after a single query with no wait, and it is not a success |
| BuildPolling.PollLoop | build_poller.go:65-105 | the imperative loop, which updates the cursor in place, gives the same outcome, calls and final poller as `Poll` |

## Left out

- HTTP request construction, authentication, status-code checks, reading the body and JSON decoding: each remote call is a scripted reply, and a failure at any of these steps is an `Err` reply.
- Parsing the base URL, including the early "failed to parse base url" error of `Proceed`: the URL is never built; the trace records the job path, build id and input id of each request instead.
- Real timers and `context` deadlines: each wait is a scripted outcome (elapsed, or context done with its error), and a remote call that fails because of the deadline is an `Err` reply.
- QueueItemPolling.Poll: the timeout only sets `deadline`; that the poll ends with the deadline error once the timeout passes is not stated, because time is not modelled.
- BuildPolling.Poll: the timeout only sets `deadline`, for the same reason.
- The content of the handlers: the logs handler and a custom input handler are scripted replies; only the auto-proceed handler is modelled as code.
- The build poller's log answer is scripted as the value `GetBuildLogs` returns. How that value comes from the response headers is modelled separately by `Client.GetBuildLogs`.
- The `moreData` flag `GetBuildLogs` returns is ignored by the poller. The model keeps it in `LogChunk`, but no poller property mentions it.
- `url.Values` encoding of parameters in `BuildJobWithParameters`: it happens before the request and does not affect reading `Location`.
- `ListJobs`, `GetJob`, `NewJenkins`, `WithBasicAuth` and `WithHTTPClient`: none of them takes part in polling.
- `cmd/main.go`, a demo program that reads credentials from the environment and logs.
- `build.go` and `job.go`: type declarations with no logic.
- Canonicalisation of header names: headers are a map keyed by the canonical name.
- Byte-level text: bodies and headers are sequences of runes, so invalid UTF-8 is not modelled.
- Go's integer width outside `strconv`: build numbers, ids, offsets and durations are unbounded integers. Only `Atoi` models the 64-bit range.
- Decimal.ParseBool: the accepted spellings are listed in its body, and no separate contract restates them.
