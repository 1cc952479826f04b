/**
  The pure parts of the Jenkins client: turning a job path into Jenkins'
  nested `job/` form, reading the queue-item id from a trigger response,
  interpreting the headers of a progressive-log response, and the
  auto-proceed input handler. Each remote request is a scripted `Reply`;
  request construction, authentication and status checks are folded into it.
 */
module Client {
  import opened Common
  import opened TextUtil
  import opened Decimal
  import opened PathLex

  /** `parseJobPath`: the cleaned path's segments joined by `/job/`. */
  function ParseJobPath(jobPath: string): string
  {
    Join(Split(TrimSlashes(Clean(jobPath)), '/'), "/job/")
  }

  /**
    The segments joined by `/job/` are exactly the elements `path.Clean`
    keeps; a path with none gives "" when rooted and "." otherwise.
   */
  lemma ParseJobPathElements(jobPath: string)
    ensures var es := Elements(jobPath);
      ParseJobPath(jobPath) ==
        if |es| == 0 then (if Rooted(jobPath) then "" else ".") else Join(es, "/job/")
  {
    var es := Elements(jobPath);
    ElementsProper(jobPath);
    if |es| == 0 {
      if Rooted(jobPath) {
        assert Clean(jobPath) == "/";
        assert TrimLeftFunc("/", IsSlash) == "";
      } else {
        assert Clean(jobPath) == ".";
        assert TrimSlashes(".") == ".";
        SplitNoSeparator(".", '/');
      }
    } else {
      TrimmedClean(es, Rooted(jobPath));
      SplitJoin(es, '/');
    }
  }

  /** Trimming slashes off a cleaned path with elements leaves the slash-joined elements. */
  lemma TrimmedClean(es: seq<string>, rooted: bool)
    requires |es| > 0 && AllProper(es)
    ensures TrimSlashes(if rooted then "/" + Join(es, "/") else Join(es, "/")) == Join(es, "/")
  {
    JoinProperEnds(es);
    TrimSlashesInner(Join(es, "/"));
  }

  /** A string that neither starts nor ends with a slash loses only the one slash put in front of it. */
  lemma TrimSlashesInner(j: string)
    requires |j| > 0 && j[0] != '/' && j[|j| - 1] != '/'
    ensures TrimSlashes(j) == j && TrimSlashes("/" + j) == j
  {
    assert FirstOutside(j, IsSlash, 0) == 0;
    assert LastOutsideEnd(j, IsSlash, |j|) == |j|;
    var q := "/" + j;
    assert q[0] == '/' && q[1] == j[0];
    assert FirstOutside(q, IsSlash, 1) == 1;
    assert FirstOutside(q, IsSlash, 0) == 1;
    assert q[1..] == j;
  }

  /**
    For a path of ordinary segments the result is the segments joined by
    `/job/`, whether or not the path has a leading or a trailing slash.
   */
  lemma ParseJobPathPlain(segs: seq<string>, lead: string, trail: string)
    requires |segs| > 0
    requires forall i :: 0 <= i < |segs| ==> Plain(segs[i])
    requires lead == "" || lead == "/"
    requires trail == "" || trail == "/"
    ensures ParseJobPath(lead + Join(segs, "/") + trail) == Join(segs, "/job/")
  {
    ElementsOfPlainJoin(segs, lead, trail);
    ParseJobPathElements(lead + Join(segs, "/") + trail);
  }

  /** A single ordinary segment is returned unchanged. */
  lemma ParseJobPathSingle(name: string)
    requires Plain(name)
    ensures ParseJobPath(name) == name
  {
    ParseJobPathPlain([name], "", "");
    assert "" + Join([name], "/") + "" == name;
  }

  /** Response headers, keyed by canonical header name. */
  type Headers = map<string, string>

  /** `http.Header.Get`: the value of a header, or "" when it is absent. */
  function HeaderGet(h: Headers, key: string): string
  {
    if key in h then h[key] else ""
  }

  /**
    The queue-item id of a trigger response: the decimal value of the last
    element of the cleaned `Location` header.
   */
  function QueueItemIdFromLocation(location: string): (r: Reply<int>)
    ensures var b := Base(Clean(location));
      && (r.Ok? <==> IsDecimal(b) && MinInt <= DecimalValue(b) <= MaxInt)
      && (r.Ok? ==> r.value == DecimalValue(b))
      && (r.Err? ==> r.error.Wrapped? && r.error.message == "failed to parse queue item ID"
                     && r.error.cause == Atoi(b).error)
  {
    match Atoi(Base(Clean(location)))
    case Ok(id) => Ok(id)
    case Err(e) => Err(Wrapped("failed to parse queue item ID", e))
  }

  /**
    `BuildJob` and `BuildJobWithParameters` after the request: a failed
    trigger request is passed on, and an accepted one yields the id in its
    `Location` header.
   */
  function TriggeredQueueItem(reply: Reply<Headers>): (r: Reply<int>)
    ensures reply.Err? ==> r == Err(reply.error)
    ensures reply.Ok? ==>
      var b := Base(Clean(HeaderGet(reply.value, "Location")));
      && (r.Ok? <==> IsDecimal(b) && MinInt <= DecimalValue(b) <= MaxInt)
      && (r.Ok? ==> r.value == DecimalValue(b))
      && (r.Err? ==> r.error == Wrapped("failed to parse queue item ID", Atoi(b).error))
  {
    match reply
    case Err(e) => Err(e)
    case Ok(h) => QueueItemIdFromLocation(HeaderGet(h, "Location"))
  }

  /**
    A `Location` whose last element is a formatted id, with or without a
    trailing slash and whatever comes before it, yields that id.
   */
  lemma LocationRoundTrip(prefix: string, id: int, trail: string)
    requires MinInt <= id <= MaxInt
    requires trail == "" || trail == "/"
    ensures QueueItemIdFromLocation(prefix + "/" + Itoa(id) + trail) == Ok(id)
  {
    var seg := Itoa(id);
    ItoaRunes(id);
    assert Plain(seg) by {
      assert '/' !in seg;
      assert seg != "." && seg != "..";
    }
    ElementsEndWith(prefix, seg, trail);
    BaseOfClean(prefix + "/" + seg + trail);
    AtoiItoa(id);
  }

  /** A trigger response without a `Location` header is a parse error on ".". */
  lemma MissingLocationFails(h: Headers)
    requires "Location" !in h
    ensures TriggeredQueueItem(Ok(h)) == Err(Wrapped("failed to parse queue item ID", NumError("Atoi", ".", ErrSyntax)))
  {
    assert Split("", '/') == [""];
    assert Clean("") == ".";
    assert TrimRightFunc(".", IsSlash) == ".";
    SplitNoSeparator(".", '/');
  }

  /** A progressive-log response: its body and its headers. */
  datatype LogsResponse = LogsResponse(body: string, headers: Headers)

  /** What `GetBuildLogs` returns: the text, the next start offset, and whether more is coming. */
  datatype LogChunk = LogChunk(text: string, nextStart: int, moreData: bool)

  /** `X-Text-Size` holds an integer Go's `int` can represent. */
  predicate ValidTextSize(size: string) {
    IsDecimal(size) && MinInt <= DecimalValue(size) <= MaxInt
  }

  /**
    `GetBuildLogs` after the request. It succeeds exactly when `X-Text-Size`
    is an integer and `X-More-Data` is absent, empty or a boolean; the next
    offset is that integer; an absent `X-More-Data` reads as false; a bad
    `X-Text-Size` is reported ahead of a bad `X-More-Data`; and the text is
    the body with surrounding white space trimmed (see `TrimFuncKeepsMiddle`).
   */
  function GetBuildLogs(reply: Reply<LogsResponse>): (r: Reply<LogChunk>)
    ensures reply.Err? ==> r == Err(reply.error)
    ensures reply.Ok? ==>
      var size := HeaderGet(reply.value.headers, "X-Text-Size");
      var more := HeaderGet(reply.value.headers, "X-More-Data");
      && (r.Ok? <==> ValidTextSize(size) && (more == "" || ParseBool(more).Ok?))
      && (r.Ok? ==> r.value.nextStart == DecimalValue(size))
      && (r.Ok? ==> (r.value.moreData <==> more != "" && ParseBool(more) == Ok(true)))
      && (r.Ok? ==> r.value.text == TrimSpace(reply.value.body))
      && (!ValidTextSize(size) ==>
            r.Err? && r.error.Wrapped? && r.error.message == "failed to parse X-Text-Size header"
            && r.error.cause.NumError? && r.error.cause.num == size)
      && (ValidTextSize(size) && r.Err? ==>
            r.error == Wrapped("failed to parse X-More-Data header", NumError("ParseBool", more, ErrSyntax)))
  {
    match reply
    case Err(e) => Err(e)
    case Ok(resp) =>
      match Atoi(HeaderGet(resp.headers, "X-Text-Size"))
      case Err(e) => Err(Wrapped("failed to parse X-Text-Size header", e))
      case Ok(textSize) =>
        var rawMoreData := HeaderGet(resp.headers, "X-More-Data");
        if rawMoreData == "" then Ok(LogChunk(TrimSpace(resp.body), textSize, false))
        else
          match ParseBool(rawMoreData)
          case Err(e) => Err(Wrapped("failed to parse X-More-Data header", e))
          case Ok(moreData) => Ok(LogChunk(TrimSpace(resp.body), textSize, moreData))
  }

  /** The outcome of the auto-proceed handler and the requests it made. */
  datatype ProceedRun = ProceedRun(outcome: Outcome<()>, trace: seq<Call>)

  /**
    The input handler returned by `Proceed`: one `proceedEmpty` request per
    pending action, in order, stopping at the first failed request.
    `replies[k]` is the answer to the k-th request.
   */
  function Proceed(jobPath: string, buildId: int, actions: seq<PendingInputAction>, replies: seq<Reply<()>>): (r: ProceedRun)
    ensures |r.trace| <= |actions| && |r.trace| <= |replies|
    ensures forall k :: 0 <= k < |r.trace| ==> r.trace[k] == ProceedEmpty(jobPath, buildId, actions[k].id)
    ensures r.outcome.Returned? <==> |actions| <= |replies| && forall k :: 0 <= k < |actions| ==> replies[k].Ok?
    ensures r.outcome.Returned? ==> |r.trace| == |actions|
    ensures r.outcome.Failed? ==>
      && |r.trace| > 0
      && replies[|r.trace| - 1] == Err(r.outcome.error)
      && forall k :: 0 <= k < |r.trace| - 1 ==> replies[k].Ok?
    ensures r.outcome.OutOfScript? ==>
      && |r.trace| == |replies| < |actions|
      && forall k :: 0 <= k < |replies| ==> replies[k].Ok?
    decreases |actions|
  {
    if |actions| == 0 then ProceedRun(Returned(()), [])
    else if |replies| == 0 then ProceedRun(OutOfScript, [])
    else
      var call := ProceedEmpty(jobPath, buildId, actions[0].id);
      match replies[0]
      case Err(e) => ProceedRun(Failed(e), [call])
      case Ok(_) =>
        var rest := Proceed(jobPath, buildId, actions[1..], replies[1..]);
        ProceedRun(rest.outcome, [call] + rest.trace)
  }

  /** With no pending actions `Proceed` makes no request and succeeds. */
  lemma ProceedEmptyList(jobPath: string, buildId: int, replies: seq<Reply<()>>)
    ensures Proceed(jobPath, buildId, [], replies) == ProceedRun(Returned(()), [])
  {
  }

  /**
    When the i-th request is the first to fail, `Proceed` fails with its
    error after exactly i + 1 requests; no later action is attempted.
   */
  lemma ProceedStopsAtFirstFailure(jobPath: string, buildId: int, actions: seq<PendingInputAction>, replies: seq<Reply<()>>, i: nat)
    requires i < |actions| && i < |replies|
    requires replies[i].Err?
    requires forall k :: 0 <= k < i ==> replies[k].Ok?
    ensures var r := Proceed(jobPath, buildId, actions, replies);
      r.outcome == Failed(replies[i].error) && |r.trace| == i + 1
  {
  }
}
