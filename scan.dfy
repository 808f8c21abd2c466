/**
 * What the three scan handlers of src/App.tsx do, as functions of the replies
 * the remote service gives: `handleFileUpload`, `handleUrlScan` and
 * `handleSearch`, with the bounded polling loop that the first two share.
 *
 * The network is a set of replies, one per call site (the status poll gets a
 * reply per attempt), and the requests and five-second sleeps a handler issues
 * are recorded, in order, as a list of events. Request paths are relative to
 * https://www.virustotal.com/api/v3/. The SHA-256 digest of an uploaded file
 * is an input.
 */
module Scan {
  import opened Wrappers
  import opened Hex
  import Classify
  import UrlId

  /** 32 MiB: the largest file size that is uploaded. */
  const MaxFileSize: nat := 32 * 1024 * 1024

  /** The status checks of one polling loop. */
  const MaxAttempts: nat := 30

  const PollIntervalMs: nat := 5000

  const InvalidQueryMessage: string := "Invalid search query. Please enter a valid domain, IP, or hash."

  /** A value that a rejected promise or a `throw` carries: an `Error` with its
      message, or anything else. */
  datatype Thrown = ErrorValue(message: string) | OtherValue

  /** `data.attributes.status` of an analysis, as the polling loops read it:
      the two values they compare against, and everything else (`queued`,
      `in-progress`, or no status at all). */
  datatype AnalysisStatus = Completed | AnalysisFailed | Unfinished

  /** The parts of a JSON body the handlers look at: whether `data` is present,
      `data.id`, `data.attributes.status` and `error.message`, with "" standing
      for an id or message that is absent (the code reads both as truthy or falsy). */
  datatype Json = Json(hasData: bool, dataId: string, status: AnalysisStatus, errorMessage: string)

  /** What `response.json()` gives. */
  datatype Body = Parsed(json: Json) | Unparsable(reason: Thrown)

  /** What one `fetch` gives: a rejection, or a response with `ok`, `statusText` and a body. */
  datatype Reply = Rejected(reason: Thrown) | Answered(ok: bool, statusText: string, body: Body)

  /** A request the handler sends, or a wait. */
  datatype Event = Get(path: string) | Post(path: string) | Sleep(ms: nat)

  /** How a scan ends: the report shown, or the value thrown. */
  datatype Outcome = Succeeded(report: Json) | Failed(reason: Thrown)

  /** The outcome of a scan together with the events it issued. */
  datatype Run = Run(outcome: Outcome, events: seq<Event>)

  /** The replies seen by `handleFileUpload`: to the existing-report lookup, to
      the upload, to the status check of each attempt, to the report fetch. */
  datatype FileReplies = FileReplies(preCheck: Reply, upload: Reply, status: nat -> Reply, report: Reply)

  /** The replies seen by `handleUrlScan`. */
  datatype UrlReplies = UrlReplies(submit: Reply, status: nat -> Reply, report: Reply)

  /** Where the two polling loops differ: whether the loop sleeps before each
      check (URL) or after each unfinished one (file), which report it fetches
      and what it throws when that fetch is refused. */
  datatype PollPlan = PollPlan(sleepFirst: bool, reportPath: string, reportError: string)

  function Err(message: string): Outcome { Failed(ErrorValue(message)) }

  function FileReportPath(hashHex: string): string { "files/" + hashHex }

  function UrlReportPath(urlId: string): string { "urls/" + urlId }

  function StatusPath(id: string): string { "analyses/" + id }

  function FilePlan(hashHex: string): PollPlan {
    PollPlan(false, FileReportPath(hashHex), "Failed to get file report")
  }

  /** The URL loop, for the identifier `urlId` of the scanned URL. */
  function UrlPlan(urlId: string): PollPlan {
    PollPlan(true, UrlReportPath(urlId), "Failed to get URL report")
  }

  /** A fetch whose response must be OK, followed by `response.json()`: the
      body, or what is thrown (the rejection, `refusal` for a response that is
      not OK, or the parse failure). */
  function ReadJson(reply: Reply, refusal: string): Result<Json, Thrown> {
    match reply
    case Rejected(t) => Failure(t)
    case Answered(ok, _, body) =>
      if !ok then Failure(ErrorValue(refusal))
      else match body
        case Unparsable(t) => Failure(t)
        case Parsed(j) => Success(j)
  }

  /** The report shown for a body, or the failure for what was thrown. */
  function Shown(r: Result<Json, Thrown>): Outcome {
    match r
    case Success(j) => Succeeded(j)
    case Failure(t) => Failed(t)
  }

  // ---------------------------------------------------------------------------
  // The polling loop

  /** A status reply after which the loop goes on: an OK response whose status
      is neither `completed` nor `failed`. */
  predicate Pending(r: Reply) {
    r.Answered? && r.ok && r.body.Parsed? &&
    r.body.json.status == Unfinished
  }

  /** The requests of one status check, with the sleep in front on the URL path. */
  function StatusCheck(plan: PollPlan, id: string): seq<Event> {
    (if plan.sleepFirst then [Sleep(PollIntervalMs)] else []) + [Get(StatusPath(id))]
  }

  /** One unfinished attempt: the check, with the sleep after it on the file path. */
  function Round(plan: PollPlan, id: string): seq<Event> {
    StatusCheck(plan, id) + (if plan.sleepFirst then [] else [Sleep(PollIntervalMs)])
  }

  /** The report fetch that follows a `completed` status: a GET of `path` that
      throws `refusal` when the response is not OK. */
  function FetchReport(path: string, refusal: string, reply: Reply): Run {
    Run(Shown(ReadJson(reply, refusal)), [Get(path)])
  }

  /** The attempt that ends the loop before the attempts run out. */
  function Terminal(plan: PollPlan, id: string, reply: Reply, report: Reply): Run
    requires !Pending(reply)
  {
    var sent := StatusCheck(plan, id);
    match ReadJson(reply, "Failed to get analysis status")
    case Failure(t) => Run(Failed(t), sent)
    case Success(j) =>
      if j.status == Completed then
        var r := FetchReport(plan.reportPath, plan.reportError, report);
        Run(r.outcome, sent + r.events)
      else Run(Err("Analysis failed"), sent)
  }

  /** The loop from attempt `attempt` (counted from 0) on. */
  function Poll(plan: PollPlan, id: string, status: nat -> Reply, report: Reply, attempt: nat): Run
    decreases MaxAttempts - attempt
  {
    if attempt >= MaxAttempts then Run(Err("Analysis timed out"), [])
    else if Pending(status(attempt)) then
      var rest := Poll(plan, id, status, report, attempt + 1);
      Run(rest.outcome, Round(plan, id) + rest.events)
    else Terminal(plan, id, status(attempt), report)
  }

  // ---------------------------------------------------------------------------
  // The handlers

  /** The reply to the upload or URL submission: the analysis id, or what is
      thrown. Both an OK and a refused response have their body read first. */
  function Submission(reply: Reply, refused: string -> string, missingId: string): Result<string, Thrown> {
    match reply
    case Rejected(t) => Failure(t)
    case Answered(ok, statusText, body) =>
      match body
      case Unparsable(t) => Failure(t)
      case Parsed(j) =>
        if !ok then Failure(ErrorValue(if j.errorMessage != "" then j.errorMessage else refused(statusText)))
        else if j.dataId == "" then Failure(ErrorValue(missingId))
        else Success(j.dataId)
  }

  /** An existing report is used when the lookup answers OK with a `data` member. */
  predicate PreCheckHit(r: Reply) {
    r.Answered? && r.ok && r.body.Parsed? && r.body.json.hasData
  }

  /** `handleFileUpload` for a file of `size` bytes whose SHA-256 digest is `digest`. */
  function FileScan(size: nat, digest: seq<Byte>, replies: FileReplies): Run {
    if size > MaxFileSize then Run(Err("File size exceeds 32MB limit"), [])
    else
      var hashHex := HexEncode(digest);
      var lookup := [Get(FileReportPath(hashHex))];
      if PreCheckHit(replies.preCheck) then Run(Succeeded(replies.preCheck.body.json), lookup)
      else
        var sent := lookup + [Post("files")];
        match Submission(replies.upload, statusText => "Upload failed: " + statusText,
                         "No analysis ID received from upload")
        case Failure(t) => Run(Failed(t), sent)
        case Success(id) =>
          var p := Poll(FilePlan(hashHex), id, replies.status, replies.report, 0);
          Run(p.outcome, sent + p.events)
  }

  /** `handleUrlScan` for the URL whose bytes are `url`. */
  function UrlScan(url: seq<Byte>, replies: UrlReplies): Run {
    var sent := [Post("urls")];
    match Submission(replies.submit, _ => "Failed to submit URL for scanning", "No analysis ID received")
    case Failure(t) => Run(Failed(t), sent)
    case Success(id) =>
      var p := Poll(UrlPlan(UrlId.UrlId(url)), id, replies.status, replies.report, 0);
      Run(p.outcome, sent + p.events)
  }

  /** The lookup path for each kind of indicator. */
  function Endpoint(kind: Classify.SearchType, query: string): string {
    match kind
    case Domain => "domains/" + query
    case Ip => "ip_addresses/" + query
    case Hash => "files/" + query
  }

  /** `searchType.toLowerCase()` */
  function KindName(kind: Classify.SearchType): string {
    match kind
    case Domain => "domain"
    case Ip => "ip"
    case Hash => "hash"
  }

  /** `handleSearch` for the text `query`. */
  function Search(query: string, reply: Reply): Run {
    match Classify.GetSearchType(query)
    case None => Run(Err(InvalidQueryMessage), [])
    case Some(kind) =>
      Run(Shown(ReadJson(reply, "Failed to get " + KindName(kind) + " report")), [Get(Endpoint(kind, query))])
  }

  // ---------------------------------------------------------------------------
  // What the user sees

  /** The `catch` clause: an `Error`'s message, or the handler's fallback text. */
  function MessageOf(t: Thrown, fallback: string): string {
    match t
    case ErrorValue(m) => m
    case OtherValue => fallback
  }

  function ResultOf(o: Outcome): Option<Json> {
    if o.Succeeded? then Some(o.report) else None
  }

  function ErrorOf(o: Outcome, fallback: string): Option<string> {
    if o.Failed? then Some(MessageOf(o.reason, fallback)) else None
  }

  // ---------------------------------------------------------------------------
  // Counting events

  function CountOf(events: seq<Event>, e: Event): nat {
    if events == [] then 0 else (if events[0] == e then 1 else 0) + CountOf(events[1..], e)
  }

  lemma {:induction false} CountOfAppend(a: seq<Event>, b: seq<Event>, e: Event)
    ensures CountOf(a + b, e) == CountOf(a, e) + CountOf(b, e)
  {
    if a == [] {
      assert a + b == b;
    } else {
      assert (a + b)[0] == a[0];
      assert (a + b)[1..] == a[1..] + b;
      CountOfAppend(a[1..], b, e);
    }
  }

  /** `n` unfinished attempts in a row. */
  function Rounds(plan: PollPlan, id: string, n: nat): seq<Event> {
    if n == 0 then [] else Round(plan, id) + Rounds(plan, id, n - 1)
  }

  /** `n` unfinished attempts hold `n` status checks and `n` sleeps, and nothing else. */
  lemma {:induction false} RoundsCount(plan: PollPlan, id: string, n: nat, e: Event)
    ensures CountOf(Rounds(plan, id, n), Get(StatusPath(id))) == n
    ensures CountOf(Rounds(plan, id, n), Sleep(PollIntervalMs)) == n
    ensures e != Get(StatusPath(id)) && e != Sleep(PollIntervalMs) ==> CountOf(Rounds(plan, id, n), e) == 0
  {
    if n > 0 {
      RoundsCount(plan, id, n - 1, e);
      var r := Round(plan, id);
      forall x: Event ensures CountOf(r + Rounds(plan, id, n - 1), x) == CountOf(r, x) + CountOf(Rounds(plan, id, n - 1), x) {
        CountOfAppend(r, Rounds(plan, id, n - 1), x);
      }
      if plan.sleepFirst {
        assert r == [Sleep(PollIntervalMs), Get(StatusPath(id))];
      } else {
        assert r == [Get(StatusPath(id)), Sleep(PollIntervalMs)];
      }
      assert r[1..][1..] == [];
    }
  }

  // ---------------------------------------------------------------------------
  // Closed forms of the polling loop

  /** A further unfinished attempt adds one round at the end. */
  lemma {:induction false} RoundsSnoc(plan: PollPlan, id: string, n: nat)
    ensures Rounds(plan, id, n + 1) == Rounds(plan, id, n) + Round(plan, id)
  {
    if n > 0 {
      RoundsSnoc(plan, id, n - 1);
    }
  }

  /** Pending replies from attempt `a` up to attempt `k`: the loop runs one
      unfinished round for each and carries on at attempt `k`. */
  lemma {:induction false} PollSkipsPending(plan: PollPlan, id: string, status: nat -> Reply,
                                            report: Reply, a: nat, k: nat)
    requires a <= k <= MaxAttempts
    requires forall i :: a <= i < k ==> Pending(status(i))
    ensures var p := Poll(plan, id, status, report, k);
      Poll(plan, id, status, report, a) == Run(p.outcome, Rounds(plan, id, k - a) + p.events)
    decreases k - a
  {
    var p := Poll(plan, id, status, report, k);
    if a == k {
      assert Rounds(plan, id, 0) + p.events == p.events;
    } else {
      PollSkipsPending(plan, id, status, report, a + 1, k);
      PendingRound(plan, id, status, report, a, k, p);
    }
  }

  /** The step of `PollSkipsPending`: one more pending reply in front. */
  lemma PendingRound(plan: PollPlan, id: string, status: nat -> Reply, report: Reply, a: nat, k: nat, p: Run)
    requires a < k <= MaxAttempts && Pending(status(a))
    requires Poll(plan, id, status, report, a + 1) == Run(p.outcome, Rounds(plan, id, k - (a + 1)) + p.events)
    ensures Poll(plan, id, status, report, a) == Run(p.outcome, Rounds(plan, id, k - a) + p.events)
  {
    var r, rs := Round(plan, id), Rounds(plan, id, k - (a + 1));
    assert Rounds(plan, id, k - a) == r + rs;
    assert r + (rs + p.events) == (r + rs) + p.events;
  }

  /** The loop runs unfinished rounds up to the first status reply that is not
      pending, and ends with that attempt. */
  lemma PollStopsAtFirstTerminal(plan: PollPlan, id: string, status: nat -> Reply,
                                 report: Reply, a: nat, k: nat)
    requires a <= k < MaxAttempts
    requires forall i :: a <= i < k ==> Pending(status(i))
    requires !Pending(status(k))
    ensures var t := Terminal(plan, id, status(k), report);
      Poll(plan, id, status, report, a) == Run(t.outcome, Rounds(plan, id, k - a) + t.events)
  {
    PollSkipsPending(plan, id, status, report, a, k);
  }

  /** When no status reply within the limit ends the loop, it times out after
      all of its rounds. */
  lemma PollTimesOut(plan: PollPlan, id: string, status: nat -> Reply, report: Reply, a: nat)
    requires a <= MaxAttempts
    requires forall i :: a <= i < MaxAttempts ==> Pending(status(i))
    ensures Poll(plan, id, status, report, a) == Run(Err("Analysis timed out"), Rounds(plan, id, MaxAttempts - a))
  {
    PollSkipsPending(plan, id, status, report, a, MaxAttempts);
    assert Rounds(plan, id, MaxAttempts - a) + [] == Rounds(plan, id, MaxAttempts - a);
  }

  /** How the loop ends when attempt `k` is the first whose status is not
      pending: after `k` unfinished rounds and one more status check, with the
      error thrown by the status fetch, the report fetch's outcome after a
      `completed` status, or "Analysis failed". */
  lemma PollExits(plan: PollPlan, id: string, status: nat -> Reply, report: Reply, k: nat)
    requires k < MaxAttempts
    requires forall i :: 0 <= i < k ==> Pending(status(i))
    requires !Pending(status(k))
    ensures var d := ReadJson(status(k), "Failed to get analysis status");
      var sent := Rounds(plan, id, k) + StatusCheck(plan, id);
      var p := Poll(plan, id, status, report, 0);
      && (d.Failure? ==> p == Run(Failed(d.error), sent))
      && (d.Success? && d.value.status == Completed ==>
            p == Run(Shown(ReadJson(report, plan.reportError)), sent + [Get(plan.reportPath)]))
      && (d.Success? && d.value.status == AnalysisFailed ==> p == Run(Err("Analysis failed"), sent))
  {
    PollStopsAtFirstTerminal(plan, id, status, report, 0, k);
    var rs, c, f := Rounds(plan, id, k), StatusCheck(plan, id), [Get(plan.reportPath)];
    assert rs + (c + f) == (rs + c) + f;
  }

  /** The first attempt from `a` on whose status reply is not pending, or the limit. */
  function FirstTerminal(status: nat -> Reply, a: nat): (k: nat)
    requires a <= MaxAttempts
    ensures a <= k <= MaxAttempts
    ensures forall i :: a <= i < k ==> Pending(status(i))
    ensures k < MaxAttempts ==> !Pending(status(k))
    decreases MaxAttempts - a
  {
    if a == MaxAttempts || !Pending(status(a)) then a else FirstTerminal(status, a + 1)
  }

  /** The report path is never a status path, so the two kinds of request are told apart. */
  predicate DistinctPaths(plan: PollPlan, id: string) {
    plan.reportPath != StatusPath(id)
  }

  lemma PlansHaveDistinctPaths(hashHex: string, urlId: string, id: string)
    ensures DistinctPaths(FilePlan(hashHex), id)
    ensures DistinctPaths(UrlPlan(urlId), id)
  {
    assert FileReportPath(hashHex)[0] == 'f' && StatusPath(id)[0] == 'a';
    assert UrlReportPath(urlId)[0] == 'u';
  }

  /** Facts about the attempt that ends the loop: one status check, a sleep in
      front of it only on the URL path, and a report fetch exactly when the
      status is `completed`. */
  lemma TerminalCounts(plan: PollPlan, id: string, reply: Reply, report: Reply)
    requires !Pending(reply)
    requires DistinctPaths(plan, id)
    ensures var t := Terminal(plan, id, reply, report);
      && CountOf(t.events, Get(StatusPath(id))) == 1
      && CountOf(t.events, Sleep(PollIntervalMs)) == (if plan.sleepFirst then 1 else 0)
      && CountOf(t.events, Get(plan.reportPath)) ==
         (if reply.Answered? && reply.ok && reply.body.Parsed? && reply.body.json.status == Completed then 1 else 0)
  {
    var t := Terminal(plan, id, reply, report);
    var c := StatusCheck(plan, id);
    var f := [Get(plan.reportPath)];
    var check, nap, fetch := Get(StatusPath(id)), Sleep(PollIntervalMs), Get(plan.reportPath);
    assert f[1..] == [];
    assert CountOf(f, check) == 0 && CountOf(f, nap) == 0 && CountOf(f, fetch) == 1;
    if plan.sleepFirst {
      assert c == [nap, check];
      assert c[1..][1..] == [];
    } else {
      assert c == [check];
      assert c[1..] == [];
    }
    assert CountOf(c, check) == 1 && CountOf(c, fetch) == 0;
    assert CountOf(c, nap) == if plan.sleepFirst then 1 else 0;
    var done := reply.Answered? && reply.ok && reply.body.Parsed? && reply.body.json.status == Completed;
    if done {
      assert t.events == c + f;
      CountOfAppend(c, f, check);
      CountOfAppend(c, f, nap);
      CountOfAppend(c, f, fetch);
    } else {
      assert t.events == c;
    }
  }

  // ---------------------------------------------------------------------------
  // Properties of the polling loop

  /** Thirty pending statuses: the loop times out after exactly 30 checks and
      30 sleeps (on both paths), having fetched no report. */
  lemma PollTimeoutCounts(plan: PollPlan, id: string, status: nat -> Reply, report: Reply)
    requires DistinctPaths(plan, id)
    requires forall i :: 0 <= i < MaxAttempts ==> Pending(status(i))
    ensures var p := Poll(plan, id, status, report, 0);
      && p.outcome == Err("Analysis timed out")
      && CountOf(p.events, Get(StatusPath(id))) == MaxAttempts
      && CountOf(p.events, Sleep(PollIntervalMs)) == MaxAttempts
      && CountOf(p.events, Get(plan.reportPath)) == 0
  {
    PollTimesOut(plan, id, status, report, 0);
    RoundsCount(plan, id, MaxAttempts, Get(plan.reportPath));
  }

  /** The first non-pending status, at attempt `k`, decides the outcome: the
      loop has made k + 1 checks; it has slept once per earlier check on the
      file path and once per check on the URL path; it has fetched the report
      exactly once if the status was `completed` and not at all otherwise. */
  lemma PollEndsAtFirstTerminal(plan: PollPlan, id: string, status: nat -> Reply, report: Reply, k: nat)
    requires DistinctPaths(plan, id)
    requires k < MaxAttempts
    requires forall i :: 0 <= i < k ==> Pending(status(i))
    requires !Pending(status(k))
    ensures var p := Poll(plan, id, status, report, 0);
      var r := status(k);
      var done := r.Answered? && r.ok && r.body.Parsed? && r.body.json.status == Completed;
      && CountOf(p.events, Get(StatusPath(id))) == k + 1
      && CountOf(p.events, Sleep(PollIntervalMs)) == (if plan.sleepFirst then k + 1 else k)
      && CountOf(p.events, Get(plan.reportPath)) == (if done then 1 else 0)
      && (done ==> p.outcome == FetchReport(plan.reportPath, plan.reportError, report).outcome)
      && (r.Rejected? ==> p.outcome == Failed(r.reason))
      && (r.Answered? && !r.ok ==> p.outcome == Err("Failed to get analysis status"))
      && (r.Answered? && r.ok && r.body.Unparsable? ==> p.outcome == Failed(r.body.reason))
      && (r.Answered? && r.ok && r.body.Parsed? && r.body.json.status == AnalysisFailed ==>
            p.outcome == Err("Analysis failed"))
  {
    PollStopsAtFirstTerminal(plan, id, status, report, 0, k);
    var t := Terminal(plan, id, status(k), report);
    TerminalCounts(plan, id, status(k), report);
    forall e: Event ensures CountOf(Rounds(plan, id, k) + t.events, e) == CountOf(Rounds(plan, id, k), e) + CountOf(t.events, e) {
      CountOfAppend(Rounds(plan, id, k), t.events, e);
    }
    RoundsCount(plan, id, k, Get(plan.reportPath));
  }

  /** The loop makes at most 30 status checks, whatever the replies. */
  lemma PollChecksAtMostMax(plan: PollPlan, id: string, status: nat -> Reply, report: Reply)
    requires DistinctPaths(plan, id)
    ensures CountOf(Poll(plan, id, status, report, 0).events, Get(StatusPath(id))) <= MaxAttempts
  {
    var k := FirstTerminal(status, 0);
    if k == MaxAttempts {
      PollTimeoutCounts(plan, id, status, report);
    } else {
      PollEndsAtFirstTerminal(plan, id, status, report, k);
    }
  }

  /** Two unfinished statuses (`queued`, say) and then `completed` give exactly
      three checks and one report fetch; a report that arrives is the result. */
  lemma QueuedQueuedCompleted(plan: PollPlan, id: string, status: nat -> Reply, report: Reply)
    requires DistinctPaths(plan, id)
    requires Pending(status(0)) && Pending(status(1))
    requires status(2).Answered? && status(2).ok && status(2).body.Parsed?
    requires status(2).body.json.status == Completed
    ensures var p := Poll(plan, id, status, report, 0);
      && CountOf(p.events, Get(StatusPath(id))) == 3
      && CountOf(p.events, Get(plan.reportPath)) == 1
      && (report.Answered? && report.ok && report.body.Parsed? ==> p.outcome == Succeeded(report.body.json))
  {
    PollEndsAtFirstTerminal(plan, id, status, report, 2);
  }

  /** On the file path a status check is sent at once, and every unfinished
      check is immediately followed by a sleep. */
  lemma FileRoundShape(hashHex: string, id: string)
    ensures Round(FilePlan(hashHex), id) == [Get(StatusPath(id)), Sleep(PollIntervalMs)]
    ensures StatusCheck(FilePlan(hashHex), id) == [Get(StatusPath(id))]
  {
  }

  /** On the URL path every status check is immediately preceded by a sleep,
      and an unfinished check is followed by nothing more. */
  lemma UrlRoundShape(urlId: string, id: string)
    ensures Round(UrlPlan(urlId), id) == [Sleep(PollIntervalMs), Get(StatusPath(id))]
    ensures StatusCheck(UrlPlan(urlId), id) == [Sleep(PollIntervalMs), Get(StatusPath(id))]
  {
  }

  // ---------------------------------------------------------------------------
  // Properties of the file handler

  /** A file over 32 MiB is rejected before any request: no digest lookup, no upload. */
  lemma FileSizeGuard(size: nat, digest: seq<Byte>, replies: FileReplies)
    requires size > MaxFileSize
    ensures FileScan(size, digest, replies) == Run(Err("File size exceeds 32MB limit"), [])
  {
  }

  /** A file of exactly 33,554,432 bytes passes the guard: the first thing it
      does is look the digest up. */
  lemma FileSizeBoundary(digest: seq<Byte>, replies: FileReplies)
    ensures MaxFileSize == 33554432
    ensures var r := FileScan(33554432, digest, replies);
      |r.events| >= 1 && r.events[0] == Get("files/" + HexEncode(digest))
  {
  }

  /** An existing report ends the scan after the lookup: no upload is made. */
  lemma PreCheckShortCircuit(size: nat, digest: seq<Byte>, replies: FileReplies)
    requires size <= MaxFileSize
    requires PreCheckHit(replies.preCheck)
    ensures FileScan(size, digest, replies) ==
      Run(Succeeded(replies.preCheck.body.json), [Get("files/" + HexEncode(digest))])
    ensures CountOf(FileScan(size, digest, replies).events, Post("files")) == 0
  {
    var r := FileScan(size, digest, replies);
    assert r.events[1..] == [];
  }

  /** A lookup that fails in any way (rejected, refused, unreadable, without
      `data`) is swallowed: the upload follows, and the scan ends exactly as it
      would after any other failed lookup. */
  lemma PreCheckFailureIsSwallowed(size: nat, digest: seq<Byte>, replies: FileReplies, other: Reply)
    requires size <= MaxFileSize
    requires !PreCheckHit(replies.preCheck) && !PreCheckHit(other)
    ensures var r := FileScan(size, digest, replies);
      |r.events| >= 2 && r.events[0] == Get("files/" + HexEncode(digest)) && r.events[1] == Post("files")
    ensures FileScan(size, digest, replies) == FileScan(size, digest, replies.(preCheck := other))
  {
  }

  /** A complete file scan: lookup, upload, `k` unfinished rounds, the check
      that reports `completed`, and the report fetched by the same digest key;
      the fetched report is the result. */
  lemma FileScanCompleted(size: nat, digest: seq<Byte>, replies: FileReplies, k: nat)
    requires size <= MaxFileSize && !PreCheckHit(replies.preCheck)
    requires Submission(replies.upload, statusText => "Upload failed: " + statusText,
                        "No analysis ID received from upload").Success?
    requires k < MaxAttempts
    requires forall i :: 0 <= i < k ==> Pending(replies.status(i))
    requires replies.status(k).Answered? && replies.status(k).ok && replies.status(k).body.Parsed?
    requires replies.status(k).body.json.status == Completed
    requires replies.report.Answered? && replies.report.ok && replies.report.body.Parsed?
    ensures var id := replies.upload.body.json.dataId;
      var key := "files/" + HexEncode(digest);
      FileScan(size, digest, replies) ==
        Run(Succeeded(replies.report.body.json),
            [Get(key), Post("files")] + Rounds(FilePlan(HexEncode(digest)), id, k) + [Get(StatusPath(id)), Get(key)])
  {
    var id := replies.upload.body.json.dataId;
    var plan := FilePlan(HexEncode(digest));
    PollStopsAtFirstTerminal(plan, id, replies.status, replies.report, 0, k);
  }

  // ---------------------------------------------------------------------------
  // Properties of the URL handler

  /** A complete URL scan: submission, `k` unfinished rounds, the sleep and the
      check that reports `completed`, and the report fetched under the URL's
      unpadded base64url encoding. */
  lemma UrlScanCompleted(url: seq<Byte>, replies: UrlReplies, k: nat)
    requires Submission(replies.submit, _ => "Failed to submit URL for scanning", "No analysis ID received").Success?
    requires k < MaxAttempts
    requires forall i :: 0 <= i < k ==> Pending(replies.status(i))
    requires replies.status(k).Answered? && replies.status(k).ok && replies.status(k).body.Parsed?
    requires replies.status(k).body.json.status == Completed
    requires replies.report.Answered? && replies.report.ok && replies.report.body.Parsed?
    ensures var id := replies.submit.body.json.dataId;
      UrlScan(url, replies) ==
        Run(Succeeded(replies.report.body.json),
            [Post("urls")] + Rounds(UrlPlan(UrlId.UrlId(url)), id, k) +
            [Sleep(PollIntervalMs), Get(StatusPath(id)), Get("urls/" + UrlId.Base64Url(url))])
  {
    var id := replies.submit.body.json.dataId;
    var plan := UrlPlan(UrlId.UrlId(url));
    PollExits(plan, id, replies.status, replies.report, k);
    UrlId.UrlIdIsBase64Url(url);
    var rs, c := Rounds(plan, id, k), StatusCheck(plan, id);
    assert c == [Sleep(PollIntervalMs), Get(StatusPath(id))];
    assert plan.reportPath == "urls/" + UrlId.Base64Url(url);
    var p := Poll(plan, id, replies.status, replies.report, 0);
    assert p == Run(Succeeded(replies.report.body.json), rs + c + [Get(plan.reportPath)]);
    assert [Post("urls")] + p.events == [Post("urls")] + rs + (c + [Get(plan.reportPath)]);
  }

  /** Submissions: a refused request shows the service's message when it gives
      one and the handler's own text otherwise; an accepted one without an id
      is an error. */
  lemma SubmissionErrors(reply: Reply, refused: string -> string, missingId: string)
    requires reply.Answered? && reply.body.Parsed?
    ensures var j := reply.body.json;
      && (!reply.ok && j.errorMessage != "" ==> Submission(reply, refused, missingId) == Failure(ErrorValue(j.errorMessage)))
      && (!reply.ok && j.errorMessage == "" ==>
            Submission(reply, refused, missingId) == Failure(ErrorValue(refused(reply.statusText))))
      && (reply.ok ==> (Submission(reply, refused, missingId).Success? <==> j.dataId != ""))
  {
  }

  // ---------------------------------------------------------------------------
  // Properties of the search handler

  /** An unrecognised query is rejected without any request; a recognised one
      makes exactly one request, to the path its kind selects. */
  lemma SearchRequests(query: string, reply: Reply)
    ensures var r := Search(query, reply);
      && (Classify.GetSearchType(query) == None <==> r.events == [])
      && (Classify.GetSearchType(query) == None ==> r.outcome == Err(InvalidQueryMessage))
      && (Classify.GetSearchType(query).Some? ==>
            r.events == [Get(Endpoint(Classify.GetSearchType(query).value, query))])
  {
  }

  /** The path depends only on the kind: domains, IP addresses and files each
      have their own collection, followed by the query as typed. */
  lemma EndpointPrefixes(query: string)
    ensures Endpoint(Classify.Domain, query) == "domains/" + query
    ensures Endpoint(Classify.Ip, query) == "ip_addresses/" + query
    ensures Endpoint(Classify.Hash, query) == "files/" + query
    ensures forall k1, k2 :: Endpoint(k1, query) == Endpoint(k2, query) ==> k1 == k2
  {
    forall k1, k2 | Endpoint(k1, query) == Endpoint(k2, query) ensures k1 == k2 {
      var p1, p2 := Endpoint(k1, query), Endpoint(k2, query);
      assert p1[0] == p2[0];
    }
  }

  /** A search succeeds exactly when the query is recognised and the lookup
      answers OK with a readable body; a refused lookup names the kind. */
  lemma SearchOutcome(query: string, reply: Reply)
    ensures Search(query, reply).outcome.Succeeded? <==>
      Classify.GetSearchType(query).Some? && reply.Answered? && reply.ok && reply.body.Parsed?
    ensures forall k :: Classify.GetSearchType(query) == Some(k) && reply.Answered? && !reply.ok ==>
      Search(query, reply).outcome == Err("Failed to get " + KindName(k) + " report")
    ensures Classify.GetSearchType(query) == Some(Classify.Domain) && reply.Answered? && !reply.ok ==>
      Search(query, reply).outcome == Err("Failed to get domain report")
    ensures Classify.GetSearchType(query) == Some(Classify.Ip) && reply.Answered? && !reply.ok ==>
      Search(query, reply).outcome == Err("Failed to get ip report")
    ensures Classify.GetSearchType(query) == Some(Classify.Hash) && reply.Answered? && !reply.ok ==>
      Search(query, reply).outcome == Err("Failed to get hash report")
  {
    assert "Failed to get " + KindName(Classify.Domain) + " report" == "Failed to get domain report";
    assert "Failed to get " + KindName(Classify.Ip) + " report" == "Failed to get ip report";
    assert "Failed to get " + KindName(Classify.Hash) + " report" == "Failed to get hash report";
  }

  lemma SearchRejectsInvalidText(reply: Reply)
    ensures Search("not a valid @@ string", reply) == Run(Err(InvalidQueryMessage), [])
  {
    Classify.InvalidExample();
  }

  // ---------------------------------------------------------------------------
  // What every handler leaves behind

  /** After the `catch` and `finally` of a handler, exactly one of the result
      and the error is set. */
  lemma ExactlyOneShown(o: Outcome, fallback: string)
    ensures ResultOf(o).Some? != ErrorOf(o, fallback).Some?
    ensures o.Failed? && o.reason.OtherValue? ==> ErrorOf(o, fallback) == Some(fallback)
  {
  }
}
