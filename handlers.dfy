/**
 * The handlers of src/App.tsx as imperative code: the straight-line steps and
 * the `while` loops of `handleFileUpload` and `handleUrlScan`, and the
 * component state `isLoading`, `scanResult` and `error` that every handler
 * resets, fills and releases. The straight-line bodies and the loops are
 * proved to compute the matching functions of module Scan. `HandleFileUpload`,
 * `HandleUrlScan` and `HandleSearch` are proved to end with loading off and
 * exactly one of a result or an error shown, the one the matching function
 * gives; `HandleSubmit` either changes nothing and makes no request, or is
 * `HandleUrlScan`.
 */
module Handlers {
  import opened Wrappers
  import opened Hex
  import Classify
  import UrlId
  import opened Scan

  /** The body of `handleFileUpload` inside its `try`: what it ends with and
      the requests and sleeps it issued. */
  method ScanFile(size: nat, digest: seq<Byte>, replies: FileReplies) returns (outcome: Outcome, events: seq<Event>)
    ensures Run(outcome, events) == FileScan(size, digest, replies)
  {
    if size > MaxFileSize {
      return Err("File size exceeds 32MB limit"), [];
    }
    var hashHex := HexEncode(digest);
    events := [Get(FileReportPath(hashHex))];
    var reportResponse := replies.preCheck;
    if reportResponse.Answered? && reportResponse.ok && reportResponse.body.Parsed? && reportResponse.body.json.hasData {
      return Succeeded(reportResponse.body.json), events;
    }
    events := events + [Post("files")];
    var uploadResponse := replies.upload;
    if uploadResponse.Rejected? {
      return Failed(uploadResponse.reason), events;
    }
    if uploadResponse.body.Unparsable? {
      return Failed(uploadResponse.body.reason), events;
    }
    var uploadData := uploadResponse.body.json;
    if !uploadResponse.ok {
      var message := if uploadData.errorMessage != "" then uploadData.errorMessage
                     else "Upload failed: " + uploadResponse.statusText;
      return Err(message), events;
    }
    if uploadData.dataId == "" {
      return Err("No analysis ID received from upload"), events;
    }
    var analysisId := uploadData.dataId;
    var polled;
    outcome, polled := PollFileAnalysis(analysisId, hashHex, replies.status, replies.report);
    events := events + polled;
  }

  /** The polling loop of `handleFileUpload`: a status check per attempt, a
      sleep after each unfinished one, and the report fetched by the digest key
      once the analysis is `completed`. */
  method PollFileAnalysis(analysisId: string, hashHex: string, status: nat -> Reply, report: Reply)
    returns (outcome: Outcome, events: seq<Event>)
    ensures Run(outcome, events) == Poll(FilePlan(hashHex), analysisId, status, report, 0)
  {
    ghost var plan := FilePlan(hashHex);
    ghost var check := StatusCheck(plan, analysisId);
    assert check == [Get(StatusPath(analysisId))];
    assert Round(plan, analysisId) == check + [Sleep(PollIntervalMs)];
    events := [];
    var analysisComplete := false;
    var attempts := 0;
    outcome := Err("Analysis timed out");
    while !analysisComplete && attempts < MaxAttempts
      invariant 0 <= attempts <= MaxAttempts
      invariant !analysisComplete ==>
        events == Rounds(plan, analysisId, attempts) && forall i :: 0 <= i < attempts ==> Pending(status(i))
      invariant analysisComplete ==> Run(outcome, events) == Poll(plan, analysisId, status, report, 0)
      decreases MaxAttempts - attempts
    {
      ghost var before := events;
      attempts := attempts + 1;
      events := events + [Get(StatusPath(analysisId))];
      assert events == before + check;
      var analysisData := ReadJson(status(attempts - 1), "Failed to get analysis status");
      if !Pending(status(attempts - 1)) {
        PollExits(plan, analysisId, status, report, attempts - 1);
      }
      if analysisData.Failure? {
        return Failed(analysisData.error), events;
      }
      if analysisData.value.status == Completed {
        events := events + [Get(FileReportPath(hashHex))];
        var fileData := ReadJson(report, "Failed to get file report");
        assert events == (before + check) + [Get(FileReportPath(hashHex))];
        if fileData.Failure? {
          return Failed(fileData.error), events;
        }
        outcome := Succeeded(fileData.value);
        analysisComplete := true;
      } else if analysisData.value.status == AnalysisFailed {
        return Err("Analysis failed"), events;
      } else {
        events := events + [Sleep(PollIntervalMs)];
        assert events == before + (check + [Sleep(PollIntervalMs)]);
        RoundsSnoc(plan, analysisId, attempts - 1);
      }
    }
    if !analysisComplete {
      PollTimesOut(plan, analysisId, status, report, 0);
      return Err("Analysis timed out"), events;
    }
  }

  /** The body of `handleUrlScan` inside its `try`. */
  method ScanUrl(url: seq<Byte>, replies: UrlReplies) returns (outcome: Outcome, events: seq<Event>)
    ensures Run(outcome, events) == UrlScan(url, replies)
  {
    events := [Post("urls")];
    var submitResponse := replies.submit;
    if submitResponse.Rejected? {
      return Failed(submitResponse.reason), events;
    }
    if submitResponse.body.Unparsable? {
      return Failed(submitResponse.body.reason), events;
    }
    var submitData := submitResponse.body.json;
    if !submitResponse.ok {
      var message := if submitData.errorMessage != "" then submitData.errorMessage
                     else "Failed to submit URL for scanning";
      return Err(message), events;
    }
    if submitData.dataId == "" {
      return Err("No analysis ID received"), events;
    }
    var analysisId := submitData.dataId;
    var urlId := UrlId.UrlId(url);
    var polled;
    outcome, polled := PollUrlAnalysis(analysisId, urlId, replies.status, replies.report);
    events := events + polled;
  }

  /** The polling loop of `handleUrlScan`: a sleep before every status check,
      and the report fetched under the URL identifier once the analysis is
      `completed`. */
  method PollUrlAnalysis(analysisId: string, urlId: string, status: nat -> Reply, report: Reply)
    returns (outcome: Outcome, events: seq<Event>)
    ensures Run(outcome, events) == Poll(UrlPlan(urlId), analysisId, status, report, 0)
  {
    ghost var plan := UrlPlan(urlId);
    ghost var check := StatusCheck(plan, analysisId);
    assert check == [Sleep(PollIntervalMs), Get(StatusPath(analysisId))];
    assert Round(plan, analysisId) == check;
    events := [];
    var analysisComplete := false;
    var attempts := 0;
    outcome := Err("Analysis timed out");
    while !analysisComplete && attempts < MaxAttempts
      invariant 0 <= attempts <= MaxAttempts
      invariant !analysisComplete ==>
        events == Rounds(plan, analysisId, attempts) && forall i :: 0 <= i < attempts ==> Pending(status(i))
      invariant analysisComplete ==> Run(outcome, events) == Poll(plan, analysisId, status, report, 0)
      decreases MaxAttempts - attempts
    {
      ghost var before := events;
      attempts := attempts + 1;
      events := events + [Sleep(PollIntervalMs)];
      events := events + [Get(StatusPath(analysisId))];
      assert events == before + check;
      var analysisData := ReadJson(status(attempts - 1), "Failed to get analysis status");
      if !Pending(status(attempts - 1)) {
        PollExits(plan, analysisId, status, report, attempts - 1);
      }
      if analysisData.Failure? {
        return Failed(analysisData.error), events;
      }
      if analysisData.value.status == Completed {
        events := events + [Get(UrlReportPath(urlId))];
        var urlData := ReadJson(report, "Failed to get URL report");
        assert events == (before + check) + [Get(UrlReportPath(urlId))];
        if urlData.Failure? {
          return Failed(urlData.error), events;
        }
        outcome := Succeeded(urlData.value);
        analysisComplete := true;
      } else if analysisData.value.status == AnalysisFailed {
        return Err("Analysis failed"), events;
      } else {
        RoundsSnoc(plan, analysisId, attempts - 1);
      }
    }
    if !analysisComplete {
      PollTimesOut(plan, analysisId, status, report, 0);
      return Err("Analysis timed out"), events;
    }
  }

  /** The body of `handleSearch` inside its `try`. */
  method SearchIndicator(query: string, reply: Reply) returns (outcome: Outcome, events: seq<Event>)
    ensures Run(outcome, events) == Search(query, reply)
    ensures events == [] <==> Classify.GetSearchType(query) == None
  {
    var searchType := Classify.GetSearchType(query);
    if searchType.None? {
      return Err(InvalidQueryMessage), [];
    }
    var endpoint := Endpoint(searchType.value, query);
    events := [Get(endpoint)];
    var data := ReadJson(reply, "Failed to get " + KindName(searchType.value) + " report");
    if data.Failure? {
      return Failed(data.error), events;
    }
    outcome := Succeeded(data.value);
  }

  const FileFallback: string := "An error occurred while scanning the file"
  const UrlFallback: string := "An error occurred while scanning the URL"
  const SearchFallback: string := "An error occurred while searching"

  /** The component state that the three handlers share. */
  class Scanner {
    var isLoading: bool
    var scanResult: Option<Json>
    var error: Option<string>

    /** `useState(false)`, `useState(null)`, `useState(null)` */
    constructor ()
      ensures !isLoading && scanResult == None && error == None
    {
      isLoading := false;
      scanResult := None;
      error := None;
    }

    /** The state a handler leaves: not loading, and exactly one of a result and an error. */
    predicate Settled()
      reads this
    {
      !isLoading && (scanResult.Some? <==> error.None?)
    }

    /** The state a finished scan with outcome `o` shows. */
    predicate Shows(o: Outcome, fallback: string)
      reads this
    {
      !isLoading && scanResult == ResultOf(o) && error == ErrorOf(o, fallback)
    }

    /** `setIsLoading(true); setError(null); setScanResult(null);` */
    method Start()
      modifies this
      ensures isLoading && error == None && scanResult == None
    {
      isLoading := true;
      error := None;
      scanResult := None;
    }

    /** `setScanResult(...)` on success, the `catch` clause on failure, then `finally`. */
    method Finish(o: Outcome, fallback: string)
      requires isLoading && error == None && scanResult == None
      modifies this
      ensures Shows(o, fallback) && Settled()
    {
      match o {
        case Succeeded(report) =>
          scanResult := Some(report);
        case Failed(t) =>
          error := Some(MessageOf(t, fallback));
      }
      isLoading := false;
      ExactlyOneShown(o, fallback);
    }

    method HandleFileUpload(size: nat, digest: seq<Byte>, replies: FileReplies) returns (events: seq<Event>)
      modifies this
      ensures Settled()
      ensures Shows(FileScan(size, digest, replies).outcome, FileFallback)
      ensures events == FileScan(size, digest, replies).events
    {
      Start();
      var outcome;
      outcome, events := ScanFile(size, digest, replies);
      Finish(outcome, FileFallback);
    }

    method HandleUrlScan(url: seq<Byte>, replies: UrlReplies) returns (events: seq<Event>)
      modifies this
      ensures Settled()
      ensures Shows(UrlScan(url, replies).outcome, UrlFallback)
      ensures events == UrlScan(url, replies).events
    {
      Start();
      var outcome;
      outcome, events := ScanUrl(url, replies);
      Finish(outcome, UrlFallback);
    }

    /** `handleSubmit`: a URL scan starts only for a non-empty URL while no scan is loading. */
    method HandleSubmit(url: seq<Byte>, replies: UrlReplies) returns (events: seq<Event>)
      modifies this
      ensures old(url == [] || isLoading) ==> events == [] && unchanged(this)
      ensures old(url != [] && !isLoading) ==>
        Settled() && Shows(UrlScan(url, replies).outcome, UrlFallback) && events == UrlScan(url, replies).events
    {
      if url != [] && !isLoading {
        events := HandleUrlScan(url, replies);
      } else {
        events := [];
      }
    }

    method HandleSearch(query: string, reply: Reply) returns (events: seq<Event>)
      modifies this
      ensures Settled()
      ensures Shows(Search(query, reply).outcome, SearchFallback)
      ensures events == Search(query, reply).events
      ensures Classify.GetSearchType(query) == None ==> events == [] && error == Some(InvalidQueryMessage)
    {
      Start();
      var outcome;
      outcome, events := SearchIndicator(query, reply);
      Finish(outcome, SearchFallback);
    }
  }
}
