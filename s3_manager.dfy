/**
 * Downloading one log file from storage, bracketed by progress reports: the storage call
 * and the stream read are an outcome given as input, and the calls made to the progress
 * reporter and to the exception handler are recorded, in order, in `calls`.
 */
module S3Manager {
  import opened Wrappers

  /** The pipeline stage a progress status reports on. */
  datatype ProgressState =
    | PollQueue | DeleteMessage | DeleteFilteredMessage | ParseMessage
    | ProcessSource | DownloadLog | ProcessLog | UncaughtException

  type Bytes = seq<bv8>

  /** The notification a log file belongs to; the download only passes it on. */
  datatype Source = Source(id: nat)

  /** One log file to fetch; its size is filled in by a successful download. */
  class CloudTrailLog {
    const s3Bucket: string
    const s3ObjectKey: string
    var logFileSize: int

    constructor (bucket: string, key: string)
      ensures s3Bucket == bucket && s3ObjectKey == key && logFileSize == 0
    {
      s3Bucket := bucket;
      s3ObjectKey := key;
      logFileSize := 0;
    }
  }

  datatype LogInfo = LogInfo(source: Source, log: CloudTrailLog, success: bool)

  datatype ProgressStatus = ProgressStatus(state: ProgressState, info: LogInfo)

  /** Whatever the progress reporter returns from a start report; opaque to the pipeline. */
  datatype ReportToken = ReportToken(id: nat)

  /** The exceptions the storage call and the stream read can raise. */
  datatype Cause = ServiceException(message: string) | IOException(message: string) | ClientException(message: string)

  /** The exception handed to the exception handler: message, cause and the status at the start. */
  datatype ClientLibraryException = ClientLibraryException(message: string, cause: Cause, status: ProgressStatus)

  /** One call to a collaborator. */
  datatype Call =
    | ReportStart(status: ProgressStatus, returned: ReportToken)
    | HandleException(exception: ClientLibraryException)
    | ReportEnd(status: ProgressStatus, token: ReportToken)

  /** What asking storage for the object and reading its content does. */
  datatype FetchOutcome =
    | Fetched(content: Bytes, contentLength: int)    // object received and read completely
    | ServiceError(message: string)                 // the storage service refused the request
    | ReadError(message: string)                    // reading the content stream failed
    | CloseError(content: Bytes, message: string)   // content read, closing the stream failed
    | ClientError(message: string)                  // any other client-side failure

  /** What a download ends with: returned bytes (or none), or an exception that propagates. */
  datatype Download = Returned(bytes: Option<Bytes>) | Raised(cause: Cause)

  /** An opaque reference to a collaborator supplied at construction. */
  datatype Collaborator = Collaborator(id: nat)

  const DownloadFailureMessage := "Fail to download log file."

  /** Construction-time checks: the first missing collaborator, in the order checked, is reported. */
  function Validate(configuration: Option<Collaborator>, exceptionHandler: Option<Collaborator>,
                    progressReporter: Option<Collaborator>, s3Client: Option<Collaborator>): (r: Outcome<string>)
    ensures r.Pass? <==> configuration.Some? && exceptionHandler.Some? && progressReporter.Some? && s3Client.Some?
    ensures configuration.None? ==> r == Fail("configuration is null")
    ensures configuration.Some? && exceptionHandler.None? ==> r == Fail("exception handler is null")
    ensures configuration.Some? && exceptionHandler.Some? && progressReporter.None? ==> r == Fail("progress reporter is null")
    ensures configuration.Some? && exceptionHandler.Some? && progressReporter.Some? && s3Client.None? ==>
      r == Fail("s3 client is null")
  {
    if configuration.None? then Fail("configuration is null")
    else if exceptionHandler.None? then Fail("exception handler is null")
    else if progressReporter.None? then Fail("progress reporter is null")
    else if s3Client.None? then Fail("s3 client is null")
    else Pass
  }

  /** The exception a failure raises, and whether the download catches it. */
  function CauseOf(outcome: FetchOutcome): Option<Cause>
  {
    match outcome
    case Fetched(_, _) => None
    case ServiceError(m) => Some(ServiceException(m))
    case ReadError(m) => Some(IOException(m))
    case CloseError(_, m) => Some(IOException(m))
    case ClientError(m) => Some(ClientException(m))
  }

  predicate IsCaught(c: Cause) { c.ServiceException? || c.IOException? }

  /** The collaborator calls one download makes, in order. */
  function DownloadCalls(source: Source, log: CloudTrailLog, token: ReportToken, outcome: FetchOutcome): seq<Call>
  {
    var start := ProgressStatus(ProgressState.DownloadLog, LogInfo(source, log, false));
    var end := ProgressStatus(ProgressState.DownloadLog, LogInfo(source, log, outcome.Fetched?));
    var cause := CauseOf(outcome);
    [ReportStart(start, token)]
    + (if cause.Some? && IsCaught(cause.value)
       then [HandleException(ClientLibraryException(DownloadFailureMessage, cause.value, start))] else [])
    + [ReportEnd(end, token)]
  }

  /**
   * A well-formed progress bracket: one start report first, one end report last carrying
   * the token the start report returned, and only exception-handler calls in between.
   */
  predicate Bracketed(calls: seq<Call>)
  {
    && |calls| >= 2
    && calls[0].ReportStart?
    && calls[|calls| - 1].ReportEnd?
    && calls[|calls| - 1].token == calls[0].returned
    && forall k :: 0 < k < |calls| - 1 ==> calls[k].HandleException?
  }

  /** Number of exception-handler calls. */
  function HandlerCalls(calls: seq<Call>): nat
  {
    if calls == [] then 0 else (if calls[0].HandleException? then 1 else 0) + HandlerCalls(calls[1..])
  }

  /**
   * Every download is bracketed; the start status reports no success; the end status
   * reports success exactly when the object was fetched; the handler is called once for a
   * caught failure, with the start status, and not otherwise.
   */
  lemma DownloadIsBracketed(source: Source, log: CloudTrailLog, token: ReportToken, outcome: FetchOutcome)
    ensures var calls := DownloadCalls(source, log, token, outcome);
      && Bracketed(calls)
      && calls[0].returned == token
      && calls[0].status == ProgressStatus(ProgressState.DownloadLog, LogInfo(source, log, false))
      && calls[|calls| - 1].status.info.success == outcome.Fetched?
      && HandlerCalls(calls) == (if CauseOf(outcome).Some? && IsCaught(CauseOf(outcome).value) then 1 else 0)
      && forall k :: 0 < k < |calls| - 1 ==> calls[k].exception.status == calls[0].status
  {
    var calls := DownloadCalls(source, log, token, outcome);
    var last := calls[|calls| - 1];
    assert HandlerCalls([last]) == 0 by {
      assert [last][1..] == [];
    }
    if |calls| == 3 {
      assert calls[1..] == [calls[1], last];
      assert [calls[1], last][1..] == [last];
    } else {
      assert calls[1..] == [last];
    }
  }

  class S3Manager {
    const s3Client: Collaborator
    const configuration: Collaborator
    const exceptionHandler: Collaborator
    const progressReporter: Collaborator
    /** The calls made so far to the progress reporter and the exception handler. */
    var calls: seq<Call>

    constructor Init(s3Client: Collaborator, configuration: Collaborator,
                     exceptionHandler: Collaborator, progressReporter: Collaborator)
      ensures this.s3Client == s3Client && this.configuration == configuration
      ensures this.exceptionHandler == exceptionHandler && this.progressReporter == progressReporter
      ensures calls == []
    {
      this.s3Client := s3Client;
      this.configuration := configuration;
      this.exceptionHandler := exceptionHandler;
      this.progressReporter := progressReporter;
      calls := [];
    }

    /** Construction: refused with the first missing collaborator's message. */
    static method Create(s3Client: Option<Collaborator>, configuration: Option<Collaborator>,
                         exceptionHandler: Option<Collaborator>, progressReporter: Option<Collaborator>)
      returns (r: Result<S3Manager, string>)
      ensures var v := Validate(configuration, exceptionHandler, progressReporter, s3Client);
        && (r.Ok? <==> v.Pass?)
        && (r.Err? ==> r.error == v.error)
      ensures r.Ok? ==> fresh(r.value) && r.value.calls == []
    {
      var v := Validate(configuration, exceptionHandler, progressReporter, s3Client);
      if v.Fail? {
        return Err(v.error);
      }
      var m := new S3Manager.Init(s3Client.value, configuration.value, exceptionHandler.value, progressReporter.value);
      r := Ok(m);
    }

    /** The progress reporter's start call; `returned` is what the reporter gives back. */
    method ReportStartCall(status: ProgressStatus, returned: ReportToken) returns (token: ReportToken)
      modifies this
      ensures calls == old(calls) + [ReportStart(status, returned)] && token == returned
    {
      calls := calls + [ReportStart(status, returned)];
      token := returned;
    }

    method HandleExceptionCall(exception: ClientLibraryException)
      modifies this
      ensures calls == old(calls) + [HandleException(exception)]
    {
      calls := calls + [HandleException(exception)];
    }

    method ReportEndCall(status: ProgressStatus, token: ReportToken)
      modifies this
      ensures calls == old(calls) + [ReportEnd(status, token)]
    {
      calls := calls + [ReportEnd(status, token)];
    }

    /**
     * Downloads one log file. `reported` is what the progress reporter returns from the
     * start report; `outcome` is what storage and the stream read do.
     */
    method DownloadLog(log: CloudTrailLog, source: Source, reported: ReportToken, outcome: FetchOutcome)
      returns (r: Download)
      modifies this, log
      ensures calls == old(calls) + DownloadCalls(source, log, reported, outcome)
      ensures outcome.Fetched? ==> r == Returned(Some(outcome.content)) && log.logFileSize == outcome.contentLength
      ensures !outcome.Fetched? ==> log.logFileSize == old(log.logFileSize)
      ensures outcome.ServiceError? || outcome.ReadError? ==> r == Returned(None)
      ensures outcome.CloseError? ==> r == Returned(Some(outcome.content))
      ensures outcome.ClientError? ==> r == Raised(ClientException(outcome.message))
    {
      var success := false;
      var startStatus := ProgressStatus(ProgressState.DownloadLog, LogInfo(source, log, success));
      var downloadSourceReportObject := ReportStartCall(startStatus, reported);
      var s3ObjectBytes: Option<Bytes> := None;
      var raised: Option<Cause> := None;
      match outcome {
        case Fetched(content, contentLength) =>
          s3ObjectBytes := Some(content);
          log.logFileSize := contentLength;
          success := true;
        case ServiceError(m) =>
          raised := Some(ServiceException(m));
        case ReadError(m) =>
          raised := Some(IOException(m));
        case CloseError(content, m) =>
          s3ObjectBytes := Some(content);
          raised := Some(IOException(m));
        case ClientError(m) =>
          raised := Some(ClientException(m));
      }
      if raised.Some? && IsCaught(raised.value) {
        HandleExceptionCall(ClientLibraryException(DownloadFailureMessage, raised.value, startStatus));
        raised := None;
      }
      var endStatus := ProgressStatus(ProgressState.DownloadLog, LogInfo(source, log, success));
      ReportEndCall(endStatus, downloadSourceReportObject);
      if raised.Some? {
        return Raised(raised.value);
      }
      r := Returned(s3ObjectBytes);
    }
  }
}
