/** The upload page's state: the chosen file, the results of the last analysis, the
    request flag and the error message, held by the upload provider, and the upload
    handler that fills them from the backend's answer. The request itself is
    abstract: its answer is a `Response`. The stats are the shared `StatsStore`. */
module Upload {
  import opened Wrappers
  import opened Logs
  import opened Stats

  /** The file the user picked; only its presence matters to the state. */
  datatype CsvFile = CsvFile(name: string)

  /** How the analysis request ended: a parsed result list, a response whose status is
      not OK, or an exception (a network failure, a body that is not JSON) with its
      message. */
  datatype Response = Analyzed(data: seq<LogEntry>) | NotOk | Thrown(message: string)

  /** The message thrown for a response that is not OK. */
  const FailedMessage: string := "Failed to analyze file"

  /** Everything the upload entry points read or write: the four cells of the upload
      provider and the shared stats record. */
  datatype Page = Page(
    file: Option<CsvFile>,
    results: seq<LogEntry>,
    loading: bool,
    error: Option<string>,
    stats: Stats)

  /** `resetUpload`: the four cells back to their first values; the stats are reset
      only while they come from an upload, never while they count live messages. */
  function Reset(p: Page): (r: Page)
    ensures r.file == None && r.results == [] && !r.loading && r.error == None
  {
    Page(None, [], false, None, if p.stats.isMonitoring then p.stats else Initial())
  }

  /** What a reset leaves behind, whatever the page held before. */
  lemma {:induction false} ResetClears(p: Page)
    ensures Reset(p).file == None && Reset(p).results == []
    ensures !Reset(p).loading && Reset(p).error == None
    ensures !p.stats.isMonitoring ==> IsReset(Reset(p).stats)
    ensures p.stats.isMonitoring ==> Reset(p).stats == p.stats
  {
  }

  /** Resetting twice is resetting once. */
  lemma {:induction false} ResetIdempotent(p: Page)
    ensures Reset(Reset(p)) == Reset(p)
  {
    if p.stats.isMonitoring {
      assert Reset(p).stats == p.stats;
    } else {
      assert !Reset(p).stats.isMonitoring;
    }
  }

  /** The synchronous start of `handleUpload`, once a file is present. */
  function Begin(p: Page): (r: Page)
    requires p.file.Some?
    ensures r.loading && r.error == None && r.results == []
    ensures r.file == p.file && r.stats == p.stats
  {
    p.(loading := true, error := None, results := [])
  }

  /** The part of `handleUpload` after the request: the results and the batch stats on
      success, the message on failure, and the request flag cleared in every case. */
  function Complete(p: Page, response: Response): (r: Page)
    ensures !r.loading && r.file == p.file
  {
    match response
    case Analyzed(data) => p.(results := data, stats := UpdateFromCSV(data), loading := false)
    case NotOk => p.(error := Some(FailedMessage), loading := false)
    case Thrown(message) => p.(error := Some(message), loading := false)
  }

  /** `handleUpload` from start to finish, with nothing else happening meanwhile. */
  function AfterUpload(p: Page, response: Response): (r: Page)
    ensures r.file == p.file
    ensures p.file.Some? ==> !r.loading
  {
    if p.file.None? then p else Complete(Begin(p), response)
  }

  /** Without a file the handler returns at once. */
  lemma {:induction false} NoFileNoChange(p: Page, response: Response)
    requires p.file.None?
    ensures AfterUpload(p, response) == p
  {
  }

  /** With a file: the request flag ends cleared and the file stays chosen; a result
      list replaces the results and the stats, with no error; a failure leaves no
      results and the stats as they were, and records the message. */
  lemma {:induction false} UploadOutcome(p: Page, response: Response)
    requires p.file.Some?
    ensures !AfterUpload(p, response).loading
    ensures AfterUpload(p, response).file == p.file
    ensures response.Analyzed? ==>
      AfterUpload(p, response).results == response.data &&
      AfterUpload(p, response).stats == UpdateFromCSV(response.data) &&
      AfterUpload(p, response).error == None
    ensures !response.Analyzed? ==>
      AfterUpload(p, response).results == [] && AfterUpload(p, response).stats == p.stats
    ensures response.NotOk? ==> AfterUpload(p, response).error == Some(FailedMessage)
    ensures response.Thrown? ==> AfterUpload(p, response).error == Some(response.message)
  {
  }

  /** A reset while the request is in flight does not stop its answer from landing: the
      results and the stats come back, although the file is gone. */
  lemma {:induction false} ResetDuringRequest(p: Page, data: seq<LogEntry>)
    requires p.file.Some?
    ensures Complete(Reset(Begin(p)), Analyzed(data)).file == None
    ensures Complete(Reset(Begin(p)), Analyzed(data)).results == data
    ensures Complete(Reset(Begin(p)), Analyzed(data)).stats == UpdateFromCSV(data)
  {
  }

  /** The upload provider together with the page's handler. */
  class UploadAnalysis {
    var file: Option<CsvFile>
    var results: seq<LogEntry>
    var loading: bool
    var error: Option<string>
    /** The shared stats provider. */
    const store: StatsStore

    ghost predicate Valid()
      reads this, store
    {
      store.Valid()
    }

    ghost function State(): (r: Page)
      reads this, store
    {
      Page(file, results, loading, error, store.stats)
    }

    /** The provider as first rendered. */
    constructor (store: StatsStore)
      requires store.Valid()
      ensures Valid() && this.store == store
      ensures State() == Page(None, [], false, None, old(store.stats))
    {
      this.store := store;
      file := None;
      results := [];
      loading := false;
      error := None;
    }

    /** A file dropped on the page or chosen in the file dialog. */
    method SelectFile(f: CsvFile)
      requires Valid()
      modifies this
      ensures Valid() && State() == old(State()).(file := Some(f))
    {
      file := Some(f);
    }

    method ResetUpload()
      requires Valid()
      modifies this, store
      ensures Valid() && State() == Reset(old(State()))
    {
      file := None;
      results := [];
      loading := false;
      error := None;
      if !store.stats.isMonitoring {
        store.ResetStats();
        ResetIsInitial(store.stats);
      }
    }

    /** The handler up to its first `await`; `started` is false when no file is chosen. */
    method BeginUpload() returns (started: bool)
      requires Valid()
      modifies this
      ensures started <==> old(file).Some?
      ensures Valid() && State() == if started then Begin(old(State())) else old(State())
    {
      started := file.Some?;
      if started {
        loading := true;
        error := None;
        results := [];
      }
    }

    /** The handler after its request has answered, whatever happened meanwhile. */
    method CompleteUpload(response: Response)
      requires Valid()
      modifies this, store
      ensures Valid() && State() == Complete(old(State()), response)
    {
      match response {
        case Analyzed(data) =>
          results := data;
          store.ApplyCSV(data);
        case NotOk =>
          error := Some(FailedMessage);
        case Thrown(message) =>
          error := Some(message);
      }
      loading := false;
    }

    /** `handleUpload` when nothing else happens while the request is in flight. */
    method HandleUpload(response: Response)
      requires Valid()
      modifies this, store
      ensures Valid() && State() == AfterUpload(old(State()), response)
    {
      var started := BeginUpload();
      if started {
        CompleteUpload(response);
      }
    }
  }
}
