/**
 * The Svelte import store: import and scraper configurations and the upload history. An
 * upload or product import puts a new history entry in front; a fetched history is sorted
 * in place, newest first, before it is stored.
 */
module ImportStore {
  import opened Wrappers
  import opened Transport

  datatype ImportConfig = ImportConfig(id: int, name: string, importType: string, isActive: bool)

  datatype ScraperConfig = ScraperConfig(id: int, name: string, url: string, isActive: bool)

  /**
   * One upload-history entry; `uploadDate` is the entry's time as `new Date(upload_date).getTime()`
   * reads it (milliseconds).
   */
  datatype ImportHistory = ImportHistory(
    id: int,
    uploadType: string,
    fileName: Option<string>,
    status: string,
    recordsProcessed: int,
    recordsFailed: int,
    errorMessage: Option<string>,
    uploadDate: int)

  /** The fields of the server's answer to an upload or an import that the store reads. */
  datatype UploadResult = UploadResult(uploadId: int, status: string, recordsProcessed: int, recordsFailed: int)

  datatype ImportState = ImportState(
    importConfigs: seq<ImportConfig>,
    scraperConfigs: seq<ScraperConfig>,
    importHistory: seq<ImportHistory>,
    loading: bool,
    error: Option<string>)

  const InitialState := ImportState([], [], [], false, None)

  /** The entry an upload or import adds; `now` is the client clock at that moment. */
  function NewEntry(result: UploadResult, fileName: string, now: int): (h: ImportHistory)
    ensures h.id == result.uploadId && h.status == result.status
    ensures h.recordsProcessed == result.recordsProcessed && h.recordsFailed == result.recordsFailed
    ensures h.uploadType == "FILE" && h.fileName == Some(fileName)
    ensures h.errorMessage == None && h.uploadDate == now
  {
    ImportHistory(result.uploadId, "FILE", Some(fileName), result.status,
                  result.recordsProcessed, result.recordsFailed, None, now)
  }

  /** `[newHistory, ...state.importHistory]`: one entry in front, the previous ones unchanged behind it. */
  function Prepend(history: seq<ImportHistory>, entry: ImportHistory): (r: seq<ImportHistory>)
    ensures |r| == |history| + 1 && r[0] == entry && r[1..] == history
  {
    [entry] + history
  }

  /** Newest first: no entry is older than one after it. */
  predicate SortedNewestFirst(s: seq<ImportHistory>) {
    forall i, j :: 0 <= i < j < |s| ==> s[i].uploadDate >= s[j].uploadDate
  }

  /**
   * `importHistory.sort((a, b) => date(b) - date(a))`, in place: afterwards the array is
   * newest first and holds the same entries.
   */
  method SortNewestFirst(a: array<ImportHistory>)
    modifies a
    ensures SortedNewestFirst(a[..])
    ensures multiset(a[..]) == multiset(old(a[..]))
  {
    var i := 0;
    while i < a.Length
      invariant 0 <= i <= a.Length
      invariant SortedNewestFirst(a[..i])
      invariant multiset(a[..]) == multiset(old(a[..]))
    {
      InsertNewestFirst(a, i);
      i := i + 1;
    }
    assert a[..a.Length] == a[..];
  }

  /** One insertion step: the entry at `i` moves left past every older entry of the sorted prefix. */
  method InsertNewestFirst(a: array<ImportHistory>, i: nat)
    requires i < a.Length && SortedNewestFirst(a[..i])
    modifies a
    ensures SortedNewestFirst(a[..i + 1])
    ensures multiset(a[..]) == multiset(old(a[..]))
  {
    var j := i;
    while j > 0 && a[j - 1].uploadDate < a[j].uploadDate
      invariant 0 <= j <= i
      invariant forall k, l :: 0 <= k < l <= i && k != j && l != j ==> a[k].uploadDate >= a[l].uploadDate
      invariant forall l :: j < l <= i ==> a[j].uploadDate > a[l].uploadDate
      invariant multiset(a[..]) == multiset(old(a[..]))
    {
      SwapAdjacent(a, j - 1);
      j := j - 1;
    }
  }

  /** Exchanges two neighbouring entries; the array keeps the same entries. */
  method SwapAdjacent(a: array<ImportHistory>, k: nat)
    requires k + 1 < a.Length
    modifies a
    ensures a[..] == old(a[..])[k := old(a[k + 1])][k + 1 := old(a[k])]
    ensures multiset(a[..]) == multiset(old(a[..]))
  {
    a[k], a[k + 1] := a[k + 1], a[k];
  }

  /** `update(state => ({ ...state, loading: true, error: null }))`. */
  function Begin(s: ImportState): (r: ImportState)
    ensures r.loading && r.error == None
    ensures r.importConfigs == s.importConfigs && r.scraperConfigs == s.scraperConfigs && r.importHistory == s.importHistory
  {
    s.(loading := true, error := None)
  }

  /** `update(state => ({ ...state, error, loading: false }))`. */
  function Fail(s: ImportState, error: string): (r: ImportState)
    ensures !r.loading && r.error == Some(error)
    ensures r.importConfigs == s.importConfigs && r.scraperConfigs == s.scraperConfigs && r.importHistory == s.importHistory
  {
    s.(loading := false, error := Some(error))
  }

  class ImportStore {
    var state: ImportState

    constructor ()
      ensures state == InitialState
    {
      state := InitialState;
    }

    /**
     * `downloadFile(id, fileName)`: `loading` is never touched; a failure is stored and rethrown.
     * The blob and the download link are not modelled.
     */
    method DownloadFile(outcome: Outcome<()>) returns (r: Result<(), Thrown>)
      modifies this
      ensures outcome.Delivered? ==> r.Ok? && state == old(state)
      ensures outcome.Failed? ==> (r == Err(RethrownValue(outcome.failure, "Failed to download file", true)) &&
        state == old(state).(error := Some(FailureText(outcome.failure, "Failed to download file", true))))
    {
      match outcome
      case Delivered(_) => r := Ok(());
      case Failed(f) =>
        state := state.(error := Some(FailureText(f, "Failed to download file", true)));
        r := Err(RethrownValue(f, "Failed to download file", true));
    }

    /** `uploadFile(file)`: a success puts one entry in front of the history and returns the server's result. */
    method UploadFile(fileName: string, now: int, outcome: Outcome<UploadResult>) returns (r: Result<UploadResult, Thrown>)
      modifies this
      ensures outcome.Delivered? ==> (r == Ok(outcome.body) &&
        state == Begin(old(state)).(importHistory := Prepend(old(state.importHistory), NewEntry(outcome.body, fileName, now)),
                                    loading := false))
      ensures outcome.Failed? ==> (r == Err(RethrownValue(outcome.failure, "Failed to upload file", true)) &&
        state == Fail(Begin(old(state)), FailureText(outcome.failure, "Failed to upload file", true)))
    {
      state := Begin(state);
      match outcome
      case Delivered(result) =>
        state := state.(importHistory := Prepend(state.importHistory, NewEntry(result, fileName, now)), loading := false);
        r := Ok(result);
      case Failed(f) =>
        state := Fail(state, FailureText(f, "Failed to upload file", true));
        r := Err(RethrownValue(f, "Failed to upload file", true));
    }

    /** `importProducts(file, columnMapping)`: the same history update as an upload. */
    method ImportProducts(fileName: string, now: int, outcome: Outcome<UploadResult>) returns (r: Result<UploadResult, Thrown>)
      modifies this
      ensures outcome.Delivered? ==> (r == Ok(outcome.body) &&
        state == Begin(old(state)).(importHistory := Prepend(old(state.importHistory), NewEntry(outcome.body, fileName, now)),
                                    loading := false))
      ensures outcome.Failed? ==> (r == Err(RethrownValue(outcome.failure, "Failed to import products", true)) &&
        state == Fail(Begin(old(state)), FailureText(outcome.failure, "Failed to import products", true)))
    {
      state := Begin(state);
      match outcome
      case Delivered(result) =>
        state := state.(importHistory := Prepend(state.importHistory, NewEntry(result, fileName, now)), loading := false);
        r := Ok(result);
      case Failed(f) =>
        state := Fail(state, FailureText(f, "Failed to import products", true));
        r := Err(RethrownValue(f, "Failed to import products", true));
    }

    /** `fetchImportConfigs()`. */
    method FetchImportConfigs(outcome: Outcome<seq<ImportConfig>>)
      modifies this
      ensures outcome.Delivered? ==> state == Begin(old(state)).(importConfigs := outcome.body, loading := false)
      ensures outcome.Failed? ==>
        state == Fail(Begin(old(state)), FailureText(outcome.failure, "Failed to fetch import configurations", true))
    {
      state := Begin(state);
      match outcome
      case Delivered(configs) => state := state.(importConfigs := configs, loading := false);
      case Failed(f) => state := Fail(state, FailureText(f, "Failed to fetch import configurations", true));
    }

    /** `fetchScraperConfigs()`. */
    method FetchScraperConfigs(outcome: Outcome<seq<ScraperConfig>>)
      modifies this
      ensures outcome.Delivered? ==> state == Begin(old(state)).(scraperConfigs := outcome.body, loading := false)
      ensures outcome.Failed? ==>
        state == Fail(Begin(old(state)), FailureText(outcome.failure, "Failed to fetch scraper configurations", true))
    {
      state := Begin(state);
      match outcome
      case Delivered(configs) => state := state.(scraperConfigs := configs, loading := false);
      case Failed(f) => state := Fail(state, FailureText(f, "Failed to fetch scraper configurations", true));
    }

    /** `fetchImportHistory()`: the fetched entries are stored newest first. */
    method FetchImportHistory(outcome: Outcome<seq<ImportHistory>>)
      modifies this
      ensures outcome.Delivered? ==> (SortedNewestFirst(state.importHistory) &&
        multiset(state.importHistory) == multiset(outcome.body) &&
        state == Begin(old(state)).(importHistory := state.importHistory, loading := false))
      ensures outcome.Failed? ==>
        state == Fail(Begin(old(state)), FailureText(outcome.failure, "Failed to fetch import history", true))
    {
      state := Begin(state);
      match outcome
      case Delivered(body) =>
        var a := new ImportHistory[|body|](i requires 0 <= i < |body| => body[i]);
        assert a[..] == body;
        SortNewestFirst(a);
        state := state.(importHistory := a[..], loading := false);
      case Failed(f) => state := Fail(state, FailureText(f, "Failed to fetch import history", true));
    }

    /** `reset() { set(initialState) }`. */
    method Reset()
      modifies this
      ensures state == InitialState
    {
      state := InitialState;
    }
  }
}
