/** `VideoDownloader` of `python_core/ingestion/downloader.py`: the download
    history, the reuse of files already in the workspace for a known id, the
    resolution gate, the single retry after a rate limit, and the paths of
    the result. yt-dlp's answers are parameters. */
module Downloading {
  import opened Wrappers
  import PyText
  import PyPath

  /** The `downloader` section of the configuration; `minResolution` is
      `int(min_resolution)`. */
  datatype DownloaderConfig = DownloaderConfig(
    minResolution: int, videoFormat: string, audioFormat: string,
    separateAudio: bool, checkDuplicates: bool)

  // ---------------------------------------------------------------------
  // history
  // ---------------------------------------------------------------------

  predicate NoDuplicates(s: seq<string>)
  {
    forall i, j :: 0 <= i < j < |s| ==> s[i] != s[j]
  }

  /** `_is_duplicate`: false when deduplication is off or the file cannot be read. */
  predicate Duplicate(check: bool, readable: bool, ids: seq<string>, id: string)
  {
    check && readable && id in ids
  }

  /** The history after `_add_to_history`: a read or write failure is logged
      and leaves the file as it was. */
  function Recorded(check: bool, readable: bool, writable: bool, ids: seq<string>, id: string): seq<string>
  {
    if check && readable && writable && id !in ids then ids + [id] else ids
  }

  /** The JSON list of processed ids, and whether it can be read and written. */
  class HistoryFile {
    var ids: seq<string>
    const readable: bool
    const writable: bool

    /** `_ensure_history_file`: a missing file is created holding `[]`. */
    constructor (present: bool, ids0: seq<string>, readable0: bool, writable0: bool)
      ensures ids == (if present then ids0 else [])
      ensures readable == (!present || readable0) && writable == writable0
    {
      ids := if present then ids0 else [];
      readable := !present || readable0;
      writable := writable0;
    }

    method IsDuplicate(check: bool, id: string) returns (dup: bool)
      ensures dup == Duplicate(check, readable, ids, id)
    {
      if !check {
        return false;
      }
      if !readable {
        return false;
      }
      return id in ids;
    }

    method Add(check: bool, id: string)
      modifies this
      ensures ids == Recorded(check, readable, writable, old(ids), id)
    {
      if !check {
        return;
      }
      if !readable {
        return;
      }
      if id !in ids {
        if writable {
          ids := ids + [id];
        }
      }
    }
  }

  /** Adding keeps the history free of duplicates and never drops an id. */
  lemma RecordedKeepsDistinct(check: bool, readable: bool, writable: bool, ids: seq<string>, id: string)
    requires NoDuplicates(ids)
    ensures var r := Recorded(check, readable, writable, ids, id);
      NoDuplicates(r) && forall x :: x in ids ==> x in r
  {
  }

  /** With deduplication on and the file usable, an id just added is a
      duplicate, and adding it again changes nothing; with deduplication off
      nothing is ever a duplicate and nothing is added. */
  lemma AddThenDuplicate(check: bool, readable: bool, writable: bool, ids: seq<string>, id: string)
    ensures check && readable && writable ==>
      Duplicate(check, readable, Recorded(check, readable, writable, ids, id), id)
    ensures Recorded(check, readable, writable, Recorded(check, readable, writable, ids, id), id)
            == Recorded(check, readable, writable, ids, id)
    ensures !check ==> !Duplicate(check, readable, ids, id) && Recorded(check, readable, writable, ids, id) == ids
  {
  }

  // ---------------------------------------------------------------------
  // files already in the workspace
  // ---------------------------------------------------------------------

  datatype Kind = VideoFile | AudioFile

  /** A workspace name carries `[id]` and the suffix of its kind; a name with
      the video suffix is never taken as audio. */
  predicate IsKind(cfg: DownloaderConfig, id: string, name: string, kind: Kind)
  {
    PyText.Contains(name, "[" + id + "]")
    && match kind
       case VideoFile => PyPath.Suffix(name) == "." + cfg.videoFormat
       case AudioFile => PyPath.Suffix(name) != "." + cfg.videoFormat && PyPath.Suffix(name) == "." + cfg.audioFormat
  }

  function KindTest(cfg: DownloaderConfig, id: string, kind: Kind): string -> bool
  {
    name => IsKind(cfg, id, name, kind)
  }

  /** The path of the last of the first `n` listed names that pass `test`. */
  function LastMatch(ws: string, listing: seq<string>, test: string -> bool, n: nat): Option<string>
    requires n <= |listing|
  {
    if n == 0 then None
    else if test(listing[n - 1]) then Some(PyPath.Child(ws, listing[n - 1]))
    else LastMatch(ws, listing, test, n - 1)
  }

  /** The path of the last of the first `n` listed names of that kind. */
  function LastFile(cfg: DownloaderConfig, ws: string, listing: seq<string>, id: string, kind: Kind, n: nat)
    : Option<string>
    requires n <= |listing|
  {
    LastMatch(ws, listing, KindTest(cfg, id, kind), n)
  }

  /** The scan of `workspace.iterdir()` for a duplicate id. */
  method FindExisting(cfg: DownloaderConfig, ws: string, listing: seq<string>, id: string)
    returns (foundVideo: Option<string>, foundAudio: Option<string>)
    ensures foundVideo == LastFile(cfg, ws, listing, id, VideoFile, |listing|)
    ensures foundAudio == LastFile(cfg, ws, listing, id, AudioFile, |listing|)
  {
    foundVideo, foundAudio := None, None;
    for i := 0 to |listing|
      invariant foundVideo == LastFile(cfg, ws, listing, id, VideoFile, i)
      invariant foundAudio == LastFile(cfg, ws, listing, id, AudioFile, i)
    {
      var name := listing[i];
      if PyText.Contains(name, "[" + id + "]") {
        if PyPath.Suffix(name) == "." + cfg.videoFormat {
          foundVideo := Some(PyPath.Child(ws, name));
        } else if PyPath.Suffix(name) == "." + cfg.audioFormat {
          foundAudio := Some(PyPath.Child(ws, name));
        }
      }
    }
  }

  /** Later matches win: a matching name with no matching name after it is
      the one found. */
  lemma {:induction false} LaterMatchWins(ws: string, listing: seq<string>, test: string -> bool, n: nat, k: nat)
    requires k < n <= |listing| && test(listing[k])
    requires forall j :: k < j < n ==> !test(listing[j])
    ensures LastMatch(ws, listing, test, n) == Some(PyPath.Child(ws, listing[k]))
    decreases n
  {
    if k < n - 1 {
      LaterMatchWins(ws, listing, test, n - 1, k);
    }
  }

  /** Nothing is found exactly when no listed name matches. */
  lemma {:induction false} NothingFound(ws: string, listing: seq<string>, test: string -> bool, n: nat)
    requires n <= |listing|
    ensures LastMatch(ws, listing, test, n).None? <==> forall j :: 0 <= j < n ==> !test(listing[j])
    decreases n
  {
    if n > 0 {
      NothingFound(ws, listing, test, n - 1);
    }
  }

  // ---------------------------------------------------------------------
  // the download itself
  // ---------------------------------------------------------------------

  /** What `extract_info(url, download=False)` reports. */
  datatype Info = Info(id: string, title: string, height: Option<int>)

  /** One `extract_info(url, download=True)`: the name `prepare_filename`
      then gives (`None` when that step raises), a `DownloadError` with its
      message, or another exception. */
  datatype Attempt = Fetched(baseFilename: Option<string>) | DownloadError(message: string) | Crashed

  const RateLimited: string := "HTTP Error 429"

  /** The prepared file name, if any, and the attempts made, each recorded
      by whether subtitles were requested. */
  datatype Retrieval = Retrieval(base: Option<string>, attempts: seq<bool>)

  function RetrieveSpec(fetch: bool -> Attempt): Retrieval
  {
    match fetch(true)
    case Fetched(b) => Retrieval(b, [true])
    case Crashed => Retrieval(None, [true])
    case DownloadError(msg) =>
      if PyText.Contains(msg, RateLimited) then
        match fetch(false)
        case Fetched(b) => Retrieval(b, [true, false])
        case DownloadError(_) => Retrieval(None, [true, false])
        case Crashed => Retrieval(None, [true, false])
      else Retrieval(None, [true])
  }

  /** The download and its retry; `fetch(subtitles)` runs yt-dlp with
      subtitle writing on or off. */
  method Retrieve(fetch: bool -> Attempt) returns (base: Option<string>, attempts: seq<bool>)
    ensures Retrieval(base, attempts) == RetrieveSpec(fetch)
  {
    attempts := [true];
    var first := fetch(true);
    if first.Fetched? {
      return first.baseFilename, attempts;
    }
    if first.DownloadError? && PyText.Contains(first.message, RateLimited) {
      attempts := attempts + [false];
      var retry := fetch(false);
      if retry.Fetched? {
        return retry.baseFilename, attempts;
      }
      return None, attempts;
    }
    return None, attempts;
  }

  /** One attempt with subtitles, and a second one without them exactly when
      the first failed with a rate-limit download error. */
  lemma RetryOnce(fetch: bool -> Attempt)
    ensures var r := RetrieveSpec(fetch);
      1 <= |r.attempts| <= 2 && r.attempts[0]
      && (|r.attempts| == 2 <==> fetch(true).DownloadError? && PyText.Contains(fetch(true).message, RateLimited))
      && (|r.attempts| == 2 ==> !r.attempts[1])
      && (r.base.Some? ==> (if |r.attempts| == 1 then fetch(true) else fetch(false)) == Fetched(r.base))
  {
  }

  /** A known, non-zero height below the minimum is rejected; an unknown
      height is not. */
  predicate BelowMinimum(height: Option<int>, minResolution: int)
  {
    height.Some? && height.value != 0 && height.value < minResolution
  }

  datatype DownloadResult = DownloadResult(
    id: string, title: string, videoPath: string, metadataPath: string, audioPath: Option<string>)

  /** The result for files already in the workspace. */
  function ExistingResult(info: Info, video: string, audio: Option<string>): DownloadResult
  {
    DownloadResult(info.id, info.title, video, PyPath.WithSuffix(video, ".info.json"), audio)
  }

  /** The result for a fresh download: the prepared name with its suffix
      swapped. */
  function FreshResult(cfg: DownloaderConfig, info: Info, base: string): DownloadResult
  {
    DownloadResult(info.id, info.title, PyPath.WithSuffix(base, "." + cfg.videoFormat),
                   PyPath.WithSuffix(base, ".info.json"),
                   if cfg.separateAudio then Some(PyPath.WithSuffix(base, "." + cfg.audioFormat)) else None)
  }

  /** The result, the download attempts and the history afterwards. */
  datatype Outcome = Outcome(result: Option<DownloadResult>, attempts: seq<bool>, history: seq<string>)

  /** What `download` does; `info` is the dry run's answer (`None` when it
      raised), `listing` the workspace's names. */
  function DownloadSpec(cfg: DownloaderConfig, ws: string, readable: bool, writable: bool, ids: seq<string>,
                        info: Option<Info>, listing: seq<string>, fetch: bool -> Attempt): Outcome
  {
    if info.None? then Outcome(None, [], ids)
    else
      var inf := info.value;
      var video := LastFile(cfg, ws, listing, inf.id, VideoFile, |listing|);
      if Duplicate(cfg.checkDuplicates, readable, ids, inf.id) && video.Some? then
        Outcome(Some(ExistingResult(inf, video.value, LastFile(cfg, ws, listing, inf.id, AudioFile, |listing|))),
                [], ids)
      else if BelowMinimum(inf.height, cfg.minResolution) then Outcome(None, [], ids)
      else
        var r := RetrieveSpec(fetch);
        if r.base.None? then Outcome(None, r.attempts, ids)
        else Outcome(Some(FreshResult(cfg, inf, r.base.value)), r.attempts,
                     Recorded(cfg.checkDuplicates, readable, writable, ids, inf.id))
  }

  class VideoDownloader {
    const cfg: DownloaderConfig
    /** `paths.workspace_dir`. */
    const workspace: string
    const history: HistoryFile

    constructor (cfg: DownloaderConfig, workspace: string, history: HistoryFile)
      ensures this.cfg == cfg && this.workspace == workspace && this.history == history
    {
      this.cfg := cfg;
      this.workspace := workspace;
      this.history := history;
    }

    method Download(info: Option<Info>, listing: seq<string>, fetch: bool -> Attempt)
      returns (result: Option<DownloadResult>, attempts: seq<bool>)
      modifies history
      ensures Outcome(result, attempts, history.ids)
              == DownloadSpec(cfg, workspace, history.readable, history.writable, old(history.ids), info, listing, fetch)
    {
      attempts := [];
      if info.None? {
        return None, attempts;
      }
      var inf := info.value;
      var dup := history.IsDuplicate(cfg.checkDuplicates, inf.id);
      if dup {
        var foundVideo, foundAudio := FindExisting(cfg, workspace, listing, inf.id);
        if foundVideo.Some? {
          return Some(ExistingResult(inf, foundVideo.value, foundAudio)), attempts;
        }
      }
      if BelowMinimum(inf.height, cfg.minResolution) {
        return None, attempts;
      }
      var base;
      base, attempts := Retrieve(fetch);
      if base.None? {
        return None, attempts;
      }
      result := Some(FreshResult(cfg, inf, base.value));
      history.Add(cfg.checkDuplicates, inf.id);
    }
  }

  /** What `download` promises: the history changes only after a fresh
      download succeeded, and then only by that id; a duplicate with its
      video in the workspace is returned without downloading; a low
      resolution stops before any download; a failed dry run gives nothing. */
  lemma DownloadOutcomes(cfg: DownloaderConfig, ws: string, readable: bool, writable: bool, ids: seq<string>,
                         info: Option<Info>, listing: seq<string>, fetch: bool -> Attempt)
    ensures var o := DownloadSpec(cfg, ws, readable, writable, ids, info, listing, fetch);
      (info.None? ==> o == Outcome(None, [], ids))
      && (o.history != ids ==> info.Some? && o.result.Some? && o.attempts != [] && o.history == ids + [info.value.id])
      && (o.result.Some? ==> o.result.value.id == info.value.id)
      && ((info.Some? && Duplicate(cfg.checkDuplicates, readable, ids, info.value.id)
           && LastFile(cfg, ws, listing, info.value.id, VideoFile, |listing|).Some?) ==>
            o.attempts == [] && o.result.Some?
            && o.result.value.metadataPath == PyPath.WithSuffix(o.result.value.videoPath, ".info.json"))
      && ((info.Some? && !Duplicate(cfg.checkDuplicates, readable, ids, info.value.id)
           && BelowMinimum(info.value.height, cfg.minResolution)) ==> o == Outcome(None, [], ids))
      && (o.result.Some? && o.attempts != [] ==>
            (o.result.value.audioPath.Some? <==> cfg.separateAudio))
  {
  }

  /** The low-resolution test: a fresh 480p video against a 720p minimum
      is skipped before it is downloaded. */
  lemma QualitySkip(cfg: DownloaderConfig, ws: string, listing: seq<string>, fetch: bool -> Attempt,
                    id: string, title: string)
    requires cfg.minResolution == 720
    ensures DownloadSpec(cfg, ws, true, true, [], Some(Info(id, title, Some(480))), listing, fetch)
            == Outcome(None, [], [])
  {
  }
}

/** `VideoDownloader` of `src/ingestion/downloader.py`: the same history, a
    known id is rejected at once, and there is no retry. */
module LegacyDownloading {
  import opened Wrappers
  import D = Downloading

  /** The result, whether the download was attempted, and the history. */
  datatype Outcome = Outcome(result: Option<D.DownloadResult>, downloaded: bool, history: seq<string>)

  /** What `download` does; `attempt` is the one download, which prepares
      the file name inside the same `try`. */
  function DownloadSpec(cfg: D.DownloaderConfig, readable: bool, writable: bool, ids: seq<string>,
                        info: Option<D.Info>, attempt: D.Attempt): Outcome
  {
    if info.None? then Outcome(None, false, ids)
    else
      var inf := info.value;
      if D.Duplicate(cfg.checkDuplicates, readable, ids, inf.id) then Outcome(None, false, ids)
      else if D.BelowMinimum(inf.height, cfg.minResolution) then Outcome(None, false, ids)
      else if !attempt.Fetched? || attempt.baseFilename.None? then Outcome(None, true, ids)
      else Outcome(Some(D.FreshResult(cfg, inf, attempt.baseFilename.value)), true,
                   D.Recorded(cfg.checkDuplicates, readable, writable, ids, inf.id))
  }

  class VideoDownloader {
    const cfg: D.DownloaderConfig
    const history: D.HistoryFile

    constructor (cfg: D.DownloaderConfig, history: D.HistoryFile)
      ensures this.cfg == cfg && this.history == history
    {
      this.cfg := cfg;
      this.history := history;
    }

    method Download(info: Option<D.Info>, attempt: D.Attempt)
      returns (result: Option<D.DownloadResult>, downloaded: bool)
      modifies history
      ensures Outcome(result, downloaded, history.ids)
              == DownloadSpec(cfg, history.readable, history.writable, old(history.ids), info, attempt)
    {
      downloaded := false;
      if info.None? {
        return None, downloaded;
      }
      var inf := info.value;
      var dup := history.IsDuplicate(cfg.checkDuplicates, inf.id);
      if dup {
        return None, downloaded;
      }
      if D.BelowMinimum(inf.height, cfg.minResolution) {
        return None, downloaded;
      }
      downloaded := true;
      if !attempt.Fetched? || attempt.baseFilename.None? {
        return None, downloaded;
      }
      result := Some(D.FreshResult(cfg, inf, attempt.baseFilename.value));
      history.Add(cfg.checkDuplicates, inf.id);
    }
  }

  /** A known id gives nothing and downloads nothing; the history grows only
      after a successful download, by that id. */
  lemma DuplicateRejected(cfg: D.DownloaderConfig, readable: bool, writable: bool, ids: seq<string>,
                          info: Option<D.Info>, attempt: D.Attempt)
    ensures var o := DownloadSpec(cfg, readable, writable, ids, info, attempt);
      (info.Some? && D.Duplicate(cfg.checkDuplicates, readable, ids, info.value.id) ==> o == Outcome(None, false, ids))
      && (o.history != ids ==> o.result.Some? && o.downloaded && o.history == ids + [info.value.id])
      && (o.result.Some? ==> o.downloaded && attempt.Fetched?)
  {
  }
}
