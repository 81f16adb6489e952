/** `PipelineManager` of `python_core/pipeline.py`: the transcript text of a
    time range, the mode dispatch with the workspace cleanup in `finally`, the
    cleanup rule itself, and the viral and story runners with every library
    call taken as a parameter. */
module Pipeline {
  import opened Wrappers
  import opened Models
  import PyText
  import PyPath
  import Matcher
  import StoryBuilding
  import Transcription

  // ---------------------------------------------------------------------
  // get_text_for_range
  // ---------------------------------------------------------------------

  function Max(a: real, b: real): real { if a >= b then a else b }

  function Min(a: real, b: real): real { if a <= b then a else b }

  /** The strict overlap test of `get_text_for_range`. */
  predicate Overlaps(seg: Segment, start: real, end: real)
  {
    Max(start, seg.start) < Min(end, seg.end)
  }

  /** The texts of the segments overlapping [start, end], in segment order. */
  function RangeTexts(segs: seq<Segment>, start: real, end: real): seq<string>
  {
    if |segs| == 0 then []
    else
      var last := segs[|segs| - 1];
      RangeTexts(segs[..|segs| - 1], start, end) + (if Overlaps(last, start, end) then [last.text] else [])
  }

  function TextForRange(segs: seq<Segment>, start: real, end: real): string
  {
    PyText.Join(" ", RangeTexts(segs, start, end))
  }

  method GetTextForRange(transcript: TranscriptionResult, start: real, end: real) returns (r: string)
    ensures r == TextForRange(transcript.segments, start, end)
  {
    var segs := transcript.segments;
    var text: seq<string> := [];
    for i := 0 to |segs|
      invariant text == RangeTexts(segs[..i], start, end)
    {
      var seg := segs[i];
      assert segs[..i + 1][..i] == segs[..i];
      if Max(start, seg.start) < Min(end, seg.end) {
        text := text + [seg.text];
      }
    }
    assert segs[..|segs|] == segs;
    r := PyText.Join(" ", text);
  }

  /** Strict overlap means both intervals are non-empty and each starts
      before the other ends; segments that merely touch the range are out. */
  lemma OverlapIff(seg: Segment, start: real, end: real)
    ensures Overlaps(seg, start, end)
      <==> start < end && seg.start < seg.end && start < seg.end && seg.start < end
  {
  }

  /** The selection distributes over concatenation: order is kept and each
      segment is judged on its own. */
  lemma {:induction false} RangeTextsConcat(a: seq<Segment>, b: seq<Segment>, start: real, end: real)
    ensures RangeTexts(a + b, start, end) == RangeTexts(a, start, end) + RangeTexts(b, start, end)
    decreases |b|
  {
    if |b| > 0 {
      var b' := b[..|b| - 1];
      var last := b[|b| - 1];
      var x := if Overlaps(last, start, end) then [last.text] else [];
      assert (a + b)[..|a + b| - 1] == a + b';
      assert (a + b)[|a + b| - 1] == last;
      assert RangeTexts(a + b, start, end) == RangeTexts(a + b', start, end) + x;
      RangeTextsConcat(a, b', start, end);
      assert RangeTexts(b, start, end) == RangeTexts(b', start, end) + x;
    } else {
      assert a + b == a;
    }
  }

  /** The texts selected from a list of segments. */
  function OverlapSet(segs: seq<Segment>, start: real, end: real): set<string>
  {
    set i | 0 <= i < |segs| && Overlaps(segs[i], start, end) :: segs[i].text
  }

  /** A text is selected exactly when some overlapping segment carries it,
      and at most one text is selected per segment. */
  lemma {:induction false} RangeTextsMembers(segs: seq<Segment>, start: real, end: real)
    ensures |RangeTexts(segs, start, end)| <= |segs|
    ensures forall t :: t in RangeTexts(segs, start, end) <==> t in OverlapSet(segs, start, end)
    decreases |segs|
  {
    if |segs| > 0 {
      var init := segs[..|segs| - 1];
      RangeTextsMembers(init, start, end);
      assert forall i :: 0 <= i < |init| ==> init[i] == segs[i];
      assert OverlapSet(segs, start, end)
        == OverlapSet(init, start, end)
           + (if Overlaps(segs[|segs| - 1], start, end) then {segs[|segs| - 1].text} else {});
    }
  }

  /** No overlapping segment gives the empty string. */
  lemma {:induction false} NoOverlapEmpty(segs: seq<Segment>, start: real, end: real)
    requires forall i :: 0 <= i < |segs| ==> !Overlaps(segs[i], start, end)
    ensures RangeTexts(segs, start, end) == []
    ensures TextForRange(segs, start, end) == ""
    decreases |segs|
  {
    if |segs| > 0 {
      NoOverlapEmpty(segs[..|segs| - 1], start, end);
    }
  }

  /** Three back-to-back segments and the middle one's range: its
      neighbours only touch the range, so only its text is returned. */
  lemma ThreeSegments(a: string, b: string, c: string)
    ensures TextForRange([Segment(0.0, 5.0, a, "", [], 0.0, 0.0), Segment(5.0, 10.0, b, "", [], 0.0, 0.0),
                          Segment(10.0, 15.0, c, "", [], 0.0, 0.0)], 5.0, 10.0) == b
  {
    var s := [Segment(0.0, 5.0, a, "", [], 0.0, 0.0), Segment(5.0, 10.0, b, "", [], 0.0, 0.0),
              Segment(10.0, 15.0, c, "", [], 0.0, 0.0)];
    assert s[..2][..1] == [s[0]];
    assert RangeTexts(s[..1], 5.0, 10.0) == [];
    assert RangeTexts(s[..2], 5.0, 10.0) == [b];
  }

  // ---------------------------------------------------------------------
  // cleanup
  // ---------------------------------------------------------------------

  const CleanupSuffixes: seq<string> := [".mp4", ".wav", ".jpg", ".png", ".json"]

  /** The download history sits in the workspace and survives cleanup. */
  const HistoryName: string := "download_history.json"

  /** Whether `cleanup` tries to delete the workspace entry `name`. */
  predicate Deletable(name: string, isFile: bool)
  {
    isFile && PyPath.Suffix(name) in CleanupSuffixes && name != HistoryName
  }

  /** The workspace directory: each entry's name and whether it is a
      regular file. */
  class Workspace {
    var entries: map<string, bool>

    constructor (entries0: map<string, bool>)
      ensures entries == entries0
    {
      entries := entries0;
    }

    /** `f.unlink()`; it raises for a missing entry and for the names in
        `refused` (a permission error, a file in use). */
    method Unlink(name: string, refused: set<string>) returns (ok: bool)
      modifies this
      ensures ok == (name in old(entries) && name !in refused)
      ensures entries == if ok then old(entries) - {name} else old(entries)
    {
      ok := name in entries && name !in refused;
      if ok {
        entries := entries - {name};
      }
    }
  }

  /** The workspace after `cleanup` has walked the first `n` names of the
      listing `glob("*")` returned. */
  function CleanupSpec(entries: map<string, bool>, listing: seq<string>, refused: set<string>, n: nat)
    : map<string, bool>
    requires n <= |listing|
  {
    if n == 0 then entries
    else CleanupStep(CleanupSpec(entries, listing, refused, n - 1), listing[n - 1], refused)
  }

  /** One name of the walk: a deletable file goes unless its delete fails. */
  function CleanupStep(m: map<string, bool>, name: string, refused: set<string>): map<string, bool>
  {
    if Deletable(name, name in m && m[name]) && name !in refused then m - {name} else m
  }

  method CleanupOne(ws: Workspace, name: string, refused: set<string>)
    modifies ws
    ensures ws.entries == CleanupStep(old(ws.entries), name, refused)
  {
    var isFile := name in ws.entries && ws.entries[name];
    if isFile && PyPath.Suffix(name) in CleanupSuffixes {
      if name == HistoryName {
        assert !Deletable(name, isFile);
        return;
      }
      assert Deletable(name, isFile);
      var ok := ws.Unlink(name, refused);
    } else {
      assert !Deletable(name, isFile);
    }
  }

  /** `cleanup`: a failed delete is logged and the walk goes on. */
  method Cleanup(ws: Workspace, listing: seq<string>, refused: set<string>)
    modifies ws
    ensures ws.entries == CleanupSpec(old(ws.entries), listing, refused, |listing|)
  {
    for i := 0 to |listing|
      invariant ws.entries == CleanupSpec(old(ws.entries), listing, refused, i)
    {
      CleanupOne(ws, listing[i], refused);
    }
  }

  /** Entry `k` is gone after the walk exactly when it was listed, is a
      deletable file and its delete did not fail; if it stays, it is unchanged. */
  lemma {:induction false} CleanupKey(entries: map<string, bool>, listing: seq<string>, refused: set<string>,
                                      n: nat, k: string)
    requires n <= |listing|
    ensures k in CleanupSpec(entries, listing, refused, n) <==>
      k in entries && !(k in listing[..n] && Deletable(k, entries[k]) && k !in refused)
    ensures k in CleanupSpec(entries, listing, refused, n) ==> CleanupSpec(entries, listing, refused, n)[k] == entries[k]
    decreases n
  {
    if n > 0 {
      CleanupKey(entries, listing, refused, n - 1, k);
      var m := CleanupSpec(entries, listing, refused, n - 1);
      var name := listing[n - 1];
      assert CleanupSpec(entries, listing, refused, n) == CleanupStep(m, name, refused);
      assert listing[..n] == listing[..n - 1] + [name];
      assert k in listing[..n] <==> k in listing[..n - 1] || k == name;
      if k != name {
        assert k in CleanupStep(m, name, refused) <==> k in m;
      }
    }
  }

  lemma CleanupExact(entries: map<string, bool>, listing: seq<string>, refused: set<string>, n: nat)
    requires n <= |listing|
    ensures forall k :: k in CleanupSpec(entries, listing, refused, n) <==>
      k in entries && !(k in listing[..n] && Deletable(k, entries[k]) && k !in refused)
    ensures forall k :: k in CleanupSpec(entries, listing, refused, n) ==>
      CleanupSpec(entries, listing, refused, n)[k] == entries[k]
  {
    forall k {
      CleanupKey(entries, listing, refused, n, k);
    }
  }

  /** With a listing of the whole directory, cleanup deletes exactly the
      regular files with a media or JSON suffix other than the history,
      except those whose delete failed. */
  lemma CleanupDeletes(entries: map<string, bool>, listing: seq<string>, refused: set<string>)
    requires forall k :: k in entries ==> k in listing
    ensures forall k :: k in CleanupSpec(entries, listing, refused, |listing|) <==>
      k in entries && (!Deletable(k, entries[k]) || k in refused)
  {
    CleanupExact(entries, listing, refused, |listing|);
    assert listing[..|listing|] == listing;
  }

  /** The download history is never deleted. */
  lemma HistorySurvives(entries: map<string, bool>, listing: seq<string>, refused: set<string>)
    requires HistoryName in entries
    ensures HistoryName in CleanupSpec(entries, listing, refused, |listing|)
  {
    CleanupExact(entries, listing, refused, |listing|);
  }

  // ---------------------------------------------------------------------
  // run
  // ---------------------------------------------------------------------

  /** A mode runner invoked by `run`, with its arguments. */
  datatype Call =
    | StoryMode(audioPath: Option<string>, upload: bool, platforms: Option<seq<string>>)
    | ViralMode(url: string, upload: bool, platforms: Option<seq<string>>)

  /** The runner `run` hands over to; `None` when viral mode has no url. */
  function Dispatch(url: Option<string>, upload: bool, platforms: Option<seq<string>>, mode: string,
                    audioPath: Option<string>): Option<Call>
  {
    if mode == "story" then Some(StoryMode(audioPath, upload, platforms))
    else if !PyText.Truthy(url) then None
    else Some(ViralMode(url.value, upload, platforms))
  }

  function AsSeq(c: Option<Call>): seq<Call>
  {
    if c.Some? then [c.value] else []
  }

  class PipelineManager {
    /** `cfg.intelligence.focus_topic`. */
    var focusTopic: Option<string>
    const keepTemp: bool
    const workspace: Workspace
    /** The mode runners invoked so far. */
    var calls: seq<Call>
    /** How many times the workspace was cleaned. */
    var cleanups: nat

    constructor (topic: Option<string>, keepTemp: bool, workspace: Workspace)
      ensures focusTopic == topic && this.keepTemp == keepTemp && this.workspace == workspace
      ensures calls == [] && cleanups == 0
    {
      focusTopic := topic;
      this.keepTemp := keepTemp;
      this.workspace := workspace;
      calls := [];
      cleanups := 0;
    }

    /** `run`. `modeRaises` says whether the runner it dispatches to raises;
        the `except` logs and re-raises, and `finally` cleans up on every
        path unless temporaries are kept. `listing` is what `glob("*")`
        returns during cleanup and `refused` the names whose delete fails. */
    method Run(url: Option<string>, topic: Option<string>, upload: bool, platforms: Option<seq<string>>,
               mode: string, audioPath: Option<string>, modeRaises: bool,
               listing: seq<string>, refused: set<string>)
      returns (raised: bool)
      modifies this, workspace
      ensures focusTopic == if PyText.Truthy(topic) then topic else old(focusTopic)
      ensures calls == old(calls) + AsSeq(Dispatch(url, upload, platforms, mode, audioPath))
      ensures raised == (Dispatch(url, upload, platforms, mode, audioPath).Some? && modeRaises)
      ensures cleanups == old(cleanups) + (if keepTemp then 0 else 1)
      ensures workspace.entries
              == if keepTemp then old(workspace.entries)
                 else CleanupSpec(old(workspace.entries), listing, refused, |listing|)
    {
      if PyText.Truthy(topic) {
        focusTopic := topic;
      }
      raised := false;
      if mode == "story" {
        calls := calls + [StoryMode(audioPath, upload, platforms)];
        raised := modeRaises;
      } else if !PyText.Truthy(url) {
        // "URL is required for viral mode."; the return still runs `finally`
      } else {
        calls := calls + [ViralMode(url.value, upload, platforms)];
        raised := modeRaises;
      }
      if !keepTemp {
        Cleanup(workspace, listing, refused);
        cleanups := cleanups + 1;
      }
    }
  }

  /** Exactly one of: story mode (whatever the url), viral mode with a url,
      or an early return without any runner. */
  lemma DispatchCases(url: Option<string>, upload: bool, platforms: Option<seq<string>>, mode: string,
                      audioPath: Option<string>)
    ensures var d := Dispatch(url, upload, platforms, mode, audioPath);
      (d.Some? && d.value.StoryMode? <==> mode == "story")
      && (d.Some? && d.value.ViralMode? <==> mode != "story" && PyText.Truthy(url))
      && (d.None? <==> mode != "story" && !PyText.Truthy(url))
      && (d.Some? && d.value.ViralMode? ==> d.value.url == url.value)
      && (d.Some? ==> d.value.upload == upload && d.value.platforms == platforms)
  {
  }

  /** The routing exercised by the story-mode tests: a url in viral mode
      reaches the viral runner, and story mode passes the audio path with
      upload off and no platforms. */
  lemma RoutingExamples(url: string, audio: string)
    requires url != ""
    ensures Dispatch(Some(url), false, None, "viral", None) == Some(ViralMode(url, false, None))
    ensures Dispatch(None, false, None, "story", Some(audio)) == Some(StoryMode(Some(audio), false, None))
  {
    assert "viral"[0] != "story"[0];
  }

  // ---------------------------------------------------------------------
  // _run_viral_mode
  // ---------------------------------------------------------------------

  /** The downloader's result dictionary. */
  datatype Download = Download(videoPath: string, audioPath: Option<string>, id: string)

  /** The libraries the viral flow calls, as functions of their arguments:
      download of a url; the transcriber's settings, GPU probe, workspace,
      transcript cache files and surroundings; curation; cropping of (video
      path, clips, video id); the vector store's answer to a text query;
      metadata of (clip, final path, thumbnail path). `window` is the
      matcher's history window. */
  datatype Services = Services(
    download: string -> Option<Download>,
    transcription: Transcription.TranscriptionConfig,
    cudaAvailable: bool,
    workspace: string,
    transcriptCache: map<string, Transcription.CacheFile>,
    transcriber: Transcription.Environment,
    curate: TranscriptionResult -> CurationResult,
    crop: (string, seq<ViralClip>, string) -> seq<ClipCropData>,
    store: string -> Matcher.QueryResult,
    package: (ViralClip, string, string) -> VideoPackage,
    window: int)

  /** One clip of the editing loop: the render plan, the output paths, the
      metadata package and the platforms uploaded to, in call order. */
  datatype ClipJob = ClipJob(plan: RenderPlan, finalPath: string, thumbPath: string, metaPath: string,
                             pkg: VideoPackage, uploads: seq<string>)

  /** How `_run_viral_mode` ends. `TranscriptionRaised` is the `TypeError`
      that `transcribe` raises for a download without an audio path and no
      cached transcript. `Processed` carries the clips handled and whether
      the loop raised an IndexError because the cropper returned more
      results than there are clips. */
  datatype ViralOutcome =
    | DownloadFailed
    | TranscriptionRaised
    | TranscriptionFailed
    | NoClips
    | Processed(jobs: seq<ClipJob>, overran: bool)

  /** `platforms or pkg.platforms`, then YouTube and TikTok in that order. */
  function UploadTargets(upload: bool, platforms: Option<seq<string>>, pkgPlatforms: seq<string>): seq<string>
  {
    if !upload then []
    else
      var target := if platforms.Some? && |platforms.value| > 0 then platforms.value else pkgPlatforms;
      (if "youtube" in target then ["youtube"] else []) + (if "tiktok" in target then ["tiktok"] else [])
  }

  /** Uploads happen only when asked for, only to the two known platforms,
      and only to platforms in the chosen list. */
  lemma UploadTargetsWithin(upload: bool, platforms: Option<seq<string>>, pkgPlatforms: seq<string>)
    ensures var u := UploadTargets(upload, platforms, pkgPlatforms);
      var target := if platforms.Some? && |platforms.value| > 0 then platforms.value else pkgPlatforms;
      (!upload ==> u == [])
      && |u| <= 2
      && (forall p :: p in u <==> upload && p in target && (p == "youtube" || p == "tiktok"))
  {
  }

  /** `self.output_dir / video_id / f"clip_{i}"`. */
  function ClipDir(outputDir: string, videoId: string, i: nat): string
  {
    PyPath.Child(PyPath.Child(outputDir, videoId), "clip_" + PyText.NatToString(i))
  }

  /** The clip's b-roll: its whole span, when the matcher found footage. */
  function ClipBRolls(clip: ViralClip, found: Option<string>): seq<BRollSegment>
  {
    if PyText.Truthy(found) then [BRollSegment(clip.startTime, clip.endTime, found.value)] else []
  }

  function JobFor(env: Services, outputDir: string, dl: Download, clip: ViralClip, res: ClipCropData, i: nat,
                  found: Option<string>, upload: bool, platforms: Option<seq<string>>): ClipJob
  {
    var dir := ClipDir(outputDir, dl.id, i);
    var finalPath := PyPath.Child(dir, "final.mp4");
    var thumbPath := PyPath.Child(dir, "thumbnail.jpg");
    var pkg := env.package(clip, finalPath, thumbPath);
    ClipJob(RenderPlan(dl.videoPath, dl.audioPath, [res], ClipBRolls(clip, found), PyPath.Child(dir, "clean.mp4")),
            finalPath, thumbPath, PyPath.Child(dir, "metadata.json"), pkg,
            UploadTargets(upload, platforms, pkg.platforms))
  }

  /** The clips handled so far and the matcher's state. */
  datatype Editing = Editing(jobs: seq<ClipJob>, matcher: Matcher.State)

  /** Clip `i` with the matcher in state `m`: the matcher is queried with
      the clip's transcript text. */
  function ClipResult(env: Services, outputDir: string, dl: Download, t: TranscriptionResult,
                      clip: ViralClip, res: ClipCropData, i: nat, m: Matcher.State,
                      upload: bool, platforms: Option<seq<string>>): (ClipJob, Matcher.State)
  {
    var text := TextForRange(t.segments, clip.startTime, clip.endTime);
    var (found, m') := Matcher.FindMatchStep(m, env.store(text));
    (JobFor(env, outputDir, dl, clip, res, i, found, upload, platforms), m')
  }

  /** The type of the editing loop's body: a clip, its crop result, its
      index and the matcher's state give the job and the next state. */
  type ClipStep = (ViralClip, ClipCropData, nat, Matcher.State) -> (ClipJob, Matcher.State)

  /** The loop body of `_run_viral_mode` for these services and download. */
  function ViralStep(env: Services, outputDir: string, dl: Download, t: TranscriptionResult,
                     upload: bool, platforms: Option<seq<string>>): ClipStep
  {
    (clip: ViralClip, res: ClipCropData, i: nat, m: Matcher.State) => ClipResult(env, outputDir, dl, t, clip, res, i, m, upload, platforms)
  }

  /** A loop of `step` over the first `n` crop results. */
  function EditFold(step: ClipStep, clips: seq<ViralClip>, crops: seq<ClipCropData>, m0: Matcher.State, n: nat): Editing
    requires n <= |clips| && n <= |crops|
  {
    if n == 0 then Editing([], m0)
    else
      var e := EditFold(step, clips, crops, m0, n - 1);
      var (job, m) := step(clips[n - 1], crops[n - 1], n - 1, e.matcher);
      Editing(e.jobs + [job], m)
  }

  /** The editing loop over the first `n` crop results. */
  function EditLoop(env: Services, outputDir: string, dl: Download, t: TranscriptionResult,
                    clips: seq<ViralClip>, crops: seq<ClipCropData>, m0: Matcher.State, n: nat,
                    upload: bool, platforms: Option<seq<string>>): Editing
    requires n <= |clips| && n <= |crops|
  {
    EditFold(ViralStep(env, outputDir, dl, t, upload, platforms), clips, crops, m0, n)
  }

  /** The transcriber `_run_viral_mode` builds, asked for the download's
      audio path and id. */
  function TranscribeDownload(env: Services, dl: Download): Transcription.Transcribed
  {
    Transcription.TranscribeSpec(env.workspace, Transcription.Device(env.transcription, env.cudaAvailable),
                                 env.transcriptCache, dl.audioPath, dl.id, env.transcriber)
  }

  /** What `_run_viral_mode` does with the services' answers. */
  function ViralSpec(url: string, env: Services, outputDir: string, upload: bool,
                     platforms: Option<seq<string>>): ViralOutcome
  {
    var dl := env.download(url);
    if dl.None? then DownloadFailed
    else
      var tr := TranscribeDownload(env, dl.value);
      if tr.raised then TranscriptionRaised
      else if tr.result.None? then TranscriptionFailed
      else
        var t := tr.result;
        var clips := env.curate(t.value).clips;
        if |clips| == 0 then NoClips
        else
          var crops := env.crop(dl.value.videoPath, clips, dl.value.id);
          var n := if |crops| <= |clips| then |crops| else |clips|;
          Processed(EditLoop(env, outputDir, dl.value, t.value, clips, crops, Matcher.InitialState(env.window),
                             n, upload, platforms).jobs,
                    |crops| > |clips|)
  }

  /** The upload decisions of the editing loop. */
  method ChooseUploads(upload: bool, platforms: Option<seq<string>>, pkgPlatforms: seq<string>)
    returns (uploads: seq<string>)
    ensures uploads == UploadTargets(upload, platforms, pkgPlatforms)
  {
    uploads := [];
    if upload {
      var targetPlatforms := if platforms.Some? && |platforms.value| > 0 then platforms.value else pkgPlatforms;
      if "youtube" in targetPlatforms {
        uploads := uploads + ["youtube"];
      }
      if "tiktok" in targetPlatforms {
        uploads := uploads + ["tiktok"];
      }
    }
  }

  /** The body of the editing loop for clip `i`. */
  method EditClip(env: Services, outputDir: string, dl: Download, t: TranscriptionResult,
                  clip: ViralClip, res: ClipCropData, i: nat, matcher: Matcher.VisualMatcher,
                  upload: bool, platforms: Option<seq<string>>)
    returns (job: ClipJob)
    requires matcher.Valid()
    modifies matcher
    ensures matcher.Valid()
    ensures (job, matcher.Model()) == ClipResult(env, outputDir, dl, t, clip, res, i, old(matcher.Model()), upload, platforms)
  {
    var clipText := GetTextForRange(t, clip.startTime, clip.endTime);
    var bRollPath := matcher.FindMatch(env.store(clipText));
    var bRolls: seq<BRollSegment> := [];
    if bRollPath.Some? && bRollPath.value != "" {
      bRolls := bRolls + [BRollSegment(clip.startTime, clip.endTime, bRollPath.value)];
    }
    assert bRolls == ClipBRolls(clip, bRollPath);
    var clipDir := ClipDir(outputDir, dl.id, i);
    var cleanPath := PyPath.Child(clipDir, "clean.mp4");
    var finalPath := PyPath.Child(clipDir, "final.mp4");
    var thumbPath := PyPath.Child(clipDir, "thumbnail.jpg");
    var metaPath := PyPath.Child(clipDir, "metadata.json");
    var plan := RenderPlan(dl.videoPath, dl.audioPath, [res], bRolls, cleanPath);
    var pkg := env.package(clip, finalPath, thumbPath);
    var uploads := ChooseUploads(upload, platforms, pkg.platforms);
    job := ClipJob(plan, finalPath, thumbPath, metaPath, pkg, uploads);
    assert job == JobFor(env, outputDir, dl, clip, res, i, bRollPath, upload, platforms);
  }

  /** The editing loop `for i, res in enumerate(crop_results)`; `overran`
      when `clips[i]` raised. */
  method EditAll(env: Services, outputDir: string, dl: Download, t: TranscriptionResult,
                 clips: seq<ViralClip>, crops: seq<ClipCropData>, matcher: Matcher.VisualMatcher,
                 upload: bool, platforms: Option<seq<string>>)
    returns (jobs: seq<ClipJob>, overran: bool)
    requires matcher.Valid()
    modifies matcher
    ensures matcher.Valid()
    ensures var n := if |crops| <= |clips| then |crops| else |clips|;
      Editing(jobs, matcher.Model()) == EditLoop(env, outputDir, dl, t, clips, crops, old(matcher.Model()), n, upload, platforms)
      && overran == (|crops| > |clips|)
  {
    ghost var m0 := matcher.Model();
    jobs := [];
    var i := 0;
    while i < |crops|
      invariant i <= |crops| && i <= |clips|
      invariant matcher.Valid()
      invariant Editing(jobs, matcher.Model()) == EditLoop(env, outputDir, dl, t, clips, crops, m0, i, upload, platforms)
    {
      if i >= |clips| {
        return jobs, true;
      }
      var job := EditClip(env, outputDir, dl, t, clips[i], crops[i], i, matcher, upload, platforms);
      jobs := jobs + [job];
      i := i + 1;
    }
    return jobs, false;
  }

  /** `_run_viral_mode`. */
  method RunViralMode(url: string, env: Services, outputDir: string, upload: bool, platforms: Option<seq<string>>)
    returns (outcome: ViralOutcome)
    ensures outcome == ViralSpec(url, env, outputDir, upload, platforms)
  {
    var dlRes := env.download(url);
    if dlRes.None? {
      return DownloadFailed;
    }
    var dl := dlRes.value;
    var transcriber := new Transcription.AudioTranscriber(env.transcription, env.cudaAvailable, env.workspace,
                                                         env.transcriptCache);
    var transcript, raised := transcriber.Transcribe(dl.audioPath, dl.id, env.transcriber);
    if raised {
      return TranscriptionRaised;
    }
    if transcript.None? {
      return TranscriptionFailed;
    }
    var clips := env.curate(transcript.value).clips;
    if |clips| == 0 {
      return NoClips;
    }
    var matcher := new Matcher.VisualMatcher(env.window);
    var cropResults := env.crop(dl.videoPath, clips, dl.id);
    var jobs, overran := EditAll(env, outputDir, dl, transcript.value, clips, cropResults, matcher, upload, platforms);
    return Processed(jobs, overran);
  }

  /** Clip `i`'s job renders crop result `i` of the downloaded video and
      audio into `clip_{i}/clean.mp4`, with at most one b-roll, spanning the
      whole clip. */
  predicate JobFits(job: ClipJob, outputDir: string, dl: Download, clip: ViralClip, res: ClipCropData, i: nat)
  {
    var p := job.plan;
    p.sourceVideoPath == dl.videoPath && p.sourceAudioPath == dl.audioPath
    && p.clipCropData == [res]
    && p.outputPath == PyPath.Child(ClipDir(outputDir, dl.id, i), "clean.mp4")
    && |p.bRollSegments| <= 1
    && (forall b :: b in p.bRollSegments ==> b.start == clip.startTime && b.end == clip.endTime)
  }

  lemma ClipResultFits(env: Services, outputDir: string, dl: Download, t: TranscriptionResult,
                       clip: ViralClip, res: ClipCropData, i: nat, m: Matcher.State,
                       upload: bool, platforms: Option<seq<string>>)
    requires Matcher.Consistent(m)
    ensures var (job, m') := ClipResult(env, outputDir, dl, t, clip, res, i, m, upload, platforms);
      JobFits(job, outputDir, dl, clip, res, i) && Matcher.Consistent(m')
  {
    var text := TextForRange(t.segments, clip.startTime, clip.endTime);
    Matcher.FindMatchOutcome(m, env.store(text));
  }

  /** A loop whose step keeps the matcher consistent and makes a job that
      fits its clip keeps the matcher consistent and makes one fitting job
      per clip, in order. */
  lemma {:induction false} EditFoldShape(step: ClipStep, fits: (ClipJob, ViralClip, ClipCropData, nat) -> bool,
                                         clips: seq<ViralClip>, crops: seq<ClipCropData>, m0: Matcher.State, n: nat)
    requires n <= |clips| && n <= |crops| && Matcher.Consistent(m0)
    requires forall c: ViralClip, r: ClipCropData, i: nat, m: Matcher.State | Matcher.Consistent(m) ::
      Matcher.Consistent(step(c, r, i, m).1) && fits(step(c, r, i, m).0, c, r, i)
    ensures var e := EditFold(step, clips, crops, m0, n);
      |e.jobs| == n && Matcher.Consistent(e.matcher)
      && forall i :: 0 <= i < n ==> fits(e.jobs[i], clips[i], crops[i], i)
    decreases n
  {
    if n > 0 {
      var e := EditFold(step, clips, crops, m0, n - 1);
      EditFoldShape(step, fits, clips, crops, m0, n - 1);
      var e' := EditFold(step, clips, crops, m0, n);
      assert e'.jobs == e.jobs + [step(clips[n - 1], crops[n - 1], n - 1, e.matcher).0];
      forall i | 0 <= i < n
        ensures fits(e'.jobs[i], clips[i], crops[i], i)
      {
        if i < n - 1 {
          assert e'.jobs[i] == e.jobs[i];
        }
      }
    }
  }

  /** Every clip of the editing loop gets a fitting job, one per clip in
      order, and the matcher's window stays consistent. */
  lemma EditLoopShape(env: Services, outputDir: string, dl: Download, t: TranscriptionResult,
                      clips: seq<ViralClip>, crops: seq<ClipCropData>, m0: Matcher.State, n: nat,
                      upload: bool, platforms: Option<seq<string>>)
    requires n <= |clips| && n <= |crops| && Matcher.Consistent(m0)
    ensures var e := EditLoop(env, outputDir, dl, t, clips, crops, m0, n, upload, platforms);
      |e.jobs| == n && Matcher.Consistent(e.matcher)
      && forall i :: 0 <= i < n ==> JobFits(e.jobs[i], outputDir, dl, clips[i], crops[i], i)
  {
    var step := ViralStep(env, outputDir, dl, t, upload, platforms);
    var fits := (job: ClipJob, c: ViralClip, r: ClipCropData, i: nat) => JobFits(job, outputDir, dl, c, r, i);
    forall c: ViralClip, r: ClipCropData, i: nat, m: Matcher.State | Matcher.Consistent(m)
      ensures Matcher.Consistent(step(c, r, i, m).1) && fits(step(c, r, i, m).0, c, r, i)
    {
      ClipResultFits(env, outputDir, dl, t, c, r, i, m, upload, platforms);
    }
    EditFoldShape(step, fits, clips, crops, m0, n);
  }

  /** The viral flow stops at the first empty stage, and raises when the
      download has no audio path and no transcript is cached for its id;
      otherwise it handles one clip per crop result, and raises only when the
      cropper returns more results than there are clips. */
  lemma ViralStages(url: string, env: Services, outputDir: string, upload: bool, platforms: Option<seq<string>>)
    ensures var o := ViralSpec(url, env, outputDir, upload, platforms);
      var dl := env.download(url);
      (o == DownloadFailed <==> dl.None?)
      && (o == TranscriptionRaised <==>
            dl.Some? && dl.value.audioPath.None?
            && !Transcription.CacheLoadable(env.workspace, env.transcriptCache, dl.value.id))
      && (o == TranscriptionFailed <==>
            dl.Some? && !TranscribeDownload(env, dl.value).raised && TranscribeDownload(env, dl.value).result.None?)
      && (o.Processed? ==>
            var t := TranscribeDownload(env, dl.value).result.value;
            var clips := env.curate(t).clips;
            var crops := env.crop(dl.value.videoPath, clips, dl.value.id);
            |clips| > 0
            && (o.overran <==> |crops| > |clips|)
            && |o.jobs| == (if |crops| <= |clips| then |crops| else |clips|))
  {
    var dl := env.download(url);
    if dl.Some? {
      var t := TranscribeDownload(env, dl.value).result;
      if !TranscribeDownload(env, dl.value).raised && t.Some? {
        var clips := env.curate(t.value).clips;
        var crops := env.crop(dl.value.videoPath, clips, dl.value.id);
        var n := if |crops| <= |clips| then |crops| else |clips|;
        EditLoopShape(env, outputDir, dl.value, t.value, clips, crops, Matcher.InitialState(env.window), n,
                      upload, platforms);
      }
    }
  }

  // ---------------------------------------------------------------------
  // _run_story_mode
  // ---------------------------------------------------------------------

  /** How `_run_story_mode` ends: without an audio path, with a failed plan,
      or with the plan handed to the story renderer and the subtitle pass
      from the clean to the final path. */
  datatype StoryOutcome =
    | NoAudioPath
    | PlanFailed
    | StoryRendered(plan: RenderPlan, transcript: TranscriptionResult, cleanPath: string, finalPath: string)

  /** `self.output_dir / f"story_{stem}"`. */
  function StoryDir(outputDir: string, audioPath: string): string
  {
    PyPath.Child(outputDir, "story_" + PyPath.Stem(audioPath))
  }

  /** What `_run_story_mode` does; `audioExists`, `transcribe` and `store`
      are the builder's oracles, `window` the fresh matcher's window. */
  function StorySpec(audioPath: Option<string>, outputDir: string, audioExists: bool,
                     transcribe: (string, string) -> Option<TranscriptionResult>,
                     window: int, store: string -> Matcher.QueryResult): StoryOutcome
  {
    if !PyText.Truthy(audioPath) then NoAudioPath
    else
      var dir := StoryDir(outputDir, audioPath.value);
      var cleanPath := PyPath.Child(dir, "clean.mp4");
      var b := StoryBuilding.BuildSpec(audioExists, audioPath.value, cleanPath, transcribe,
                                       Some(Matcher.InitialState(window)), store);
      if b.plan.None? || b.transcript.None? then PlanFailed
      else StoryRendered(b.plan.value, b.transcript.value, cleanPath, PyPath.Child(dir, "final.mp4"))
  }

  /** `_run_story_mode`. */
  method RunStoryMode(audioPath: Option<string>, outputDir: string, audioExists: bool,
                      transcribe: (string, string) -> Option<TranscriptionResult>,
                      window: int, store: string -> Matcher.QueryResult)
    returns (outcome: StoryOutcome)
    ensures outcome == StorySpec(audioPath, outputDir, audioExists, transcribe, window, store)
  {
    if audioPath.None? || audioPath.value == "" {
      return NoAudioPath;
    }
    var matcher := new Matcher.VisualMatcher(window);
    var outDir := StoryDir(outputDir, audioPath.value);
    var cleanPath := PyPath.Child(outDir, "clean.mp4");
    var finalPath := PyPath.Child(outDir, "final.mp4");
    var plan, transcript := StoryBuilding.BuildPlan(audioExists, audioPath.value, cleanPath, transcribe, matcher, store);
    if plan.None? || transcript.None? {
      return PlanFailed;
    }
    return StoryRendered(plan.value, transcript.value, cleanPath, finalPath);
  }

  /** Story mode renders exactly when there is an audio path, the audio
      exists, it transcribes and the transcript has segments; the plan then
      has no source video, the given audio, and the story directory's
      `clean.mp4` as output, which the subtitle pass turns into `final.mp4`. */
  lemma StoryOutcomes(audioPath: Option<string>, outputDir: string, audioExists: bool,
                      transcribe: (string, string) -> Option<TranscriptionResult>,
                      window: int, store: string -> Matcher.QueryResult)
    ensures var o := StorySpec(audioPath, outputDir, audioExists, transcribe, window, store);
      (o.NoAudioPath? <==> !PyText.Truthy(audioPath))
      && (o.StoryRendered? <==>
            PyText.Truthy(audioPath) && audioExists
            && var t := transcribe(audioPath.value, StoryBuilding.StoryVideoId(audioPath.value));
               t.Some? && |t.value.segments| > 0)
      && (o.StoryRendered? ==>
            var dir := StoryDir(outputDir, audioPath.value);
            o.plan.sourceVideoPath == "" && o.plan.sourceAudioPath == audioPath
            && o.plan.outputPath == o.cleanPath
            && o.cleanPath == PyPath.Child(dir, "clean.mp4") && o.finalPath == PyPath.Child(dir, "final.mp4"))
  {
    if PyText.Truthy(audioPath) {
      var dir := StoryDir(outputDir, audioPath.value);
      StoryBuilding.PlanShape(audioExists, audioPath.value, PyPath.Child(dir, "clean.mp4"), transcribe,
                              Some(Matcher.InitialState(window)), store);
    }
  }
}
