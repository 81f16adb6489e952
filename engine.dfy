/** `AudioTranscriber` of `python_core/transcription/engine.py`: the device
    and compute-type choice, the transcript cache in the workspace, and the
    mapping of the recogniser's segments to the transcript model. The
    recogniser, the GPU probe and the clock are parameters. */
module Transcription {
  import opened Wrappers
  import opened Models
  import PyText
  import PyPath

  /** The `transcription` settings the decisions read. */
  datatype TranscriptionConfig = TranscriptionConfig(device: string, computeType: string)

  /** `_get_device`: an explicit device wins; "auto" picks CUDA when present. */
  function Device(cfg: TranscriptionConfig, cudaAvailable: bool): string
  {
    if cfg.device != "auto" then cfg.device
    else if cudaAvailable then "cuda"
    else "cpu"
  }

  /** `_get_compute_type`. */
  function ComputeType(cfg: TranscriptionConfig, device: string): string
  {
    if cfg.computeType != "auto" then
      if device == "cpu" && cfg.computeType == "float16" then "int8" else cfg.computeType
    else if device == "cuda" then "float16"
    else "int8"
  }

  /** The decision table: "auto" gives CUDA exactly when it is available and
      CPU otherwise; half precision is never used on the CPU; "auto" pairs
      CUDA with float16 and everything else with int8; other explicit
      choices pass through. */
  lemma DecisionTable(cfg: TranscriptionConfig, cudaAvailable: bool)
    ensures var d := Device(cfg, cudaAvailable);
      var c := ComputeType(cfg, d);
      (cfg.device == "auto" ==> (d == "cuda" <==> cudaAvailable) && (d == "cpu" <==> !cudaAvailable))
      && (cfg.device != "auto" ==> d == cfg.device)
      && (d == "cpu" ==> c != "float16")
      && (cfg.computeType == "auto" ==> c == (if d == "cuda" then "float16" else "int8"))
      && (cfg.computeType != "auto" && !(d == "cpu" && cfg.computeType == "float16") ==> c == cfg.computeType)
  {
  }

  /** `_get_cache_path`. */
  function CachePath(workspace: string, videoId: string): string
  {
    PyPath.Child(workspace, "transcript_" + videoId + ".json")
  }

  /** A cache file either parses into a transcript or fails to load. */
  datatype CacheFile = Loadable(result: TranscriptionResult) | Unreadable

  /** A word and a segment as the recogniser yields them; `words` is `None`
      when it gave no word timestamps. */
  datatype RawWord = RawWord(word: string, start: real, end: real, probability: real)

  datatype RawSegment = RawSegment(
    start: real, end: real, text: string, words: Option<seq<RawWord>>,
    avgLogprob: real, noSpeechProb: real)

  /** What the recogniser returns: its segments and the detected language;
      `None` when it raised. */
  datatype Recognition = Recognition(segments: seq<RawSegment>, language: string)

  function MapWord(w: RawWord): Word
  {
    Word(w.word, w.start, w.end, w.probability)
  }

  /** A recognised segment in the transcript model: stripped text, the
      placeholder speaker, and its words (none when absent or empty). */
  function MapSegment(seg: RawSegment): Segment
  {
    var words := if seg.words.Some? then seg.words.value else [];
    Segment(seg.start, seg.end, PyText.Strip(seg.text), "SPEAKER_00",
            seq(|words|, i requires 0 <= i < |words| => MapWord(words[i])),
            seg.avgLogprob, seg.noSpeechProb)
  }

  /** The inner loop over a segment's words. */
  method CollectWords(seg: RawSegment) returns (wordsList: seq<Word>)
    ensures wordsList == MapSegment(seg).words
  {
    wordsList := [];
    if seg.words.Some? && |seg.words.value| > 0 {
      var ws := seg.words.value;
      for i := 0 to |ws|
        invariant |wordsList| == i
        invariant forall j :: 0 <= j < i ==> wordsList[j] == MapWord(ws[j])
      {
        wordsList := wordsList + [Word(ws[i].word, ws[i].start, ws[i].end, ws[i].probability)];
      }
    }
  }

  /** One segment of the outer loop. */
  method ConvertSegment(seg: RawSegment) returns (mapped: Segment)
    ensures mapped == MapSegment(seg)
  {
    var wordsList := CollectWords(seg);
    mapped := Segment(seg.start, seg.end, PyText.Strip(seg.text), "SPEAKER_00",
                      wordsList, seg.avgLogprob, seg.noSpeechProb);
  }

  /** The first `n` recognised segments, mapped, in order. */
  function MapSegments(raw: seq<RawSegment>, n: nat): seq<Segment>
    requires n <= |raw|
  {
    if n == 0 then [] else MapSegments(raw, n - 1) + [MapSegment(raw[n - 1])]
  }

  /** The outer loop over the recognised segments. */
  method CollectSegments(raw: seq<RawSegment>) returns (segmentsList: seq<Segment>)
    ensures segmentsList == MapSegments(raw, |raw|)
  {
    segmentsList := [];
    for i := 0 to |raw|
      invariant segmentsList == MapSegments(raw, i)
    {
      var mapped := ConvertSegment(raw[i]);
      segmentsList := segmentsList + [mapped];
    }
  }

  /** One mapped segment per recognised segment, in the same order. */
  lemma {:induction false} MapSegmentsPointwise(raw: seq<RawSegment>, n: nat)
    requires n <= |raw|
    ensures |MapSegments(raw, n)| == n
    ensures forall j :: 0 <= j < n ==> MapSegments(raw, n)[j] == MapSegment(raw[j])
    decreases n
  {
    if n > 0 {
      MapSegmentsPointwise(raw, n - 1);
    }
  }

  /** A mapped segment keeps its times and scores, is attributed to
      SPEAKER_00, has a trimmed text taken from the original, and keeps
      every word in order. */
  lemma MappedSegment(seg: RawSegment)
    ensures var s := MapSegment(seg);
      s.start == seg.start && s.end == seg.end && s.speaker == "SPEAKER_00"
      && s.avgLogprob == seg.avgLogprob && s.noSpeechProb == seg.noSpeechProb
      && (s.text != [] ==> !PyText.IsSpace(s.text[0]) && !PyText.IsSpace(s.text[|s.text| - 1]))
      && (var i := |seg.text| - |PyText.LStrip(seg.text)|;
          i + |s.text| <= |seg.text| && s.text == seg.text[i..i + |s.text|])
      && (seg.words.None? ==> s.words == [])
      && (seg.words.Some? ==>
            |s.words| == |seg.words.value|
            && forall k :: 0 <= k < |s.words| ==>
                 s.words[k].word == seg.words.value[k].word && s.words[k].score == seg.words.value[k].probability)
  {
    PyText.StripTrims(seg.text);
    var s := MapSegment(seg);
    assert s.text == PyText.Strip(seg.text);
    if seg.words.Some? {
      assert s.words == seq(|seg.words.value|, i requires 0 <= i < |seg.words.value| => MapWord(seg.words.value[i]));
    }
  }

  /** What `transcribe` finds outside itself: whether a file exists, the
      recogniser's answer for an audio path (`None` when it raised), the
      measured processing time, and whether the cache file can be written
      (a failed write raises inside the `try` and gives `None`). */
  datatype Environment = Environment(audioExists: string -> bool, recognise: string -> Option<Recognition>,
                                     elapsed: real, cacheWritable: bool)

  /** The transcript, the cache files and whether `transcribe` raised, after
      `transcribe`. */
  datatype Transcribed = Transcribed(result: Option<TranscriptionResult>, cache: map<string, CacheFile>, raised: bool)

  /** The cache file for `videoId` is there and loads. */
  predicate CacheLoadable(workspace: string, cache: map<string, CacheFile>, videoId: string)
  {
    var path := CachePath(workspace, videoId);
    path in cache && cache[path].Loadable?
  }

  /** What `transcribe` does. Without a loadable cache, an audio path of
      `None` makes `Path(audio_path)` raise a `TypeError` before the `try`,
      so the error leaves `transcribe`. */
  function TranscribeSpec(workspace: string, device: string, cache: map<string, CacheFile>,
                          audioPath: Option<string>, videoId: string, env: Environment): Transcribed
  {
    var path := CachePath(workspace, videoId);
    if CacheLoadable(workspace, cache, videoId) then Transcribed(Some(cache[path].result), cache, false)
    else if audioPath.None? then Transcribed(None, cache, true)
    else if !env.audioExists(audioPath.value) then Transcribed(None, cache, false)
    else
      var recognise := env.recognise(audioPath.value);
      if recognise.None? then Transcribed(None, cache, false)
      else
        var raw := recognise.value.segments;
        var r := TranscriptionResult(videoId, recognise.value.language,
                                     MapSegments(raw, |raw|), env.elapsed, device);
        if !env.cacheWritable then Transcribed(None, cache, false)
        else Transcribed(Some(r), cache[path := Loadable(r)], false)
  }

  class AudioTranscriber {
    const device: string
    const computeType: string
    /** `paths.workspace_dir`. */
    const workspace: string
    /** The transcript cache files in the workspace, by path. */
    var cache: map<string, CacheFile>

    constructor (cfg: TranscriptionConfig, cudaAvailable: bool, workspace: string, cache0: map<string, CacheFile>)
      ensures device == Device(cfg, cudaAvailable) && computeType == ComputeType(cfg, device)
      ensures this.workspace == workspace && cache == cache0
    {
      device := Device(cfg, cudaAvailable);
      computeType := ComputeType(cfg, Device(cfg, cudaAvailable));
      this.workspace := workspace;
      cache := cache0;
    }

    method Transcribe(audioPath: Option<string>, videoId: string, env: Environment)
      returns (result: Option<TranscriptionResult>, raised: bool)
      modifies this
      ensures Transcribed(result, cache, raised)
              == TranscribeSpec(workspace, device, old(cache), audioPath, videoId, env)
    {
      var cachePath := CachePath(workspace, videoId);
      if cachePath in cache {
        var file := cache[cachePath];
        if file.Loadable? {
          return Some(file.result), false;
        }
        // "Failed to load cache"; fall through to transcription
      }
      if audioPath.None? {
        // `Path(None)` raises a TypeError outside the `try`
        return None, true;
      }
      if !env.audioExists(audioPath.value) {
        return None, false;
      }
      var recognise := env.recognise(audioPath.value);
      if recognise.None? {
        return None, false;
      }
      var segmentsList := CollectSegments(recognise.value.segments);
      var r := TranscriptionResult(videoId, recognise.value.language, segmentsList, env.elapsed, device);
      if !env.cacheWritable {
        return None, false;
      }
      cache := cache[cachePath := Loadable(r)];
      return Some(r), false;
    }
  }

  /** Cache precedence: a loadable cache answers without the audio or the
      recogniser, whatever the audio path, and is left as it is; a fresh
      result is cached, so asking again for the same id returns it even when
      the audio is gone or its path is `None`. With no usable cache, a `None`
      audio path raises, and missing audio or a failed recognition gives
      `None`; neither changes the cache. */
  lemma CachePrecedence(workspace: string, device: string, cache: map<string, CacheFile>,
                        audioPath: Option<string>, videoId: string, env: Environment,
                        audioLater: Option<string>, envLater: Environment)
    ensures var t := TranscribeSpec(workspace, device, cache, audioPath, videoId, env);
      var path := CachePath(workspace, videoId);
      (CacheLoadable(workspace, cache, videoId) ==> t == Transcribed(Some(cache[path].result), cache, false))
      && (t.raised <==> !CacheLoadable(workspace, cache, videoId) && audioPath.None?)
      && (t.raised ==> t.result.None? && t.cache == cache)
      && (!CacheLoadable(workspace, cache, videoId) && audioPath.Some?
          && (!env.audioExists(audioPath.value) || env.recognise(audioPath.value).None?)
          ==> t == Transcribed(None, cache, false))
      && (t.result.Some? ==>
            TranscribeSpec(workspace, device, t.cache, audioLater, videoId, envLater)
            == Transcribed(t.result, t.cache, false))
      && (t.result.Some? && !CacheLoadable(workspace, cache, videoId) ==>
            t.result.value.videoId == videoId && t.result.value.device == device
            && |t.result.value.segments| == |env.recognise(audioPath.value).value.segments|)
  {
    if audioPath.Some? && env.recognise(audioPath.value).Some? {
      var raw := env.recognise(audioPath.value).value.segments;
      MapSegmentsPointwise(raw, |raw|);
    }
  }
}
