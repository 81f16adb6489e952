/** `ContentCurator` of `python_core/intelligence/curator.py`: the client
    choice, the `[MM:SS]` transcript text sent to the LLM and the score
    filter on its answer. The LLM call is a parameter. */
module Curation {
  import opened Wrappers
  import opened Models
  import opened Llm
  import PyText

  /** The curator, or the `ValueError` its constructor raises. */
  datatype CuratorInit = Ready(cfg: IntelligenceConfig, client: Option<Client>) | Raised(message: string)

  /** `__init__` with `_init_client`: an unknown provider raises. */
  function NewCurator(cfg: IntelligenceConfig): CuratorInit
  {
    if KnownProvider(cfg.llmProvider) then Ready(cfg, KeyedClient(cfg))
    else Raised("Unsupported LLM provider: " + cfg.llmProvider)
  }

  /** The constructor raises exactly for a provider other than the two
      known ones; otherwise it keeps the settings and the client, which is
      absent exactly when the provider's key is missing or empty. */
  lemma InitCases(cfg: IntelligenceConfig)
    ensures NewCurator(cfg).Raised? <==> !KnownProvider(cfg.llmProvider)
    ensures NewCurator(cfg).Ready? ==>
      NewCurator(cfg).cfg == cfg
      && (NewCurator(cfg).client.None? <==>
            (cfg.llmProvider == "openai" && !PyText.Truthy(cfg.openaiApiKey))
            || (cfg.llmProvider == "anthropic" && !PyText.Truthy(cfg.anthropicApiKey)))
  {
    if KnownProvider(cfg.llmProvider) {
      KeyedClientTable(cfg);
    }
  }

  // ---------------------------------------------------------------------
  // _format_transcript
  // ---------------------------------------------------------------------

  /** `int(start // 60)` and `int(start % 60)`: Python's float `//` and `%`
      floor, and the remainder lies in [0, 60). */
  function MinSec(start: real): (int, int)
  {
    var m := (start / 60.0).Floor;
    (m, (start - 60.0 * m as real).Floor)
  }

  /** The minutes and seconds split the whole seconds of `start`, with the
      seconds in [0, 60). */
  lemma MinSecSplits(start: real)
    ensures 0 <= MinSec(start).1 < 60
    ensures 60 * MinSec(start).0 + MinSec(start).1 == start.Floor
  {
    var m := (start / 60.0).Floor;
    var rest := start - 60.0 * m as real;
    assert m as real <= start / 60.0 < m as real + 1.0;
    assert 0.0 <= rest < 60.0;
    var s := rest.Floor;
    assert s as real <= rest < s as real + 1.0;
    assert (60 * m + s) as real <= start < (60 * m + s) as real + 1.0;
  }

  /** `f"[{start_m:02d}:{start_s:02d}]"`. */
  function Timestamp(start: real): string
  {
    var (m, s) := MinSec(start);
    "[" + PyText.Pad2(m) + ":" + PyText.Pad2(s) + "]"
  }

  /** Under 100 minutes the stamp is `[MM:SS]` with two digits each. */
  lemma TimestampDigits(start: real)
    requires 0.0 <= start < 6000.0
    ensures var (m, s) := MinSec(start);
      Timestamp(start) == ['[', PyText.DigitChar(m / 10), PyText.DigitChar(m % 10), ':',
                           PyText.DigitChar(s / 10), PyText.DigitChar(s % 10), ']']
  {
    var (m, s) := MinSec(start);
    MinSecSplits(start);
    assert 0 <= m < 100;
    PyText.Pad2Digits(m);
    PyText.Pad2Digits(s);
  }

  /** One line of the formatted transcript. */
  function Line(seg: Segment): string
  {
    Timestamp(seg.start) + " " + seg.speaker + ": " + seg.text
  }

  /** The lines of the first `n` segments, in order. */
  function Lines(segs: seq<Segment>, n: nat): seq<string>
    requires n <= |segs|
  {
    MapPrefix(Line, segs, n)
  }

  /** One line per segment, in segment order. */
  lemma LinesPointwise(segs: seq<Segment>, n: nat)
    requires n <= |segs|
    ensures |Lines(segs, n)| == n
    ensures forall i :: 0 <= i < n ==> Lines(segs, n)[i] == Line(segs[i])
  {
    MapPrefixPointwise(Line, segs, n);
  }

  /** `_format_transcript`. */
  method FormatTranscript(transcript: TranscriptionResult) returns (text: string)
    ensures text == PyText.Join("\n", Lines(transcript.segments, |transcript.segments|))
  {
    var segs := transcript.segments;
    var formatted: seq<string> := [];
    for i := 0 to |segs|
      invariant formatted == Lines(segs, i)
    {
      var seg := segs[i];
      var (m, s) := MinSec(seg.start);
      var timestamp := "[" + PyText.Pad2(m) + ":" + PyText.Pad2(s) + "]";
      formatted := formatted + [timestamp + " " + seg.speaker + ": " + seg.text];
      assert formatted == MapPrefix(Line, segs, i + 1);
    }
    text := PyText.Join("\n", formatted);
  }

  /** Two segments give their two lines joined by one newline. */
  lemma FormatTwo(a: Segment, b: Segment)
    ensures PyText.Join("\n", Lines([a, b], 2)) == Line(a) + "\n" + Line(b)
  {
    LinesPointwise([a, b], 2);
    assert Lines([a, b], 2) == [Line(a), Line(b)];
  }

  /** Stamps at 0 s, 5 s, 65.5 s and one hour. */
  lemma TimestampExamples()
    ensures Timestamp(0.0) == "[00:00]" && Timestamp(5.0) == "[00:05]"
    ensures Timestamp(65.5) == "[01:05]" && Timestamp(3600.0) == "[60:00]"
  {
    assert MinSec(0.0) == (0, 0);
    TimestampDigits(0.0);
    assert MinSec(5.0) == (0, 5);
    TimestampDigits(5.0);
    assert MinSec(65.5) == (1, 5);
    TimestampDigits(65.5);
    assert MinSec(3600.0) == (60, 0);
    TimestampDigits(3600.0);
  }

  // ---------------------------------------------------------------------
  // curate and _process_chunk
  // ---------------------------------------------------------------------

  /** What the user prompt is filled with. */
  datatype Prompt = Prompt(model: string, focusTopic: string, transcriptText: string)

  /** `focus_topic if focus_topic else "General Virality"`. */
  function PromptTopic(topic: Option<string>): string
  {
    if PyText.Truthy(topic) then topic.value else "General Virality"
  }

  /** The clips scoring at least `threshold`, in their order. */
  function FilterByScore(clips: seq<ViralClip>, threshold: int): (r: seq<ViralClip>)
    ensures |r| <= |clips|
    ensures forall c :: c in r <==> c in clips && c.viralityScore >= threshold
  {
    if clips == [] then []
    else
      var rest := FilterByScore(clips[1..], threshold);
      assert forall c :: c in clips <==> c == clips[0] || c in clips[1..];
      if clips[0].viralityScore >= threshold then [clips[0]] + rest else rest
  }

  /** The filter judges every clip on its own, so it keeps the order and
      distributes over concatenation. */
  lemma {:induction false} FilterConcat(a: seq<ViralClip>, b: seq<ViralClip>, threshold: int)
    ensures FilterByScore(a + b, threshold) == FilterByScore(a, threshold) + FilterByScore(b, threshold)
    decreases |a|
  {
    if a == [] {
      assert a + b == b;
    } else {
      assert (a + b)[0] == a[0];
      assert (a + b)[1..] == a[1..] + b;
      FilterConcat(a[1..], b, threshold);
    }
  }

  /** Filtering twice is filtering once. */
  lemma {:induction false} FilterIdempotent(clips: seq<ViralClip>, threshold: int)
    ensures FilterByScore(FilterByScore(clips, threshold), threshold) == FilterByScore(clips, threshold)
    decreases |clips|
  {
    if clips != [] {
      FilterIdempotent(clips[1..], threshold);
      var rest := FilterByScore(clips[1..], threshold);
      if clips[0].viralityScore >= threshold {
        assert ([clips[0]] + rest)[1..] == rest;
      }
    }
  }

  /** `_process_chunk`: the LLM's answer (`None` when the call raised)
      filtered by score; no client or a failure gives no clips. */
  function ProcessChunk(cfg: IntelligenceConfig, client: Option<Client>, text: string, topic: Option<string>,
                        llm: Prompt -> Option<seq<ViralClip>>): seq<ViralClip>
  {
    if client.None? then []
    else
      match llm(Prompt(cfg.modelName, PromptTopic(topic), text))
      case None => []
      case Some(clips) => FilterByScore(clips, cfg.viralityThreshold)
  }

  /** What `curate` returns. */
  function CurateSpec(cfg: IntelligenceConfig, client: Option<Client>, transcript: TranscriptionResult,
                      llm: Prompt -> Option<seq<ViralClip>>): CurationResult
  {
    if client.None? then CurationResult(transcript.videoId, [])
    else
      var text := PyText.Join("\n", Lines(transcript.segments, |transcript.segments|));
      CurationResult(transcript.videoId, ProcessChunk(cfg, client, text, cfg.focusTopic, llm))
  }

  /** `curate`. */
  method Curate(cfg: IntelligenceConfig, client: Option<Client>, transcript: TranscriptionResult,
                llm: Prompt -> Option<seq<ViralClip>>)
    returns (result: CurationResult)
    ensures result == CurateSpec(cfg, client, transcript, llm)
  {
    if client.None? {
      return CurationResult(transcript.videoId, []);
    }
    var fullText := FormatTranscript(transcript);
    var clips := ProcessChunk(cfg, client, fullText, cfg.focusTopic, llm);
    return CurationResult(transcript.videoId, clips);
  }

  /** The outcomes of `curate`: the video id is always kept; no client or a
      failed call gives no clips; otherwise the LLM is asked about the
      formatted transcript under the configured topic (or "General
      Virality"), and the clips kept are exactly those at or above the
      threshold. */
  lemma CurateOutcomes(cfg: IntelligenceConfig, client: Option<Client>, transcript: TranscriptionResult,
                       llm: Prompt -> Option<seq<ViralClip>>)
    ensures var r := CurateSpec(cfg, client, transcript, llm);
      var prompt := Prompt(cfg.modelName, PromptTopic(cfg.focusTopic),
                           PyText.Join("\n", Lines(transcript.segments, |transcript.segments|)));
      r.videoId == transcript.videoId
      && (client.None? || llm(prompt).None? ==> r.clips == [])
      && (client.Some? && llm(prompt).Some? ==>
            |r.clips| <= |llm(prompt).value|
            && forall c :: c in r.clips <==> c in llm(prompt).value && c.viralityScore >= cfg.viralityThreshold)
      && (prompt.focusTopic == "General Virality" || cfg.focusTopic == Some(prompt.focusTopic))
  {
  }

  /** With the threshold at 70, one clip scored 85 comes back as it is. */
  lemma CurationExample(cfg: IntelligenceConfig, client: Client, transcript: TranscriptionResult,
                        llm: Prompt -> Option<seq<ViralClip>>)
    requires cfg.viralityThreshold == 70
    requires forall p :: llm(p) == Some([ViralClip(10.0, 20.0, "Viral Moment", 85, "Funny", "Humor")])
    ensures CurateSpec(cfg, Some(client), transcript, llm).clips
            == [ViralClip(10.0, 20.0, "Viral Moment", 85, "Funny", "Humor")]
  {
    var c := ViralClip(10.0, 20.0, "Viral Moment", 85, "Funny", "Humor");
    assert [c][1..] == [];
  }
}
