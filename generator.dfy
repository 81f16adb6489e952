/** `MetadataGenerator` of `src/packaging/generator.py`: the default package,
    the LLM answer turned into a package, and the fallbacks. The LLM call is
    a parameter. */
module MetadataGeneration {
  import opened Wrappers
  import opened Models
  import opened Llm
  import PyText

  /** `_init_client`: unlike the curator, an unknown provider gives no
      client instead of raising. */
  function InitClient(cfg: IntelligenceConfig): Option<Client>
  {
    if KnownProvider(cfg.llmProvider) then KeyedClient(cfg) else None
  }

  /** A client exists exactly when the provider is known and its key is
      neither missing nor empty. */
  lemma InitClientCases(cfg: IntelligenceConfig)
    ensures InitClient(cfg).Some? <==>
      (cfg.llmProvider == "openai" && PyText.Truthy(cfg.openaiApiKey))
      || (cfg.llmProvider == "anthropic" && PyText.Truthy(cfg.anthropicApiKey))
  {
    if KnownProvider(cfg.llmProvider) {
      KeyedClientTable(cfg);
    }
  }

  /** The structured answer asked of the LLM. */
  datatype MetadataResponse = MetadataResponse(title: string, description: string, tags: seq<string>, captions: string)

  /** What the user prompt is filled with. */
  datatype MetadataPrompt = MetadataPrompt(model: string, clipTitle: string, clipReasoning: string, clipCategory: string)

  const Platforms: seq<string> := ["youtube", "tiktok"]

  /** `default_pkg`. */
  function DefaultPackage(clip: ViralClip, videoPath: string, thumbnailPath: string): VideoPackage
  {
    VideoPackage(videoPath, thumbnailPath, clip.title, "Watch this " + clip.category + " clip! #shorts",
                 ["#shorts", "#viral"], clip.reasoning, Platforms)
  }

  /** `s[:k]`: a negative `k` counts from the end, and both ends clamp. */
  function SliceTo<T>(s: seq<T>, k: int): (r: seq<T>)
    ensures |r| == if k >= 0 then (if k <= |s| then k else |s|) else (if |s| + k >= 0 then |s| + k else 0)
    ensures r == s[..|r|]
  {
    if k >= 0 then (if k <= |s| then s[..k] else s)
    else if |s| + k >= 0 then s[..|s| + k] else []
  }

  /** `generate_metadata`: `llm` is the answer to the prompt, `None` when
      the call raised. */
  function GenerateMetadata(cfg: IntelligenceConfig, client: Option<Client>, hashtagsCount: int,
                            clip: ViralClip, videoPath: string, thumbnailPath: string,
                            llm: MetadataPrompt -> Option<MetadataResponse>): VideoPackage
  {
    var fallback := DefaultPackage(clip, videoPath, thumbnailPath);
    if client.None? then fallback
    else
      match llm(MetadataPrompt(cfg.modelName, clip.title, clip.reasoning, clip.category))
      case None => fallback
      case Some(resp) =>
        VideoPackage(videoPath, thumbnailPath, resp.title, resp.description,
                     SliceTo(resp.tags, hashtagsCount), resp.captions, Platforms)
  }

  /** Every package keeps the given paths and goes to YouTube and TikTok.
      Without a client or when the call fails it is the default package,
      whose title, description, tags and captions come from the clip. An
      answer gives its title, description and captions, and its first
      `hashtagsCount` tags (all of them when there are fewer). */
  lemma GenerateOutcomes(cfg: IntelligenceConfig, client: Option<Client>, hashtagsCount: int,
                         clip: ViralClip, videoPath: string, thumbnailPath: string,
                         llm: MetadataPrompt -> Option<MetadataResponse>)
    ensures var p := GenerateMetadata(cfg, client, hashtagsCount, clip, videoPath, thumbnailPath, llm);
      var answer := llm(MetadataPrompt(cfg.modelName, clip.title, clip.reasoning, clip.category));
      p.videoPath == videoPath && p.thumbnailPath == thumbnailPath && p.platforms == ["youtube", "tiktok"]
      && (client.None? || answer.None? ==>
            p.title == clip.title && p.description == "Watch this " + clip.category + " clip! #shorts"
            && p.tags == ["#shorts", "#viral"] && p.captions == clip.reasoning)
      && (client.Some? && answer.Some? ==>
            p.title == answer.value.title && p.description == answer.value.description
            && p.captions == answer.value.captions
            && (0 <= hashtagsCount ==>
                  |p.tags| == (if hashtagsCount <= |answer.value.tags| then hashtagsCount else |answer.value.tags|)
                  && p.tags == answer.value.tags[..|p.tags|]))
  {
  }

  /** A negative count drops that many tags from the end; at most every tag
      is kept. */
  lemma SliceNegative<T>(s: seq<T>, k: int)
    requires k < 0 && -k <= |s|
    ensures SliceTo(s, k) == s[..|s| + k]
  {
  }

  /** An unknown provider never reaches the LLM: the default package comes
      back whatever the LLM would answer. */
  lemma UnknownProviderDefaults(cfg: IntelligenceConfig, hashtagsCount: int, clip: ViralClip,
                                videoPath: string, thumbnailPath: string,
                                llm: MetadataPrompt -> Option<MetadataResponse>)
    requires !KnownProvider(cfg.llmProvider)
    ensures GenerateMetadata(cfg, InitClient(cfg), hashtagsCount, clip, videoPath, thumbnailPath, llm)
            == DefaultPackage(clip, videoPath, thumbnailPath)
  {
  }
}
