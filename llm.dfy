/** The LLM client choice shared by the curator and the metadata generator:
    an OpenAI or Anthropic client is built only from a non-empty key. */
module Llm {
  import opened Wrappers
  import PyText

  /** The `intelligence` settings both components read. */
  datatype IntelligenceConfig = IntelligenceConfig(
    llmProvider: string, openaiApiKey: Option<string>, anthropicApiKey: Option<string>,
    modelName: string, viralityThreshold: int, focusTopic: Option<string>)

  /** An instructor-wrapped client and the key it was built with. */
  datatype Client = OpenAI(apiKey: string) | Anthropic(apiKey: string)

  /** Whether the provider is one of the two the code knows. */
  predicate KnownProvider(provider: string)
  {
    provider == "openai" || provider == "anthropic"
  }

  /** The two known branches of `_init_client`: the provider's key, when it
      is neither missing nor empty, gives that provider's client. */
  function KeyedClient(cfg: IntelligenceConfig): Option<Client>
    requires KnownProvider(cfg.llmProvider)
  {
    if cfg.llmProvider == "openai" then
      if PyText.Truthy(cfg.openaiApiKey) then Some(OpenAI(cfg.openaiApiKey.value)) else None
    else
      if PyText.Truthy(cfg.anthropicApiKey) then Some(Anthropic(cfg.anthropicApiKey.value)) else None
  }

  /** A client is built exactly when the provider's own key is usable; it is
      of that provider and carries that key, and the other key is ignored. */
  lemma KeyedClientTable(cfg: IntelligenceConfig)
    requires KnownProvider(cfg.llmProvider)
    ensures var c := KeyedClient(cfg);
      (cfg.llmProvider == "openai" ==>
         (c.Some? <==> PyText.Truthy(cfg.openaiApiKey))
         && (c.Some? ==> c.value == OpenAI(cfg.openaiApiKey.value)))
      && (cfg.llmProvider == "anthropic" ==>
         (c.Some? <==> PyText.Truthy(cfg.anthropicApiKey))
         && (c.Some? ==> c.value == Anthropic(cfg.anthropicApiKey.value)))
  {
  }
}
