/** `PipelineManager` of `src/pipeline.py`: no modes, the viral flow always
    runs, and `finally` cleans the workspace unless temporaries are kept.
    Its `get_text_for_range`, editing loop and `cleanup` are line for line
    those of the newer pipeline and are taken from there. */
module LegacyPipeline {
  import opened Wrappers
  import PyText
  import Pipeline

  class PipelineManager {
    /** `cfg.intelligence.focus_topic`. */
    var focusTopic: Option<string>
    const keepTemp: bool
    const workspace: Pipeline.Workspace
    /** How many times the workspace was cleaned. */
    var cleanups: nat

    constructor (topic: Option<string>, keepTemp: bool, workspace: Pipeline.Workspace)
      ensures focusTopic == topic && this.keepTemp == keepTemp && this.workspace == workspace
      ensures cleanups == 0
    {
      focusTopic := topic;
      this.keepTemp := keepTemp;
      this.workspace := workspace;
      cleanups := 0;
    }

    /** `run`: the url is used as given, even when empty; the flow's
        outcome includes the transcriber's `TypeError` for a missing audio
        path and the IndexError of an overrunning crop list, both of which
        propagate after `finally`. The older transcriber is taken to behave
        as the newer one. */
    method Run(url: string, topic: Option<string>, upload: bool, platforms: Option<seq<string>>,
               env: Pipeline.Services, outputDir: string, listing: seq<string>, refused: set<string>)
      returns (outcome: Pipeline.ViralOutcome)
      modifies this, workspace
      ensures focusTopic == if PyText.Truthy(topic) then topic else old(focusTopic)
      ensures outcome == Pipeline.ViralSpec(url, env, outputDir, upload, platforms)
      ensures cleanups == old(cleanups) + (if keepTemp then 0 else 1)
      ensures workspace.entries
              == if keepTemp then old(workspace.entries)
                 else Pipeline.CleanupSpec(old(workspace.entries), listing, refused, |listing|)
    {
      if PyText.Truthy(topic) {
        focusTopic := topic;
      }
      outcome := Pipeline.RunViralMode(url, env, outputDir, upload, platforms);
      if !keepTemp {
        Pipeline.Cleanup(workspace, listing, refused);
        cleanups := cleanups + 1;
      }
    }
  }
}
