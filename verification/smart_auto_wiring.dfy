/**
  The smart-auto flow put together with the rest of the extension: the
  style table it reads and the background it sends its request to.
 */
module SmartAutoWiring {
  import opened Results
  import opened Constants
  import opened SmartAuto
  import Background
  import Base

  /** The extension's style table has the shape the choice relies on. */
  lemma ReplyStylesTable()
    ensures StyleTable(ReplyStyles)
  {
    UnlistedIds();
    StyleLabelsIdeographic();
    StyleNamesDistinct();
  }

  /**
    The background has no handler for `ANALYZE_POST`: the request gets no
    answer, so smart auto always stops with the generic failure message.
   */
  lemma SmartAutoUnanswered(postText: string, stored: Option<string>, keys: Background.ApiKeys,
                            provider: (Base.ModelConfig, Base.ReplyRequest) -> Background.ProviderOutcome)
    requires postText != ""
    ensures Background.Dispatch(Background.Message(None, Some("ANALYZE_POST"), None), stored, keys, provider)
            == Background.NoAnswer
    ensures SmartAutoPlan(ReplyStyles, postText, None) == Failure(AnalysisFailedMessage)
  {
    Background.AnalyzePostUnanswered(None, stored, keys, provider);
  }
}
