/** The writing assistant (src/pages/AIHelperPage/components/WritingAssistant.tsx):
    one analysis of the entered text, grammar or originality, shown as a model message. */
module WritingAssistant {
  import opened Types
  import opened Text

  const ApologyText := "Sorry, I encountered an error while analyzing the text."

  /** The prompt sent to the service; its wording is not modelled, only which
      template is used and the text it embeds. */
  datatype Prompt = GrammarPrompt(text: string) | OriginalityPrompt(text: string)

  function PromptFor(kind: AnalysisKind, text: string): (p: Prompt)
    ensures p.GrammarPrompt? <==> kind == Grammar
    ensures p.text == text
  {
    if kind == Grammar then GrammarPrompt(text) else OriginalityPrompt(text)
  }

  /** The message shown for an outcome: on success an empty model message
      carrying the analysis of the requested kind; on failure the apology with no analysis. */
  function ResultMessage(kind: AnalysisKind, outcome: AIResult): (m: MessageData)
    ensures m.role == Model && !m.isAnalyzing && m.mentorRecommendation == None
    ensures m.analysisResult.Some? <==> outcome.AIText?
    ensures m.analysisResult.Some? ==> m.analysisResult.value == Analysis(kind, outcome.text) && m.text == ""
    ensures m.analysisResult.None? ==> m.text == ApologyText
  {
    match outcome
    case AIText(resultText) => MessageData(Model, "", false, Some(Analysis(kind, resultText)), None)
    case AIError => MessageData(Model, ApologyText, false, None, None)
  }

  class WritingAssistantState {
    var text: string
    var isLoading: bool
    var analysisResult: Option<MessageData>
    /** The prompts sent to the service, in order. */
    var requests: seq<Prompt>

    constructor ()
      ensures text == "" && !isLoading && analysisResult == None && requests == []
    {
      text, isLoading, analysisResult, requests := "", false, None, [];
    }

    /** `handleAnalyze`: a blank text does nothing; otherwise the previous result
        is cleared while loading, one prompt is sent, and the result message is
        set; loading ends in both outcomes. */
    method HandleAnalyze(kind: AnalysisKind, outcome: AIResult)
      modifies this
      ensures text == old(text)
      ensures IsBlank(old(text)) ==>
                isLoading == old(isLoading) && analysisResult == old(analysisResult) && requests == old(requests)
      ensures !IsBlank(old(text)) ==>
                && !isLoading
                && requests == old(requests) + [PromptFor(kind, text)]
                && analysisResult == Some(ResultMessage(kind, outcome))
    {
      // `!text.trim()` is `IsBlank(text)` (Text.TrimEmptyIffBlank)
      if IsBlank(text) {
        return;
      }
      isLoading := true;
      analysisResult := None;
      var prompt := PromptFor(kind, text);
      requests := requests + [prompt];
      analysisResult := Some(ResultMessage(kind, outcome));
      isLoading := false;
    }
  }
}
