/** The earlier AI helper page (pages/AIHelperPage.tsx): one message list, sent
    to a chat service whose reply streams in as chunks, and per-message grammar
    or originality analysis. */
module OldAIHelperPage {
  import opened Types
  import opened Text
  import Seqs

  const ConfigError := "Gemini API key is not configured. Please set the API_KEY environment variable."
  const AnalysisError := "Error performing analysis."
  const NewChatEn := "New chat started! How can I help?"
  const NewChatZh := "新的对话开始了！有什么可以帮你的吗？"
  const BannerEn := "Sorry, an error occurred while processing your request. Please try again later."
  const BannerZh := "抱歉，处理您的请求时发生错误。请稍后再试。"
  const ErrorReplyEn := "Oops, something went wrong!"
  const ErrorReplyZh := "哎呀，出错了！"

  function NewChatGreeting(lang: string): string { if lang == "zh" then NewChatZh else NewChatEn }
  function ErrorBanner(lang: string): string { if lang == "zh" then BannerZh else BannerEn }
  function ErrorReply(lang: string): string { if lang == "zh" then ErrorReplyZh else ErrorReplyEn }

  /** What the streaming call does: it fails before any stream exists, or
      delivers `chunks` and then either ends or fails. */
  datatype StreamOutcome =
    | StreamFailed
    | Streamed(chunks: seq<string>, completes: bool)

  /** A request to the service: a chat turn (the history before it and the
      message), or an analysis of one text. */
  datatype Request =
    | ChatRequest(history: seq<MessageData>, message: string)
    | AnalysisRequest(kind: AnalysisKind, text: string)

  /** The index of the first message whose text is exactly `text`, or -1. */
  function MessageIndex(messages: seq<MessageData>, text: string): (i: int)
    ensures -1 <= i < |messages|
    ensures i == -1 <==> forall j :: 0 <= j < |messages| ==> messages[j].text != text
    ensures 0 <= i ==> messages[i].text == text && forall j :: 0 <= j < i ==> messages[j].text != text
  {
    Seqs.FirstIndex(messages, (m: MessageData) => m.text == text)
  }

  /** The text of the analysis result for an outcome of the service. */
  function AnalysisText(outcome: AIResult): (t: string)
    ensures outcome.AIText? ==> t == outcome.text
    ensures outcome.AIError? ==> t == AnalysisError
  {
    match outcome
    case AIText(text) => text
    case AIError => AnalysisError
  }

  lemma ConcatStep(chunks: seq<string>, k: nat)
    requires k < |chunks|
    ensures Concat(chunks[..k + 1]) == Concat(chunks[..k]) + chunks[k]
  {
    assert chunks[..k + 1][..k] == chunks[..k];
  }

  /** The page's state. */
  class ChatState {
    const lang: string
    /** Whether a client exists, that is, the API key is set. */
    const hasClient: bool
    var messages: seq<MessageData>
    var input: string
    var isLoading: bool
    var error: string
    var requests: seq<Request>

    /** `initialGreeting` stands for the page's first greeting. */
    constructor (lang: string, hasClient: bool, initialGreeting: string)
      ensures this.lang == lang && this.hasClient == hasClient
      ensures messages == [Plain(Model, initialGreeting)] && input == "" && !isLoading && error == "" && requests == []
    {
      this.lang, this.hasClient := lang, hasClient;
      messages, input, isLoading, error, requests := [Plain(Model, initialGreeting)], "", false, "", [];
    }

    /** `handleNewChat`: one greeting, no error. */
    method HandleNewChat()
      modifies this
      ensures messages == [Plain(Model, NewChatGreeting(lang))] && error == ""
      ensures input == old(input) && isLoading == old(isLoading) && requests == old(requests)
    {
      messages := [Plain(Model, NewChatGreeting(lang))];
      error := "";
    }

    /** `handleSend`. A blank input or a pending request does nothing; without a
        client only the configuration error is set. Otherwise the user message is
        appended, the input cleared, one request sent with the earlier history,
        and the streamed chunks accumulate into one model message appended for
        them; a failure sets the banner and appends one error reply. */
    method HandleSend(outcome: StreamOutcome)
      modifies this
      ensures IsBlank(old(input)) || old(isLoading) ==>
                messages == old(messages) && input == old(input) && isLoading == old(isLoading)
                && error == old(error) && requests == old(requests)
      ensures !IsBlank(old(input)) && !old(isLoading) && !hasClient ==>
                messages == old(messages) && input == old(input) && !isLoading
                && error == ConfigError && requests == old(requests)
      ensures !IsBlank(old(input)) && !old(isLoading) && hasClient ==>
                && input == "" && !isLoading
                && requests == old(requests) + [ChatRequest(old(messages), old(input))]
                && messages == old(messages) + [Plain(User, old(input))]
                     + (if outcome.Streamed? then [Plain(Model, Concat(outcome.chunks))] else [])
                     + (if outcome.Streamed? && outcome.completes then [] else [Plain(Model, ErrorReply(lang))])
                && error == (if outcome.Streamed? && outcome.completes then "" else ErrorBanner(lang))
    {
      // `input.trim() === ''` is `IsBlank(input)` (Text.TrimEmptyIffBlank)
      if IsBlank(input) || isLoading {
        return;
      }
      if !hasClient {
        error := ConfigError;
        return;
      }
      SendTurn(outcome);
    }

    /** The part of `handleSend` past its guards: the user message is appended,
        the input cleared, one request sent with the earlier history, and the
        streamed reply or the error reply follows. */
    method SendTurn(outcome: StreamOutcome)
      modifies this
      ensures input == "" && !isLoading
      ensures requests == old(requests) + [ChatRequest(old(messages), old(input))]
      ensures messages == old(messages) + [Plain(User, old(input))]
                + (if outcome.Streamed? then [Plain(Model, Concat(outcome.chunks))] else [])
                + (if outcome.Streamed? && outcome.completes then [] else [Plain(Model, ErrorReply(lang))])
      ensures error == (if outcome.Streamed? && outcome.completes then "" else ErrorBanner(lang))
    {
      var sent := input;
      var history := messages;
      messages := messages + [Plain(User, sent)];
      input := "";
      isLoading := true;
      error := "";
      requests := requests + [ChatRequest(history, sent)];
      if outcome.Streamed? {
        StreamReply(outcome.chunks);
      }
      if !(outcome.Streamed? && outcome.completes) {
        error := ErrorBanner(lang);
        messages := messages + [Plain(Model, ErrorReply(lang))];
      }
      isLoading := false;
    }

    /** The streaming loop of `handleSend`: an empty model message is appended
        and each chunk, in order, is added to its text, so it ends holding the
        chunks joined. Nothing else changes. */
    method StreamReply(chunks: seq<string>)
      modifies this
      ensures messages == old(messages) + [Plain(Model, Concat(chunks))]
      ensures input == old(input) && isLoading == old(isLoading) && error == old(error) && requests == old(requests)
    {
      var currentText := "";
      var base := messages;
      messages := messages + [Plain(Model, "")];
      var k := 0;
      while k < |chunks|
        invariant 0 <= k <= |chunks|
        invariant currentText == Concat(chunks[..k])
        invariant messages == base + [Plain(Model, currentText)]
        invariant input == old(input) && isLoading == old(isLoading) && error == old(error) && requests == old(requests)
      {
        ConcatStep(chunks, k);
        currentText := currentText + chunks[k];
        messages := messages[|messages| - 1 := messages[|messages| - 1].(text := currentText)];
        k := k + 1;
      }
      assert chunks[..|chunks|] == chunks;
    }

    /** `handleAnalyzeRequest`. Nothing happens without a client, while loading,
        or when no message has exactly that text; otherwise only the first such
        message changes: it ends with the requested kind's result (the service's
        text, or the error placeholder) and is no longer analysing. */
    method HandleAnalyzeRequest(kind: AnalysisKind, textToAnalyze: string, outcome: AIResult)
      modifies this
      ensures input == old(input) && error == old(error) && isLoading == old(isLoading)
      ensures !hasClient || old(isLoading) || MessageIndex(old(messages), textToAnalyze) == -1 ==>
                messages == old(messages) && requests == old(requests)
      ensures hasClient && !old(isLoading) && MessageIndex(old(messages), textToAnalyze) != -1 ==>
                var i := MessageIndex(old(messages), textToAnalyze);
                && requests == old(requests) + [AnalysisRequest(kind, textToAnalyze)]
                && |messages| == |old(messages)|
                && (forall j :: 0 <= j < |messages| && j != i ==> messages[j] == old(messages)[j])
                && messages[i] == old(messages)[i].(isAnalyzing := false, analysisResult := Some(Analysis(kind, AnalysisText(outcome))))
    {
      if !hasClient || isLoading {
        return;
      }
      var messageIndex := MessageIndex(messages, textToAnalyze);
      if messageIndex == -1 {
        return;
      }
      messages := messages[messageIndex := messages[messageIndex].(isAnalyzing := true, analysisResult := None)];
      isLoading := true;
      requests := requests + [AnalysisRequest(kind, textToAnalyze)];
      var resultText := AnalysisText(outcome);
      messages := messages[messageIndex := messages[messageIndex].(isAnalyzing := false, analysisResult := Some(Analysis(kind, resultText)))];
      isLoading := false;
    }
  }
}
