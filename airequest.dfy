/**
 * How the webhook shapes its request to the AI backend selected in the
 * settings: an OpenAI request (the Responses API for `gpt-5` models, chat
 * completions otherwise) or a Gemini `generateContent` request. Only the
 * request is modelled; sending it and reading the answer are not.
 */
module AiRequest {
  import opened Options
  import opened JsString
  import opened Config

  /** The reference file as fetched: its text (for OpenAI) and its base64 encoding (for Gemini). */
  datatype FetchedFile = FetchedFile(text: string, base64: string)

  /** The output-size parameters of a chat-completion request. */
  datatype TokenLimit =
    | MaxCompletionTokens(max: Option<int>)
    | MaxTokensWithTemperature(max: Option<int>, temperature: Option<real>)

  datatype ChatMessage = ChatMessage(role: string, content: string)

  datatype GptRequest =
    | ResponsesRequest(model: string, input: string, effort: string, verbosity: string)
    | ChatRequest(model: string, messages: seq<ChatMessage>, limit: TokenLimit)

  datatype InlineData = InlineData(data: string, mimeType: string)

  datatype Part = TextPart(text: string) | FilePart(inlineData: InlineData)

  datatype Content = Content(role: string, parts: seq<Part>)

  datatype GeminiRequest = GeminiRequest(model: string, contents: seq<Content>, temperature: real, maxOutputTokens: Option<int>)

  datatype Request = Gpt(gpt: GptRequest) | Gemini(gemini: GeminiRequest)

  /** `if (settings.reference_file_url)`: a URL is configured and non-empty. */
  predicate HasReferenceUrl(cfg: Settings) {
    cfg.referenceFileUrl.Some? && cfg.referenceFileUrl.value != []
  }

  /** Models whose name contains `gpt-5` are sent to the Responses API. */
  predicate IsReasoningModel(model: string) {
    Includes(model, "gpt-5")
  }

  /** `o1` and `o3` models take `max_completion_tokens` and no temperature; the others take `max_tokens` and `temperature`. */
  function ChatTokenLimit(model: string, maxTokens: Option<int>, temperature: Option<real>): (r: TokenLimit)
    ensures r.MaxCompletionTokens? <==> StartsWith(model, "o1") || StartsWith(model, "o3")
    ensures r.max == maxTokens
    ensures r.MaxTokensWithTemperature? ==> r.temperature == temperature
  {
    if StartsWith(model, "o1") || StartsWith(model, "o3") then MaxCompletionTokens(maxTokens)
    else MaxTokensWithTemperature(maxTokens, temperature)
  }

  const FileHeading: string := "\n\n檔案內容：\n"

  /** The system context of an OpenAI request: prompt, reference text and the fetched file text, or nothing when none was fetched. */
  function SystemContent(cfg: Settings, file: Option<FetchedFile>): (r: string)
    ensures StartsWith(r, Show(cfg.systemPrompt) + "\n\n參考文字：\n" + Show(cfg.referenceText))
    ensures |r| == |Show(cfg.systemPrompt) + "\n\n參考文字：\n" + Show(cfg.referenceText)| + |FileHeading|
                   + (if HasReferenceUrl(cfg) && file.Some? then |file.value.text| else 0)
    ensures HasReferenceUrl(cfg) && file.Some? ==> EndsWith(r, FileHeading + file.value.text)
    ensures !(HasReferenceUrl(cfg) && file.Some?) ==> EndsWith(r, FileHeading)
  {
    var fileContent := if HasReferenceUrl(cfg) && file.Some? then file.value.text else "";
    var head := Show(cfg.systemPrompt) + "\n\n參考文字：\n" + Show(cfg.referenceText);
    var r := head + FileHeading + fileContent;
    assert r[..|head|] == head;
    assert r[|r| - |FileHeading + fileContent|..] == FileHeading + fileContent;
    r
  }

  /** The OpenAI request for `msg`. It carries no earlier turns and no previous response id. */
  function GptRequestFor(cfg: Settings, msg: string, file: Option<FetchedFile>): (r: GptRequest)
    ensures r.model == cfg.gptModelName
    ensures r.ResponsesRequest? <==> IsReasoningModel(cfg.gptModelName)
    ensures r.ResponsesRequest? ==> EndsWith(r.input, "\nUser: " + msg)
    ensures r.ResponsesRequest? ==> StartsWith(r.input, "System: " + SystemContent(cfg, file))
    ensures r.ResponsesRequest? ==> |r.input| == |"System: " + SystemContent(cfg, file)| + |"\nUser: " + msg|
    ensures r.ResponsesRequest? ==>
              r.effort == (if cfg.gptReasoningEffort.Some? && cfg.gptReasoningEffort.value != [] then cfg.gptReasoningEffort.value else "none")
              && r.verbosity == (if cfg.gptVerbosity.Some? && cfg.gptVerbosity.value != [] then cfg.gptVerbosity.value else "medium")
    ensures r.ChatRequest? ==> r.limit == ChatTokenLimit(cfg.gptModelName, cfg.gptMaxTokens, cfg.gptTemperature)
    ensures r.ChatRequest? ==> |r.messages| == 2 && r.messages[0] == ChatMessage("system", SystemContent(cfg, file))
                               && r.messages[1] == ChatMessage("user", msg)
  {
    var system := SystemContent(cfg, file);
    if IsReasoningModel(cfg.gptModelName) then
      var input := "System: " + system + "\nUser: " + msg;
      assert input[|input| - |"\nUser: " + msg|..] == "\nUser: " + msg;
      assert input[..|"System: " + system|] == "System: " + system;
      ResponsesRequest(cfg.gptModelName, input,
                       OrElse(cfg.gptReasoningEffort, "none"), OrElse(cfg.gptVerbosity, "medium"))
    else
      ChatRequest(cfg.gptModelName,
                  [ChatMessage("system", system), ChatMessage("user", msg)],
                  ChatTokenLimit(cfg.gptModelName, cfg.gptMaxTokens, cfg.gptTemperature))
  }

  /** The MIME type announced for the reference file: PDF exactly when the URL ends in `.pdf` (case-sensitive). */
  function MimeType(url: string): (r: string)
    ensures r == "application/pdf" <==> EndsWith(url, ".pdf")
    ensures r == "application/pdf" || r == "text/plain"
  {
    if EndsWith(url, ".pdf") then "application/pdf" else "text/plain"
  }

  /** The parts of the single user turn sent to Gemini: the system part, the file when one was fetched, the message. */
  function GeminiParts(cfg: Settings, msg: string, file: Option<FetchedFile>): (r: seq<Part>)
    ensures |r| == if HasReferenceUrl(cfg) && file.Some? then 3 else 2
    ensures r[0] == TextPart("System: " + Show(cfg.systemPrompt) + "\nReference: " + Show(cfg.referenceText))
    ensures r[|r| - 1] == TextPart("User: " + msg)
    ensures |r| == 3 ==> r[1] == FilePart(InlineData(file.value.base64, MimeType(cfg.referenceFileUrl.value)))
  {
    var system := TextPart("System: " + Show(cfg.systemPrompt) + "\nReference: " + Show(cfg.referenceText));
    var filePart := if HasReferenceUrl(cfg) && file.Some? then
      [FilePart(InlineData(file.value.base64, MimeType(cfg.referenceFileUrl.value)))] else [];
    [system] + filePart + [TextPart("User: " + msg)]
  }

  function GeminiRequestFor(cfg: Settings, msg: string, file: Option<FetchedFile>): (r: GeminiRequest)
    ensures r.model == cfg.geminiModelName && r.maxOutputTokens == cfg.geminiMaxTokens && r.temperature == 1.0
    ensures r.contents == [Content("user", GeminiParts(cfg, msg, file))]
  {
    GeminiRequest(cfg.geminiModelName, [Content("user", GeminiParts(cfg, msg, file))], 1.0, cfg.geminiMaxTokens)
  }

  /** `active_ai === 'gpt'` selects OpenAI; every other value, null included, selects Gemini. */
  function RequestFor(cfg: Settings, msg: string, file: Option<FetchedFile>): (r: Request)
    ensures r.Gpt? <==> cfg.activeAi == Some("gpt")
    ensures r.Gpt? ==> r.gpt == GptRequestFor(cfg, msg, file)
    ensures r.Gemini? ==> r.gemini == GeminiRequestFor(cfg, msg, file)
  {
    if cfg.activeAi == Some("gpt") then Gpt(GptRequestFor(cfg, msg, file))
    else Gemini(GeminiRequestFor(cfg, msg, file))
  }

  /** Whichever backend and model is chosen, the request ends with the user's message and with nothing from earlier turns. */
  lemma RequestEndsWithMessage(cfg: Settings, msg: string, file: Option<FetchedFile>)
    ensures match RequestFor(cfg, msg, file)
      case Gpt(ResponsesRequest(_, input, _, _)) => EndsWith(input, "\nUser: " + msg)
      case Gpt(ChatRequest(_, messages, _)) => messages[|messages| - 1] == ChatMessage("user", msg)
      case Gemini(g) => |g.contents| == 1 && g.contents[0].parts[|g.contents[0].parts| - 1] == TextPart("User: " + msg)
  {
  }

  /** An upper-case `.PDF` suffix is not recognised. */
  lemma UpperCasePdfIsText()
    ensures MimeType("a.PDF") == "text/plain"
  {
    assert !EndsWith("a.PDF", ".pdf") by { assert "a.PDF"[1..] != ".pdf"; }
  }
}
