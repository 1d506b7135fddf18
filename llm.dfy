/**
 * The request to the language model and the outcome of `process_with_openai`.
 * The remote call itself is a parameter: `complete` maps the request that is
 * sent to the service's answer (its text, or the message of the exception).
 */
module Llm {
  import opened Wrappers
  import opened Text
  import opened Scraper
  import opened Aggregator

  const SystemMessage: string :=
    "You extract numerical data from text and format it as JSON. Respond only with JSON."
  const Temperature: real := 0.0
  const MaxTokens: nat := 2048
  const NoDataMessage: string := "No data was successfully scraped from the provided URLs"

  /** The fixed pieces of the prompt template, around the three inserted values. */
  const PromptIntro: string :=
    "\n        Extract numerical data from the following web content for a "
  const PromptTask: string := " visualization.\n\n        TASK: "
  const SchemaExample: string :=
    "{\n            \"labels\": [\"Category1\", \"Category2\"],\n            \"values\": [10, 20],\n            \"title\": \"Chart Title\"\n        }"
  const PromptFormat: string := "\n\n        Respond ONLY with valid JSON in this format:\n        "
  const PromptContent: string := "\n\n        WEB CONTENT:\n        "
  const PromptTail: string := "\n        "

  datatype CompletionRequest = CompletionRequest(
    model: string, systemMessage: string, userMessage: string,
    temperature: real, maxTokens: nat, timeout: nat)

  datatype LlmReply = Completed(text: string) | Failed(message: string)

  /** The record `process_with_openai` returns. */
  datatype LlmResult = LlmSuccess(response: string) | LlmError(error: string)

  /**
   * The user message: the chart type, the user's task, the labels/values
   * schema example and, last, the corpus, all in fixed template text.
   */
  function FullPrompt(chartType: string, prompt: string, corpus: string): string {
    PromptIntro + chartType + PromptTask + prompt + PromptFormat + SchemaExample + PromptContent + corpus + PromptTail
  }

  /**
   * Where each inserted value sits in the prompt: the chart type right after
   * the introduction, the user's task after "TASK: ", the schema example after
   * the format instruction, and the corpus at the end, followed only by the
   * closing indentation.
   */
  lemma FullPromptLayout(chartType: string, prompt: string, corpus: string)
    ensures var r := FullPrompt(chartType, prompt, corpus);
      && |r| == |PromptIntro| + |chartType| + |PromptTask| + |prompt| + |PromptFormat|
         + |SchemaExample| + |PromptContent| + |corpus| + |PromptTail|
      && r[..|PromptIntro|] == PromptIntro
      && r[|PromptIntro|..|PromptIntro| + |chartType|] == chartType
      && (var t := |PromptIntro| + |chartType| + |PromptTask|; r[t..t + |prompt|] == prompt)
      && (var k := |PromptIntro| + |chartType| + |PromptTask| + |prompt| + |PromptFormat|;
          r[k..k + |SchemaExample|] == SchemaExample)
      && r[|r| - |PromptTail| - |corpus|..] == corpus + PromptTail
  {
    var a, b, c, d, e := PromptIntro, chartType, PromptTask, prompt, PromptFormat;
    var f, g, h, i := SchemaExample, PromptContent, corpus, PromptTail;
    TemplateOpening(a, b, c, d, e, f, g, h, i);
    TemplateTask(a, b, c, d, e, f, g, h, i);
    TemplateSchema(a, b, c, d, e, f, g, h, i);
    TemplateClosing(a, b, c, d, e, f, g, h, i);
  }

  /**
   * The fixed template text between the inserted values: "TASK: " just before
   * the user's task, the JSON-only format instruction between the task and the
   * schema example, and the "WEB CONTENT:" heading between the schema example
   * and the corpus.
   */
  lemma FullPromptTemplateText(chartType: string, prompt: string, corpus: string)
    ensures var r := FullPrompt(chartType, prompt, corpus);
      var t := |PromptIntro| + |chartType| + |PromptTask|;
      var k := t + |prompt| + |PromptFormat|;
      && r[|PromptIntro| + |chartType|..t] == PromptTask
      && r[t + |prompt|..k] == PromptFormat
      && r[k + |SchemaExample|..k + |SchemaExample| + |PromptContent|] == PromptContent
  {
    var a, b, c, d, e := PromptIntro, chartType, PromptTask, prompt, PromptFormat;
    var f, g, h, i := SchemaExample, PromptContent, corpus, PromptTail;
    TemplateTaskMarker(a, b, c, d, e, f, g, h, i);
    TemplateFormat(a, b, c, d, e, f, g, h, i);
    TemplateContentHeading(a, b, c, d, e, f, g, h, i);
  }

  /** The third part of a nine-part concatenation follows the first two. */
  lemma TemplateTaskMarker(a: string, b: string, c: string, d: string, e: string, f: string,
                           g: string, h: string, i: string)
    ensures var r := a + b + c + d + e + f + g + h + i;
      r[|a| + |b|..|a| + |b| + |c|] == c
  {
    var rest := d + e + f + g + h + i;
    assert a + b + c + d + e + f + g + h + i == (a + b) + c + rest;
    ConcatSlices(a + b, c, rest);
  }

  /** The fifth part of a nine-part concatenation follows the first four. */
  lemma TemplateFormat(a: string, b: string, c: string, d: string, e: string, f: string,
                       g: string, h: string, i: string)
    ensures var r := a + b + c + d + e + f + g + h + i;
      r[|a| + |b| + |c| + |d|..|a| + |b| + |c| + |d| + |e|] == e
  {
    var rest := f + g + h + i;
    assert a + b + c + d + e + f + g + h + i == (a + b + c + d) + e + rest;
    ConcatSlices(a + b + c + d, e, rest);
  }

  /** The seventh part of a nine-part concatenation follows the first six. */
  lemma TemplateContentHeading(a: string, b: string, c: string, d: string, e: string, f: string,
                               g: string, h: string, i: string)
    ensures var r := a + b + c + d + e + f + g + h + i;
      r[|a| + |b| + |c| + |d| + |e| + |f|..|a| + |b| + |c| + |d| + |e| + |f| + |g|] == g
  {
    var rest := h + i;
    assert a + b + c + d + e + f + g + h + i == (a + b + c + d + e + f) + g + rest;
    ConcatSlices(a + b + c + d + e + f, g, rest);
  }

  /** A nine-part concatenation opens with its first two parts. */
  lemma TemplateOpening(a: string, b: string, c: string, d: string, e: string, f: string,
                        g: string, h: string, i: string)
    ensures var r := a + b + c + d + e + f + g + h + i;
      r[..|a|] == a && r[|a|..|a| + |b|] == b
  {
    var rest := c + d + e + f + g + h + i;
    assert a + b + c + d + e + f + g + h + i == a + b + rest;
    ConcatSlices(a, b, rest);
  }

  /** The fourth part of a nine-part concatenation follows the first three. */
  lemma TemplateTask(a: string, b: string, c: string, d: string, e: string, f: string,
                     g: string, h: string, i: string)
    ensures var r := a + b + c + d + e + f + g + h + i;
      r[|a| + |b| + |c|..|a| + |b| + |c| + |d|] == d
  {
    var rest := e + f + g + h + i;
    assert a + b + c + d + e + f + g + h + i == (a + b + c) + d + rest;
    ConcatSlices(a + b + c, d, rest);
  }

  /** The sixth part of a nine-part concatenation follows the first five. */
  lemma TemplateSchema(a: string, b: string, c: string, d: string, e: string, f: string,
                       g: string, h: string, i: string)
    ensures var r := a + b + c + d + e + f + g + h + i;
      r[|a| + |b| + |c| + |d| + |e|..|a| + |b| + |c| + |d| + |e| + |f|] == f
  {
    var rest := g + h + i;
    assert a + b + c + d + e + f + g + h + i == (a + b + c + d + e) + f + rest;
    ConcatSlices(a + b + c + d + e, f, rest);
  }

  /** A nine-part concatenation closes with its last two parts. */
  lemma TemplateClosing(a: string, b: string, c: string, d: string, e: string, f: string,
                        g: string, h: string, i: string)
    ensures var r := a + b + c + d + e + f + g + h + i;
      r[|r| - |i| - |h|..] == h + i
  {
    ConcatSlices(a + b + c + d + e + f + g, h, i);
  }

  function MakeRequest(model: string, userMessage: string, timeout: nat): (r: CompletionRequest)
    ensures r.userMessage == userMessage && r.model == model && r.timeout == timeout
    ensures r.systemMessage == SystemMessage && r.temperature == 0.0 && r.maxTokens == 2048
  {
    CompletionRequest(model, SystemMessage, userMessage, Temperature, MaxTokens, timeout)
  }

  /** The request sent for the scraped records, or none when no page succeeded. */
  function RequestFor(scraped: seq<SourceResult>, prompt: string, chartType: string,
                      model: string, timeout: nat): Option<CompletionRequest>
  {
    var corpus := Aggregate(scraped);
    if corpus.successCount == 0 then None
    else Some(MakeRequest(model, FullPrompt(chartType, prompt, corpus.text), timeout))
  }

  /** What `process_with_openai` returns. */
  function LlmOutcome(scraped: seq<SourceResult>, prompt: string, chartType: string,
                      model: string, timeout: nat, complete: CompletionRequest -> LlmReply): LlmResult
  {
    match RequestFor(scraped, prompt, chartType, model, timeout)
    case None => LlmError(NoDataMessage)
    case Some(request) =>
      match complete(request)
      case Completed(text) => LlmSuccess(text)
      case Failed(message) => LlmError(message)
  }

  /**
   * When every page failed, no request is built, and the outcome is the
   * no-data error whatever the service would have answered.
   */
  lemma NoDataNeverCallsModel(scraped: seq<SourceResult>, prompt: string, chartType: string,
                              model: string, timeout: nat,
                              complete1: CompletionRequest -> LlmReply,
                              complete2: CompletionRequest -> LlmReply)
    requires forall i :: 0 <= i < |scraped| ==> scraped[i].Error?
    ensures RequestFor(scraped, prompt, chartType, model, timeout).None?
    ensures LlmOutcome(scraped, prompt, chartType, model, timeout, complete1) == LlmError(NoDataMessage)
    ensures LlmOutcome(scraped, prompt, chartType, model, timeout, complete1)
         == LlmOutcome(scraped, prompt, chartType, model, timeout, complete2)
  {
    AggregateNoData(scraped);
  }

  /** With at least one page scraped, the corpus goes to the model and its answer comes back as is. */
  lemma SomeDataCallsModel(scraped: seq<SourceResult>, prompt: string, chartType: string,
                           model: string, timeout: nat, complete: CompletionRequest -> LlmReply)
    requires exists i :: 0 <= i < |scraped| && scraped[i].Success?
    ensures RequestFor(scraped, prompt, chartType, model, timeout).Some?
    ensures var request := RequestFor(scraped, prompt, chartType, model, timeout).value;
      request.userMessage == FullPrompt(chartType, prompt, Aggregate(scraped).text)
      && LlmOutcome(scraped, prompt, chartType, model, timeout, complete)
         == match complete(request)
            case Completed(text) => LlmSuccess(text)
            case Failed(message) => LlmError(message)
  {
    AggregateNoData(scraped);
  }

  /**
   * `process_with_openai`: aggregates the records, short-circuits with the
   * no-data error when none succeeded, otherwise sends one request.
   */
  method ProcessWithOpenAi(scraped: seq<SourceResult>, prompt: string, chartType: string,
                           model: string, timeout: nat, complete: CompletionRequest -> LlmReply)
    returns (result: LlmResult, ghost sent: Option<CompletionRequest>)
    ensures result == LlmOutcome(scraped, prompt, chartType, model, timeout, complete)
    ensures sent == RequestFor(scraped, prompt, chartType, model, timeout)
    ensures sent.None? <==> forall i :: 0 <= i < |scraped| ==> scraped[i].Error?
  {
    AggregateNoData(scraped);
    var combinedText, successCount := AggregateCorpus(scraped);
    if successCount == 0 {
      sent := None;
      return LlmError(NoDataMessage), sent;
    }
    var fullPrompt := FullPrompt(chartType, prompt, combinedText);
    var request := MakeRequest(model, fullPrompt, timeout);
    sent := Some(request);
    var reply := complete(request);
    match reply {
      case Completed(text) => result := LlmSuccess(text);
      case Failed(message) => result := LlmError(message);
    }
  }
}
