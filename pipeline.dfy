/**
 * `scrape_and_visualize`: parse the URL box, scrape every URL, ask the model
 * for chart data, fall back to a fixed dataset when none comes back, draw the
 * requested chart and report on every source.
 *
 * Its three effects on the outside world are parameters: `fetch` (the HTTP
 * request and HTML parse for a URL), `complete` (the model service) and
 * `parse` (`json.loads`, `None` for the exception it raises).
 */
module Pipeline {
  import opened Wrappers
  import opened Json
  import opened UrlList
  import opened Scraper
  import opened Llm
  import opened Extraction
  import opened Charts
  import opened Summary

  const FallbackTitle: string := "Fallback Chart (Data extraction failed)"

  /** The data drawn when no JSON could be obtained from the model. */
  const FallbackData: Json := JObject(map[
    "labels" := JArray(Strings(["No Data", "Extracted", "From Sites"])),
    "values" := JArray(Ints([1, 2, 3])),
    "title" := JString(FallbackTitle)])

  /**
   * The data handed to the chart builder: the extracted JSON when the model
   * answered and a payload was found and parsed to something other than
   * `null` (Python's `None`); the fallback data in every other case.
   */
  function VisualizationData(result: LlmResult, parse: string -> Option<Json>): (r: Json)
    ensures r != JNull
    ensures result.LlmError? ==> r == FallbackData
    ensures result.LlmSuccess? && ExtractJson(result.response, parse) == None ==> r == FallbackData
    ensures r == FallbackData
      || (result.LlmSuccess? && ExtractJson(result.response, parse) == Some(r))
    ensures result.LlmSuccess? && ExtractJson(result.response, parse).Some?
      && ExtractJson(result.response, parse).value != JNull
      ==> r == ExtractJson(result.response, parse).value
  {
    var extracted := if result.LlmSuccess? then ExtractJson(result.response, parse) else None;
    match extracted
    case Some(v) => if v == JNull then FallbackData else v
    case None => FallbackData
  }

  /** The text shown for the model's answer: the answer, or the error prefixed by "Error: ". */
  function ResponseText(result: LlmResult): string {
    match result
    case LlmSuccess(response) => response
    case LlmError(error) => "Error: " + error
  }

  /** The three artefacts a run returns. */
  datatype RunOutput = RunOutput(response: string, chart: Chart, summary: string)

  /** What a run returns once the pages have been scraped. */
  function RunOn(scraped: seq<SourceResult>, prompt: string, chartType: string, model: string, timeout: nat,
                 complete: CompletionRequest -> LlmReply, parse: string -> Option<Json>): RunOutput
  {
    var result := LlmOutcome(scraped, prompt, chartType, model, timeout, complete);
    RunOutput(ResponseText(result), BuildChart(chartType, VisualizationData(result, parse)), Report(scraped))
  }

  /** What `scrape_and_visualize` returns. */
  function Run(urls: string, prompt: string, chartType: string, model: string, timeout: nat,
               fetch: string -> FetchOutcome, complete: CompletionRequest -> LlmReply,
               parse: string -> Option<Json>): RunOutput
  {
    RunOn(ScrapedRecords(ParseUrls(urls), fetch), prompt, chartType, model, timeout, complete, parse)
  }

  /** `scrape_and_visualize` */
  method ScrapeAndVisualize(urls: string, prompt: string, chartType: string, model: string, timeout: nat,
                            fetch: string -> FetchOutcome, complete: CompletionRequest -> LlmReply,
                            parse: string -> Option<Json>)
    returns (response: string, chart: Chart, summary: string)
    ensures RunOutput(response, chart, summary) == Run(urls, prompt, chartType, model, timeout, fetch, complete, parse)
  {
    var urlList := ParseUrls(urls);
    var scrapedData := ScrapeMultipleSources(urlList, fetch);
    var openAiResult, _ := ProcessWithOpenAi(scrapedData, prompt, chartType, model, timeout, complete);
    var visualizationData := VisualizationData(openAiResult, parse);
    chart := BuildChart(chartType, visualizationData);
    summary := Summarize(scrapedData);
    response := ResponseText(openAiResult);
  }

  /**
   * When every page failed, the run reports the no-data error and draws the
   * requested chart from the fallback data, whatever the model service or the
   * JSON parser would have done.
   */
  lemma NoDataRun(scraped: seq<SourceResult>, prompt: string, chartType: string, model: string, timeout: nat,
                  complete1: CompletionRequest -> LlmReply, parse1: string -> Option<Json>,
                  complete2: CompletionRequest -> LlmReply, parse2: string -> Option<Json>)
    requires forall i :: 0 <= i < |scraped| ==> scraped[i].Error?
    ensures var out := RunOn(scraped, prompt, chartType, model, timeout, complete1, parse1);
      out.response == "Error: " + NoDataMessage
      && out.chart == BuildChart(chartType, FallbackData)
      && out == RunOn(scraped, prompt, chartType, model, timeout, complete2, parse2)
  {
    NoDataNeverCallsModel(scraped, prompt, chartType, model, timeout, complete1, complete2);
  }

  /** When the fetch of every listed URL fails, the run is the no-data run. */
  lemma AllFetchesFailed(urls: string, prompt: string, chartType: string, model: string, timeout: nat,
                         fetch: string -> FetchOutcome,
                         complete1: CompletionRequest -> LlmReply, parse1: string -> Option<Json>,
                         complete2: CompletionRequest -> LlmReply, parse2: string -> Option<Json>)
    requires forall k :: 0 <= k < |ParseUrls(urls)| ==> fetch(ParseUrls(urls)[k]).FetchFailed?
    ensures var out := Run(urls, prompt, chartType, model, timeout, fetch, complete1, parse1);
      out.response == "Error: " + NoDataMessage
      && out.chart == BuildChart(chartType, FallbackData)
      && out == Run(urls, prompt, chartType, model, timeout, fetch, complete2, parse2)
  {
    var scraped := ScrapedRecords(ParseUrls(urls), fetch);
    NoDataRun(scraped, prompt, chartType, model, timeout, complete1, parse1, complete2, parse2);
  }

  /**
   * The fallback data is drawn as such by the bar and pie builders (and by
   * any unknown chart type); the line and scatter builders, which need `x`
   * and `y`, draw their example chart.
   */
  lemma FallbackChart(chartType: string)
    ensures var c := BuildChart(chartType, FallbackData);
      if KindOf(chartType) in {Bar, Pie}
      then c == Chart(KindOf(chartType), FallbackData.fields["labels"], FallbackData.fields["values"],
                      JString(FallbackTitle))
      else c == ExampleChart(KindOf(chartType))
  {
    var k := KindOf(chartType);
    if k in {Line, Scatter} {
      assert "x" !in FallbackData.fields;
    }
  }

  /**
   * The model answers with one fenced compact JSON block that parses to a
   * dict with labels and values: a bar chart plots exactly those labels and
   * values under the answer's title.
   */
  lemma FencedAnswerDrawn(body: string, parse: string -> Option<Json>,
                          labels: seq<Json>, values: seq<Json>, title: string)
    requires '\n' !in body
    requires parse(body) == Some(JObject(map["labels" := JArray(labels), "values" := JArray(values),
                                            "title" := JString(title)]))
    ensures var c := BuildChart("Bar Chart", VisualizationData(LlmSuccess(Opener + body + Closer), parse));
      c == Chart(Bar, JArray(labels), JArray(values), JString(title))
  {
    OneLineBlockRoundTrip(body, "", parse);
    assert Opener + body + Closer + "" == Opener + body + Closer;
  }
}
