# Data scraper and visualization tool — the extraction pipeline in Dafny

This project models the deterministic pipeline inside `app.py` of the data
scraper and visualization tool. `scrape_and_visualize` runs these steps in order:

1. It splits the URL box into a URL list.
2. It scrapes every URL and keeps only the table rows and tables that are
   not empty.
3. It builds a bounded text corpus from the pages that were scraped
   successfully. It stops early with a no-data error when no page succeeded.
4. It asks a language model for chart data in JSON.
5. It finds the JSON payload in the answer: a fenced `json` block first,
   otherwise the first-`{`-to-last-`}` span.
6. It substitutes a fixed fallback dataset when no payload could be obtained.
7. It dispatches on the chart-type name to one of four chart builders.
8. It writes a status line per source.

The modules follow those steps:

| module | file | what it holds |
|---|---|---|
| `Wrappers` | `wrappers.dfy` | `Option` |
| `Text` | `text.dfy` | Python's `str.strip`, `str.split`, substring search and the decimal rendering of a count, with their properties |
| `UrlList` | `url_list.dfy` | the URL-box comprehension |
| `Json` | `json.dfy` | the values `json.loads` produces, `dict.get` |
| `Scraper` | `scraper.dfy` | the table loops of `scrape_static_url` and `scrape_multiple_sources` |
| `Aggregator` | `aggregator.dfy` | the corpus loop of `process_with_openai` and its bounds |
| `Llm` | `llm.dfy` | the prompt, the request and the no-data short-circuit |
| `Extraction` | `extraction.dfy` | `extract_json_from_response` |
| `Charts` | `charts.dfy` | the four `create_*` builders and the dispatch |
| `Summary` | `summary.dfy` | the status summary loop |
| `Pipeline` | `pipeline.dfy` | the fallback data and `scrape_and_visualize` end to end |

Loops that update variables in the source are modelled as methods, and each is
proved equal to a specification function:

- `Scraper.ExtractTables` against `CleanTables`;
- `Scraper.ScrapeMultipleSources` against `ScrapedRecords`;
- `Aggregator.AggregateCorpus` against `Aggregate`;
- `Summary.Summarize` against `Report`.

Lemmas about those functions state what the source promises. The comprehension,
the regular-expression searches, the builders and the dispatch are pure, so
they are functions.

The outside world enters only as parameters:

- `fetch: string -> FetchOutcome` is the HTTP request and HTML parse for a URL.
- `complete: CompletionRequest -> LlmReply` is the model service.
- `parse: string -> Option<Json>` is `json.loads`; `None` stands for the exception it raises.

Each regular expression is given its matching semantics as a predicate:

- `Extraction.FenceAt` is a match of ```` ```json\n(.*?)\n``` ```` with DOTALL.
- `Extraction.BraceSpanAt` is a match of `\{.*\}` with DOTALL.

The index searches that compute the matches are proved to return the match
`re.search` returns. For the fenced pattern that is the leftmost start, then
the shortest body. For the brace pattern it is the leftmost start, then the
longest span.

Three behaviours of the code worth knowing:

- The corpus can go past the 15000-character cap by one whole block and the
  truncation marker, not by the marker alone. The length is checked only after
  a page's block has been appended.
  `Aggregator.AggregateBound` proves the bound the code keeps.
- The builders check only that the keys are present. They do not check that
  the sequences have equal length or are non-empty. Data that lacks the keys
  gets the builder's example chart and does not trigger the fallback dataset.
- There is one fallback dataset, in the labels/values shape. The line and
  scatter builders, which read `x`/`y`, draw their example chart for it
  (`Pipeline.FallbackChart`). Those builders draw their example chart for any
  answer in the labels/values shape that the prompt asks for
  (`Charts.PromptedShapeOnlyFitsBarAndPie`).

## Model

| member | source | states |
|---|---|---|
| Text.Strip | app.py:301 | `strip()` never lengthens a line and leaves no whitespace (Python's `isspace` set) at either end |
| Text.StripIsSlice | app.py:301 | `strip()` yields a slice of the line with only whitespace before and after it; the result is empty exactly when the line is all whitespace |
| Text.TrimmedIsFixpoint | app.py:301 | a string with no whitespace at either end is its own `strip()` |
| Text.StripIdempotent | app.py:301 | stripping twice is stripping once |
| Text.Split | app.py:301 | `split('\n')` yields at least one piece and no piece contains the separator |
| Text.JoinSplit | app.py:301 | joining the pieces of `split` with the separator restores the text: no character is lost |
| Text.SplitJoin | app.py:301 | splitting a join of separator-free pieces gives the same pieces back |
| Text.FindFrom | app.py:180 | the substring search returns the first occurrence at or after the start index, or reports that there is none |
| Text.FindFirst | app.py:185 | the first index of a character, or none when the character does not occur |
| Text.FindLast | app.py:185 | the last index of a character, or none when the character does not occur |
| Text.NatToString | app.py:342 | `str(n)` is a non-empty string of decimal digits with no leading zero |
| Text.NatToStringRoundTrip | app.py:342 | reading the rendered digits back gives the number |
| UrlList.CleanLines | app.py:301 | the comprehension keeps at most one entry per line, and every entry is non-empty with no whitespace at either end |
| UrlList.ParseUrls | app.py:301 | every parsed URL is non-empty and has no whitespace at either end |
| UrlList.ParsedUrlsAreStripped | app.py:301 | every parsed URL is non-empty and equal to its own `strip()` |
| UrlList.NonBlankIndices | app.py:301 | the indices of the non-blank lines, ascending: an index is listed exactly when its line is not blank |
| UrlList.CleanLinesKeepsOrder | app.py:301 | the k-th kept entry is the stripped k-th non-blank line: none lost, none reordered |
| UrlList.ParseUrlsKeepsOrder | app.py:301 | the k-th URL is the stripped k-th non-blank line of the box, and no URL contains a newline |
| Json.Get | app.py:202 | `dict.get(key, default)` gives the key's value when present and the default otherwise |
| Scraper.StripCells | app.py:67 | one cell per input cell, each the `strip()` of its raw text |
| Scraper.CleanRows | app.py:66-69 | the kept rows are never more than the raw rows and none is empty |
| Scraper.CleanTables | app.py:63-71 | the kept tables are never more than the raw tables; none is empty and none holds an empty row |
| Scraper.CleanRowsAppend | app.py:66-69 | row filtering distributes over concatenation, so it works row by row in order |
| Scraper.CleanRowsOne | app.py:66-69 | a single raw row is kept, with its cells stripped, exactly when it has a cell; with `CleanRowsAppend` this fixes the filter row by row |
| Scraper.CleanTablesAppend | app.py:63-71 | table filtering distributes over concatenation, so it works table by table in order |
| Scraper.CleanTablesOne | app.py:63-71 | a single raw table is kept, as its own filtered rows, exactly when a row survives; with `CleanTablesAppend` every kept row stays in its own table |
| Scraper.CleanTablesKeepsRows | app.py:63-71 | dropping empty tables loses no row: the rows of the kept tables are exactly the filtered rows of all raw tables, in order |
| Scraper.ExtractTables | app.py:63-71 | the nested loops compute exactly the filtered tables |
| Scraper.Scrape | app.py:47-85 | the record carries its URL and is a success exactly when the fetch succeeded |
| Scraper.ScrapeStaticUrl | app.py:47-85 | the record for one URL, with its tables filtered by the table loops |
| Scraper.ScrapedRecords | app.py:88-101 | one record per URL, in input order, each with its own URL, and a success exactly when that URL's fetch succeeded |
| Scraper.ScrapeMultipleSources | app.py:88-101 | the loop returns exactly those records |
| Aggregator.Excerpt | app.py:115 | the excerpt is the prefix of the page text of length `min(len, 1000)` |
| Aggregator.Block | app.py:116-117 | a block is the URL and excerpt plus exactly 20 characters of framing |
| Aggregator.BlockLayout | app.py:116-117 | a block is "URL: ", the page's URL, "\nContent: ", its excerpt and "...\n\n", in that order with nothing else between them |
| Aggregator.Successes | app.py:113-114 | the successful pages are at most the records, and each URL is no longer than the longest URL among the records |
| Aggregator.AggregateFrom | app.py:113-122 | the loop from a running text and count over the records still to visit: an error is skipped, a success appends its block and counts, and the text that passes 15000 gets the marker and ends the walk; its properties are `AggregateFromShape` and `ErrorRecordIgnored` |
| Aggregator.Aggregate | app.py:110-122 | the corpus and success count the loop leaves, starting from the empty text and zero; its properties are `AggregateShape`, `AggregateBound` and `AggregateNoData` |
| Aggregator.TruncatingStep | app.py:120-122 | the block that carries the text past 15000 is followed by the marker, and the walk ends there |
| Aggregator.FinalStep | app.py:113-122 | when the walk ends within the cap, the corpus is all the blocks and the count is the number of successes |
| Aggregator.AggregateFromShape | app.py:113-122 | from a state within the cap, the loop appends the following successes' blocks in order and stops right after the first block that passes 15000, adding the marker once |
| Aggregator.AggregateShape | app.py:110-122 | the corpus is the first `successCount` blocks in order: either all of them within the cap, or, when the cap is passed, the marker after the block that passed it, with the text before that block within 15000 |
| Aggregator.AggregateBound | app.py:120-122 | the corpus is at most 15000 + one block (longest URL + 1000 + 20) + the marker long |
| Aggregator.NoSuccessesIffAllErrors | app.py:113-114 | there are no successful pages exactly when every record is an error |
| Aggregator.AggregateNoData | app.py:124-128 | the success count is zero exactly when every record is an error, and the corpus is then empty |
| Aggregator.ErrorRecordIgnored | app.py:113-114 | inserting an error record anywhere changes neither the corpus nor the count |
| Aggregator.AggregateCorpus | app.py:110-122 | the loop, with its early exit, computes exactly the corpus and count of `Aggregate` |
| Llm.FullPromptLayout | app.py:131-145 | the prompt's length is the sum of its parts; it opens with the template introduction and the chart type, holds the user's task and the labels/values schema example at their template positions, and ends with the corpus followed only by the closing indentation |
| Llm.FullPromptTemplateText | app.py:132-143 | the fixed template text between the inserted values: " visualization." and "TASK: " just before the user's task, the "Respond ONLY with valid JSON in this format:" instruction between the task and the schema example, and the "WEB CONTENT:" heading between the schema example and the corpus |
| Llm.MakeRequest | app.py:150-159 | the request carries the model, the prompt as user message, the fixed system message, temperature 0.0, 2048 tokens and the timeout |
| Llm.FullPrompt | app.py:131-145 | the f-string prompt: template text around the chart type, the user's task, the schema example and the corpus; its layout is `FullPromptLayout` |
| Llm.RequestFor | app.py:124-159 | no request when the success count is zero, otherwise the request over the prompt built from the corpus; its properties are `NoDataNeverCallsModel` and `SomeDataCallsModel` |
| Llm.LlmOutcome | app.py:124-174 | the no-data error without a request, otherwise the service's text as a success or its error message as an error; its properties are `NoDataNeverCallsModel`, `SomeDataCallsModel` and `ProcessWithOpenAi` |
| Llm.NoDataNeverCallsModel | app.py:124-128 | when every page failed, no request is built and the outcome is the no-data error, whatever the service would answer |
| Llm.SomeDataCallsModel | app.py:130-174 | with one successful page, a request is built with the prompt over the corpus, and the service's text or error is returned as is |
| Llm.ProcessWithOpenAi | app.py:104-174 | the outcome is the request's answer, or the no-data error, and a request is sent exactly when some page succeeded |
| Extraction.FindFence | app.py:180 | the fenced match `re.search` finds: a match with the leftmost start and, there, the shortest body; none exactly when no match exists |
| Extraction.FindBraces | app.py:185 | the brace match `re.search` finds: from the first `{` that can start a match to the last `}`; none exactly when no match exists |
| Extraction.ExtractJson | app.py:177-193 | the parse of the fenced body when there is a fenced match, else the parse of the brace span, else nothing; its properties are `ExtractFromFence`, `ExtractFromBraces` and `ExtractNothing` |
| Extraction.ExtractFromFence | app.py:180-182 | with a fenced match, the result is the parse of the leftmost shortest body, even when that parse fails (no fall-through to the brace search) |
| Extraction.ExtractFromBraces | app.py:184-187 | without a fenced match, the result is the parse of the first-`{`-to-last-`}` span |
| Extraction.ExtractNothing | app.py:189-190 | with neither match, the result is `None` |
| Extraction.FencedBlockRoundTrip | app.py:180-182 | an answer that is one fenced block (body without an inner closer) gives exactly the parse of its body, whatever follows |
| Extraction.OneLineBlockRoundTrip | app.py:180-182 | the same for a one-line body, such as compact JSON |
| Extraction.PlainProseHasNoPayload | app.py:177-193 | an answer with no backtick and no `{` yields `None` |
| Charts.KindOf | app.py:325-334 | a known chart-type name selects the kind it names; any other name selects Bar |
| Charts.CreateChart | app.py:195-293 | a dict holding both series keys of the kind is plotted from those keys, with its title or the kind's default title; anything else gets the kind's example chart |
| Charts.ExampleChart | app.py:206-211 | the fixed chart a builder draws when its keys are missing: A/B/C with 1, 2, 3 for bar and pie, 1, 2, 3 with 1, 4, 2 for line and scatter (also app.py:231-236, 256-261, 281-286), under its "Example … (Data format was incorrect)" title; `CreateChart` and `FallbackChart` state when it is drawn |
| Charts.BuildChart | app.py:325-334 | the chart for a chart-type name: the builder `KindOf` selects applied to the data; its properties are `DispatchByName` and `FallbackChart` |
| Charts.DispatchByName | app.py:325-334 | each offered name uses its own builder; every other name uses the bar builder |
| Charts.PromptedShapeOnlyFitsBarAndPie | app.py:221-237 | data in the prompted labels/values shape is plotted by bar and pie, but line and scatter draw their example chart |
| Charts.SeriesLengthMatchesLabels | app.py:196-204 | a bar or pie chart of labels/values data plots exactly those labels and values, one bar or slice per label, under the data's title |
| Summary.SourceReport | app.py:338-344 | a source's report starts with ✓ for a success and ✗ for a failure and ends with a newline; a success's report is its success line, followed by the "Found n table(s)" line with n the number of tables exactly when the page had tables; a failure's line holds the URL after the mark and the error message before the newline |
| Summary.TablesLineCount | app.py:342 | the table line states the exact number of tables |
| Summary.ReportAppend | app.py:337-344 | the report of concatenated records is the concatenation of their reports |
| Summary.Report | app.py:337-344 | the reports of all records concatenated in record order; its properties are `ReportAppend`, `ReportAt` and `Summarize` |
| Summary.ReportAt | app.py:337-344 | record i's mark (✓ or ✗) stands where the reports of the records before it end: one report per source, in input order |
| Summary.Summarize | app.py:337-344 | the loop builds exactly the report |
| Pipeline.VisualizationData | app.py:311-322 | the chart data is never `None`; an LLM error, no extracted payload or a payload that parses to `null` gives exactly the fallback dict `FallbackData` (labels "No Data"/"Extracted"/"From Sites", values 1, 2, 3, the fallback title); any other extracted value is used as it is |
| Pipeline.ResponseText | app.py:346-350 | the answer's text on success, and "Error: " followed by the message on error; `NoDataRun` states it for the no-data case |
| Pipeline.RunOn | app.py:305-356 | the response text, chart and summary of a run once the records are known; its properties are `NoDataRun` and `FencedAnswerDrawn` |
| Pipeline.Run | app.py:296-356 | the run over the parsed URL box and the scraped records; `ScrapeAndVisualize` computes it and `AllFetchesFailed` states the all-failed case |
| Pipeline.ScrapeAndVisualize | app.py:296-356 | the run returns the response text, chart and summary that `Run` defines over the parsed URLs, the scraped records and the model's answer |
| Pipeline.NoDataRun | app.py:308-350 | when every record is an error, the response is "Error: " + the no-data message, the chart is drawn from the fallback data, and the output does not depend on the model service or the parser |
| Pipeline.AllFetchesFailed | app.py:301-350 | the same holds for a URL box whose every fetch fails |
| Pipeline.FallbackChart | app.py:315-334 | bar, pie and unknown chart types draw the fallback labels and values under the fallback title; line and scatter draw their example chart |
| Pipeline.FencedAnswerDrawn | app.py:177-204 | an answer that is one fenced compact JSON dict with labels, values and title is drawn as a bar chart of exactly those labels and values |

## Left out

- HTTP fetching, request headers and the session (`get_headers`, `session.get`, `raise_for_status`) are left out because they are network I/O. Their outcome for a URL is the parameter `fetch`.
- BeautifulSoup is left out because it is a foreign library: the heading/paragraph text join and the cell lookup. The model starts from the raw cell texts of each table and the page text that `fetch` returns.
- `time.sleep` and the Selenium flag of `scrape_multiple_sources` are left out because they do not change any result.
- The OpenAI client and the global `openai.api_key` (`setup_openai`) are left out because they are a remote service. The service is the parameter `complete`, from the request to its answer text or its exception message. A reply whose message content is `None` is not modelled.
- `fetch` and `complete` are functions. The model therefore assumes that a URL, or a request, gets one answer within a run.
- The internals of `json.loads` are the parameter `parse`. JSON numbers are `JInt` or `JFloat(real)`, so NaN and Infinity are not representable.
- Plotly is left out because it is a rendering library. A figure is the record of its kind, its two series and its title. The builders' `except` branches are not modelled: they draw an annotated error figure when Plotly rejects the data.
- The catch-all `except` of `scrape_and_visualize` and its error triple are not modelled, because no modelled step raises: fetch, model and parse failures are all values in the model.
- Logging and the Gradio user interface are left out because they do not affect any result.
