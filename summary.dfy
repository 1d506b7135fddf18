/** The per-source status report shown to the user. */
module Summary {
  import opened Text
  import opened Scraper

  const CheckMark: char := '✓'
  const CrossMark: char := '✗'

  /** The line for a successful page. */
  function SuccessLine(url: string): string {
    [CheckMark] + " " + url + ": Successfully scraped\n"
  }

  /** The indented line that reports how many tables a page had. */
  function TablesLine(count: nat): string {
    "  - Found " + NatToString(count) + " table(s)\n"
  }

  /**
   * The report for one record: a check-mark line for a success, followed by
   * a table-count line only when the page had tables; a cross-mark line with
   * the error message for a failure.
   */
  function SourceReport(d: SourceResult): (r: string)
    ensures |r| > 0 && r[0] == (if d.Success? then CheckMark else CrossMark) && r[|r| - 1] == '\n'
    ensures d.Success? ==> |SuccessLine(d.url)| <= |r| && r[..|SuccessLine(d.url)|] == SuccessLine(d.url)
    ensures d.Success? ==> (r == SuccessLine(d.url) <==> d.tables == [])
    ensures d.Success? && d.tables != [] ==> r == SuccessLine(d.url) + TablesLine(|d.tables|)
    ensures d.Error? ==> |d.url| + 4 <= |r| - 1 && r[2..2 + |d.url|] == d.url && r[|d.url| + 4..|r| - 1] == d.error
  {
    match d
    case Success(url, _, tables) =>
      SuccessLine(url) + (if tables != [] then TablesLine(|tables|) else "")
    case Error(url, error) =>
      [CrossMark] + " " + url + ": " + error + "\n"
  }

  /** The table-count line states the exact number of tables. */
  lemma TablesLineCount(count: nat)
    ensures var line := TablesLine(count);
      |line| > 20 && DecimalValue(line[10..|line| - 10]) == count
  {
    var line := TablesLine(count);
    assert line[10..|line| - 10] == NatToString(count);
    NatToStringRoundTrip(count);
  }

  /** The reports of all records, one after the other, in record order. */
  function Report(scraped: seq<SourceResult>): string {
    ConcatMap(SourceReport, scraped)
  }

  /** The report of a concatenation is the concatenation of the reports. */
  lemma ReportAppend(a: seq<SourceResult>, b: seq<SourceResult>)
    ensures Report(a + b) == Report(a) + Report(b)
  {
    ConcatMapAppend(SourceReport, a, b);
  }

  /** A record's report begins at the position the reports before it end. */
  lemma ReportAt(scraped: seq<SourceResult>, i: nat)
    requires i < |scraped|
    ensures var start := |Report(scraped[..i])|;
      start < |Report(scraped)| && Report(scraped)[start] == (if scraped[i].Success? then CheckMark else CrossMark)
  {
    assert scraped == scraped[..i] + ([scraped[i]] + scraped[i + 1..]);
    ReportAppend(scraped[..i], [scraped[i]] + scraped[i + 1..]);
    ReportAppend([scraped[i]], scraped[i + 1..]);
    assert Report([scraped[i]]) == SourceReport(scraped[i]) by {
      assert [scraped[i]][..0] == [];
      assert ConcatMap(SourceReport, []) == "";
    }
  }

  /** Extending the records by one extends the report by that record's report. */
  lemma ReportSnoc(scraped: seq<SourceResult>, i: nat)
    requires i < |scraped|
    ensures Report(scraped[..i + 1]) == Report(scraped[..i]) + SourceReport(scraped[i])
  {
    assert scraped[..i + 1][..i] == scraped[..i];
  }

  /** The summary loop of `scrape_and_visualize`. */
  method Summarize(scraped: seq<SourceResult>) returns (summary: string)
    ensures summary == Report(scraped)
  {
    summary := "";
    for i := 0 to |scraped|
      invariant summary == Report(scraped[..i])
    {
      var d := scraped[i];
      ghost var before := summary;
      if d.Success? {
        summary := summary + ([CheckMark] + " " + d.url + ": Successfully scraped\n");
        if d.tables != [] {
          summary := summary + ("  - Found " + NatToString(|d.tables|) + " table(s)\n");
          assert summary == before + (SuccessLine(d.url) + TablesLine(|d.tables|));
        } else {
          assert summary == before + (SuccessLine(d.url) + "");
        }
      } else {
        summary := summary + ([CrossMark] + " " + d.url + ": " + d.error + "\n");
      }
      assert summary == before + SourceReport(d);
      ReportSnoc(scraped, i);
    }
    assert scraped[..|scraped|] == scraped;
  }
}
