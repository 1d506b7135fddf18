/**
 * Scraping one page and a list of pages. The HTTP request and the HTML parse
 * are outside the model: their outcome for a URL is a `FetchOutcome`, either
 * the page's joined heading/paragraph text with the raw cell texts of its
 * tables, or the message of the exception that was raised.
 */
module Scraper {
  import opened Text

  /** A table: rows of cell strings. */
  type Table = seq<seq<string>>

  datatype FetchOutcome =
    | Fetched(textContent: string, rawTables: seq<Table>)
    | FetchFailed(message: string)

  /** The per-URL record `scrape_static_url` returns. */
  datatype SourceResult =
    | Success(url: string, textContent: string, tables: seq<Table>)
    | Error(url: string, error: string)

  /** `[cell.get_text().strip() for cell in row]` */
  function StripCells(row: seq<string>): (r: seq<string>)
    ensures |r| == |row|
    ensures forall i :: 0 <= i < |r| ==> r[i] == Strip(row[i])
  {
    seq(|row|, i requires 0 <= i < |row| => Strip(row[i]))
  }

  /** The rows of one table, cells stripped, rows without cells dropped, order kept. */
  function CleanRows(rows: seq<seq<string>>): (r: Table)
    ensures |r| <= |rows|
    ensures forall k :: 0 <= k < |r| ==> r[k] != []
  {
    if rows == [] then []
    else
      var row := StripCells(rows[|rows| - 1]);
      CleanRows(rows[..|rows| - 1]) + (if row == [] then [] else [row])
  }

  /** The tables of a page, each row-filtered, tables left empty dropped, order kept. */
  function CleanTables(raw: seq<Table>): (r: seq<Table>)
    ensures |r| <= |raw|
    ensures forall t :: 0 <= t < |r| ==> r[t] != []
    ensures forall t, k :: 0 <= t < |r| && 0 <= k < |r[t]| ==> r[t][k] != []
  {
    if raw == [] then []
    else
      var table := CleanRows(raw[|raw| - 1]);
      CleanTables(raw[..|raw| - 1]) + (if table == [] then [] else [table])
  }

  /** All rows of a sequence of tables, in order. */
  function Flatten(tables: seq<Table>): seq<seq<string>> {
    if tables == [] then [] else Flatten(tables[..|tables| - 1]) + tables[|tables| - 1]
  }

  lemma {:induction false} CleanRowsAppend(a: seq<seq<string>>, b: seq<seq<string>>)
    ensures CleanRows(a + b) == CleanRows(a) + CleanRows(b)
    decreases |b|
  {
    if b != [] {
      var n := |b| - 1;
      assert (a + b)[..|a + b| - 1] == a + b[..n];
      CleanRowsAppend(a, b[..n]);
    } else {
      assert a + b == a;
    }
  }

  /** A single raw row is kept, cells stripped, exactly when it has cells. */
  lemma CleanRowsOne(row: seq<string>)
    ensures CleanRows([row]) == if row == [] then [] else [StripCells(row)]
  {
    assert [row][..0] == [];
  }

  /** Table filtering distributes over concatenation, so it works table by table in order. */
  lemma {:induction false} CleanTablesAppend(a: seq<Table>, b: seq<Table>)
    ensures CleanTables(a + b) == CleanTables(a) + CleanTables(b)
    decreases |b|
  {
    if b != [] {
      var n := |b| - 1;
      assert (a + b)[..|a + b| - 1] == a + b[..n];
      CleanTablesAppend(a, b[..n]);
    } else {
      assert a + b == a;
    }
  }

  /** A single raw table is kept, as its own filtered rows, exactly when a row survives. */
  lemma CleanTablesOne(table: Table)
    ensures CleanTables([table]) == if CleanRows(table) == [] then [] else [CleanRows(table)]
  {
    assert [table][..0] == [];
  }

  /**
   * Dropping empty tables loses no row: the rows of the extracted tables are
   * exactly the cleaned rows of all the page's tables, in order.
   */
  lemma {:induction false} CleanTablesKeepsRows(raw: seq<Table>)
    ensures Flatten(CleanTables(raw)) == CleanRows(Flatten(raw))
  {
    if raw != [] {
      var n := |raw| - 1;
      assert raw[..n] + [raw[n]] == raw;
      CleanTablesKeepsRows(raw[..n]);
      CleanRowsAppend(Flatten(raw[..n]), raw[n]);
      var table := CleanRows(raw[n]);
      var front := CleanTables(raw[..n]);
      if table != [] {
        assert (front + [table])[..|front|] == front;
      } else {
        assert front + [] == front;
      }
    }
  }

  /** The table loops of `scrape_static_url`. */
  method ExtractTables(raw: seq<Table>) returns (tables: seq<Table>)
    ensures tables == CleanTables(raw)
  {
    tables := [];
    var i := 0;
    while i < |raw|
      invariant 0 <= i <= |raw|
      invariant tables == CleanTables(raw[..i])
    {
      var rows := raw[i];
      var tableData: Table := [];
      var j := 0;
      while j < |rows|
        invariant 0 <= j <= |rows|
        invariant tableData == CleanRows(rows[..j])
      {
        var rowData := StripCells(rows[j]);
        if rowData != [] {
          tableData := tableData + [rowData];
        }
        assert rows[..j + 1][..j] == rows[..j];
        j := j + 1;
      }
      assert rows[..j] == rows;
      if tableData != [] {
        tables := tables + [tableData];
      }
      assert raw[..i + 1][..i] == raw[..i];
      i := i + 1;
    }
    assert raw[..i] == raw;
  }

  /** What `scrape_static_url` returns for `url` given the fetch outcome. */
  function Scrape(url: string, outcome: FetchOutcome): (r: SourceResult)
    ensures r.url == url
    ensures r.Success? <==> outcome.Fetched?
  {
    match outcome
    case Fetched(text, rawTables) => Success(url, text, CleanTables(rawTables))
    case FetchFailed(message) => Error(url, message)
  }

  /** `scrape_static_url`: the record for one URL, tables filtered by the table loops. */
  method ScrapeStaticUrl(url: string, outcome: FetchOutcome) returns (r: SourceResult)
    ensures r == Scrape(url, outcome)
  {
    match outcome {
      case Fetched(text, rawTables) =>
        var tables := ExtractTables(rawTables);
        r := Success(url, text, tables);
      case FetchFailed(message) =>
        r := Error(url, message);
    }
  }

  /**
   * The records for a URL list: one per URL, in input order, each carrying
   * its own URL; a URL whose fetch fails yields its error record and does not
   * affect the others.
   */
  function ScrapedRecords(urls: seq<string>, fetch: string -> FetchOutcome): (r: seq<SourceResult>)
    ensures |r| == |urls|
    ensures forall i :: 0 <= i < |urls| ==> r[i].url == urls[i]
    ensures forall i :: 0 <= i < |urls| ==> (r[i].Success? <==> fetch(urls[i]).Fetched?)
  {
    seq(|urls|, i requires 0 <= i < |urls| => Scrape(urls[i], fetch(urls[i])))
  }

  /** `scrape_multiple_sources`: scrape each URL in turn and collect the records. */
  method ScrapeMultipleSources(urls: seq<string>, fetch: string -> FetchOutcome)
    returns (results: seq<SourceResult>)
    ensures results == ScrapedRecords(urls, fetch)
  {
    results := [];
    for i := 0 to |urls|
      invariant |results| == i
      invariant forall k :: 0 <= k < i ==> results[k] == Scrape(urls[k], fetch(urls[k]))
    {
      var result := ScrapeStaticUrl(urls[i], fetch(urls[i]));
      results := results + [result];
    }
  }
}
