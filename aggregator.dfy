/**
 * Building the corpus that is sent to the language model: one block per
 * successfully scraped page, in order, each page cut to 1000 characters; once
 * the corpus passes 15000 characters a truncation marker closes it.
 */
module Aggregator {
  import opened Scraper

  const ExcerptCap: nat := 1000
  const CorpusCap: nat := 15000
  const TruncationMarker: string := "\n[Content truncated due to length limitations]"
  /** Characters a block adds around its URL and excerpt: "URL: ", "\n", "Content: ", "...\n\n". */
  const BlockOverhead: nat := 20

  /** The corpus and the number of pages it took content from. */
  datatype Corpus = Corpus(text: string, successCount: nat)

  /** `text_content[:1000]` */
  function Excerpt(text: string): (r: string)
    ensures |r| == if |text| <= ExcerptCap then |text| else ExcerptCap
    ensures r == text[..|r|]
  {
    if |text| <= ExcerptCap then text else text[..ExcerptCap]
  }

  /** The block one successful page contributes. */
  function Block(url: string, text: string): (r: string)
    ensures |r| == |url| + |Excerpt(text)| + BlockOverhead
  {
    "URL: " + url + "\n" + "Content: " + Excerpt(text) + "...\n\n"
  }

  /**
   * A block holds the page's URL after "URL: ", then "\nContent: ", then its
   * excerpt, and ends with "...\n\n".
   */
  lemma BlockLayout(url: string, text: string)
    ensures var r := Block(url, text);
      && r[..5] == "URL: " && r[5..5 + |url|] == url
      && r[5 + |url|..|url| + 15] == "\nContent: "
      && r[|url| + 15..|url| + 15 + |Excerpt(text)|] == Excerpt(text)
      && r[|r| - 5..] == "...\n\n"
  {
  }

  /** The (url, text_content) of each successful record, in order. */
  function Successes(data: seq<SourceResult>): (r: seq<(string, string)>)
    ensures |r| <= |data|
    ensures forall k :: 0 <= k < |r| ==> |r[k].0| <= MaxUrlLength(data)
  {
    if data == [] then []
    else
      (match data[0]
       case Success(url, text, _) => [(url, text)]
       case Error(_, _) => [])
      + Successes(data[1..])
  }

  /** The length of the longest URL among the records. */
  function MaxUrlLength(data: seq<SourceResult>): (r: nat)
    ensures forall i :: 0 <= i < |data| ==> |data[i].url| <= r
  {
    if data == [] then 0
    else
      var rest := MaxUrlLength(data[1..]);
      if |data[0].url| > rest then |data[0].url| else rest
  }

  /** The blocks of the given pages, concatenated in order, with no cap applied. */
  function Blocks(pages: seq<(string, string)>): string {
    if pages == [] then ""
    else Blocks(pages[..|pages| - 1]) + Block(pages[|pages| - 1].0, pages[|pages| - 1].1)
  }

  /**
   * The aggregation loop from a running text `acc` and count `count` over the
   * records still to visit. Error records are skipped; a success appends its
   * block and counts; a text longer than the cap gets the marker and ends the walk.
   */
  function AggregateFrom(acc: string, count: nat, rest: seq<SourceResult>): Corpus
    decreases |rest|
  {
    if rest == [] then Corpus(acc, count)
    else
      match rest[0]
      case Error(_, _) => AggregateFrom(acc, count, rest[1..])
      case Success(url, text, _) =>
        var next := acc + Block(url, text);
        if |next| > CorpusCap then Corpus(next + TruncationMarker, count + 1)
        else AggregateFrom(next, count + 1, rest[1..])
  }

  function Aggregate(data: seq<SourceResult>): Corpus {
    AggregateFrom("", 0, data)
  }

  /** A prefix of the pages never has longer blocks than all of them. */
  lemma {:induction false} BlocksPrefixLength(pages: seq<(string, string)>, k: nat)
    requires k <= |pages|
    ensures |Blocks(pages[..k])| <= |Blocks(pages)|
    decreases |pages|
  {
    if k < |pages| {
      var n := |pages| - 1;
      assert pages[..n][..k] == pages[..k];
      BlocksPrefixLength(pages[..n], k);
    } else {
      assert pages[..k] == pages;
    }
  }

  lemma BlocksSnoc(pages: seq<(string, string)>, page: (string, string))
    ensures Blocks(pages + [page]) == Blocks(pages) + Block(page.0, page.1)
  {
    assert (pages + [page])[..|pages|] == pages;
  }

  /**
   * `c` is what the loop leaves after walking pages whose blocks are `pages`:
   * the first `successCount` blocks, in order; all of them when their total
   * stays within the cap, and otherwise up to and including the block that
   * passed it, followed by the truncation marker. Before that last block the
   * text was within the cap.
   */
  ghost predicate Shaped(c: Corpus, pages: seq<(string, string)>) {
    c.successCount <= |pages|
    && (c.successCount == 0 || |Blocks(pages[..c.successCount - 1])| <= CorpusCap)
    && if |Blocks(pages[..c.successCount])| > CorpusCap
       then c.successCount >= 1 && c.text == Blocks(pages[..c.successCount]) + TruncationMarker
       else c.successCount == |pages| && c.text == Blocks(pages)
  }

  /** The step that passes the cap: the marker closes the text. */
  lemma TruncatingStep(done: seq<(string, string)>, page: (string, string), later: seq<(string, string)>)
    requires |Blocks(done)| <= CorpusCap
    requires |Blocks(done + [page])| > CorpusCap
    ensures Shaped(Corpus(Blocks(done + [page]) + TruncationMarker, |done| + 1), done + [page] + later)
  {
    var pages := done + [page] + later;
    assert pages[..|done| + 1] == done + [page];
    assert pages[..|done|] == done;
  }

  /** Walking no further records: all blocks of `done` are the text. */
  lemma FinalStep(done: seq<(string, string)>)
    requires |Blocks(done)| <= CorpusCap
    ensures Shaped(Corpus(Blocks(done), |done|), done)
  {
    assert done[..|done|] == done;
    if |done| > 0 {
      BlocksPrefixLength(done, |done| - 1);
    }
  }

  /**
   * The loop from a state that holds the blocks of `done` (within the cap)
   * takes the successes that follow, in order, and stops right after the
   * first block that carries the text past the cap.
   */
  lemma {:induction false} AggregateFromShape(done: seq<(string, string)>, rest: seq<SourceResult>)
    requires |Blocks(done)| <= CorpusCap
    ensures Shaped(AggregateFrom(Blocks(done), |done|, rest), done + Successes(rest))
    ensures |done| <= AggregateFrom(Blocks(done), |done|, rest).successCount
    decreases |rest|
  {
    if rest == [] {
      assert done + Successes(rest) == done;
      FinalStep(done);
    } else {
      match rest[0] {
        case Error(_, _) =>
          assert Successes(rest) == Successes(rest[1..]);
          assert AggregateFrom(Blocks(done), |done|, rest) == AggregateFrom(Blocks(done), |done|, rest[1..]);
          AggregateFromShape(done, rest[1..]);
        case Success(url, text, _) =>
          var page := (url, text);
          var done' := done + [page];
          BlocksSnoc(done, page);
          assert Successes(rest) == [page] + Successes(rest[1..]);
          assert done + Successes(rest) == done' + Successes(rest[1..]);
          if |Blocks(done')| <= CorpusCap {
            assert AggregateFrom(Blocks(done), |done|, rest) == AggregateFrom(Blocks(done'), |done'|, rest[1..]);
            AggregateFromShape(done', rest[1..]);
          } else {
            assert AggregateFrom(Blocks(done), |done|, rest) == Corpus(Blocks(done') + TruncationMarker, |done'|);
            TruncatingStep(done, page, Successes(rest[1..]));
          }
      }
    }
  }

  /**
   * What the corpus holds, stated over the successful pages alone (see `Shaped`).
   */
  lemma AggregateShape(data: seq<SourceResult>)
    ensures Shaped(Aggregate(data), Successes(data))
  {
    AggregateFromShape([], data);
    assert [] + Successes(data) == Successes(data);
  }

  /** The corpus never exceeds the cap by more than one block and the marker. */
  lemma AggregateBound(data: seq<SourceResult>)
    ensures |Aggregate(data).text|
      <= CorpusCap + MaxUrlLength(data) + ExcerptCap + BlockOverhead + |TruncationMarker|
  {
    AggregateShape(data);
    var c, pages := Aggregate(data), Successes(data);
    var n := c.successCount;
    if |Blocks(pages[..n])| > CorpusCap {
      assert pages[..n][..n - 1] == pages[..n - 1];
      assert |pages[n - 1].0| <= MaxUrlLength(data);
    }
  }

  /** No content was gathered exactly when every record is an error. */
  lemma {:induction false} NoSuccessesIffAllErrors(data: seq<SourceResult>)
    ensures Successes(data) == [] <==> forall i :: 0 <= i < |data| ==> data[i].Error?
  {
    if data != [] {
      NoSuccessesIffAllErrors(data[1..]);
      assert forall i :: 1 <= i < |data| ==> data[i] == data[1..][i - 1];
    }
  }

  /** The success count is zero exactly when no record is a success; the text is then empty. */
  lemma AggregateNoData(data: seq<SourceResult>)
    ensures Aggregate(data).successCount == 0 <==> forall i :: 0 <= i < |data| ==> data[i].Error?
    ensures Aggregate(data).successCount == 0 ==> Aggregate(data).text == ""
  {
    AggregateShape(data);
    NoSuccessesIffAllErrors(data);
    assert Successes(data)[..0] == [];
  }

  /** An error record contributes nothing, wherever it stands. */
  lemma {:induction false} ErrorRecordIgnored(acc: string, count: nat, before: seq<SourceResult>,
                                              url: string, error: string, after: seq<SourceResult>)
    ensures AggregateFrom(acc, count, before + [Error(url, error)] + after)
         == AggregateFrom(acc, count, before + after)
    decreases |before|
  {
    var xs := before + [Error(url, error)] + after;
    if before == [] {
      assert xs[0] == Error(url, error) && xs[1..] == after && before + after == after;
    } else {
      assert xs[0] == before[0] && (before + after)[0] == before[0];
      assert xs[1..] == before[1..] + [Error(url, error)] + after;
      assert (before + after)[1..] == before[1..] + after;
      match before[0] {
        case Error(_, _) =>
          ErrorRecordIgnored(acc, count, before[1..], url, error, after);
        case Success(u, t, _) =>
          var next := acc + Block(u, t);
          if |next| <= CorpusCap {
            ErrorRecordIgnored(next, count + 1, before[1..], url, error, after);
          }
      }
    }
  }

  /** The aggregation loop of `process_with_openai`, with its early exit. */
  method AggregateCorpus(data: seq<SourceResult>) returns (combinedText: string, successCount: nat)
    ensures Corpus(combinedText, successCount) == Aggregate(data)
  {
    combinedText := "";
    successCount := 0;
    var i := 0;
    while i < |data|
      invariant 0 <= i <= |data|
      invariant AggregateFrom(combinedText, successCount, data[i..]) == Aggregate(data)
    {
      assert data[i..][0] == data[i] && data[i..][1..] == data[i + 1..];
      if data[i].Success? {
        var t := data[i].textContent;
        var content := if |t| <= ExcerptCap then t else t[..ExcerptCap];
        ghost var before := combinedText;
        combinedText := combinedText + "URL: " + data[i].url + "\n";
        combinedText := combinedText + "Content: " + content + "...\n\n";
        assert combinedText == before + Block(data[i].url, t);
        successCount := successCount + 1;
        if |combinedText| > CorpusCap {
          combinedText := combinedText + TruncationMarker;
          return;
        }
      }
      i := i + 1;
    }
  }
}
