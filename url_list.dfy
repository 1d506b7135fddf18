/**
 * Parsing the user's URL box: split on newlines, strip each line and keep the
 * lines that are not blank, in their input order.
 */
module UrlList {
  import opened Text

  /** The comprehension `[l.strip() for l in lines if l.strip()]`. */
  function CleanLines(lines: seq<string>): (r: seq<string>)
    ensures |r| <= |lines|
    ensures forall k :: 0 <= k < |r| ==> r[k] != "" && IsTrimmed(r[k])
  {
    if lines == [] then []
    else
      var t := Strip(lines[0]);
      (if t == "" then [] else [t]) + CleanLines(lines[1..])
  }

  /** The URL list: every newline-separated line of `text`, stripped, blank ones dropped. */
  function ParseUrls(text: string): (r: seq<string>)
    ensures forall k :: 0 <= k < |r| ==> r[k] != "" && IsTrimmed(r[k])
  {
    CleanLines(Split(text, '\n'))
  }

  /** Every parsed URL is non-empty and equal to its own `strip()`. */
  lemma ParsedUrlsAreStripped(text: string)
    ensures forall k :: 0 <= k < |ParseUrls(text)| ==>
      ParseUrls(text)[k] != "" && Strip(ParseUrls(text)[k]) == ParseUrls(text)[k]
  {
    forall k | 0 <= k < |ParseUrls(text)|
      ensures Strip(ParseUrls(text)[k]) == ParseUrls(text)[k]
    {
      TrimmedIsFixpoint(ParseUrls(text)[k]);
    }
  }

  /** The indices from `from` on of the lines that are not blank, ascending. */
  function NonBlankIndices(lines: seq<string>, from: nat): (r: seq<nat>)
    requires from <= |lines|
    ensures forall k :: 0 <= k < |r| ==> from <= r[k] < |lines|
    ensures forall k, m :: 0 <= k < m < |r| ==> r[k] < r[m]
    ensures forall i :: from <= i < |lines| ==> (i in r <==> Strip(lines[i]) != "")
    decreases |lines| - from
  {
    if from == |lines| then []
    else
      var rest := NonBlankIndices(lines, from + 1);
      if Strip(lines[from]) == "" then rest else [from] + rest
  }

  /**
   * The kept lines are exactly the stripped non-blank lines, in input order:
   * the k-th URL is the stripped k-th non-blank line, so no non-blank line is
   * lost and none is reordered.
   */
  lemma {:induction false} CleanLinesKeepsOrder(lines: seq<string>, from: nat)
    requires from <= |lines|
    ensures var r, idx := CleanLines(lines[from..]), NonBlankIndices(lines, from);
      |r| == |idx| && forall k :: 0 <= k < |r| ==> r[k] == Strip(lines[idx[k]])
    decreases |lines| - from
  {
    if from < |lines| {
      CleanLinesKeepsOrder(lines, from + 1);
      var r, rest := CleanLines(lines[from..]), CleanLines(lines[from + 1..]);
      var idx, restIdx := NonBlankIndices(lines, from), NonBlankIndices(lines, from + 1);
      assert lines[from..][1..] == lines[from + 1..];
      var t := Strip(lines[from]);
      if t == "" {
        assert r == rest && idx == restIdx;
      } else {
        assert r == [t] + rest && idx == [from] + restIdx;
        forall k | 0 <= k < |r| ensures r[k] == Strip(lines[idx[k]]) {
          if k > 0 {
            assert r[k] == rest[k - 1] && idx[k] == restIdx[k - 1];
          }
        }
      }
    }
  }

  /** The URL-box parse in terms of the lines of the text. */
  lemma ParseUrlsKeepsOrder(text: string)
    ensures var lines := Split(text, '\n');
      var r, idx := ParseUrls(text), NonBlankIndices(lines, 0);
      |r| == |idx| && (forall k :: 0 <= k < |r| ==> r[k] == Strip(lines[idx[k]]))
      && (forall k :: 0 <= k < |r| ==> '\n' !in r[k])
  {
    var lines := Split(text, '\n');
    CleanLinesKeepsOrder(lines, 0);
    assert lines[0..] == lines;
    forall k | 0 <= k < |ParseUrls(text)| ensures '\n' !in ParseUrls(text)[k] {
      var i := NonBlankIndices(lines, 0)[k];
      var r := ParseUrls(text)[k];
      assert '\n' !in lines[i];
      StripIsSlice(lines[i]);
      var j :| StrippedAt(lines[i], r, j);
      assert forall c :: c in r ==> c in lines[i];
    }
  }
}
