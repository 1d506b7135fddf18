/**
 * Locating the JSON payload in the model's answer (`extract_json_from_response`).
 *
 * The two regular expressions are given their matching semantics directly:
 * `FenceAt` is a match of ```json\n(.*?)\n``` (DOTALL) and `BraceSpanAt` a
 * match of \{.*\} (DOTALL). A search returns the match with the leftmost
 * start; at that start the lazy body is the shortest and the greedy one the
 * longest. `FindFence` and `FindBraces` compute those matches with plain index
 * searches, and their contracts say they are the regex matches.
 *
 * `json.loads` is the parameter `parse`: `None` stands for the exception it
 * raises on malformed input, which the source catches and turns into `None`.
 */
module Extraction {
  import opened Wrappers
  import opened Text
  import opened Json

  const Opener: string := "```json\n"
  const Closer: string := "\n```"

  /** A match of the fenced pattern: opener at `p`, the body `text[p + 8..e]`, closer at `e`. */
  predicate FenceAt(text: string, p: int, e: int) {
    0 <= p && p + |Opener| <= e && OccursAt(text, Opener, p) && OccursAt(text, Closer, e)
  }

  /** A match of the brace pattern: `{` at `p`, `}` at `q`, anything between. */
  predicate BraceSpanAt(text: string, p: int, q: int) {
    0 <= p < q < |text| && text[p] == '{' && text[q] == '}'
  }

  /** The match `re.search` finds for the fenced pattern: leftmost start, then shortest body. */
  function FindFence(text: string): (r: Option<(nat, nat)>)
    ensures r.Some? ==> FenceAt(text, r.value.0, r.value.1)
    ensures r.Some? ==> forall p, e :: FenceAt(text, p, e) ==>
      r.value.0 < p || (r.value.0 == p && r.value.1 <= e)
    ensures r.None? ==> forall p, e :: !FenceAt(text, p, e)
  {
    match FindFrom(text, Opener, 0)
    case None => None
    case Some(p) =>
      match FindFrom(text, Closer, p + |Opener|)
      case None => None
      case Some(e) => Some((p, e))
  }

  /** The match `re.search` finds for the brace pattern: first `{`, then the last `}` after it. */
  function FindBraces(text: string): (r: Option<(nat, nat)>)
    ensures r.Some? ==> BraceSpanAt(text, r.value.0, r.value.1)
    ensures r.Some? ==> forall p, q :: BraceSpanAt(text, p, q) ==> r.value.0 <= p && q <= r.value.1
    ensures r.None? ==> forall p, q :: !BraceSpanAt(text, p, q)
  {
    match FindFirst(text, '{')
    case None => None
    case Some(p) =>
      match FindLast(text, '}')
      case None => None
      case Some(q) => if p < q then Some((p, q)) else None
  }

  /**
   * `extract_json_from_response`: parse the body of the fenced block when
   * there is one (a failed parse is final), else the brace span, else nothing.
   */
  function ExtractJson(text: string, parse: string -> Option<Json>): Option<Json> {
    match FindFence(text)
    case Some((p, e)) => parse(text[p + |Opener|..e])
    case None =>
      match FindBraces(text)
      case Some((p, q)) => parse(text[p..q + 1])
      case None => None
  }

  /**
   * When the fenced pattern matches, the result is the parse of the leftmost,
   * shortest body, whatever that parse gives: a failed parse yields `None`
   * and the brace search is not tried.
   */
  lemma ExtractFromFence(text: string, p: nat, e: nat, parse: string -> Option<Json>)
    requires FenceAt(text, p, e)
    requires forall p', e' :: FenceAt(text, p', e') ==> p < p' || (p == p' && e <= e')
    ensures ExtractJson(text, parse) == parse(text[p + |Opener|..e])
  {
    var m := FindFence(text);
    assert m.Some?;
    assert m.value == (p, e);
  }

  /** Without a fenced match, the result is the parse of the first-`{`-to-last-`}` span. */
  lemma ExtractFromBraces(text: string, p: nat, q: nat, parse: string -> Option<Json>)
    requires forall p', e' :: !FenceAt(text, p', e')
    requires BraceSpanAt(text, p, q)
    requires forall p', q' :: BraceSpanAt(text, p', q') ==> p <= p' && q' <= q
    ensures ExtractJson(text, parse) == parse(text[p..q + 1])
  {
    var m := FindBraces(text);
    assert m.Some?;
    assert m.value == (p, q);
  }

  /** With neither pattern matching, there is no payload. */
  lemma ExtractNothing(text: string, parse: string -> Option<Json>)
    requires forall p, e :: !FenceAt(text, p, e)
    requires forall p, q :: !BraceSpanAt(text, p, q)
    ensures ExtractJson(text, parse) == None
  {
  }

  /**
   * An answer that is exactly one fenced JSON block gives the parse of its
   * body: no data is lost between the model's block and the parser.
   */
  lemma FencedBlockRoundTrip(body: string, after: string, parse: string -> Option<Json>)
    requires forall i :: 0 <= i < |body| ==> !OccursAt(body + Closer, Closer, i)
    ensures ExtractJson(Opener + body + Closer + after, parse) == parse(body)
  {
    var text := Opener + body + Closer + after;
    var e := |Opener| + |body|;
    assert text == Opener + (body + Closer + after);
    assert text[e..e + |Closer|] == Closer;
    assert text[..|Opener|] == Opener;
    assert FenceAt(text, 0, e);
    forall p', e' | FenceAt(text, p', e') ensures 0 < p' || (0 == p' && e <= e') {
      if p' == 0 && e' < e {
        var i := e' - |Opener|;
        assert text[e'..e' + |Closer|] == (body + Closer)[i..i + |Closer|];
        assert OccursAt(body + Closer, Closer, i);
        assert false;
      }
    }
    ExtractFromFence(text, 0, e, parse);
    assert text[|Opener|..e] == body;
  }

  lemma OpenerStartsWithBacktick(text: string, p: int)
    requires OccursAt(text, Opener, p)
    ensures text[p] == '`'
  {
    assert text[p] == text[p..p + |Opener|][0];
  }

  lemma CloserStartsWithNewline(s: string, i: int)
    requires OccursAt(s, Closer, i)
    ensures s[i] == '\n'
  {
    assert s[i] == s[i..i + |Closer|][0];
  }

  /** A fenced block whose body is one line (a compact JSON text) gives the parse of that line. */
  lemma OneLineBlockRoundTrip(body: string, after: string, parse: string -> Option<Json>)
    requires '\n' !in body
    ensures ExtractJson(Opener + body + Closer + after, parse) == parse(body)
  {
    forall i | 0 <= i < |body| ensures !OccursAt(body + Closer, Closer, i) {
      if OccursAt(body + Closer, Closer, i) {
        CloserStartsWithNewline(body + Closer, i);
        assert false;
      }
    }
    FencedBlockRoundTrip(body, after, parse);
  }

  /** Plain prose, with no backtick and no `{`, holds no payload. */
  lemma PlainProseHasNoPayload(text: string, parse: string -> Option<Json>)
    requires '`' !in text && '{' !in text
    ensures ExtractJson(text, parse) == None
  {
    forall p, e ensures !FenceAt(text, p, e) {
      if OccursAt(text, Opener, p) {
        OpenerStartsWithBacktick(text, p);
        assert false;
      }
    }
    ExtractNothing(text, parse);
  }
}
