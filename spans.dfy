/**
 * Match spans as `re.finditer` reports them, the line number of a match,
 * and the concrete search used for the table entries that are plain literals.
 */
module Spans {

  /** One match: the half-open character range `[start, stop)` of the text. */
  datatype Span = Span(start: nat, stop: nat)

  /** What `re.finditer` guarantees: in-bounds matches, left to right, not overlapping. */
  predicate WellFormed(spans: seq<Span>, text: string) {
    (forall i :: 0 <= i < |spans| ==> spans[i].start <= spans[i].stop <= |text|) &&
    (forall i, j :: 0 <= i < j < |spans| ==> spans[i].stop <= spans[j].start)
  }

  /** A span followed by well-formed spans that start at or after its end is well formed. */
  lemma WellFormedCons(first: Span, rest: seq<Span>, text: string)
    requires first.start <= first.stop <= |text| && WellFormed(rest, text)
    requires forall s :: s in rest ==> first.stop <= s.start
    ensures WellFormed([first] + rest, text)
  {
    var r := [first] + rest;
    forall i, j | 0 <= i < j < |r|
      ensures r[i].stop <= r[j].start
    {
      assert r[j] == rest[j - 1] && rest[j - 1] in rest;
      if i > 0 {
        assert r[i] == rest[i - 1];
      }
    }
  }

  /** The number of '\n' characters in `s`. */
  function CountNewlines(s: string): (n: nat)
    ensures n <= |s|
  {
    if s == [] then 0 else (if s[0] == '\n' then 1 else 0) + CountNewlines(s[1..])
  }

  lemma {:induction false} CountNewlinesConcat(a: string, b: string)
    ensures CountNewlines(a + b) == CountNewlines(a) + CountNewlines(b)
  {
    if a == [] {
      assert a + b == b;
    } else {
      assert (a + b)[0] == a[0];
      assert (a + b)[1..] == a[1..] + b;
      CountNewlinesConcat(a[1..], b);
    }
  }

  /** `script[:pos].count('\n') + 1`: the 1-based line on which position `pos` lies. */
  function LineAt(text: string, pos: nat): (line: int)
    requires pos <= |text|
    ensures 1 <= line <= 1 + CountNewlines(text)
  {
    assert text == text[..pos] + text[pos..];
    CountNewlinesConcat(text[..pos], text[pos..]);
    CountNewlines(text[..pos]) + 1
  }

  /** Later positions never lie on earlier lines, and a position right after a newline starts the next line. */
  lemma LineAtMonotone(text: string, p: nat, q: nat)
    requires p <= q <= |text|
    ensures LineAt(text, p) <= LineAt(text, q)
    ensures q == p + 1 && text[p] == '\n' ==> LineAt(text, q) == LineAt(text, p) + 1
  {
    assert text[..q] == text[..p] + text[p..q];
    CountNewlinesConcat(text[..p], text[p..q]);
    if q == p + 1 {
      assert text[p..q] == [text[p]];
    }
  }

  /**
   * Case-insensitive comparison as Python's `re` performs it against an
   * ASCII pattern character: ASCII letters compare without case, and the
   * dotless i, the dotted capital I, the long s and the Kelvin sign compare
   * equal to i, i, s and k.
   */
  function FoldCase(c: char): (r: char)
    ensures 'A' <= c <= 'Z' ==> r == c + ('a' - 'A')
    ensures c == '\U{0130}' || c == '\U{0131}' ==> r == 'i'
  {
    if 'A' <= c <= 'Z' then c + ('a' - 'A')
    else if c == '\U{0130}' || c == '\U{0131}' then 'i'
    else if c == '\U{017F}' then 's'
    else if c == '\U{212A}' then 'k'
    else c
  }

  /** Character equality, with or without IGNORECASE. */
  predicate SameChar(t: char, p: char, ignoreCase: bool) {
    if ignoreCase then FoldCase(t) == FoldCase(p) else t == p
  }

  /** The literal `lit` occurs in `text` at `pos`. */
  predicate OccursAt(text: string, lit: string, pos: nat, ignoreCase: bool) {
    pos + |lit| <= |text| &&
    forall j :: 0 <= j < |lit| ==> SameChar(text[pos + j], lit[j], ignoreCase)
  }

  /** Without IGNORECASE an occurrence is the literal itself. */
  lemma ExactOccurrence(text: string, lit: string, pos: nat)
    requires OccursAt(text, lit, pos, false)
    ensures text[pos..pos + |lit|] == lit
  {
    var w := text[pos..pos + |lit|];
    forall j | 0 <= j < |lit|
      ensures w[j] == lit[j]
    {
      assert SameChar(text[pos + j], lit[j], false);
    }
  }

  /**
   * `re.finditer` for a pattern that is the plain literal `lit`, scanning
   * from `from`: the leftmost occurrence, then the search resumes where it ended.
   */
  function LiteralSpans(text: string, lit: string, ignoreCase: bool, from: nat): (r: seq<Span>)
    requires lit != []
    ensures forall i :: 0 <= i < |r| ==> from <= r[i].start && r[i].stop == r[i].start + |lit| <= |text| &&
                                         OccursAt(text, lit, r[i].start, ignoreCase)
    decreases |text| - from
  {
    if from + |lit| > |text| then []
    else if OccursAt(text, lit, from, ignoreCase) then
      [Span(from, from + |lit|)] + LiteralSpans(text, lit, ignoreCase, from + |lit|)
    else LiteralSpans(text, lit, ignoreCase, from + 1)
  }

  /** Every reported span is an occurrence of the literal, the spans are well formed, and none starts before `from`. */
  lemma {:induction false} LiteralSpansSound(text: string, lit: string, ignoreCase: bool, from: nat)
    requires lit != []
    ensures WellFormed(LiteralSpans(text, lit, ignoreCase, from), text)
    ensures forall s :: s in LiteralSpans(text, lit, ignoreCase, from) ==>
              from <= s.start && s.stop == s.start + |lit| && OccursAt(text, lit, s.start, ignoreCase)
    decreases |text| - from
  {
    if from + |lit| <= |text| {
      if OccursAt(text, lit, from, ignoreCase) {
        var rest := LiteralSpans(text, lit, ignoreCase, from + |lit|);
        LiteralSpansSound(text, lit, ignoreCase, from + |lit|);
        WellFormedCons(Span(from, from + |lit|), rest, text);
      } else {
        LiteralSpansSound(text, lit, ignoreCase, from + 1);
      }
    }
  }

  /**
   * Every occurrence at or after `from` is reported or overlaps a reported
   * span: the search misses no occurrence except inside an earlier match.
   */
  lemma {:induction false} LiteralSpansComplete(text: string, lit: string, ignoreCase: bool, from: nat, pos: nat)
    requires lit != []
    requires from <= pos && OccursAt(text, lit, pos, ignoreCase)
    ensures exists s :: s in LiteralSpans(text, lit, ignoreCase, from) && s.start <= pos < s.stop
    decreases |text| - from
  {
    var spans := LiteralSpans(text, lit, ignoreCase, from);
    if OccursAt(text, lit, from, ignoreCase) {
      assert spans[0] == Span(from, from + |lit|);
      if pos >= from + |lit| {
        LiteralSpansComplete(text, lit, ignoreCase, from + |lit|, pos);
        var s :| s in LiteralSpans(text, lit, ignoreCase, from + |lit|) && s.start <= pos < s.stop;
        assert s in spans;
      } else {
        assert spans[0] in spans;
      }
    } else {
      assert pos != from;
      LiteralSpansComplete(text, lit, ignoreCase, from + 1, pos);
    }
  }
}
