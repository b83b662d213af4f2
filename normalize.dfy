/**
 * The normaliser applied to every reply text:
 * `text.trim().replace(/^["']|["']$/g, '')`.
 * The regular expression is modelled by what a global replace does with
 * it, a left-to-right scan dropping every position where one of the two
 * alternatives matches; the contract of `ReplaceFrom` states that this removes at
 * most the first and at most the last character, each independently.
 */
module Normalizer {
  import opened JsText

  /** The two straight quote characters of the class `["']`. */
  predicate IsQuote(c: char) { c == '"' || c == '\'' }

  /**
   * Whether `/^["']|["']$/` matches at position `p` of `t`: a quote that is
   * the first character (`^`) or the last one (`$`, no multiline flag).
   * Both alternatives match exactly one character.
   */
  predicate MatchesAt(t: string, p: nat)
    requires p < |t|
  {
    IsQuote(t[p]) && (p == 0 || p == |t| - 1)
  }

  /**
   * The global replace from position `p` on: matched characters are
   * dropped, the rest copied. Past the first position only a final quote
   * matches; from the start, the replace keeps exactly
   * `t[FrontCut(t)..BackEnd(t)]`.
   */
  function ReplaceFrom(t: string, p: nat): (r: string)
    requires p <= |t|
    ensures 1 <= p ==> r == (if p < |t| && IsQuote(t[|t| - 1]) then t[p..|t| - 1] else t[p..])
    ensures p == 0 ==> r == t[FrontCut(t)..BackEnd(t)]
    decreases |t| - p
  {
    if p == |t| then []
    else if MatchesAt(t, p) then ReplaceFrom(t, p + 1)
    else
      assert p == 0 ==> t[0..BackEnd(t)] == [t[0]] + t[1..BackEnd(t)];
      [t[p]] + ReplaceFrom(t, p + 1)
  }

  /**
   * `t.replace(/^["']|["']$/g, '')`: the text between an optional leading
   * quote and an optional trailing quote, each end decided on its own.
   */
  function StripEdgeQuotes(t: string): (r: string)
    ensures r == t[FrontCut(t)..BackEnd(t)]
  {
    ReplaceFrom(t, 0)
  }

  /** The normaliser: the trimmed text with its edge quotes stripped. */
  function Normalize(s: string): (r: string)
    ensures r == Trim(s)[FrontCut(Trim(s))..BackEnd(Trim(s))]
  {
    StripEdgeQuotes(Trim(s))
  }

  /** 1 when the first character is a quote, else 0. */
  function FrontCut(t: string): nat {
    if |t| > 0 && IsQuote(t[0]) then 1 else 0
  }

  /** Where the kept part ends: before a last quote that the front cut did not take. */
  function BackEnd(t: string): (e: nat)
    ensures FrontCut(t) <= e <= |t|
  {
    if |t| > FrontCut(t) && IsQuote(t[|t| - 1]) then |t| - 1 else |t|
  }

  /**
   * The result is a contiguous piece of the trimmed text, at most two
   * characters shorter; the first character goes exactly when it is a
   * quote, and so does the last one of what remains.
   */
  lemma NormalizeShape(s: string)
    ensures var t, r := Trim(s), Normalize(s);
      && |t| - 2 <= |r| <= |t|
      && (r == t[..|r|] || (1 + |r| <= |t| && r == t[1..1 + |r|]))
      && (|t| > 0 && !IsQuote(t[0]) ==> r == t[..|r|])
      && (|t| > 0 && IsQuote(t[0]) ==> |r| < |t| && r == t[1..1 + |r|])
      && (|t| > 0 && !IsQuote(t[|t| - 1]) ==> r == t[|t| - |r|..])
      && (|t| > 1 && IsQuote(t[|t| - 1]) ==> |r| < |t| && r == t[|t| - 1 - |r|..|t| - 1])
  {
  }

  /** Text with no space and no quote at either end passes through unchanged. */
  lemma NormalizeKeepsPlainText(s: string)
    requires s != [] && !IsJsSpace(s[0]) && !IsJsSpace(s[|s| - 1])
    requires !IsQuote(s[0]) && !IsQuote(s[|s| - 1])
    ensures Normalize(s) == s
  {
    TrimNoEdgeSpace(s);
  }

  /** Quotes need not match: a lone opening quote is dropped. */
  lemma LoneOpeningQuoteStripped()
    ensures Normalize("\"x") == "x"
  {
    var t := "\"x";
    TrimNoEdgeSpace(t);
    assert FrontCut(t) == 1 && BackEnd(t) == 2;
    assert t[1..2] == "x";
  }

  /** Each end is handled on its own: a lone closing quote is dropped. */
  lemma LoneClosingQuoteStripped()
    ensures Normalize("x'") == "x"
  {
    var t := "x'";
    TrimNoEdgeSpace(t);
    assert FrontCut(t) == 0 && BackEnd(t) == 1;
    assert t[0..1] == "x";
  }

  /** The two ends need not hold the same quote character. */
  lemma MixedQuotesStripped()
    ensures Normalize("'x\"") == "x"
  {
    var t := "'x\"";
    TrimNoEdgeSpace(t);
    assert FrontCut(t) == 1 && BackEnd(t) == 2;
    assert t[1..2] == "x";
  }

  /** Spaces are trimmed before the quotes are looked at. */
  lemma SpacesTrimmedFirst()
    ensures Normalize(" \"x\"\n") == "x"
  {
    var s, m := " \"x\"\n", "\"x\"";
    assert TrimStart(s[1..]) == s[1..];
    assert TrimStart(s) == s[1..];
    assert TrimEnd(s[1..][..3]) == m;
    assert TrimEnd(s[1..]) == m;
  }

  /** Curly quotes are not in the class and stay. */
  lemma CurlyQuotesKept()
    ensures Normalize("\U{201C}x\U{201D}") == "\U{201C}x\U{201D}"
  {
    NormalizeKeepsPlainText("\U{201C}x\U{201D}");
  }

  /** Spaces inside the quotes survive. */
  lemma InnerSpacesKept()
    ensures Normalize("\" x \"") == " x "
  {
    var t := "\" x \"";
    TrimNoEdgeSpace(t);
    assert FrontCut(t) == 1 && BackEnd(t) == 4;
    assert t[1..4] == " x ";
  }

  /** A pair of quotes around the text is dropped. */
  lemma QuotedTextUnquoted()
    ensures Normalize("\"x\"") == "x"
  {
    var u := "\"x\"";
    TrimNoEdgeSpace(u);
    assert FrontCut(u) == 1 && BackEnd(u) == 2;
    assert u[1..2] == "x";
  }

  /** Doubled quotes lose only their outer layer. */
  lemma DoubledQuotesHalved()
    ensures Normalize("\"\"x\"\"") == "\"x\""
  {
    var t := "\"\"x\"\"";
    TrimNoEdgeSpace(t);
    assert FrontCut(t) == 1 && BackEnd(t) == 4;
    assert t[1..4] == "\"x\"";
  }

  /** Normalising is not idempotent: doubled quotes lose one layer per pass. */
  lemma NotIdempotent()
    ensures Normalize(Normalize("\"\"x\"\"")) != Normalize("\"\"x\"\"")
  {
    DoubledQuotesHalved();
    QuotedTextUnquoted();
    assert "x" != "\"x\"" by { assert |"x"| != |"\"x\""|; }
  }

  /** A lone quote, or two quotes, normalise to the empty string. */
  lemma QuotesOnlyBecomeEmpty(s: string)
    requires Trim(s) == "\"" || Trim(s) == "'" || (|Trim(s)| == 2 && IsQuote(Trim(s)[0]) && IsQuote(Trim(s)[1]))
    ensures Normalize(s) == ""
  {
  }
}
