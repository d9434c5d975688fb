/** The prompt helpers of the image generation tool in src/tools/mod.rs:
    wrapping a prompt in fixed style words, and picking the drawing subject
    out of a request by keyword. The image, speech and music HTTP clients of
    the same file are outside the model. */
module Tools {
  import opened Wrappers
  import opened Text

  const STYLE_PREFIX := "High quality, detailed illustration of "
  const STYLE_SUFFIX := ". Digital art, vibrant colors, professional artwork."

  /** `optimize_prompt`: the trimmed prompt between the fixed style words. */
  function OptimizePrompt(prompt: string): (r: string)
    ensures StartsWith(r, STYLE_PREFIX) && EndsWith(r, STYLE_SUFFIX)
    ensures |r| == |STYLE_PREFIX| + |Trim(prompt)| + |STYLE_SUFFIX|
    ensures r[|STYLE_PREFIX|..|r| - |STYLE_SUFFIX|] == Trim(prompt)
  {
    var r := STYLE_PREFIX + Trim(prompt) + STYLE_SUFFIX;
    ConcatOccurs(STYLE_PREFIX, Trim(prompt), STYLE_SUFFIX);
    r
  }

  /** Two prompts give the same result exactly when they agree once trimmed. */
  lemma OptimizePromptSameIffTrimmed(a: string, b: string)
    ensures OptimizePrompt(a) == OptimizePrompt(b) <==> Trim(a) == Trim(b)
  {
    if OptimizePrompt(a) == OptimizePrompt(b) {
      var r := OptimizePrompt(a);
      assert Trim(a) == r[|STYLE_PREFIX|..|r| - |STYLE_SUFFIX|] == Trim(b);
    }
  }

  /** Optimising an already optimised prompt's subject changes nothing. */
  lemma OptimizeTrimmed(prompt: string)
    ensures OptimizePrompt(Trim(prompt)) == OptimizePrompt(prompt)
  {
    TrimIdempotent(prompt);
  }

  /** The drawing keywords, in the order they are tried. */
  const DRAWING_KEYWORDS: seq<string> :=
    ["画", "绘", "画一", "画个", "画只", "画张", "画幅", "draw", "paint", "create", "make", "generate"]

  /** The index of the first keyword from position k on that the text contains. */
  function FirstContained(text: string, keywords: seq<string>, k: nat): (r: Option<nat>)
    requires k <= |keywords|
    ensures r.Some? ==> k <= r.value < |keywords| && Contains(text, keywords[r.value])
    ensures r.Some? ==> forall j :: k <= j < r.value ==> !Contains(text, keywords[j])
    ensures r.None? ==> forall j :: k <= j < |keywords| ==> !Contains(text, keywords[j])
    decreases |keywords| - k
  {
    if k == |keywords| then None
    else if Contains(text, keywords[k]) then Some(k)
    else FirstContained(text, keywords, k + 1)
  }

  /** The text after the first occurrence of a keyword it contains, trimmed. */
  function CutAfter(text: string, keyword: string): (r: string)
    requires Contains(text, keyword)
    ensures var pos := IndexOf(text, keyword).value;
      && OccursAt(text, keyword, pos)
      && (forall q :: 0 <= q < pos ==> !OccursAt(text, keyword, q))
      && r == Trim(text[pos + |keyword|..])
    ensures Trimmed(r)
  {
    var pos := IndexOf(text, keyword).value;
    Trim(text[pos + |keyword|..])
  }

  /** The search of `extract_image_prompt` over a keyword list: the text cut
      after the first keyword (in list order) that occurs, or the text
      unchanged when none does. */
  function ExtractWith(text: string, keywords: seq<string>): (r: Option<string>)
    ensures r.Some?
    ensures FirstContained(text, keywords, 0).None? ==> r == Some(text)
    ensures FirstContained(text, keywords, 0).Some? ==>
      r == Some(CutAfter(text, keywords[FirstContained(text, keywords, 0).value]))
  {
    match FirstContained(text, keywords, 0)
    case None => Some(text)
    case Some(j) => Some(CutAfter(text, keywords[j]))
  }

  /** `extract_image_prompt`. */
  function ExtractImagePrompt(text: string): (r: Option<string>)
    ensures r.Some?
  {
    ExtractWith(text, DRAWING_KEYWORDS)
  }

  /** With no keyword in the text, the text is returned as it is, untrimmed. */
  lemma NoKeywordKeepsText(text: string)
    requires forall j :: 0 <= j < |DRAWING_KEYWORDS| ==> !Contains(text, DRAWING_KEYWORDS[j])
    ensures ExtractImagePrompt(text) == Some(text)
  {
  }

  /** A keyword found is cut off together with everything before it, and the rest trimmed. */
  lemma KeywordFoundTrimmed(text: string)
    requires exists j :: 0 <= j < |DRAWING_KEYWORDS| && Contains(text, DRAWING_KEYWORDS[j])
    ensures Trimmed(ExtractImagePrompt(text).value)
  {
    var j :| 0 <= j < |DRAWING_KEYWORDS| && Contains(text, DRAWING_KEYWORDS[j]);
    assert FirstContained(text, DRAWING_KEYWORDS, 0).Some?;
  }

  /** A text containing a keyword contains every part of it. */
  lemma ContainsPart(text: string, keyword: string, part: string)
    requires Contains(text, keyword) && StartsWith(keyword, part)
    ensures Contains(text, part)
  {
    ContainsIffOccurs(text, keyword);
    var k :| OccursAt(text, keyword, k);
    assert text[k..k + |part|] == keyword[..|part|];
    assert OccursAt(text, part, k);
    ContainsIffOccurs(text, part);
  }

  /** Keywords are tried in list order, not by where they occur: "画" comes
      first, so a request with "画一" (or any keyword starting with "画") is
      cut after the first "画", wherever "画一" stands. */
  lemma FirstKeywordShadows(text: string, j: nat)
    requires 2 <= j <= 6 && Contains(text, DRAWING_KEYWORDS[j])
    ensures Contains(text, "画")
    ensures ExtractImagePrompt(text) == Some(CutAfter(text, "画"))
  {
    assert StartsWith(DRAWING_KEYWORDS[j], "画");
    ContainsPart(text, DRAWING_KEYWORDS[j], "画");
    assert FirstContained(text, DRAWING_KEYWORDS, 0) == Some(0);
  }
}
