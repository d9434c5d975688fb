/** The reply parsing of the danmaku agents in src/agents/mod.rs: reading
    the intent label the analyser answers, and splitting the drawing agent's
    reply into the text for the audience and the image prompt. The prompts
    and the model calls themselves are outside the model. */
module Agents {
  import opened Wrappers
  import opened Text
  import opened Models

  /** `analyze_intent`: the trimmed reply read as an intent label. */
  function AnalyzeIntent(reply: string): (t: IntentType)
    ensures t != OtherCommand ==> Trim(reply) == AsStr(t)
  {
    FromStr(Trim(reply))
  }

  /** A label the model surrounds with whitespace is still recognised. */
  lemma PaddedAnswerRecognised(w1: string, t: IntentType, w2: string)
    requires IsBlank(w1) && IsBlank(w2)
    ensures AnalyzeIntent(w1 + AsStr(t) + w2) == t
  {
    var name := AsStr(t);
    assert !IsWhitespace(name[0]) && !IsWhitespace(name[|name| - 1]);
    TrimAround(w1, name, w2);
    FromStrAsStr(t);
  }

  /** Any answer other than one of the three labels, after trimming, is `OtherCommand`. */
  lemma UnknownAnswerIsOther(reply: string)
    requires Trim(reply) != CONVERSATION_LABEL && Trim(reply) != SINGING_LABEL && Trim(reply) != DRAWING_LABEL
    ensures AnalyzeIntent(reply) == OtherCommand
  {
  }

  /** The marker before the image prompt in the drawing agent's reply. */
  const IMAGE_MARKER := "图像描述："
  /** The label before the text for the audience. */
  const REPLY_LABEL := "回应："
  const FALLBACK_PREFIX := "Drawing based on: "

  /** The parsed reply of `generate_drawing_response`. */
  datatype DrawingResponse = DrawingResponse(text: string, imagePrompt: string)

  /** The reply made of the pieces between markers: with exactly two
      pieces, the first without the label and trimmed is the text and the
      second trimmed is the prompt; otherwise the reply is kept whole and the
      prompt falls back to the request. */
  function Assemble(parts: seq<string>, reply: string, content: string, replyLabel: string): (r: DrawingResponse)
    requires |replyLabel| > 0
    ensures |parts| != 2 ==> r == DrawingResponse(reply, FALLBACK_PREFIX + content)
    ensures |parts| == 2 ==> r.text == Trim(Replace(parts[0], replyLabel, ""))
    ensures |parts| == 2 ==> Trimmed(r.imagePrompt)
  {
    if |parts| == 2 then
      DrawingResponse(Trim(Replace(parts[0], replyLabel, "")), Trim(parts[1]))
    else
      DrawingResponse(reply, FALLBACK_PREFIX + content)
  }

  /** Splitting a reply at a marker. */
  function SplitReply(reply: string, content: string, marker: string, replyLabel: string): DrawingResponse
    requires |marker| > 0 && |replyLabel| > 0
  {
    Assemble(Split(reply, marker), reply, content, replyLabel)
  }

  /** `generate_drawing_response` given the model's reply. */
  function ParseDrawingResponse(reply: string, content: string): DrawingResponse {
    SplitReply(reply, content, IMAGE_MARKER, REPLY_LABEL)
  }

  /** A marker that occurs once cuts a sequence into the parts before and after it. */
  lemma SplitOnce<T>(s: seq<T>, marker: seq<T>, i: nat)
    requires |marker| > 0 && IndexOf(s, marker) == Some(i) && !Contains(s[i + |marker|..], marker)
    ensures Split(s, marker) == [s[..i], s[i + |marker|..]]
  {
    var rest := s[i + |marker|..];
    assert Split(rest, marker) == [rest];
  }

  /** A reply with the marker exactly once is split there: the prompt is
      what follows the marker, trimmed. */
  lemma MarkerOnce(reply: string, content: string, marker: string, replyLabel: string, i: nat)
    requires |marker| > 0 && |replyLabel| > 0
    requires IndexOf(reply, marker) == Some(i)
    requires !Contains(reply[i + |marker|..], marker)
    ensures SplitReply(reply, content, marker, replyLabel)
      == DrawingResponse(Trim(Replace(reply[..i], replyLabel, "")), Trim(reply[i + |marker|..]))
  {
    SplitOnce(reply, marker, i);
  }

  /** Without the marker the reply is kept whole. */
  lemma MarkerAbsent(reply: string, content: string, marker: string, replyLabel: string)
    requires |marker| > 0 && |replyLabel| > 0
    requires !Contains(reply, marker)
    ensures SplitReply(reply, content, marker, replyLabel) == DrawingResponse(reply, FALLBACK_PREFIX + content)
  {
    assert Split(reply, marker) == [reply];
  }

  /** With the marker twice or more the reply is also kept whole. */
  lemma MarkerRepeated(reply: string, content: string, marker: string, replyLabel: string, i: nat)
    requires |marker| > 0 && |replyLabel| > 0
    requires IndexOf(reply, marker) == Some(i)
    requires Contains(reply[i + |marker|..], marker)
    ensures SplitReply(reply, content, marker, replyLabel) == DrawingResponse(reply, FALLBACK_PREFIX + content)
  {
    var rest := reply[i + |marker|..];
    var j :| IndexOf(rest, marker) == Some(j);
    assert |Split(rest, marker)| >= 2 by {
      assert Split(rest, marker) == [rest[..j]] + Split(rest[j + |marker|..], marker);
    }
    assert |Split(reply, marker)| >= 3 by {
      assert Split(reply, marker) == [reply[..i]] + Split(rest, marker);
    }
  }
}
