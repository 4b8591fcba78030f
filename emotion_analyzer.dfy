/** Post-processing of the emotion-analysis reply: markdown code fences are cut
    away before JSON decoding, and every failure falls back to a neutral reading. */
module EmotionAnalyzer {
  import opened Records
  import opened Text

  const Fence := "```"

  /** The text between the opening fence and the next one (or the end):
      what `content.split("```")[1]` yields once `content` starts with a fence. */
  function FenceSegment(rest: string): (seg: string)
    ensures IsPrefix(seg, rest)
    ensures forall j :: 0 <= j < |seg| ==> !OccursAt(rest, Fence, j)
    ensures !Contains(seg, Fence)
    ensures seg == rest || OccursAt(rest, Fence, |seg|)
  {
    match Find(rest, Fence, 0)
    case FoundAt(k) =>
      var seg := rest[..k];
      assert forall j :: OccursAt(seg, Fence, j) ==> OccursAt(rest, Fence, j) by {
        forall j: nat | OccursAt(seg, Fence, j) ensures OccursAt(rest, Fence, j) {
          assert rest[j..j + |Fence|] == seg[j..j + |Fence|];
        }
      }
      seg
    case NotFound => rest
  }

  /** Removes a leading "json" language tag. */
  function DropJsonTag(s: string): (r: string)
    ensures IsPrefix("json", s) ==> r == s[4..]
    ensures !IsPrefix("json", s) ==> r == s
  {
    if IsPrefix("json", s) then s[4..] else s
  }

  /** The text handed to the JSON decoder for a raw reply `content`. */
  function CleanReply(content: string): (r: string)
    ensures !IsPrefix(Fence, Strip(content)) ==> r == Strip(content)
    ensures IsPrefix(Fence, Strip(content)) ==>
      r == Strip(DropJsonTag(FenceSegment(Strip(content)[3..])))
  {
    var c := Strip(content);
    var c' := if IsPrefix(Fence, c) then DropJsonTag(FenceSegment(c[3..])) else c;
    StripIdempotent(content);
    Strip(c')
  }

  /** A fenced reply is reduced to text that holds no fence at all. */
  lemma FencedReplyHasNoFence(content: string)
    requires IsPrefix(Fence, Strip(content))
    ensures !Contains(CleanReply(content), Fence)
  {
    var seg := FenceSegment(Strip(content)[3..]);
    var d := DropJsonTag(seg);
    assert CleanReply(content) == Strip(d);
    JsonTagKeepsNoFence(seg);
    StripKeepsNoFence(d);
  }

  lemma StripKeepsNoFence(d: string)
    requires !Contains(d, Fence)
    ensures !Contains(Strip(d), Fence)
  {
    StripAvoids(d, Fence);
  }

  lemma JsonTagKeepsNoFence(seg: string)
    requires !Contains(seg, Fence)
    ensures !Contains(DropJsonTag(seg), Fence)
  {
    if IsPrefix("json", seg) {
      SliceAvoids(seg, Fence, 4, |seg|);
      assert seg[4..] == seg[4..|seg|];
    }
  }

  /** The reading returned when the model call or the decoding fails. */
  function Fallback(): (e: EmotionData)
    ensures e.emotionState == Some("neutral") && e.energyLevel == Some(5)
    ensures e.urgencyLevel == Some("low") && e.detectedThemes == Some([])
    ensures e.otherKeys == map[]
  {
    EmotionData(Some("neutral"), Some(5), Some("low"), Some([]), map[])
  }

  /** analyzeEmotion once the model has answered (`reply`, None when the call
      raised) and given a JSON decoder (`decode`, None when the text is not a
      JSON object). */
  function AnalyzeEmotion(reply: Option<string>, decode: string -> Option<EmotionData>): (e: EmotionData)
    ensures reply.None? ==> e == Fallback()
    ensures reply.Some? && decode(CleanReply(reply.value)).None? ==> e == Fallback()
    ensures reply.Some? && decode(CleanReply(reply.value)).Some? ==>
      e == decode(CleanReply(reply.value)).value
  {
    match reply
    case None => Fallback()
    case Some(content) =>
      match decode(CleanReply(content))
      case None => Fallback()
      case Some(data) => data
  }
}
