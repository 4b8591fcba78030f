/** The streaming chat endpoint: server-sent-event frames, the word-by-word
    replay of a fast-path reply, the scans of the loaded history (latest
    assistant message, earlier suggestions), and the order of the events one
    request emits. The model's token stream, the emotion reading of the slow
    path and its context-aware suggestion call are inputs. */
module ChatStreaming {
  import opened Records
  import opened Text
  import Prompts
  import SimpleResponder
  import SuggestionEngine
  import ConversationService

  // -------------------------------------------------------------- SSE frames

  /** One server-sent event: its name and the JSON text of its data. */
  function FormatSse(event: string, json: string): (frame: string)
    ensures IsPrefix("event: " + event + "\ndata: ", frame)
    ensures IsSuffix(json + "\n\n", frame)
    ensures |frame| == |event| + |json| + 16
  {
    "event: " + event + "\n" + "data: " + json + "\n" + "\n"
  }

  /** The index of the first newline in `s`, or |s| when there is none. */
  function LineEnd(s: string): (k: nat)
    ensures k <= |s|
    ensures forall j :: 0 <= j < k ==> s[j] != '\n'
    ensures k < |s| ==> s[k] == '\n'
  {
    if s == [] || s[0] == '\n' then 0 else 1 + LineEnd(s[1..])
  }

  /** The text before the first newline of `s` and the text after it. */
  function SplitLine(s: string): (r: Option<(string, string)>)
    ensures r.Some? ==> s == r.value.0 + "\n" + r.value.1 && '\n' !in r.value.0
    ensures r.None? ==> '\n' !in s
  {
    var k := LineEnd(s);
    if k < |s| then
      assert s == s[..k] + "\n" + s[k + 1..];
      Some((s[..k], s[k + 1..]))
    else None
  }

  /** Reads one frame back: the event name and the data line. */
  function ParseSse(frame: string): Option<(string, string)> {
    if !IsPrefix("event: ", frame) then None
    else
      match SplitLine(frame[7..])
      case None => None
      case Some((event, after)) =>
        if !IsPrefix("data: ", after) then None
        else
          match SplitLine(after[6..])
          case None => None
          case Some((json, tail)) => if tail == "\n" then Some((event, json)) else None
  }

  lemma {:induction false} LineEndOf(a: string, b: string)
    requires '\n' !in a
    ensures LineEnd(a + "\n" + b) == |a|
  {
    if a != [] {
      assert (a + "\n" + b)[1..] == a[1..] + "\n" + b;
      assert (a + "\n" + b)[0] == a[0];
      LineEndOf(a[1..], b);
    }
  }

  lemma SplitLineOf(a: string, b: string)
    requires '\n' !in a
    ensures SplitLine(a + "\n" + b) == Some((a, b))
  {
    LineEndOf(a, b);
    var s := a + "\n" + b;
    assert s[..|a|] == a && s[|a| + 1..] == b;
  }

  /** A frame reads back as the event and data it was built from, as long as
      neither holds a newline (json.dumps never emits one). */
  lemma FormatThenParse(event: string, json: string)
    requires '\n' !in event && '\n' !in json
    ensures ParseSse(FormatSse(event, json)) == Some((event, json))
  {
    var frame := FormatSse(event, json);
    var data := json + "\n" + "\n";
    var after := "data: " + data;
    Regroup("event: ", event, "\n", "data: ", json, "\n", "\n");
    assert frame == "event: " + (event + "\n" + after);
    assert IsPrefix("event: ", frame);
    assert frame[7..] == event + "\n" + after;
    SplitLineOf(event, after);
    assert IsPrefix("data: ", after) && after[6..] == data;
    SplitLineOf(json, "\n");
  }

  /** Every text that reads as a frame is the frame of what it reads as. */
  lemma ParseThenFormat(frame: string)
    requires ParseSse(frame).Some?
    ensures frame == FormatSse(ParseSse(frame).value.0, ParseSse(frame).value.1)
  {
    assert IsPrefix("event: ", frame);
    var line1 := SplitLine(frame[7..]);
    assert line1.Some?;
    var event := line1.value.0;
    var after := line1.value.1;
    assert IsPrefix("data: ", after);
    var line2 := SplitLine(after[6..]);
    assert line2.Some? && line2.value.1 == "\n";
    var json := line2.value.0;
    assert ParseSse(frame) == Some((event, json));
    assert after == "data: " + after[6..];
    assert frame == frame[..7] + frame[7..];
    Regroup("event: ", event, "\n", "data: ", json, "\n", "\n");
  }

  lemma Regroup(a: string, b: string, c: string, d: string, e: string, f: string, g: string)
    ensures a + (b + c + (d + (e + f + g))) == a + b + c + d + e + f + g
  {
  }

  // ---------------------------------------------------------------- events

  /** Why a streamed turn ended with an error event. */
  datatype Failure =
    | StreamFailed          // the model's token stream raised
    | MalformedSuggestion   // an earlier "suggestion" entry is not a dictionary
    | SuggestionFailed      // the context-aware suggestion call raised

  /** The data of the metadata event. Token counts are only sent by the slow
      path (None on the fast path). */
  datatype TurnSummary = TurnSummary(
    conversationId: Uuid,
    userSequenceNumber: int,
    userContent: string,
    emotionState: string,
    energyLevel: int,
    urgencyLevel: string,
    detectedThemes: seq<string>,
    assistantSequenceNumber: int,
    assistantContent: string,
    modelUsed: JsonValue,
    tokenCounts: Option<(JsonValue, JsonValue, JsonValue)>,
    contextUsed: nat,
    suggestion: Option<SuggestionEngine.Suggestion>)

  datatype Event =
    | Chunk(content: string)
    | Metadata(summary: TurnSummary)
    | Error(failure: Failure)
    | Done

  /** The SSE event name of each event. */
  function EventName(e: Event): (name: string)
    ensures '\n' !in name
  {
    match e
    case Chunk(_) => "chunk"
    case Metadata(_) => "metadata"
    case Error(_) => "error"
    case Done => "done"
  }

  /** The frame of an event whose data serialises to `json`. */
  function Frame(e: Event, json: string): string {
    FormatSse(EventName(e), json)
  }

  /** A complete event sequence: "done" comes last and only last, right after
      either the metadata or the error. */
  predicate WellFormed(events: seq<Event>) {
    |events| >= 2 && events[|events| - 1] == Done
    && (events[|events| - 2].Metadata? || events[|events| - 2].Error?)
    && forall k :: 0 <= k < |events| - 1 ==> events[k] != Done
  }

  function ChunkEvents(cs: seq<string>): (es: seq<Event>)
    ensures |es| == |cs| && forall k :: 0 <= k < |cs| ==> es[k] == Chunk(cs[k])
  {
    seq(|cs|, k requires 0 <= k < |cs| => Chunk(cs[k]))
  }

  /** The events of a turn: chunks followed by a closing event and "done". */
  lemma ClosedStreamIsWellFormed(cs: seq<string>, last: Event)
    requires last.Metadata? || last.Error?
    ensures WellFormed(ChunkEvents(cs) + [last, Done])
  {
    var es := ChunkEvents(cs) + [last, Done];
    assert forall k :: 0 <= k < |cs| ==> es[k] == Chunk(cs[k]);
  }

  // ------------------------------------------------------------ chunking

  /** Concatenation of a sequence of strings. */
  function Concat(ss: seq<string>): string {
    if ss == [] then "" else ss[0] + Concat(ss[1..])
  }

  lemma {:induction false} ConcatAppend(ss: seq<string>, s: string)
    ensures Concat(ss + [s]) == Concat(ss) + s
  {
    if ss != [] {
      assert (ss + [s])[1..] == ss[1..] + [s];
      ConcatAppend(ss[1..], s);
    } else {
      assert [s][1..] == [];
    }
  }

  /** The chunks of a word list: each word followed by one space, except the
      last word. */
  function ChunksOf(words: seq<string>): (cs: seq<string>)
    ensures |cs| == |words|
  {
    if |words| <= 1 then words else [words[0] + " "] + ChunksOf(words[1..])
  }

  lemma {:induction false} ChunkAt(words: seq<string>, k: nat)
    requires k < |words|
    ensures ChunksOf(words)[k] == words[k] + (if k < |words| - 1 then " " else "")
  {
    if |words| > 1 && k > 0 {
      ChunkAt(words[1..], k - 1);
    }
  }

  /** The chunks put back together are the words joined by single spaces. */
  lemma {:induction false} ConcatOfChunks(words: seq<string>)
    ensures Concat(ChunksOf(words)) == Join(words, " ")
  {
    if |words| == 1 {
      assert ChunksOf(words)[1..] == [];
    } else if |words| > 1 {
      ConcatOfChunks(words[1..]);
      assert ([words[0] + " "] + ChunksOf(words[1..]))[1..] == ChunksOf(words[1..]);
    }
  }

  /** The fast path's simulated stream: one chunk per word of `text`. */
  method ChunkWords(text: string) returns (chunks: seq<string>)
    ensures |chunks| == |Words(text)|
    ensures forall k :: 0 <= k < |chunks| - 1 ==> chunks[k] == Words(text)[k] + " "
    ensures chunks != [] ==> chunks[|chunks| - 1] == Words(text)[|chunks| - 1]
    ensures chunks == ChunksOf(Words(text))
    ensures Concat(chunks) == Join(Words(text), " ")
  {
    chunks := ChunkList(Words(text));
  }

  /** The loop of the simulated stream over the words. */
  method ChunkList(words: seq<string>) returns (chunks: seq<string>)
    ensures |chunks| == |words|
    ensures forall k :: 0 <= k < |chunks| - 1 ==> chunks[k] == words[k] + " "
    ensures chunks != [] ==> chunks[|chunks| - 1] == words[|chunks| - 1]
    ensures chunks == ChunksOf(words)
    ensures Concat(chunks) == Join(words, " ")
  {
    chunks := [];
    for i := 0 to |words|
      invariant |chunks| == i
      invariant forall k :: 0 <= k < i ==> chunks[k] == words[k] + (if k < |words| - 1 then " " else "")
    {
      var chunk := words[i] + (if i < |words| - 1 then " " else "");
      chunks := chunks + [chunk];
    }
    forall k | 0 <= k < |words| ensures chunks[k] == ChunksOf(words)[k] {
      ChunkAt(words, k);
    }
    ConcatOfChunks(words);
  }

  /** Streaming the chunks again yields the same words. */
  lemma ReplayKeepsWords(text: string)
    ensures Words(Concat(ChunksOf(Words(text)))) == Words(text)
  {
    ConcatOfChunks(Words(text));
    WordsOfJoin(Words(text));
  }

  /** The slow path's relay: each chunk of the model's stream is forwarded
      as it arrives and appended to the full reply. */
  method Relay(streamed: seq<string>) returns (full: string, events: seq<Event>)
    ensures full == Concat(streamed)
    ensures events == ChunkEvents(streamed)
  {
    full := "";
    events := [];
    for i := 0 to |streamed|
      invariant full == Concat(streamed[..i])
      invariant events == ChunkEvents(streamed[..i])
    {
      ConcatAppend(streamed[..i], streamed[i]);
      assert streamed[..i + 1] == streamed[..i] + [streamed[i]];
      full := full + streamed[i];
      events := events + [Chunk(streamed[i])];
    }
    assert streamed[..|streamed|] == streamed;
  }

  // ---------------------------------------------------------- history scans

  /** A loaded history message with whatever its `metadata` attribute holds. */
  datatype ContextEntry = ContextEntry(message: Message, metadata: JsonValue)

  function Messages(context: seq<ContextEntry>): (ms: seq<Message>)
    ensures |ms| == |context| && forall k :: 0 <= k < |context| ==> ms[k] == context[k].message
  {
    seq(|context|, k requires 0 <= k < |context| => context[k].message)
  }

  predicate IsAssistant(e: ContextEntry) {
    e.message.role == "assistant"
  }

  /** The position of the latest assistant message. */
  function LastAssistantIndex(context: seq<ContextEntry>): (r: Option<nat>)
    ensures r.None? ==> forall j :: 0 <= j < |context| ==> !IsAssistant(context[j])
    ensures r.Some? ==> r.value < |context| && IsAssistant(context[r.value])
    ensures r.Some? ==> forall j :: r.value < j < |context| ==> !IsAssistant(context[j])
  {
    if context == [] then None
    else if IsAssistant(context[|context| - 1]) then Some(|context| - 1)
    else LastAssistantIndex(context[..|context| - 1])
  }

  /** `lastAssistantMsg`: the content of the latest assistant message, or
      the empty string; the history is walked newest first. */
  method LastAssistantMessage(context: seq<ContextEntry>) returns (last: string)
    ensures LastAssistantIndex(context).None? ==> last == ""
    ensures LastAssistantIndex(context).Some? ==>
      last == context[LastAssistantIndex(context).value].message.content
  {
    last := "";
    for i := |context| downto 0
      invariant forall j :: i <= j < |context| ==> !IsAssistant(context[j])
    {
      if context[i].message.role == "assistant" {
        last := context[i].message.content;
        LastAssistantIsLatest(context, i);
        return;
      }
    }
  }

  lemma LastAssistantIsLatest(context: seq<ContextEntry>, i: nat)
    requires i < |context| && IsAssistant(context[i])
    requires forall j :: i < j < |context| ==> !IsAssistant(context[j])
    ensures LastAssistantIndex(context) == Some(i)
  {
  }

  /** The truthy "suggestion" entry of an assistant message whose metadata is
      a dictionary; None when the message has none. */
  function SuggestionOf(e: ContextEntry): (r: Option<JsonValue>)
    ensures r.Some? ==> IsAssistant(e) && Truthy(r.value)
    ensures r.Some? <==>
      IsAssistant(e) && e.metadata.JObject? && "suggestion" in e.metadata.fields
      && Truthy(e.metadata.fields["suggestion"])
  {
    if IsAssistant(e) && Truthy(e.metadata) && e.metadata.JObject?
       && "suggestion" in e.metadata.fields && Truthy(e.metadata.fields["suggestion"])
    then Some(e.metadata.fields["suggestion"])
    else None
  }

  /** A suggestion entry that is not a dictionary: reading its
      "activity_type" raises. */
  predicate Malformed(e: ContextEntry) {
    SuggestionOf(e).Some? && !SuggestionOf(e).value.JObject?
  }

  /** The activity type the message contributes: the truthy "activity_type"
      of its suggestion. */
  function TypeOf(e: ContextEntry): (r: seq<JsonValue>)
    ensures |r| <= 1
    ensures r != [] ==> SuggestionOf(e).Some? && Truthy(r[0])
  {
    match SuggestionOf(e)
    case Some(JObject(s)) =>
      if "activity_type" in s && Truthy(s["activity_type"]) then [s["activity_type"]] else []
    case _ => []
  }

  /** The activity types of all earlier suggestions, in message order. */
  function SuggestedTypes(context: seq<ContextEntry>): seq<JsonValue> {
    if context == [] then []
    else SuggestedTypes(context[..|context| - 1]) + TypeOf(context[|context| - 1])
  }

  predicate HasSuggested(context: seq<ContextEntry>) {
    exists k :: 0 <= k < |context| && SuggestionOf(context[k]).Some?
  }

  predicate RebuildFails(context: seq<ContextEntry>) {
    exists k :: 0 <= k < |context| && Malformed(context[k])
  }

  /** What one more history entry adds to the scan of a prefix. */
  lemma ScanOneMore(context: seq<ContextEntry>, i: nat)
    requires i < |context|
    ensures HasSuggested(context[..i + 1]) == (HasSuggested(context[..i]) || SuggestionOf(context[i]).Some?)
    ensures RebuildFails(context[..i + 1]) == (RebuildFails(context[..i]) || Malformed(context[i]))
    ensures SuggestedTypes(context[..i + 1]) == SuggestedTypes(context[..i]) + TypeOf(context[i])
    ensures Malformed(context[i]) ==> RebuildFails(context)
  {
    assert context[..i + 1][..i] == context[..i];
    assert context[..i + 1][i] == context[i];
  }

  /** The per-session state the suggestion logic reads. Only the fields the
      endpoint sets are modelled. */
  class SessionContext {
    var turnCount: int
    var lastAssistantMessage: string
    var hasSuggestedInSession: bool
    var suggestedActivities: seq<JsonValue>

    constructor (turnCount: int, lastAssistantMessage: string)
      ensures this.turnCount == turnCount && this.lastAssistantMessage == lastAssistantMessage
      ensures !hasSuggestedInSession && suggestedActivities == []
    {
      this.turnCount := turnCount;
      this.lastAssistantMessage := lastAssistantMessage;
      hasSuggestedInSession := false;
      suggestedActivities := [];
    }

    /** The rebuild loop over the history: marks the session as having
        suggested and collects activity types. Returns false when a malformed
        suggestion entry makes the loop raise. */
    method Rebuild(context: seq<ContextEntry>) returns (ok: bool)
      modifies this
      ensures ok <==> !RebuildFails(context)
      ensures ok ==> hasSuggestedInSession == (old(hasSuggestedInSession) || HasSuggested(context))
      ensures ok ==> suggestedActivities == old(suggestedActivities) + SuggestedTypes(context)
      ensures turnCount == old(turnCount) && lastAssistantMessage == old(lastAssistantMessage)
    {
      for i := 0 to |context|
        invariant !RebuildFails(context[..i])
        invariant hasSuggestedInSession == (old(hasSuggestedInSession) || HasSuggested(context[..i]))
        invariant suggestedActivities == old(suggestedActivities) + SuggestedTypes(context[..i])
        invariant turnCount == old(turnCount) && lastAssistantMessage == old(lastAssistantMessage)
      {
        var msg := context[i];
        ScanOneMore(context, i);
        if msg.message.role == "assistant" && Truthy(msg.metadata) {
          if msg.metadata.JObject? && "suggestion" in msg.metadata.fields
             && Truthy(msg.metadata.fields["suggestion"])
          {
            hasSuggestedInSession := true;
            var suggestion := msg.metadata.fields["suggestion"];
            if !suggestion.JObject? {
              assert Malformed(context[i]);
              return false;
            }
            if "activity_type" in suggestion.fields && Truthy(suggestion.fields["activity_type"]) {
              suggestedActivities := suggestedActivities + [suggestion.fields["activity_type"]];
            }
          }
        }
      }
      assert context[..|context|] == context;
      ok := true;
    }
  }

  /** Activity types are only collected from messages that suggested. */
  lemma {:induction false} TypesImplySuggested(context: seq<ContextEntry>)
    ensures SuggestedTypes(context) != [] ==> HasSuggested(context)
    ensures forall k :: 0 <= k < |SuggestedTypes(context)| ==> Truthy(SuggestedTypes(context)[k])
  {
    if context != [] {
      var init := context[..|context| - 1];
      TypesImplySuggested(init);
      if SuggestedTypes(init) != [] {
        var k :| 0 <= k < |init| && SuggestionOf(init[k]).Some?;
        assert context[k] == init[k];
      }
      if TypeOf(context[|context| - 1]) != [] {
        assert SuggestionOf(context[|context| - 1]).Some?;
      }
    }
  }

  /** A history whose metadata is never a dictionary (as with rows of the
      messages table, which has no metadata column) rebuilds nothing. */
  lemma {:induction false} PlainHistoryRebuildsNothing(context: seq<ContextEntry>)
    requires forall k :: 0 <= k < |context| ==> !context[k].metadata.JObject?
    ensures !HasSuggested(context) && !RebuildFails(context)
    ensures SuggestedTypes(context) == []
  {
    if context != [] {
      PlainHistoryRebuildsNothing(context[..|context| - 1]);
    }
  }

  // --------------------------------------------------------- the whole turn

  /** The emotion reading of the fast path. */
  const FastEmotion: EmotionData :=
    EmotionData(Some("neutral"), Some(5), Some("low"), Some(["general"]),
                map["method" := JStr("rule_based")])

  /** The fast path never suggests: its emotion suits no activity. */
  lemma FastPathSuggestsNothing()
    ensures SuggestionEngine.FirstWanted(SuggestionEngine.Activities,
                                         SuggestionEngine.EmotionOf(FastEmotion), false).None?
  {
    SuggestionEngine.NeutralSuitsNothing();
  }

  /** The metadata the slow path attaches to its reply. */
  const SlowMetadata: map<string, JsonValue> :=
    map["model" := JStr("openai/gpt-4o-mini"), "promptTokens" := JInt(0),
        "completionTokens" := JInt(0), "responseTimeMs" := JInt(0)]

  /** The reply metadata under the keys saveMessage reads. */
  function ToStoredMetadata(m: map<string, JsonValue>): (s: map<string, JsonValue>)
    ensures s.Keys == {"model_used", "prompt_tokens", "completion_tokens", "response_time_ms"}
    ensures "model" in m ==> s["model_used"] == m["model"]
    ensures "promptTokens" in m ==> s["prompt_tokens"] == m["promptTokens"]
    ensures "completionTokens" in m ==> s["completion_tokens"] == m["completionTokens"]
    ensures "responseTimeMs" in m ==> s["response_time_ms"] == m["responseTimeMs"]
  {
    ConversationService.StoredMetadata(Get(m, "model").GetOr(JNull), Get(m, "promptTokens").GetOr(JNull),
                                       Get(m, "completionTokens").GetOr(JNull),
                                       Get(m, "responseTimeMs").GetOr(JNull))
  }

  /** A complete emotion reading for the slow path. */
  datatype Reading = Reading(emotionState: string, energyLevel: int, urgencyLevel: string,
                             detectedThemes: seq<string>)

  function AsEmotionData(r: Reading): EmotionData {
    EmotionData(Some(r.emotionState), Some(r.energyLevel), Some(r.urgencyLevel),
                Some(r.detectedThemes), map[])
  }

  /** What the slow path's suggestion call does: raise, or return at most one
      suggestion. */
  datatype Outcome<T> = Raised | Returned(value: T)

  /** The endpoint as written, or with its two slips corrected: `AsWritten`
      numbers a turn one past the size of the 20-message context window and
      hands saveMessage the reply metadata under its camelCase keys;
      `Corrected` takes the next free sequence number, as the non-streaming
      chat does, and renames the metadata to the keys saveMessage reads. */
  datatype Build = AsWritten | Corrected

  /** The next free sequence number of a conversation: 1 for an empty one,
      otherwise one past the largest stored number (or 1 if that is 0), so no
      stored message already has it. */
  function TurnNumber(stored: seq<ContextEntry>): (n: int)
    ensures stored == [] ==> n == 1
    ensures forall k :: 0 <= k < |stored| ==> stored[k].message.sequenceNumber < n
    ensures n == 1 || exists k :: 0 <= k < |stored| && stored[k].message.sequenceNumber == n - 1
  {
    var nums := ConversationService.SequenceNumbers(Messages(stored));
    ConversationService.NextIsFresh(nums);
    assert forall k :: 0 <= k < |stored| ==> nums[k] == stored[k].message.sequenceNumber && nums[k] in nums;
    ConversationService.NextSequenceNumber(ConversationService.MaxSequence(nums))
  }

  /** The number a turn's user message gets: one past the size of the
      context window as written, above every stored number once corrected. */
  function TurnSequence(build: Build, stored: seq<ContextEntry>): (n: int)
    ensures build.AsWritten? ==> n == ConversationService.Min(20, |stored|) + 1
    ensures build.Corrected? ==> forall k :: 0 <= k < |stored| ==> stored[k].message.sequenceNumber < n
  {
    match build
    case AsWritten => |ConversationService.ContextWindow(stored, 20)| + 1
    case Corrected => TurnNumber(stored)
  }

  /** The metadata a turn hands saveMessage for its reply. */
  function SavedMetadata(build: Build, m: map<string, JsonValue>): map<string, JsonValue> {
    match build
    case AsWritten => m
    case Corrected => ToStoredMetadata(m)
  }

  /** The row saved for the user's message of a turn. */
  function UserRow(conversationId: Uuid, userId: Uuid, message: string, seqNum: int, e: EmotionData): (row: Message)
    ensures row.conversationId == conversationId && row.userId == userId
    ensures row.role == "user" && row.content == message && row.sequenceNumber == seqNum
    ensures e.IsNonEmpty() ==>
      row.emotionState == e.emotionState && row.energyLevel == e.energyLevel
      && row.urgencyLevel == e.urgencyLevel && row.detectedThemes == Some(e.detectedThemes.GetOr([]))
    ensures row.modelUsed.None? && row.promptTokens.None? && row.completionTokens.None? && row.responseTimeMs.None?
  {
    Message(conversationId, userId, "user", message, "text", seqNum,
            e.emotionState, e.energyLevel, e.urgencyLevel, Some(e.detectedThemes.GetOr([])),
            None, None, None, None)
  }

  /** The row saved for the reply of a turn: it follows the user's message,
      carries no emotion, and its AI fields are whatever the metadata holds
      under the snake_case keys. */
  function AssistantRow(conversationId: Uuid, userId: Uuid, content: string, seqNum: int,
                        metadata: map<string, JsonValue>): (row: Message)
    ensures row.conversationId == conversationId && row.userId == userId
    ensures row.role == "assistant" && row.content == content && row.sequenceNumber == seqNum + 1
    ensures row.emotionState.None? && row.energyLevel.None? && row.urgencyLevel.None?
    ensures row.modelUsed.Some? <==> "model_used" in metadata
    ensures row.promptTokens.Some? <==> "prompt_tokens" in metadata
    ensures row.completionTokens.Some? <==> "completion_tokens" in metadata
    ensures row.responseTimeMs.Some? <==> "response_time_ms" in metadata
  {
    Message(conversationId, userId, "assistant", content, "text", seqNum + 1,
            None, None, None, Some([]),
            Get(metadata, "model_used"), Get(metadata, "prompt_tokens"),
            Get(metadata, "completion_tokens"), Get(metadata, "response_time_ms"))
  }

  /** What a saved reply holds in its AI fields, for reply metadata of the
      shape both paths build: nothing as written, since none of the camelCase
      keys is one saveMessage reads; the model name and the numbers once the
      keys are renamed. */
  lemma ReplyFieldsAsSaved(build: Build, conversationId: Uuid, userId: Uuid, content: string, seqNum: int,
                           m: map<string, JsonValue>, model: string, elapsed: int)
    requires m.Keys == {"model", "promptTokens", "completionTokens", "responseTimeMs"}
    requires m["model"] == JStr(model) && m["promptTokens"] == JInt(0) && m["completionTokens"] == JInt(0)
    requires m["responseTimeMs"] == JInt(elapsed)
    ensures var row := AssistantRow(conversationId, userId, content, seqNum, SavedMetadata(build, m));
      build == AsWritten ==>
        row.modelUsed.None? && row.promptTokens.None? && row.completionTokens.None? && row.responseTimeMs.None?
    ensures var row := AssistantRow(conversationId, userId, content, seqNum, SavedMetadata(build, m));
      build == Corrected ==>
        row.modelUsed == Some(JStr(model)) && row.promptTokens == Some(JInt(0))
        && row.completionTokens == Some(JInt(0)) && row.responseTimeMs == Some(JInt(elapsed))
  {
    if build == AsWritten {
      assert "model_used" !in m && "prompt_tokens" !in m;
      assert "completion_tokens" !in m && "response_time_ms" !in m;
    }
  }

  /** The fast path of `streamChatResponse` once the turn is numbered
      `seqNum`: replays the canned reply word by word, saves both messages,
      records a neutral reading and closes the stream. The suggestion check
      runs after the saves; it never fires for the neutral reading. */
  /** The events of a fast-path turn: the reply's words in chunks, then the
      metadata event with the neutral reading and no suggestion, then done. */
  function CannedStream(conversationId: Uuid, message: string, seqNum: int, contextUsed: nat, reply: string): seq<Event> {
    ChunkEvents(ChunksOf(Words(reply)))
    + [Metadata(TurnSummary(conversationId, seqNum, message, "neutral", 5, "low", ["general"],
                            seqNum + 1, reply, JStr("simple-responder"), None, contextUsed, None)),
       Done]
  }

  method ReplayCannedReply(build: Build, conversation: ConversationService.Conversation, userId: Uuid, message: string,
                  contextUsed: nat, seqNum: int, pick: nat, elapsedMs: int, now: Timestamp)
    returns (events: seq<Event>, saved: seq<Message>)
    modifies conversation
    ensures var reply := SimpleResponder.GetSimpleResponse(message, pick, elapsedMs);
      events == CannedStream(conversation.id, message, seqNum, contextUsed, reply.0)
      && saved == [UserRow(conversation.id, userId, message, seqNum, FastEmotion),
                   AssistantRow(conversation.id, userId, reply.0, seqNum, SavedMetadata(build, reply.1))]
    ensures WellFormed(events)
    ensures conversation.emotionProgression ==
      Some(old(conversation.emotionProgression).GetOr([])
           + [ConversationService.Snapshot(now, "neutral", 5)])
    ensures conversation.dominantEmotion ==
      ConversationService.MostCommon(ConversationService.Emotions(conversation.emotionProgression.value))
    ensures conversation.userId == old(conversation.userId) && conversation.title == old(conversation.title)
    ensures conversation.status == old(conversation.status)
  {
    var reply := SimpleResponder.GetSimpleResponse(message, pick, elapsedMs);
    var aiContent := reply.0;
    var metadata := reply.1;
    var chunks := ChunkWords(aiContent);
    events := ChunkEvents(chunks);
    var userMessage := ConversationService.SaveMessage(conversation.id, userId, "user", message, seqNum,
                                                       Some(FastEmotion), None);
    var assistantMessage := ConversationService.SaveMessage(conversation.id, userId, "assistant", aiContent,
                                                            seqNum + 1, None, Some(SavedMetadata(build, metadata)));
    saved := [userMessage, assistantMessage];
    conversation.UpdateEmotionProgression("neutral", 5, now);
    var suggestion := SuggestionEngine.SuggestWhen(SuggestionEngine.ShouldSuggestActivity(FastEmotion, message),
                                                   FastEmotion);
    if suggestion.Some? {
      aiContent := aiContent + ("\n\n" + SuggestionEngine.GenerateSuggestionMessage(suggestion.value));
    }
    FastPathSuggestsNothing();
    var summary := TurnSummary(conversation.id, seqNum, message, "neutral", 5, "low", ["general"],
                               seqNum + 1, aiContent, metadata["model"], None, contextUsed, suggestion);
    ClosedStreamIsWellFormed(chunks, Metadata(summary));
    events := events + [Metadata(summary), Done];
  }

  /** The model request of the slow path: the system prompt for the user's
      language and emotion, the kept history, then the new message. */
  method BuildRequest(context: seq<ContextEntry>, message: string, language: string, reading: Reading)
    returns (request: seq<Prompts.ChatMessage>)
    ensures request == [Prompts.ChatMessage("system", Prompts.SystemPrompt(Some(map["language" := JStr(language)]),
                                                                           Some(reading.emotionState)))]
                       + Prompts.Kept(Messages(context)) + [Prompts.ChatMessage("user", message)]
  {
    var systemPrompt := Prompts.GetSystemPrompt(Some(map["language" := JStr(language)]), Some(reading.emotionState));
    request := Prompts.FormatMessagesForAI(Messages(context), systemPrompt);
    request := request + [Prompts.ChatMessage("user", message)];
  }

  /** The error a slow turn ends with, if any, in the order the endpoint
      meets them: a failing stream first, then a malformed stored
      suggestion, then a raising suggestion call. */
  function SlowFailure(context: seq<ContextEntry>, streamFails: bool,
                       suggestionCall: Outcome<Option<SuggestionEngine.Suggestion>>): (f: Option<Failure>)
    ensures f == Some(StreamFailed) <==> streamFails
    ensures f == Some(MalformedSuggestion) <==> !streamFails && RebuildFails(context)
    ensures f == Some(SuggestionFailed) <==> !streamFails && !RebuildFails(context) && suggestionCall.Raised?
    ensures f.None? <==> !streamFails && !RebuildFails(context) && suggestionCall.Returned?
  {
    if streamFails then Some(StreamFailed)
    else if RebuildFails(context) then Some(MalformedSuggestion)
    else if suggestionCall.Raised? then Some(SuggestionFailed)
    else None
  }

  /** The metadata event of a completed slow turn. */
  function SlowSummary(conversationId: Uuid, message: string, reading: Reading, seqNum: int, content: string,
                       contextUsed: nat, suggestion: Option<SuggestionEngine.Suggestion>): TurnSummary {
    TurnSummary(conversationId, seqNum, message, reading.emotionState, reading.energyLevel,
                reading.urgencyLevel, reading.detectedThemes, seqNum + 1, content,
                JStr("openai/gpt-4o-mini"), Some((JInt(0), JInt(0), JInt(0))), contextUsed, suggestion)
  }

  /** The end of a slow turn that raised nothing: the suggestion text is
      appended to the reply before both messages are saved. */
  method CompleteSlowTurn(build: Build, conversation: ConversationService.Conversation, userId: Uuid,
                          message: string, contextUsed: nat, seqNum: int, reading: Reading, replied: string,
                          suggestion: Option<SuggestionEngine.Suggestion>, now: Timestamp)
    returns (summary: TurnSummary, saved: seq<Message>)
    modifies conversation
    ensures var content := ConversationService.WithSuggestion(replied, suggestion);
      summary == SlowSummary(conversation.id, message, reading, seqNum, content, contextUsed, suggestion)
      && saved == [UserRow(conversation.id, userId, message, seqNum, AsEmotionData(reading)),
                   AssistantRow(conversation.id, userId, content, seqNum, SavedMetadata(build, SlowMetadata))]
    ensures conversation.emotionProgression ==
      Some(old(conversation.emotionProgression).GetOr([])
           + [ConversationService.Snapshot(now, reading.emotionState, reading.energyLevel)])
    ensures conversation.dominantEmotion ==
      ConversationService.MostCommon(ConversationService.Emotions(conversation.emotionProgression.value))
    ensures conversation.userId == old(conversation.userId) && conversation.title == old(conversation.title)
    ensures conversation.status == old(conversation.status)
  {
    var fullContent := replied;
    if suggestion.Some? {
      fullContent := fullContent + ("\n\n" + SuggestionEngine.GenerateSuggestionMessage(suggestion.value));
    }
    var userMessage := ConversationService.SaveMessage(conversation.id, userId, "user", message, seqNum,
                                                       Some(AsEmotionData(reading)), None);
    var assistantMessage := ConversationService.SaveMessage(conversation.id, userId, "assistant", fullContent,
                                                            seqNum + 1, None, Some(SavedMetadata(build, SlowMetadata)));
    saved := [userMessage, assistantMessage];
    conversation.UpdateEmotionProgression(reading.emotionState, reading.energyLevel, now);
    summary := TurnSummary(conversation.id, seqNum, message, reading.emotionState, reading.energyLevel,
                           reading.urgencyLevel, reading.detectedThemes, seqNum + 1, fullContent,
                           SlowMetadata["model"],
                           Some((SlowMetadata["promptTokens"], SlowMetadata["completionTokens"],
                                 SlowMetadata["responseTimeMs"])),
                           contextUsed, suggestion);
  }

  /** The slow path of `streamChatResponse` once the turn is numbered
      `seqNum`: relays the model's stream and then, unless something raises,
      rebuilds the session state, applies the suggestion outcome, saves both
      messages and closes the stream. The stream is the model's answer to
      the request `BuildRequest` forms. */
  method RelayModelReply(build: Build, conversation: ConversationService.Conversation, userId: Uuid, message: string,
                  context: seq<ContextEntry>, seqNum: int, reading: Reading,
                  streamed: seq<string>, streamFails: bool,
                  suggestionCall: Outcome<Option<SuggestionEngine.Suggestion>>, now: Timestamp)
    returns (events: seq<Event>, saved: seq<Message>)
    modifies conversation
    ensures WellFormed(events)
    ensures |events| == |streamed| + 2 && events[..|streamed|] == ChunkEvents(streamed)
    ensures SlowFailure(context, streamFails, suggestionCall).Some? ==>
      events[|streamed|] == Error(SlowFailure(context, streamFails, suggestionCall).value)
      && saved == [] && unchanged(conversation)
    ensures SlowFailure(context, streamFails, suggestionCall).None? ==>
      var content := ConversationService.WithSuggestion(Concat(streamed), suggestionCall.value);
      events[|streamed|] ==
        Metadata(SlowSummary(conversation.id, message, reading, seqNum, content, |context|, suggestionCall.value))
      && saved == [UserRow(conversation.id, userId, message, seqNum, AsEmotionData(reading)),
                   AssistantRow(conversation.id, userId, content, seqNum, SavedMetadata(build, SlowMetadata))]
      && conversation.emotionProgression ==
           Some(old(conversation.emotionProgression).GetOr([])
                + [ConversationService.Snapshot(now, reading.emotionState, reading.energyLevel)])
      && conversation.dominantEmotion ==
           ConversationService.MostCommon(ConversationService.Emotions(conversation.emotionProgression.value))
    ensures conversation.userId == old(conversation.userId) && conversation.title == old(conversation.title)
    ensures conversation.status == old(conversation.status)
  {
    var fullContent, chunkEvents := Relay(streamed);
    saved := [];
    var failure: Option<Failure> := None;
    if streamFails {
      failure := Some(StreamFailed);
    } else {
      var lastAssistant := LastAssistantMessage(context);
      var session := new SessionContext(seqNum, lastAssistant);
      var ok := session.Rebuild(context);
      if !ok {
        failure := Some(MalformedSuggestion);
      } else if suggestionCall.Raised? {
        failure := Some(SuggestionFailed);
      }
    }
    if failure.Some? {
      ClosedStreamIsWellFormed(streamed, Error(failure.value));
      events := chunkEvents + [Error(failure.value), Done];
    } else {
      var summary;
      summary, saved := CompleteSlowTurn(build, conversation, userId, message, |context|, seqNum, reading,
                                         fullContent, suggestionCall.value, now);
      ClosedStreamIsWellFormed(streamed, Metadata(summary));
      events := chunkEvents + [Metadata(summary), Done];
    }
  }

  /** The reply text a slow turn saves: the relayed text, with the returned
      suggestion, if any, appended. */
  function SlowReply(streamed: seq<string>, suggestionCall: Outcome<Option<SuggestionEngine.Suggestion>>): string {
    ConversationService.WithSuggestion(Concat(streamed), if suggestionCall.Returned? then suggestionCall.value else None)
  }

  /** What a turn that saved its messages stored: the user row holding the
      message and the reply row holding `reply`, both of the conversation,
      numbered one past the context size as written and with the next free
      number once corrected, the reply's AI fields empty as written and
      holding the model name and counts once corrected. */
  predicate SavedTurn(build: Build, stored: seq<ContextEntry>, conversationId: Uuid, userId: Uuid,
                      message: string, reply: string, model: string, elapsed: int, saved: seq<Message>)
  {
    |saved| == 2
    && saved[0].conversationId == conversationId && saved[0].userId == userId
    && saved[0].role == "user" && saved[0].content == message
    && saved[0].emotionState.Some? && saved[0].energyLevel.Some?
    && saved[1].conversationId == conversationId && saved[1].userId == userId && saved[1].role == "assistant"
    && saved[1].content == reply
    && saved[1].sequenceNumber == saved[0].sequenceNumber + 1
    && (build == AsWritten ==>
          saved[0].sequenceNumber == ConversationService.Min(20, |stored|) + 1
          && saved[1].modelUsed.None? && saved[1].promptTokens.None?
          && saved[1].completionTokens.None? && saved[1].responseTimeMs.None?)
    && (build == Corrected ==>
          saved[0].sequenceNumber == TurnNumber(stored)
          && (forall k :: 0 <= k < |stored| ==> stored[k].message.sequenceNumber != saved[0].sequenceNumber)
          && saved[1].modelUsed == Some(JStr(model)) && saved[1].promptTokens == Some(JInt(0))
          && saved[1].completionTokens == Some(JInt(0)) && saved[1].responseTimeMs == Some(JInt(elapsed)))
  }

  /** The fast path of `streamChatResponse`, for a message the fast-path
      classifier accepts: the turn is numbered from the context loaded
      before the branch, both messages are saved with a neutral reading, and
      the stream closes with the metadata event. */
  method FastPath(build: Build, conversation: ConversationService.Conversation, userId: Uuid, message: string,
                  stored: seq<ContextEntry>, pick: nat, elapsedMs: int, now: Timestamp)
    returns (events: seq<Event>, saved: seq<Message>)
    modifies conversation
    ensures events == CannedStream(conversation.id, message, TurnSequence(build, stored),
                                   |ConversationService.ContextWindow(stored, 20)|,
                                   SimpleResponder.GetSimpleResponse(message, pick, elapsedMs).0)
    ensures WellFormed(events) && |events| >= 2 && events[|events| - 2].Metadata?
    ensures SavedTurn(build, stored, conversation.id, userId, message,
                      SimpleResponder.GetSimpleResponse(message, pick, elapsedMs).0, "simple-responder", elapsedMs, saved)
    ensures saved[0].emotionState == Some("neutral") && saved[0].energyLevel == Some(5)
    ensures conversation.emotionProgression ==
      Some(old(conversation.emotionProgression).GetOr([])
           + [ConversationService.Snapshot(now, "neutral", 5)])
    ensures conversation.dominantEmotion ==
      ConversationService.MostCommon(ConversationService.Emotions(conversation.emotionProgression.value))
    ensures conversation.userId == old(conversation.userId) && conversation.title == old(conversation.title)
    ensures conversation.status == old(conversation.status)
  {
    var context := ConversationService.ContextWindow(stored, 20);
    var seqNum := TurnSequence(build, stored);
    events, saved := ReplayCannedReply(build, conversation, userId, message, |context|, seqNum, pick, elapsedMs, now);
    var reply := SimpleResponder.GetSimpleResponse(message, pick, elapsedMs);
    ReplyFieldsAsSaved(build, conversation.id, userId, reply.0, seqNum, reply.1, "simple-responder", elapsedMs);
  }

  /** The slow path of `streamChatResponse`: the turn is numbered from the
      context loaded before the branch; the stream ends in an error, with
      nothing saved and the conversation untouched, exactly when something
      raises, and otherwise both messages are saved with the reading. */
  method SlowPath(build: Build, conversation: ConversationService.Conversation, userId: Uuid, message: string,
                  stored: seq<ContextEntry>, reading: Reading, streamed: seq<string>, streamFails: bool,
                  suggestionCall: Outcome<Option<SuggestionEngine.Suggestion>>, now: Timestamp)
    returns (events: seq<Event>, saved: seq<Message>)
    modifies conversation
    ensures WellFormed(events) && |events| == |streamed| + 2 && events[..|streamed|] == ChunkEvents(streamed)
    ensures events[|events| - 2].Error? <==>
      SlowFailure(ConversationService.ContextWindow(stored, 20), streamFails, suggestionCall).Some?
    ensures SlowFailure(ConversationService.ContextWindow(stored, 20), streamFails, suggestionCall).Some? ==>
      events[|streamed|] == Error(SlowFailure(ConversationService.ContextWindow(stored, 20), streamFails,
                                              suggestionCall).value)
      && saved == [] && unchanged(conversation)
    ensures SlowFailure(ConversationService.ContextWindow(stored, 20), streamFails, suggestionCall).None? ==>
      events[|streamed|] ==
        Metadata(SlowSummary(conversation.id, message, reading, TurnSequence(build, stored),
                             SlowReply(streamed, suggestionCall), |ConversationService.ContextWindow(stored, 20)|,
                             suggestionCall.value))
      && SavedTurn(build, stored, conversation.id, userId, message, SlowReply(streamed, suggestionCall),
                   "openai/gpt-4o-mini", 0, saved)
      && saved[0].emotionState == Some(reading.emotionState) && saved[0].energyLevel == Some(reading.energyLevel)
      && conversation.emotionProgression ==
           Some(old(conversation.emotionProgression).GetOr([])
                + [ConversationService.Snapshot(now, reading.emotionState, reading.energyLevel)])
      && conversation.dominantEmotion ==
           ConversationService.MostCommon(ConversationService.Emotions(conversation.emotionProgression.value))
    ensures conversation.userId == old(conversation.userId) && conversation.title == old(conversation.title)
    ensures conversation.status == old(conversation.status)
  {
    var context := ConversationService.ContextWindow(stored, 20);
    var seqNum := TurnSequence(build, stored);
    events, saved := RelayModelReply(build, conversation, userId, message, context, seqNum, reading,
                                     streamed, streamFails, suggestionCall, now);
    if saved != [] {
      var content := ConversationService.WithSuggestion(Concat(streamed), suggestionCall.value);
      ReplyFieldsAsSaved(build, conversation.id, userId, content, seqNum, SlowMetadata, "openai/gpt-4o-mini", 0);
    }
  }

  /** Runs the fast path when `fast` holds and the slow path otherwise.
      Either both messages are saved, or nothing is and the conversation is
      left as it was. */
  method TakePath(fast: bool, build: Build, conversation: ConversationService.Conversation, userId: Uuid,
                  message: string, stored: seq<ContextEntry>, pick: nat,
                  elapsedMs: int, reading: Reading, streamed: seq<string>, streamFails: bool,
                  suggestionCall: Outcome<Option<SuggestionEngine.Suggestion>>, now: Timestamp)
    returns (events: seq<Event>, saved: seq<Message>)
    modifies conversation
    ensures WellFormed(events) && |events| >= 2
    ensures saved == [] ||
      SavedTurn(build, stored, conversation.id, userId, message,
                if fast then SimpleResponder.GetSimpleResponse(message, pick, elapsedMs).0
                else SlowReply(streamed, suggestionCall),
                if fast then "simple-responder" else "openai/gpt-4o-mini", if fast then elapsedMs else 0, saved)
    ensures fast ==> saved != [] && events[|events| - 2].Metadata?
    ensures !fast ==>
      (events[|events| - 2].Error? <==>
         SlowFailure(ConversationService.ContextWindow(stored, 20), streamFails, suggestionCall).Some?)
      && (events[|events| - 2].Error? <==> saved == [])
    ensures saved != [] ==>
      conversation.emotionProgression ==
        Some(old(conversation.emotionProgression).GetOr([])
             + [ConversationService.Snapshot(now, saved[0].emotionState.value, saved[0].energyLevel.value)])
      && conversation.dominantEmotion ==
           ConversationService.MostCommon(ConversationService.Emotions(conversation.emotionProgression.value))
    ensures saved == [] ==> unchanged(conversation)
    ensures conversation.userId == old(conversation.userId) && conversation.title == old(conversation.title)
    ensures conversation.status == old(conversation.status)
  {
    if fast {
      events, saved := FastPath(build, conversation, userId, message, stored, pick, elapsedMs, now);
    } else {
      events, saved := SlowPath(build, conversation, userId, message, stored, reading,
                                streamed, streamFails, suggestionCall, now);
    }
  }

  /** `streamChatResponse` on a conversation whose stored rows are `stored`
      (by increasing sequence number): the last 20 rows are the context and
      the fast path is taken exactly when the classifier accepts the
      message. */
  method StreamChatResponse(build: Build, conversation: ConversationService.Conversation, userId: Uuid,
                            message: string, stored: seq<ContextEntry>, pick: nat,
                            elapsedMs: int, reading: Reading, streamed: seq<string>, streamFails: bool,
                            suggestionCall: Outcome<Option<SuggestionEngine.Suggestion>>, now: Timestamp)
    returns (events: seq<Event>, saved: seq<Message>)
    modifies conversation
    ensures WellFormed(events) && |events| >= 2
    ensures saved == [] ||
      var simple := SimpleResponder.IsSimplePattern(message);
      SavedTurn(build, stored, conversation.id, userId, message,
                if simple then SimpleResponder.GetSimpleResponse(message, pick, elapsedMs).0
                else SlowReply(streamed, suggestionCall),
                if simple then "simple-responder" else "openai/gpt-4o-mini", if simple then elapsedMs else 0, saved)
    ensures SimpleResponder.IsSimplePattern(message) ==> saved != [] && events[|events| - 2].Metadata?
    ensures !SimpleResponder.IsSimplePattern(message) ==>
      (events[|events| - 2].Error? <==>
         SlowFailure(ConversationService.ContextWindow(stored, 20), streamFails, suggestionCall).Some?)
      && (events[|events| - 2].Error? <==> saved == [])
    ensures saved != [] ==>
      conversation.emotionProgression ==
        Some(old(conversation.emotionProgression).GetOr([])
             + [ConversationService.Snapshot(now, saved[0].emotionState.value, saved[0].energyLevel.value)])
      && conversation.dominantEmotion ==
           ConversationService.MostCommon(ConversationService.Emotions(conversation.emotionProgression.value))
    ensures saved == [] ==> unchanged(conversation)
    ensures conversation.userId == old(conversation.userId) && conversation.title == old(conversation.title)
    ensures conversation.status == old(conversation.status)
  {
    events, saved := TakePath(SimpleResponder.IsSimplePattern(message), build, conversation, userId, message,
                              stored, pick, elapsedMs, reading, streamed, streamFails, suggestionCall, now);
  }

  /** Once a conversation numbered 1, 2, 3, ... holds more than 20 messages,
      the endpoint as written numbers the new user message 21, which the
      21st stored message already has; corrected, it takes one past the
      count. */
  lemma StreamingNumberCollides(stored: seq<ContextEntry>)
    requires |stored| > 20
    requires forall k :: 0 <= k < |stored| ==> stored[k].message.sequenceNumber == k + 1
    ensures TurnSequence(AsWritten, stored) == 21 == stored[20].message.sequenceNumber
    ensures TurnSequence(Corrected, stored) == |stored| + 1
  {
    assert |ConversationService.ContextWindow(stored, 20)| == 20;
    var nums := ConversationService.SequenceNumbers(Messages(stored));
    assert nums[|stored| - 1] == |stored| && nums[|stored| - 1] in nums;
    var m := ConversationService.MaxSequence(nums);
    var k :| 0 <= k < |nums| && nums[k] == m.value;
    assert m.value == |stored|;
    assert TurnNumber(stored) == ConversationService.NextSequenceNumber(m);
  }
}
