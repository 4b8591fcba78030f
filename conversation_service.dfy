/** Conversation bookkeeping: finding or opening a conversation, the context
    window, sequence numbers, stored message rows, the emotion progression
    with its dominant emotion, and the order of steps in one chat turn. */
module ConversationService {
  import opened Records
  import opened Text
  import opened Prompts
  import SuggestionEngine

  // ---------------------------------------------------------------- sequence numbers

  /** `(maxSeq + 1) if maxSeq else 1`: a missing or zero maximum starts at 1. */
  function NextSequenceNumber(maxSeq: Option<int>): (n: int)
    ensures maxSeq.None? || maxSeq.value == 0 ==> n == 1
    ensures maxSeq.Some? && maxSeq.value != 0 ==> n == maxSeq.value + 1
  {
    match maxSeq
    case None => 1
    case Some(m) => if m != 0 then m + 1 else 1
  }

  /** SQL `max(sequence_number)`: None for no rows, otherwise the largest. */
  function MaxSequence(nums: seq<int>): (m: Option<int>)
    ensures m.None? <==> nums == []
    ensures m.Some? ==> m.value in nums && forall x :: x in nums ==> x <= m.value
  {
    if nums == [] then None
    else
      assert forall x :: x in nums ==> x == nums[0] || x in nums[1..];
      match MaxSequence(nums[1..])
      case None => Some(nums[0])
      case Some(rest) => Some(if nums[0] >= rest then nums[0] else rest)
  }

  function SequenceNumbers(ms: seq<Message>): (nums: seq<int>)
    ensures |nums| == |ms| && forall i :: 0 <= i < |ms| ==> nums[i] == ms[i].sequenceNumber
  {
    seq(|ms|, i requires 0 <= i < |ms| => ms[i].sequenceNumber)
  }

  /** The next number is larger than every number already stored, so it is
      never one of them. */
  lemma NextIsFresh(nums: seq<int>)
    ensures forall x :: x in nums ==> x < NextSequenceNumber(MaxSequence(nums))
    ensures NextSequenceNumber(MaxSequence(nums)) !in nums
  {
  }

  // ---------------------------------------------------------------- context window

  function Reverse<T>(s: seq<T>): (r: seq<T>)
    ensures |r| == |s| && forall i :: 0 <= i < |s| ==> r[i] == s[|s| - 1 - i]
  {
    if s == [] then [] else Reverse(s[1..]) + [s[0]]
  }

  function Min(a: int, b: int): int {
    if a <= b then a else b
  }

  /** The context for a conversation whose rows `ascending` are listed by
      increasing sequence number: newest first, the first `limit` rows, then
      reversed back into chronological order. It is exactly the last
      `min(limit, |ascending|)` rows. */
  function ContextWindow<T>(ascending: seq<T>, limit: nat): (w: seq<T>)
    ensures |w| == Min(limit, |ascending|)
    ensures w == ascending[|ascending| - Min(limit, |ascending|)..]
  {
    var k := Min(limit, |ascending|);
    var w := Reverse(Reverse(ascending)[..k]);
    assert forall i :: 0 <= i < k ==> w[i] == ascending[|ascending| - k + i];
    w
  }

  predicate StrictlyAscending(ms: seq<Message>) {
    forall i, j :: 0 <= i < j < |ms| ==> ms[i].sequenceNumber < ms[j].sequenceNumber
  }

  /** The window keeps chronological order, holds at most `limit` rows, and
      every row left out is older than every row kept. */
  lemma WindowIsNewest(ascending: seq<Message>, limit: nat)
    requires StrictlyAscending(ascending)
    ensures |ContextWindow(ascending, limit)| <= limit
    ensures StrictlyAscending(ContextWindow(ascending, limit))
    ensures forall i, j ::
      0 <= i < |ascending| - |ContextWindow(ascending, limit)| && 0 <= j < |ContextWindow(ascending, limit)| ==>
        ascending[i].sequenceNumber < ContextWindow(ascending, limit)[j].sequenceNumber
  {
    var w := ContextWindow(ascending, limit);
    var d := |ascending| - |w|;
    assert forall j :: 0 <= j < |w| ==> w[j] == ascending[d + j];
  }

  // ---------------------------------------------------------------- message rows

  /** The AI fields of a reply as `generateAIResponse` names them. */
  function StoredMetadata(model: JsonValue, promptTokens: JsonValue, completionTokens: JsonValue,
                          responseTimeMs: JsonValue): (m: map<string, JsonValue>)
    ensures m.Keys == {"model_used", "prompt_tokens", "completion_tokens", "response_time_ms"}
    ensures m["model_used"] == model && m["prompt_tokens"] == promptTokens
    ensures m["completion_tokens"] == completionTokens && m["response_time_ms"] == responseTimeMs
  {
    map["model_used" := model, "prompt_tokens" := promptTokens,
        "completion_tokens" := completionTokens, "response_time_ms" := responseTimeMs]
  }

  /** Builds the row `saveMessage` stores. The text is always of type "text";
      the emotion fields are copied only from a non-empty emotion dictionary
      (themes default to []), the AI fields only from a non-empty metadata
      dictionary, read under the keys model_used, prompt_tokens,
      completion_tokens and response_time_ms. A field left unset is null,
      except detected_themes, whose column default is []. */
  method SaveMessage(conversationId: Uuid, userId: Uuid, role: string, content: string, sequenceNumber: int,
                     emotionData: Option<EmotionData>, metadata: Option<map<string, JsonValue>>)
    returns (message: Message)
    ensures message.conversationId == conversationId && message.userId == userId
    ensures message.role == role && message.content == content && message.sequenceNumber == sequenceNumber
    ensures message.contentType == "text"
    ensures emotionData.Some? && emotionData.value.IsNonEmpty() ==>
      message.emotionState == emotionData.value.emotionState
      && message.energyLevel == emotionData.value.energyLevel
      && message.urgencyLevel == emotionData.value.urgencyLevel
      && message.detectedThemes == Some(emotionData.value.detectedThemes.GetOr([]))
    ensures !(emotionData.Some? && emotionData.value.IsNonEmpty()) ==>
      message.emotionState.None? && message.energyLevel.None? && message.urgencyLevel.None?
      && message.detectedThemes == Some([])
    ensures metadata.Some? && metadata.value != map[] ==>
      message.modelUsed == Get(metadata.value, "model_used")
      && message.promptTokens == Get(metadata.value, "prompt_tokens")
      && message.completionTokens == Get(metadata.value, "completion_tokens")
      && message.responseTimeMs == Get(metadata.value, "response_time_ms")
    ensures !(metadata.Some? && metadata.value != map[]) ==>
      message.modelUsed.None? && message.promptTokens.None?
      && message.completionTokens.None? && message.responseTimeMs.None?
  {
    message := Message(conversationId, userId, role, content, "text", sequenceNumber,
                       None, None, None, None, None, None, None, None);
    var themesSet := false;
    if emotionData.Some? && emotionData.value.IsNonEmpty() {
      var e := emotionData.value;
      message := message.(emotionState := e.emotionState, energyLevel := e.energyLevel,
                          urgencyLevel := e.urgencyLevel, detectedThemes := Some(e.detectedThemes.GetOr([])));
      themesSet := true;
    }
    if metadata.Some? && metadata.value != map[] {
      var m := metadata.value;
      message := message.(modelUsed := Get(m, "model_used"), promptTokens := Get(m, "prompt_tokens"),
                          completionTokens := Get(m, "completion_tokens"),
                          responseTimeMs := Get(m, "response_time_ms"));
    }
    if !themesSet {
      // the column default applies when the row is flushed
      message := message.(detectedThemes := Some([]));
    }
  }

  // ---------------------------------------------------------------- dominant emotion

  function Count(xs: seq<string>, x: string): nat {
    multiset(xs)[x]
  }

  /** The position, among the first `n`, of the first-seen element of
      maximal count (counts taken over the whole of `xs`): nothing counts
      more, and everything before it counts strictly less. */
  function LeaderIndex(xs: seq<string>, n: nat): (li: nat)
    requires 0 < n <= |xs|
    ensures li < n
    ensures forall j :: 0 <= j < n ==> Count(xs, xs[j]) <= Count(xs, xs[li])
    ensures forall j :: 0 <= j < li ==> Count(xs, xs[j]) < Count(xs, xs[li])
  {
    if n == 1 then 0
    else
      var b := LeaderIndex(xs, n - 1);
      if Count(xs, xs[n - 1]) > Count(xs, xs[b]) then n - 1 else b
  }

  /** `Counter(xs).most_common(1)`: an element of maximal count; among equal
      counts, the one seen first, since every element seen before it counts
      strictly less. */
  function MostCommon(xs: seq<string>): (m: Option<string>)
    ensures m.None? <==> xs == []
    ensures m.Some? ==> m.value in xs
    ensures m.Some? ==> forall j :: 0 <= j < |xs| ==> Count(xs, xs[j]) <= Count(xs, m.value)
    ensures m.Some? ==> exists i :: 0 <= i < |xs| && xs[i] == m.value
                                    && forall j :: 0 <= j < i ==> Count(xs, xs[j]) < Count(xs, m.value)
  {
    if xs == [] then None
    else Some(xs[LeaderIndex(xs, |xs|)])
  }

  /** An element of maximal count different from the chosen one first
      appears after the chosen one's first appearance. */
  lemma MostCommonTieGoesToFirstSeen(xs: seq<string>, y: string, k: nat)
    requires k < |xs| && xs[k] == y
    requires forall j :: 0 <= j < k ==> xs[j] != y
    requires MostCommon(xs).Some? && y != MostCommon(xs).value
    requires Count(xs, y) == Count(xs, MostCommon(xs).value)
    ensures exists i :: 0 <= i < k && xs[i] == MostCommon(xs).value
  {
    var m := MostCommon(xs).value;
    var i :| 0 <= i < |xs| && xs[i] == m && forall j :: 0 <= j < i ==> Count(xs, xs[j]) < Count(xs, m);
  }

  /** One entry of a conversation's emotion progression. */
  datatype Snapshot = Snapshot(timestamp: Timestamp, emotion: string, energy: int)

  function Emotions(ps: seq<Snapshot>): (es: seq<string>)
    ensures |es| == |ps| && forall i :: 0 <= i < |ps| ==> es[i] == ps[i].emotion
  {
    seq(|ps|, i requires 0 <= i < |ps| => ps[i].emotion)
  }

  /** A conversation row; the fields the core reads or writes. */
  class Conversation {
    const id: Uuid
    var userId: Uuid
    var title: Option<string>
    var status: string
    var emotionProgression: Option<seq<Snapshot>>
    var dominantEmotion: Option<string>

    constructor (id: Uuid, userId: Uuid, title: Option<string>, status: string,
                 emotionProgression: Option<seq<Snapshot>>)
      ensures this.id == id && this.userId == userId && this.title == title
      ensures this.status == status && this.emotionProgression == emotionProgression
      ensures this.dominantEmotion.None?
    {
      this.id := id;
      this.userId := userId;
      this.title := title;
      this.status := status;
      this.emotionProgression := emotionProgression;
      this.dominantEmotion := None;
    }

    /** Appends a snapshot (a missing progression counts as empty) and sets
        the dominant emotion to the most common emotion of the result. */
    method UpdateEmotionProgression(emotionState: string, energyLevel: int, now: Timestamp)
      modifies this
      ensures emotionProgression == Some(old(emotionProgression).GetOr([]) + [Snapshot(now, emotionState, energyLevel)])
      ensures dominantEmotion == MostCommon(Emotions(emotionProgression.value))
      ensures dominantEmotion.Some?
      ensures userId == old(userId) && title == old(title) && status == old(status)
    {
      var progression := emotionProgression.GetOr([]);
      progression := progression + [Snapshot(now, emotionState, energyLevel)];
      emotionProgression := Some(progression);
      var mostCommon := MostCommon(Emotions(progression));
      if mostCommon.Some? {
        dominantEmotion := mostCommon;
      }
    }
  }

  /** After an update, the earlier snapshots are untouched, the last one
      carries the given emotion and energy, and the dominant emotion has a
      count no smaller than any other emotion's. */
  lemma ProgressionUpdateFacts(before: seq<Snapshot>, now: Timestamp, emotion: string, energy: int)
    ensures var after := before + [Snapshot(now, emotion, energy)];
            after[..|before|] == before && after[|after| - 1].emotion == emotion
            && after[|after| - 1].energy == energy
            && MostCommon(Emotions(after)).Some?
            && Count(Emotions(after), MostCommon(Emotions(after)).value) >= Count(Emotions(after), emotion)
  {
    var after := before + [Snapshot(now, emotion, energy)];
    assert Emotions(after)[|after| - 1] == emotion;
  }

  // ---------------------------------------------------------------- finding a conversation

  datatype ServiceError = ConversationNotFound(conversationId: Uuid)

  predicate IsActiveOf(c: Conversation, conversationId: Uuid, userId: Uuid)
    reads c
  {
    c.id == conversationId && c.userId == userId && c.status == "active"
  }

  /** The position of the row the lookup query selects. */
  function FindActive(store: seq<Conversation>, conversationId: Uuid, userId: Uuid): (r: Option<nat>)
    reads store
    ensures r.Some? ==> r.value < |store| && IsActiveOf(store[r.value], conversationId, userId)
    ensures r.None? ==> forall i :: 0 <= i < |store| ==> !IsActiveOf(store[i], conversationId, userId)
  {
    if store == [] then None
    else if IsActiveOf(store[0], conversationId, userId) then Some(0)
    else
      match FindActive(store[1..], conversationId, userId)
      case None => None
      case Some(i) => Some(i + 1)
  }

  /** Loads the user's active conversation with the given id, failing when
      there is none, or opens a new one ("New Chat", active, no emotions yet)
      under the identifier `freshId` the database draws. */
  method GetOrCreateConversation(store: seq<Conversation>, userId: Uuid, conversationId: Option<Uuid>, freshId: Uuid)
    returns (r: Result<Conversation, ServiceError>)
    ensures conversationId.Some? ==>
      (r.Err? <==> forall i :: 0 <= i < |store| ==> !IsActiveOf(store[i], conversationId.value, userId))
    ensures conversationId.Some? && r.Ok? ==> r.value in store && IsActiveOf(r.value, conversationId.value, userId)
    ensures conversationId.Some? && r.Err? ==> r.error == ConversationNotFound(conversationId.value)
    ensures conversationId.None? ==>
      r.Ok? && fresh(r.value)
      && r.value.id == freshId && r.value.userId == userId && r.value.title == Some("New Chat")
      && r.value.status == "active" && r.value.emotionProgression == Some([]) && r.value.dominantEmotion.None?
  {
    if conversationId.Some? {
      var found := FindActive(store, conversationId.value, userId);
      if found.None? {
        return Err(ConversationNotFound(conversationId.value));
      }
      return Ok(store[found.value]);
    }
    var conversation := new Conversation(freshId, userId, Some("New Chat"), "active", Some([]));
    return Ok(conversation);
  }

  // ---------------------------------------------------------------- one chat turn

  /** What the model returned for a request. */
  datatype LlmReply = LlmReply(content: string, model: string, promptTokens: int,
                               completionTokens: int, responseTimeMs: int)

  /** The model request of `generateAIResponse` (system prompt, the user and
      assistant history, the new user message) and the content and metadata
      it hands back for the reply the model gave. */
  method GenerateAIResponse(userMessage: string, contextMessages: seq<Message>,
                            userContext: Option<map<string, JsonValue>>, emotionState: Option<string>,
                            reply: LlmReply)
    returns (request: seq<ChatMessage>, content: string, metadata: map<string, JsonValue>)
    ensures request == [ChatMessage("system", SystemPrompt(userContext, emotionState))]
                       + Kept(contextMessages) + [ChatMessage("user", userMessage)]
    ensures content == reply.content
    ensures metadata == StoredMetadata(JStr(reply.model), JInt(reply.promptTokens),
                                       JInt(reply.completionTokens), JInt(reply.responseTimeMs))
  {
    var systemPrompt := GetSystemPrompt(userContext, emotionState);
    request := FormatMessagesForAI(contextMessages, systemPrompt);
    request := request + [ChatMessage("user", userMessage)];
    content := reply.content;
    metadata := StoredMetadata(JStr(reply.model), JInt(reply.promptTokens),
                               JInt(reply.completionTokens), JInt(reply.responseTimeMs));
  }

  datatype ChatResponse = ChatResponse(
    conversationId: Uuid,
    userMessage: Message,
    assistantMessage: Message,
    contextUsed: nat,
    suggestion: Option<SuggestionEngine.Suggestion>)

  /** The reply text once a suggestion, if any, is appended after a blank line. */
  function WithSuggestion(aiContent: string, suggestion: Option<SuggestionEngine.Suggestion>): (r: string)
    ensures IsPrefix(aiContent, r)
    ensures suggestion.None? <==> r == aiContent
    ensures suggestion.Some? ==>
      r[|aiContent|..] == "\n\n" + SuggestionEngine.GenerateSuggestionMessage(suggestion.value)
  {
    if suggestion.Some? then aiContent + ("\n\n" + SuggestionEngine.GenerateSuggestionMessage(suggestion.value))
    else aiContent
  }

  /** One chat turn on a conversation whose stored rows are `stored` (by
      increasing sequence number), once the emotion analysis has produced
      `emotionData` and the model has produced `reply`. The user message gets
      the next sequence number and the reply the one after it; a suggestion is
      appended to the reply only when the gate opens and an activity fits. */
  method Chat(conversation: Conversation, userId: Uuid, stored: seq<Message>, message: string,
              includeContext: bool, language: string, emotionData: EmotionData, reply: LlmReply, now: Timestamp)
    returns (response: ChatResponse)
    modifies conversation
    ensures response.conversationId == conversation.id
    ensures response.contextUsed == (if includeContext then Min(20, |stored|) else 0)
    ensures response.userMessage.role == "user" && response.userMessage.content == message
    ensures response.userMessage.sequenceNumber == NextSequenceNumber(MaxSequence(SequenceNumbers(stored)))
    ensures response.assistantMessage.role == "assistant"
    ensures response.assistantMessage.sequenceNumber == response.userMessage.sequenceNumber + 1
    ensures response.assistantMessage.content == WithSuggestion(reply.content, response.suggestion)
    ensures response.userMessage.conversationId == conversation.id && response.userMessage.userId == userId
    ensures response.assistantMessage.conversationId == conversation.id && response.assistantMessage.userId == userId
    ensures emotionData.IsNonEmpty() ==>
      response.userMessage.emotionState == emotionData.emotionState
      && response.userMessage.energyLevel == emotionData.energyLevel
      && response.userMessage.urgencyLevel == emotionData.urgencyLevel
      && response.userMessage.detectedThemes == Some(emotionData.detectedThemes.GetOr([]))
    ensures response.userMessage.modelUsed.None? && response.assistantMessage.emotionState.None?
    ensures response.assistantMessage.modelUsed == Some(JStr(reply.model))
    ensures response.assistantMessage.promptTokens == Some(JInt(reply.promptTokens))
    ensures response.assistantMessage.completionTokens == Some(JInt(reply.completionTokens))
    ensures response.assistantMessage.responseTimeMs == Some(JInt(reply.responseTimeMs))
    ensures !SuggestionEngine.ShouldSuggestActivity(emotionData, message) ==> response.suggestion.None?
    ensures var wanted := SuggestionEngine.FirstWanted(SuggestionEngine.Activities,
                                                       SuggestionEngine.EmotionOf(emotionData), false);
      SuggestionEngine.ShouldSuggestActivity(emotionData, message) ==> (response.suggestion.None? <==> wanted.None?)
    ensures var low := SuggestionEngine.FirstWanted(SuggestionEngine.Activities,
                                                    SuggestionEngine.EmotionOf(emotionData), true);
      SuggestionEngine.ShouldSuggestActivity(emotionData, message)
      && SuggestionEngine.EnergyOf(emotionData) < 4 && low.Some? ==>
        response.suggestion == Some(SuggestionEngine.LowEnergySuggestion(SuggestionEngine.Activities[low.value],
                                                                         SuggestionEngine.EmotionOf(emotionData)))
    ensures var wanted := SuggestionEngine.FirstWanted(SuggestionEngine.Activities,
                                                       SuggestionEngine.EmotionOf(emotionData), false);
            var low := SuggestionEngine.FirstWanted(SuggestionEngine.Activities,
                                                    SuggestionEngine.EmotionOf(emotionData), true);
      SuggestionEngine.ShouldSuggestActivity(emotionData, message)
      && wanted.Some? && !(SuggestionEngine.EnergyOf(emotionData) < 4 && low.Some?) ==>
        response.suggestion == Some(SuggestionEngine.DefaultSuggestion(SuggestionEngine.Activities[wanted.value]))
    ensures conversation.emotionProgression ==
      Some(old(conversation.emotionProgression).GetOr([])
           + [Snapshot(now, emotionData.emotionState.GetOr("neutral"), emotionData.energyLevel.GetOr(5))])
    ensures conversation.dominantEmotion == MostCommon(Emotions(conversation.emotionProgression.value))
    ensures conversation.userId == old(conversation.userId) && conversation.title == old(conversation.title)
    ensures conversation.status == old(conversation.status)
  {
    var contextMessages: seq<Message> := [];
    if includeContext {
      contextMessages := ContextWindow(stored, 20);
    }
    var contextUsed := |contextMessages|;
    var emotionState := emotionData.emotionState.GetOr("neutral");
    var energyLevel := emotionData.energyLevel.GetOr(5);
    var seqNum := NextSequenceNumber(MaxSequence(SequenceNumbers(stored)));
    var userMessage := SaveMessage(conversation.id, userId, "user", message, seqNum, Some(emotionData), None);
    conversation.UpdateEmotionProgression(emotionState, energyLevel, now);
    var userContext := map["language" := JStr(language)];
    var request, aiContent, metadata := GenerateAIResponse(message, contextMessages, Some(userContext), Some(emotionState), reply);
    var suggestion := SuggestionEngine.SuggestWhen(SuggestionEngine.ShouldSuggestActivity(emotionData, message),
                                                   emotionData);
    if suggestion.Some? {
      var suggestionMsg := SuggestionEngine.GenerateSuggestionMessage(suggestion.value);
      aiContent := aiContent + ("\n\n" + suggestionMsg);
    }
    var assistantMessage := SaveMessage(conversation.id, userId, "assistant", aiContent, seqNum + 1, None, Some(metadata));
    response := ChatResponse(conversation.id, userMessage, assistantMessage, contextUsed, suggestion);
  }
}
