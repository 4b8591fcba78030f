/** Prompt assembly: the system prompt (base persona, an optional tone block
    for the detected emotion, an optional English instruction) and the message
    list sent to the model. */
module Prompts {
  import opened Records
  import opened Text

  const BaseSystemPrompt: string := "Bạn là AI companion gentle và empathetic trong Zen APP.\n\n🎯 VAI TRÒ:\n• Lắng nghe và thấu hiểu cảm xúc user\n• Tạo không gian an toàn để chia sẻ\n• Phản hồi ấm áp, supportive, không phán xét\n• Đồng hành, không áp đặt\n\n💬 PHONG CÁCH:\n• Ngôn ngữ nhẹ nhàng, tự nhiên như bạn bè\n• Câu ngắn gọn (3-5 câu/response)\n• Gọi user bằng \"bạn\"\n• Emoji tinh tế: 😊 💙 🌸 ✨\n\n🚫 RANH GIỚI:\n• KHÔNG chẩn đoán bệnh lý\n• KHÔNG toxic positivity (\"cứ vui lên\")\n• KHÔNG ép buộc user làm gì\n\nViết tiếng Việt, trừ khi user dùng English."

  /** Extra guidance per emotion state; its key set is the set of emotions
      that change the tone. */
  const ToneAdjustments: map<string, string> := map[
    "anxious" := "\n🎭 USER ĐANG LO ÂU:\n• Validation: \"Mình hiểu bạn đang lo lắng...\"\n• Grounding: Đưa về hiện tại, breathing\n• Câu ngắn, rõ ràng\n• Không ép positivity\n",
    "stressed" := "\n🎭 USER ĐANG STRESSED:\n• Thừa nhận áp lực: \"Nghe có vẻ nhiều việc thật...\"\n• Offer rest: Gợi ý nghỉ ngơi\n• Không add thêm pressure\n",
    "sad" := "\n🎭 USER ĐANG BUỒN:\n• Sit with sadness: Không cố cheer up ngay\n• Gentle presence: \"Mình ở đây cùng bạn\"\n• Validate: \"Buồn là bình thường thôi\"\n",
    "tired" := "\n🎭 USER ĐANG MỆT:\n• Compassion: \"Bạn đã làm việc nhiều rồi nhỉ?\"\n• Permission to rest: \"Bạn được phép nghỉ\"\n• Short responses\n",
    "overwhelmed" := "\n🎭 USER BỊ OVERWHELM:\n• Break it down: Đơn giản hóa\n• One step: \"Bây giờ bạn chỉ cần...\"\n• Grounding\n",
    "calm" := "\n🎭 USER BÌNH TĨNH:\n• Conversational tone\n• Có thể hỏi sâu hơn\n• Warmer\n",
    "happy" := "\n🎭 USER VUI:\n• Celebrate: \"Vui quá! 😊\"\n• Share joy\n• Lighter tone\n"
  ]

  const EnglishInstruction: string := "\n\n🌍 Respond in English with the same empathetic tone."

  /** The tone block applies: the emotion is given, not empty, and a key of the table. */
  predicate HasTone(tones: map<string, string>, emotionState: Option<string>) {
    emotionState.Some? && emotionState.value != "" && emotionState.value in tones
  }

  /** The user context is given and its "language" entry is "en". */
  predicate WantsEnglish(userContext: Option<map<string, JsonValue>>) {
    userContext.Some? && Get(userContext.value, "language") == Some(JStr("en"))
  }

  /** The prompt made of a base text, a tone table and a language line. */
  function Assemble(base: string, tones: map<string, string>, english: string,
                    userContext: Option<map<string, JsonValue>>, emotionState: Option<string>): string
  {
    base
    + (if HasTone(tones, emotionState) then "\n\n" + tones[emotionState.value] else "")
    + (if WantsEnglish(userContext) then english else "")
  }

  /** The system prompt for a user context and an emotion. */
  function SystemPrompt(userContext: Option<map<string, JsonValue>>, emotionState: Option<string>): string {
    Assemble(BaseSystemPrompt, ToneAdjustments, EnglishInstruction, userContext, emotionState)
  }

  /** Grows the prompt from `base`: the tone block, then the language line. */
  method AppendSections(base: string, tones: map<string, string>, english: string,
                        userContext: Option<map<string, JsonValue>>, emotionState: Option<string>)
    returns (prompt: string)
    ensures prompt == Assemble(base, tones, english, userContext, emotionState)
  {
    prompt := base;
    if emotionState.Some? && emotionState.value != "" && emotionState.value in tones {
      prompt := prompt + ("\n\n" + tones[emotionState.value]);
    }
    if userContext.Some? && userContext.value != map[] && Get(userContext.value, "language") == Some(JStr("en")) {
      prompt := prompt + english;
    }
  }

  /** The system prompt: the base persona, the tone block for a recognised
      emotion, and the English line when asked for. */
  method GetSystemPrompt(userContext: Option<map<string, JsonValue>>, emotionState: Option<string>)
    returns (prompt: string)
    ensures prompt == SystemPrompt(userContext, emotionState)
  {
    prompt := AppendSections(BaseSystemPrompt, ToneAdjustments, EnglishInstruction, userContext, emotionState);
  }

  lemma {:induction false} PrefixOfAppend(a: string, b: string)
    ensures IsPrefix(a, a + b)
  {
    assert (a + b)[..|a|] == a;
  }

  /** The base always opens the prompt; a recognised emotion puts its tone
      block right after it; otherwise the base is followed directly by the
      (possibly empty) language line. */
  lemma {:induction false} AssembleLayout(base: string, tones: map<string, string>, english: string,
                                          userContext: Option<map<string, JsonValue>>, emotionState: Option<string>)
    ensures IsPrefix(base, Assemble(base, tones, english, userContext, emotionState))
    ensures HasTone(tones, emotionState) ==>
      IsPrefix(base + ("\n\n" + tones[emotionState.value]), Assemble(base, tones, english, userContext, emotionState))
    ensures !HasTone(tones, emotionState) ==>
      Assemble(base, tones, english, userContext, emotionState) == base + (if WantsEnglish(userContext) then english else "")
    ensures !HasTone(tones, emotionState) && !WantsEnglish(userContext) ==>
      Assemble(base, tones, english, userContext, emotionState) == base
  {
    var tone := if HasTone(tones, emotionState) then "\n\n" + tones[emotionState.value] else "";
    var lang := if WantsEnglish(userContext) then english else "";
    PrefixOfAppend(base + tone, lang);
    PrefixOfAppend(base, tone);
    assert base + "" == base;
    assert base + tone + "" == base + tone;
  }

  /** The layout of the system prompt itself. */
  lemma SystemPromptLayout(userContext: Option<map<string, JsonValue>>, emotionState: Option<string>)
    ensures IsPrefix(BaseSystemPrompt, SystemPrompt(userContext, emotionState))
    ensures HasTone(ToneAdjustments, emotionState) ==>
      IsPrefix(BaseSystemPrompt + ("\n\n" + ToneAdjustments[emotionState.value]), SystemPrompt(userContext, emotionState))
    ensures !HasTone(ToneAdjustments, emotionState) && !WantsEnglish(userContext) ==>
      SystemPrompt(userContext, emotionState) == BaseSystemPrompt
  {
    AssembleLayout(BaseSystemPrompt, ToneAdjustments, EnglishInstruction, userContext, emotionState);
  }

  /** The tone table has the emotions "anxious", "stressed", "sad", "tired",
      "overwhelmed", "calm" and "happy" as keys, and no other; so "neutral",
      "angry" and "confused" leave the tone unchanged. */
  lemma ToneKeys()
    ensures ToneAdjustments.Keys == {"anxious", "stressed", "sad", "tired", "overwhelmed", "calm", "happy"}
    ensures !HasTone(ToneAdjustments, Some("neutral")) && !HasTone(ToneAdjustments, Some("angry"))
    ensures !HasTone(ToneAdjustments, Some("confused")) && !HasTone(ToneAdjustments, None)
  {
  }

  /** Neither the base persona nor any tone block ends with the English line:
      the base ends in "English." and every tone block in a line break. */
  lemma NoSectionEndsInEnglish()
    ensures !IsSuffix(EnglishInstruction, BaseSystemPrompt)
    ensures forall k :: k in ToneAdjustments ==>
      |EnglishInstruction| <= |"\n\n" + ToneAdjustments[k]| && !IsSuffix(EnglishInstruction, "\n\n" + ToneAdjustments[k])
  {
    var e := EnglishInstruction;
    assert e[|e| - 1] == '.';
    assert BaseSystemPrompt[|BaseSystemPrompt| - 2] != e[|e| - 2];
    forall k | k in ToneAdjustments
      ensures |e| <= |"\n\n" + ToneAdjustments[k]| && !IsSuffix(e, "\n\n" + ToneAdjustments[k])
    {
      var t := "\n\n" + ToneAdjustments[k];
      assert t[|t| - 1] == '\n';
    }
  }

  /** When `t` is at least as long as `e`, `a + t` ends with `e` only if `t` does. */
  lemma {:induction false} EndsLikeLast(a: string, t: string, e: string)
    requires |e| <= |t|
    requires !IsSuffix(e, t)
    ensures !IsSuffix(e, a + t)
  {
    assert (a + t)[|a + t| - |e|..] == t[|t| - |e|..];
  }

  /** With a base and tone blocks that do not end in the language line, the
      prompt ends in the language line exactly when English is asked for. */
  lemma {:induction false} AssembleEndsInEnglishIff(base: string, tones: map<string, string>, english: string,
                                                    userContext: Option<map<string, JsonValue>>, emotionState: Option<string>)
    requires !IsSuffix(english, base)
    requires forall k :: k in tones ==> |english| <= |"\n\n" + tones[k]| && !IsSuffix(english, "\n\n" + tones[k])
    ensures IsSuffix(english, Assemble(base, tones, english, userContext, emotionState)) <==> WantsEnglish(userContext)
  {
    var tone := if HasTone(tones, emotionState) then "\n\n" + tones[emotionState.value] else "";
    var p := base + tone;
    if WantsEnglish(userContext) {
      assert (p + english)[|p|..] == english;
    } else {
      assert Assemble(base, tones, english, userContext, emotionState) == p + "";
      assert p + "" == p;
      if HasTone(tones, emotionState) {
        EndsLikeLast(base, tone, english);
      } else {
        assert p == base;
      }
    }
  }

  /** The system prompt ends with the English instruction exactly when the
      user context asks for English. */
  lemma EnglishInstructionIffWanted(userContext: Option<map<string, JsonValue>>, emotionState: Option<string>)
    ensures IsSuffix(EnglishInstruction, SystemPrompt(userContext, emotionState)) <==> WantsEnglish(userContext)
  {
    NoSectionEndsInEnglish();
    AssembleEndsInEnglishIff(BaseSystemPrompt, ToneAdjustments, EnglishInstruction, userContext, emotionState);
  }

  // ---------------------------------------------------------------- messages

  /** One entry of the list sent to the model. */
  datatype ChatMessage = ChatMessage(role: string, content: string)

  predicate IsChatRole(role: string) {
    role == "user" || role == "assistant"
  }

  function AsChat(m: Message): ChatMessage {
    ChatMessage(m.role, m.content)
  }

  /** The user and assistant messages of `ms`, as chat entries, in order. */
  function Kept(ms: seq<Message>): (r: seq<ChatMessage>)
    ensures |r| <= |ms|
    ensures forall k :: 0 <= k < |r| ==> IsChatRole(r[k].role)
  {
    if ms == [] then []
    else Kept(ms[..|ms| - 1]) + (if IsChatRole(ms[|ms| - 1].role) then [AsChat(ms[|ms| - 1])] else [])
  }

  /** The positions of the user and assistant messages in `ms`: increasing,
      each one a chat role, and every chat-role position among them. */
  function ChatPositions(ms: seq<Message>): (ix: seq<nat>)
    ensures forall j :: 0 <= j < |ix| ==> ix[j] < |ms| && IsChatRole(ms[ix[j]].role)
    ensures forall j, k :: 0 <= j < k < |ix| ==> ix[j] < ix[k]
    ensures forall i :: 0 <= i < |ms| && IsChatRole(ms[i].role) ==> i in ix
  {
    if ms == [] then []
    else
      var ix := ChatPositions(ms[..|ms| - 1]);
      assert forall i :: 0 <= i < |ms| - 1 ==> ms[..|ms| - 1][i] == ms[i];
      ix + (if IsChatRole(ms[|ms| - 1].role) then [|ms| - 1] else [])
  }

  /** Entry j of the kept list is the message at the j-th chat-role position,
      with its role and content: nothing else is kept, nothing kept is
      reordered. */
  lemma {:induction false} KeptMatchesPositions(ms: seq<Message>)
    ensures |Kept(ms)| == |ChatPositions(ms)|
    ensures forall j :: 0 <= j < |Kept(ms)| ==> Kept(ms)[j] == AsChat(ms[ChatPositions(ms)[j]])
  {
    if ms != [] {
      var init := ms[..|ms| - 1];
      KeptMatchesPositions(init);
      assert forall i :: 0 <= i < |init| ==> init[i] == ms[i];
    }
  }

  /** The history as sent to the model: the system prompt first, then the
      user and assistant messages in their original order. */
  method FormatMessagesForAI(messages: seq<Message>, systemPrompt: string) returns (formatted: seq<ChatMessage>)
    ensures formatted == [ChatMessage("system", systemPrompt)] + Kept(messages)
  {
    formatted := [ChatMessage("system", systemPrompt)];
    var i := 0;
    while i < |messages|
      invariant 0 <= i <= |messages|
      invariant formatted == [ChatMessage("system", systemPrompt)] + Kept(messages[..i])
    {
      assert messages[..i + 1][..i] == messages[..i];
      if messages[i].role in ["user", "assistant"] {
        formatted := formatted + [ChatMessage(messages[i].role, messages[i].content)];
      }
      i := i + 1;
    }
    assert messages[..i] == messages;
  }
}
