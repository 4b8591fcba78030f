# Zen companion chat backend — a verified model of the conversation core

This project models the chat core of the Zen app backend in Dafny. That core covers:

- the fast path that answers greetings, thanks, goodbyes and yes/no messages with canned replies;
- the system prompt and the message list sent to the model;
- the clean-up of the emotion analyser's reply and its neutral fallback;
- the activity-suggestion rules and the suggestion text;
- the bookkeeping of the conversation service: sequence numbers, the context window, saving message rows, the emotion progression with its dominant emotion, and finding or creating a conversation;
- the helpers of the memory service: importance scoring, saving a memory, the similarity search loop with its access tracking, and the conversation summary;
- the streaming endpoint: server-sent-event frames, the word-by-word replay, the history scans and the event sequence of one request.

Each module follows one source file:

| module | file |
|---|---|
| `Text` | Python string primitives the core uses (`str.strip`, `str.lower`, `str.split`, `str.join`, substring search, `str(int)`) |
| `Records` | shared values: JSON-like values, the emotion dictionary, the message row |
| `EmotionAnalyzer` | `app/modules/conversation/emotion_analyzer.py` |
| `SuggestionEngine` | `app/modules/conversation/suggestion_engine.py` |
| `SimpleResponder` | `app/modules/conversation/simple_responder.py` |
| `Prompts` | `app/modules/conversation/prompts.py` |
| `ConversationService` | `app/modules/conversation/service.py` |
| `MemoryService` | `app/modules/memory/service.py` |
| `ChatStreaming` | `app/api/v1/endpoints/chat_streaming.py` |

Code that works on values is modelled as functions and lemmas. Code that changes things is modelled imperatively:

- the ORM objects whose fields are updated (a conversation's emotion progression, a memory's access counters, the streaming session state) are classes;
- the importance score, which adds its weights to a local variable one step at a time, is a method;
- loops that accumulate (the search loop, the chunk relay, the reversed scan with `break`, the history rebuild) are methods with loop invariants.

Each method is proved against a specification function.

Inputs the code obtains from outside become parameters:

- randomness: the index of the canned reply;
- clocks: a timestamp and an elapsed time;
- fresh identifiers;
- the model's replies and token stream;
- the outcome of the embedding call;
- the rows the database returns.

Other modelling choices:

- Importance scores are kept as integer tenths (5 to 8) and converted to a `real` at the end.
- Similarities are `real`.
- The Vietnamese text of the source is reproduced character for character as it appears in the files, including its mis-encoded parts.

Where the program's files disagree with each other, the model follows the code that runs:

- `suggestion_engine.py` defines only the two-argument `shouldSuggestActivity` and the one-argument `getSuggestedActivity`, and those are what `SuggestionEngine` models.
- `chat_streaming.py` calls these two functions with extra keyword arguments (`conversationTurnCount`, `lastAssistantMessage`, `userLanguage`, `context`, `userMessage`) that their definitions do not accept. It also imports `ConversationContext` and `analyzeEmotionSimple`, which suggestion_engine.py and emotion_analyzer.py do not define. Their results are therefore parameters of `ChatStreaming.SlowPath`.

## Model

| member | source | states |
|---|---|---|
| Text.TrimStart | app/modules/conversation/simple_responder.py:68 | the result is a suffix of the input and does not start with whitespace; everything dropped is whitespace |
| Text.TrimEnd | app/modules/conversation/simple_responder.py:68 | the result is a prefix of the input and does not end with whitespace; everything dropped is whitespace |
| Text.StripIgnoresSurroundingSpace | app/modules/conversation/simple_responder.py:68 | whitespace added on either side does not change `strip()` |
| Text.StripIdempotent | app/modules/memory/service.py:252 | stripping twice is stripping once |
| Text.StripIsSlice | app/modules/conversation/emotion_analyzer.py:67 | `strip()` returns a contiguous slice of its input |
| Text.Lower | app/modules/conversation/simple_responder.py:68 | `lower()` keeps the length and maps every character through the case table |
| Text.LowerIdempotent | app/modules/conversation/suggestion_engine.py:76 | lowering twice is lowering once |
| Text.LowerAppend | app/modules/conversation/suggestion_engine.py:76 | lowering distributes over concatenation |
| Text.Words | app/modules/conversation/simple_responder.py:86 | `split()` yields non-empty words without whitespace, and no words exactly when the text is all whitespace |
| Text.WordsOfJoin | app/api/v1/endpoints/chat_streaming.py:101-104 | splitting words joined by single spaces gives back the words |
| Text.Find | app/modules/conversation/emotion_analyzer.py:71 | the first occurrence at or after a position, or none at all |
| Text.DecimalRoundTrip | app/modules/conversation/suggestion_engine.py:185 | the decimal text of a duration reads back as the duration |
| EmotionAnalyzer.FenceSegment | app/modules/conversation/emotion_analyzer.py:71 | the text up to the next fence: a prefix of the rest that contains no fence and stops at one |
| EmotionAnalyzer.DropJsonTag | app/modules/conversation/emotion_analyzer.py:72-73 | a leading `json` is removed, and nothing else changes |
| EmotionAnalyzer.CleanReply | app/modules/conversation/emotion_analyzer.py:67-75 | an unfenced reply is only stripped; a fenced one becomes its first fenced segment, without the `json` tag, stripped |
| EmotionAnalyzer.FencedReplyHasNoFence | app/modules/conversation/emotion_analyzer.py:70-75 | after the clean-up a fenced reply contains no fence |
| EmotionAnalyzer.StripKeepsNoFence | app/modules/conversation/emotion_analyzer.py:75 | stripping cannot create a fence |
| EmotionAnalyzer.JsonTagKeepsNoFence | app/modules/conversation/emotion_analyzer.py:72-73 | dropping the tag cannot create a fence |
| EmotionAnalyzer.Fallback | app/modules/conversation/emotion_analyzer.py:85-93 | neutral, energy 5, low urgency, no themes, nothing else |
| EmotionAnalyzer.AnalyzeEmotion | app/modules/conversation/emotion_analyzer.py:26-93 | no reply or an undecodable reply gives the fallback; otherwise the decoded cleaned reply |
| SuggestionEngine.AnyKeyword | app/modules/conversation/suggestion_engine.py:75-76 | true exactly when some keyword occurs in the text |
| SuggestionEngine.ShouldSuggestActivity | app/modules/conversation/suggestion_engine.py:50-98 | a direct request, or high or crisis urgency, suggests; otherwise it suggests exactly when a support emotion meets an energy below 5 |
| SuggestionEngine.KeywordsAreLower | app/modules/conversation/suggestion_engine.py:75 | every keyword is already lower case, so it can match the lowered message |
| SuggestionEngine.MentioningAKeywordSuggests | app/modules/conversation/suggestion_engine.py:74-78 | any message containing a keyword gets a suggestion, whatever the reading |
| SuggestionEngine.ShouldSuggestIgnoresCase | app/modules/conversation/suggestion_engine.py:76 | lowering the message does not change the decision |
| SuggestionEngine.Suitable | app/modules/conversation/suggestion_engine.py:132-135 | the catalogue entries that suit the emotion, a subsequence of the catalogue |
| SuggestionEngine.FirstWanted | app/modules/conversation/suggestion_engine.py:144-145 | the first entry that is wanted, and no earlier entry is wanted; none when no entry is wanted |
| SuggestionEngine.SuitableAppend | app/modules/conversation/suggestion_engine.py:133-135 | filtering distributes over concatenation of catalogues |
| SuggestionEngine.SuitableEmpty | app/modules/conversation/suggestion_engine.py:137-139 | the filtered list is empty exactly when no entry suits |
| SuggestionEngine.SuitableHead | app/modules/conversation/suggestion_engine.py:156 | `suitableActivities[0]` is the first suiting catalogue entry |
| SuggestionEngine.SuitableFirstLow | app/modules/conversation/suggestion_engine.py:144-146 | the first low-energy entry of the filtered list is the first suiting low-energy catalogue entry |
| SuggestionEngine.SuitableNoLow | app/modules/conversation/suggestion_engine.py:142-156 | with no low-energy entry among the suitable ones there is none in the catalogue |
| SuggestionEngine.PickActivity | app/modules/conversation/suggestion_engine.py:128-164 | none when nothing suits; below energy 4 the first suiting low-energy entry with the "phù hợp" reason; otherwise the first suiting entry with the default reason; always drawn from a suiting entry |
| SuggestionEngine.GetSuggestedActivity | app/modules/conversation/suggestion_engine.py:101-164 | the same over the real catalogue, with the emotion defaulting to neutral and the energy to 5 |
| SuggestionEngine.Activities | app/modules/conversation/suggestion_engine.py:11-47 | the five catalogue entries in declaration order, with their names, durations, emotion lists, energy requirements and descriptions as written |
| SuggestionEngine.SuggestWhen | app/modules/conversation/service.py:472-476 | no suggestion when the gate is closed; otherwise exactly what `getSuggestedActivity` returns: none when nothing suits, the low-energy entry below energy 4, else the first suiting entry |
| SuggestionEngine.NeutralSuitsNothing | app/modules/conversation/suggestion_engine.py:11-47 | no catalogue entry suits "neutral" |
| SuggestionEngine.AngryFallsBackToWalk | app/modules/conversation/suggestion_engine.py:11-47 | "angry" has no low-energy entry, so it always gets the walk |
| SuggestionEngine.GenerateSuggestionMessage | app/modules/conversation/suggestion_engine.py:183-186 | the lead, the lowered activity name, then the minutes, the reason and the heart |
| SuggestionEngine.DurationReadable | app/modules/conversation/suggestion_engine.py:184-185 | the duration can be read back from the message |
| SimpleResponder.AltAt | app/modules/conversation/simple_responder.py:84 | some alternative matches on word boundaries at the position |
| SimpleResponder.SearchFrom | app/modules/conversation/simple_responder.py:84 | some alternative matches at some position from the start position on |
| SimpleResponder.AnyWhole | app/modules/conversation/simple_responder.py:30 | the anchored alternatives match the whole message |
| SimpleResponder.Search | app/modules/conversation/simple_responder.py:84 | the search succeeds exactly when the pattern matches |
| SimpleResponder.AnyPattern | app/modules/conversation/simple_responder.py:113-117 | `any(re.search(...))` over a pattern list |
| SimpleResponder.AnyGroup | app/modules/conversation/simple_responder.py:82-84 | some pattern of some group matches |
| SimpleResponder.IsSimplePattern | app/modules/conversation/simple_responder.py:58-90 | longer than 30 characters after normalising: no; otherwise yes exactly when some pattern matches and there are at most four words |
| SimpleResponder.IsSimpleGreeting | app/modules/conversation/simple_responder.py:94-96 | the same verdict as the classifier |
| SimpleResponder.GreetingPatterns | app/modules/conversation/simple_responder.py:13-19 | the three word-bounded greeting patterns and their alternatives |
| SimpleResponder.ThanksPatterns | app/modules/conversation/simple_responder.py:21-23 | the word-bounded thanks pattern |
| SimpleResponder.ByePatterns | app/modules/conversation/simple_responder.py:25-27 | the word-bounded farewell pattern |
| SimpleResponder.YesNoPatterns | app/modules/conversation/simple_responder.py:29-31 | the anchored yes/no pattern |
| SimpleResponder.AllPatterns | app/modules/conversation/simple_responder.py:75-80 | the four groups in the order the classifier tries them |
| SimpleResponder.GreetingResponses | app/modules/conversation/simple_responder.py:33-37 | the three greeting replies |
| SimpleResponder.ThanksResponses | app/modules/conversation/simple_responder.py:39-43 | the three thanks replies |
| SimpleResponder.ByeResponses | app/modules/conversation/simple_responder.py:45-49 | the three farewell replies |
| SimpleResponder.YesNoResponses | app/modules/conversation/simple_responder.py:51-55 | the three yes/no replies |
| SimpleResponder.Normalize | app/modules/conversation/simple_responder.py:68 | `message.lower().strip()`, whose shape `SimpleResponder.NormalizedShape` states |
| SimpleResponder.Matches | app/modules/conversation/simple_responder.py:84 | `re.search` with `re.IGNORECASE`: some alternative at some position between word boundaries, or, for an anchored pattern, an alternative that is the whole text, optionally followed by one newline |
| SimpleResponder.NormalizeIgnoresCaseAndSpace | app/modules/conversation/simple_responder.py:68 | surrounding whitespace and case do not change the normalised message |
| SimpleResponder.IsSimplePatternIgnoresCaseAndSpace | app/modules/conversation/simple_responder.py:58-90 | surrounding whitespace and case do not change the verdict |
| SimpleResponder.NormalizedShape | app/modules/conversation/simple_responder.py:68 | the normalised message is lower case and does not end in whitespace |
| SimpleResponder.YesNoMatchIsWholeMessage | app/modules/conversation/simple_responder.py:29-31 | a yes/no match means the whole normalised message is one of the tokens |
| SimpleResponder.ResponseCategory | app/modules/conversation/simple_responder.py:113-121 | thanks first, then bye, then yes/no, otherwise greeting, each an if-and-only-if over the matches |
| SimpleResponder.Bank | app/modules/conversation/simple_responder.py:33-55 | every reply bank has three replies |
| SimpleResponder.GetSimpleResponse | app/modules/conversation/simple_responder.py:99-132 | a reply from the category's bank chosen by the random pick; metadata with exactly the keys model, promptTokens, completionTokens and responseTimeMs, holding "simple-responder", 0, 0 and the elapsed time |
| SimpleResponder.ResponseCategoryIgnoresCaseAndSpace | app/modules/conversation/simple_responder.py:110-121 | surrounding whitespace and case do not change the category |
| Prompts.AppendSections | app/modules/conversation/prompts.py:92-102 | the prompt grown step by step equals the assembled prompt |
| Prompts.GetSystemPrompt | app/modules/conversation/prompts.py:76-102 | the method returns the system prompt |
| Prompts.PrefixOfAppend | app/modules/conversation/prompts.py:96 | appending keeps the earlier text as a prefix |
| Prompts.AssembleLayout | app/modules/conversation/prompts.py:92-102 | the base comes first; a known tone follows it after a blank line; with no tone and no English wish the prompt is just the base |
| Prompts.SystemPromptLayout | app/modules/conversation/prompts.py:92-102 | the same layout for the real base and tone texts |
| Prompts.ToneKeys | app/modules/conversation/prompts.py:29-73 | exactly seven emotions have a tone; neutral, angry, confused and no emotion have none |
| Prompts.NoSectionEndsInEnglish | app/modules/conversation/prompts.py:6-73 | neither the base nor a tone section ends with the English instruction |
| Prompts.EndsLikeLast | app/modules/conversation/prompts.py:100 | a fixed suffix is determined by the last part of a concatenation |
| Prompts.AssembleEndsInEnglishIff | app/modules/conversation/prompts.py:99-100 | the prompt ends with the English instruction exactly when the language is "en" |
| Prompts.EnglishInstructionIffWanted | app/modules/conversation/prompts.py:99-100 | the same for the real texts |
| Prompts.ChatPositions | app/modules/conversation/prompts.py:128-129 | the increasing positions of all user and assistant messages |
| Prompts.KeptMatchesPositions | app/modules/conversation/prompts.py:128-133 | the kept entries are exactly those messages, in order, as role and content |
| Prompts.FormatMessagesForAI | app/modules/conversation/prompts.py:105-135 | the system message first, then the kept history |
| Prompts.BaseSystemPrompt | app/modules/conversation/prompts.py:6-25 | the base prompt text as written |
| Prompts.ToneAdjustments | app/modules/conversation/prompts.py:29-73 | the tone texts by emotion, as written; `Prompts.ToneKeys` states which emotions have one |
| Prompts.EnglishInstruction | app/modules/conversation/prompts.py:100 | the English line, with the blank line before it |
| Prompts.Assemble | app/modules/conversation/prompts.py:92-102 | the base, then a blank line and the tone when the emotion is non-empty and has one, then the English line when the context asks for "en"; `Prompts.AssembleLayout` and `Prompts.AssembleEndsInEnglishIff` state its layout |
| Prompts.Kept | app/modules/conversation/prompts.py:128-133 | no more entries than messages, each with a user or assistant role; `Prompts.KeptMatchesPositions` states which |
| ConversationService.NextSequenceNumber | app/modules/conversation/service.py:168-183 | 1 when there is no maximum or it is 0, otherwise one past the maximum |
| ConversationService.MaxSequence | app/modules/conversation/service.py:177-183 | none for no rows, otherwise a stored number that no stored number exceeds |
| ConversationService.NextIsFresh | app/modules/conversation/service.py:168-183 | the next number exceeds every stored one, so it is unused |
| ConversationService.Reverse | app/modules/conversation/service.py:165 | reversal by position |
| ConversationService.ContextWindow | app/modules/conversation/service.py:135-165 | the last `limit` rows (or all of them), oldest first |
| ConversationService.WindowIsNewest | app/modules/conversation/service.py:156-165 | the window is at most `limit` long, ascending, and newer than every row left out |
| ConversationService.StoredMetadata | app/modules/conversation/service.py:340-345 | exactly the keys model_used, prompt_tokens, completion_tokens and response_time_ms, holding the given values |
| ConversationService.SaveMessage | app/modules/conversation/service.py:186-246 | the row's fields; emotion fields only from a non-empty emotion dictionary (themes default to []); AI fields only from non-empty metadata, read under the snake_case keys |
| ConversationService.LeaderIndex | app/modules/conversation/service.py:292-296 | the first position whose value is counted most often |
| ConversationService.MostCommon | app/modules/conversation/service.py:292-296 | `Counter.most_common(1)`: a most frequent value, none only for no values |
| ConversationService.MostCommonTieGoesToFirstSeen | app/modules/conversation/service.py:294-296 | on a tie the value seen first wins |
| ConversationService.Conversation.constructor | app/models/conversation.py:14-54 | the given fields and no dominant emotion |
| ConversationService.Conversation.UpdateEmotionProgression | app/modules/conversation/service.py:249-296 | one snapshot appended to the progression (an absent progression reads as empty); the dominant emotion is the most common one; nothing else changes |
| ConversationService.ProgressionUpdateFacts | app/modules/conversation/service.py:280-296 | the old snapshots are kept, the new one is last, and the dominant emotion is counted at least as often as the new one |
| ConversationService.FindActive | app/modules/conversation/service.py:106-116 | the position of an active conversation with this id and owner, or none when there is none |
| ConversationService.GetOrCreateConversation | app/modules/conversation/service.py:82-132 | a given id finds the active conversation of the user or fails with not-found; no id makes a fresh "New Chat" with an empty progression |
| ConversationService.GenerateAIResponse | app/modules/conversation/service.py:298-347 | the request is the system prompt, the kept context and the user message; the content and snake_case metadata come from the reply |
| ConversationService.WithSuggestion | app/modules/conversation/service.py:475-478 | the reply text is kept as a prefix; it is unchanged exactly when there is no suggestion, and otherwise a blank line and the suggestion message follow it |
| ConversationService.Chat | app/modules/conversation/service.py:349-522 | the context used; the two rows of the conversation and user with the next two sequence numbers; the user row's emotion fields from a non-empty reading; the reply row's model name, token counts and time from the reply; which suggestion is returned (none unless the gate opens, then the low-energy entry below energy 4 or else the first suiting entry, with its reason) and the reply text with it; the progression and dominant emotion updated; owner, title and status unchanged |
| MemoryService.EmotionWeight | app/modules/memory/service.py:263-267 | 2 tenths for a strong emotion, 1 for a mild one, 0 otherwise |
| MemoryService.ThemeWeight | app/modules/memory/service.py:269-271 | 1 tenth for two or more themes |
| MemoryService.CalculateImportance | app/modules/memory/service.py:259-273 | the accumulated score lies between 5 and 8 tenths and is base plus emotion weight plus theme weight; the cap at 10 never binds |
| MemoryService.EmotionListsDisjoint | app/modules/memory/service.py:264-266 | no emotion is both strong and mild |
| MemoryService.ThemesAddOneTenth | app/modules/memory/service.py:270-271 | a second theme adds exactly one tenth |
| MemoryService.ImportanceScore | app/models/memory.py:32 | the stored score is the tenths divided by ten |
| MemoryService.SemanticMemory.constructor | app/modules/memory/service.py:58-68 | the given fields, an access count of 0 and no last access |
| MemoryService.SemanticMemory.Touch | app/modules/memory/service.py:144-145 | the access count rises by one and the last access becomes now |
| MemoryService.SaveSemanticMemory | app/modules/memory/service.py:25-84 | a failed embedding is an error; otherwise a fresh memory with the given fields, empty context and tags by default, never accessed |
| MemoryService.Hit | app/modules/memory/service.py:147-156 | the result entry carries the memory's id, content, type, emotional context, tags, importance and creation time, and the similarity |
| MemoryService.Matching | app/modules/memory/service.py:141-142 | positions below the bound |
| MemoryService.MatchingPassInOrder | app/modules/memory/service.py:141-142 | every matched row reaches the threshold and the matches are in row order |
| MemoryService.MatchingComplete | app/modules/memory/service.py:141-142 | every row that reaches the threshold is matched |
| MemoryService.Cap | app/modules/memory/service.py:158-159 | the loop stops after at least one match, and after exactly `limit` when the limit is positive |
| MemoryService.Selected | app/modules/memory/service.py:140-159 | at most the cap, and a prefix of all matches |
| MemoryService.MatchingPrefix | app/modules/memory/service.py:141 | scanning more rows only extends the matches |
| MemoryService.SelectedRowsPassInOrder | app/modules/memory/service.py:140-159 | every returned memory reaches the threshold, in the database's order |
| MemoryService.ShortResultHasAllMatches | app/modules/memory/service.py:158-159 | a result shorter than the cap contains every matching row |
| MemoryService.TouchRow | app/modules/memory/service.py:142-145 | touching a matching row extends the tracking invariant by one row |
| MemoryService.TrackedSkip | app/modules/memory/service.py:142 | skipping a row below the threshold extends the invariant |
| MemoryService.FilterRows | app/modules/memory/service.py:140-159 | the hits of the selected rows; exactly the selected memories are touched, every other memory is unchanged |
| MemoryService.ScanRows | app/modules/memory/service.py:140-159 | the loop, with its break, scans a prefix whose matches are exactly the selection |
| MemoryService.ScanRow | app/modules/memory/service.py:139-155 | one pass of the loop body: a row reaching the threshold has its access counted and its result appended, any other row is passed over; either way the matches and the tracking invariant extend by one row |
| MemoryService.TrackedSelected | app/modules/memory/service.py:140-159 | the invariant at the end of the scan means exactly the selected memories were touched |
| MemoryService.MatchingMembers | app/modules/memory/service.py:141-142 | a row is matched exactly when it is scanned and reaches the threshold |
| MemoryService.Hits | app/modules/memory/service.py:147-156 | one result entry per selected position |
| MemoryService.HitsAt | app/modules/memory/service.py:147-156 | each entry is the entry of its row |
| MemoryService.HitsAppend | app/modules/memory/service.py:147 | appending a match appends its entry |
| MemoryService.SelectedWhenFull | app/modules/memory/service.py:158-159 | once `limit` matches are found they are the selection |
| MemoryService.Eligible | app/modules/memory/service.py:132 | exactly the memories at or above the minimum importance |
| MemoryService.EligibleDistinct | app/modules/memory/service.py:131-132 | filtering keeps rows distinct |
| MemoryService.Fetch | app/modules/memory/service.py:126-137 | a negative limit is an error; otherwise at most twice the limit eligible rows, in order |
| MemoryService.FetchDistinct | app/modules/memory/service.py:126-137 | the fetched rows are distinct memories of the user |
| MemoryService.SearchSemanticMemories | app/modules/memory/service.py:86-169 | no memories: no result and no embedding; a failing embedding or a negative limit: no result, and no access count or last-access time changes; otherwise the filtered hits of the fetched rows, one more access at `now` for exactly the selected fetched memories, and every other memory untouched |
| MemoryService.Line | app/modules/memory/service.py:195 | "role: content", with "user" and "" for missing keys |
| MemoryService.LastFive | app/modules/memory/service.py:196 | the last five messages, or all of them |
| MemoryService.Transcript | app/modules/memory/service.py:194-197 | empty exactly when there are no messages; otherwise it ends with the last message's line |
| MemoryService.JoinAppend | app/modules/memory/service.py:194 | joining one more line adds the separator and the line |
| MemoryService.TranscriptIgnoresOlder | app/modules/memory/service.py:194-197 | only the last five messages reach the transcript |
| MemoryService.TranscriptGrowsByALine | app/modules/memory/service.py:194-197 | below five messages, a new message adds one line |
| MemoryService.Summary | app/modules/memory/service.py:222-257 | a stripped reply cut to 400 characters; on failure the first 200 characters and "..." |
| MemoryService.LongSummaryIsCut | app/modules/memory/service.py:253 | a long reply yields exactly 400 characters |
| MemoryService.SummaryContext | app/modules/memory/service.py:208-211 | exactly the emotion and the themes |
| MemoryService.SaveConversationSummary | app/modules/memory/service.py:171-220 | a failed embedding gives nothing; otherwise a fresh conversation memory of the summary, tagged with the themes, with the computed importance |
| MemoryService.StoreSummary | app/modules/memory/service.py:199-212 | the save step: nothing when the embedding fails, otherwise a fresh "conversation" memory holding exactly the given summary, context, tags and importance |
| ChatStreaming.FormatSse | app/api/v1/endpoints/chat_streaming.py:33-36 | the frame starts with the event line and the data prefix and ends with the data and a blank line |
| ChatStreaming.LineEnd | app/api/v1/endpoints/chat_streaming.py:36 | the first newline, or the end |
| ChatStreaming.SplitLine | app/api/v1/endpoints/chat_streaming.py:36 | the text before and after the first newline |
| ChatStreaming.LineEndOf | app/api/v1/endpoints/chat_streaming.py:36 | a line without a newline ends where the newline is |
| ChatStreaming.SplitLineOf | app/api/v1/endpoints/chat_streaming.py:36 | splitting a line and its rest gives them back |
| ChatStreaming.FormatThenParse | app/api/v1/endpoints/chat_streaming.py:33-36 | a frame reads back as its event and data when neither holds a newline |
| ChatStreaming.ParseThenFormat | app/api/v1/endpoints/chat_streaming.py:33-36 | whatever reads as a frame is the frame of what it reads as |
| ChatStreaming.EventName | app/api/v1/endpoints/chat_streaming.py:104 | event names hold no newline |
| ChatStreaming.WellFormed | app/api/v1/endpoints/chat_streaming.py:177-178 | "done" comes last and nowhere else, right after the metadata or the error; the paths end this way at lines 177-178, 341-342 and 346-347 |
| ChatStreaming.ClosedStreamIsWellFormed | app/api/v1/endpoints/chat_streaming.py:177-178 | chunks, then metadata or error, then "done" is a complete event sequence |
| ChatStreaming.ConcatAppend | app/api/v1/endpoints/chat_streaming.py:214 | `+=` on the full content appends one chunk |
| ChatStreaming.ChunksOf | app/api/v1/endpoints/chat_streaming.py:101-103 | one chunk per word |
| ChatStreaming.ChunkAt | app/api/v1/endpoints/chat_streaming.py:103 | every chunk but the last is its word and a space; the last is the bare word |
| ChatStreaming.ConcatOfChunks | app/api/v1/endpoints/chat_streaming.py:101-104 | the chunks together are the words joined by single spaces |
| ChatStreaming.ChunkWords | app/api/v1/endpoints/chat_streaming.py:101-104 | the replay loop yields those chunks |
| ChatStreaming.ChunkList | app/api/v1/endpoints/chat_streaming.py:102-104 | the loop over the words: one chunk per word, each but the last followed by a space, so the chunks put together are the words joined by single spaces |
| ChatStreaming.ReplayKeepsWords | app/api/v1/endpoints/chat_streaming.py:101-104 | the replayed text splits into the same words as the reply |
| ChatStreaming.Relay | app/api/v1/endpoints/chat_streaming.py:208-215 | the full content is the concatenation of the streamed chunks, each forwarded as a chunk event |
| ChatStreaming.LastAssistantIndex | app/api/v1/endpoints/chat_streaming.py:232-236 | the latest assistant message, or none when there is none |
| ChatStreaming.LastAssistantMessage | app/api/v1/endpoints/chat_streaming.py:232-236 | the reversed scan with `break` returns that message's content, or "" |
| ChatStreaming.LastAssistantIsLatest | app/api/v1/endpoints/chat_streaming.py:233-236 | the first assistant met from the end is the latest |
| ChatStreaming.SuggestionOf | app/api/v1/endpoints/chat_streaming.py:247-249 | an assistant message with truthy dictionary metadata and a truthy "suggestion" entry |
| ChatStreaming.TypeOf | app/api/v1/endpoints/chat_streaming.py:251-253 | at most one truthy activity type, and only from a message with a suggestion |
| ChatStreaming.SessionContext.constructor | app/api/v1/endpoints/chat_streaming.py:239-242 | the turn count and last assistant message, not yet suggested, no activities |
| ChatStreaming.SessionContext.Rebuild | app/api/v1/endpoints/chat_streaming.py:246-253 | fails exactly when a suggestion entry is not a dictionary; otherwise marks "suggested" exactly when some message suggested and appends the collected activity types; the other fields are unchanged |
| ChatStreaming.TypesImplySuggested | app/api/v1/endpoints/chat_streaming.py:246-253 | collected types imply a suggestion was seen, and every collected type is truthy |
| ChatStreaming.PlainHistoryRebuildsNothing | app/api/v1/endpoints/chat_streaming.py:247-249 | a history whose metadata is never a dictionary rebuilds nothing and cannot fail |
| ChatStreaming.FastPathSuggestsNothing | app/api/v1/endpoints/chat_streaming.py:92-98 | the fast path's neutral reading suits no activity |
| ChatStreaming.ToStoredMetadata | app/api/v1/endpoints/chat_streaming.py:120-127 | the reply metadata under the snake_case keys, keeping every value |
| ChatStreaming.TurnNumber | app/modules/conversation/service.py:168-183 | the corrected half of the numbering finding: 1 for an empty conversation, otherwise one past a stored number, and above every stored number |
| ChatStreaming.TurnSequence | app/api/v1/endpoints/chat_streaming.py:107 | the number both paths give the user message (lines 107 and 229): one past the size of the 20-message context window, `min(20, n) + 1`, as written; above every stored number once corrected |
| ChatStreaming.SavedMetadata | app/api/v1/endpoints/chat_streaming.py:126 | the metadata both paths hand `saveMessage` for the reply (lines 126 and 297): the camelCase dictionary itself as written, its snake_case form once corrected; `ChatStreaming.ReplyFieldsAsSaved` states what each yields in the reply row |
| ChatStreaming.UserRow | app/api/v1/endpoints/chat_streaming.py:110-117 | the user row `saveMessage` builds: this conversation and user, the message, the turn number, the reading's emotion fields, no AI fields |
| ChatStreaming.AssistantRow | app/api/v1/endpoints/chat_streaming.py:120-127 | the reply row `saveMessage` builds: the next number, no emotion fields, and each AI field present exactly when the metadata holds its snake_case key (service.py:237-241) |
| ChatStreaming.ReplyFieldsAsSaved | app/api/v1/endpoints/chat_streaming.py:120-127 | for the camelCase metadata both paths build, the reply row as written has no model name, token counts or time; corrected, it has the model name, 0, 0 and the elapsed time |
| ChatStreaming.CannedStream | app/api/v1/endpoints/chat_streaming.py:100-177 | the fast path's events: the canned reply's words as chunks, each but the last with a trailing space, then the metadata event with the turn number, the message, the neutral reading, the reply, "simple-responder", no token counts, the context size and no suggestion, then "done" |
| ChatStreaming.ReplayCannedReply | app/api/v1/endpoints/chat_streaming.py:91-178 | exactly the events of `ChatStreaming.CannedStream` for the canned reply; exactly the user row with the neutral reading and the reply row; a neutral snapshot and the dominant emotion updated; owner, title and status unchanged |
| ChatStreaming.SavedTurn | app/api/v1/endpoints/chat_streaming.py:107-127 | what a turn stores: the user row holding the message and the reply row holding the given reply text, both of the conversation and user, numbered one past the context size as written and with the next free number once corrected, with the AI fields empty as written and filled once corrected |
| ChatStreaming.FastPath | app/api/v1/endpoints/chat_streaming.py:88-179 | exactly the events of `ChatStreaming.CannedStream` for `getSimpleResponse`'s reply, numbered by `ChatStreaming.TurnSequence`; the rows of `SavedTurn` with that reply text, the "simple-responder" name and the elapsed time, and the neutral reading; the progression and dominant emotion updated; owner, title and status unchanged |
| ChatStreaming.BuildRequest | app/api/v1/endpoints/chat_streaming.py:196-205 | the system prompt for the user's language and emotion, the kept history, then the new message |
| ChatStreaming.SlowFailure | app/api/v1/endpoints/chat_streaming.py:209-271 | the error the slow path meets first: a failing stream, then a suggestion entry that is not a dictionary, then a raising suggestion call; none exactly when none occurs |
| ChatStreaming.CompleteSlowTurn | app/api/v1/endpoints/chat_streaming.py:272-305 | the suggestion text appended to the reply; the metadata event; exactly the user row with the reading and the reply row with the build's metadata; the snapshot and dominant emotion updated; owner, title and status unchanged |
| ChatStreaming.RelayModelReply | app/api/v1/endpoints/chat_streaming.py:207-347 | the streamed chunks first; on a failure the error and "done", nothing saved and the conversation unchanged; otherwise the metadata event, exactly the two rows and the snapshot |
| ChatStreaming.SlowReply | app/api/v1/endpoints/chat_streaming.py:214 | the reply text a slow turn saves: the concatenated streamed chunks (line 214), with the suggestion message after a blank line when a suggestion was returned (lines 272-275) |
| ChatStreaming.SlowSummary | app/api/v1/endpoints/chat_streaming.py:312-340 | the slow path's metadata event: the conversation, the user message with the turn number and the reading's four fields, the reply with the next number and the full content, "openai/gpt-4o-mini" with zero token counts and time (lines 222-227), the context size and the suggestion |
| ChatStreaming.SlowPath | app/api/v1/endpoints/chat_streaming.py:185-347 | the streamed chunks first, then one more event and "done"; that event is the error `SlowFailure` finds exactly when it finds one, and then nothing is saved and the conversation is unchanged; otherwise it is the metadata of `ChatStreaming.SlowSummary`, and the rows of `SavedTurn` hold the `ChatStreaming.SlowReply` text with "openai/gpt-4o-mini" and zeros, and the reading's snapshot |
| ChatStreaming.TakePath | app/api/v1/endpoints/chat_streaming.py:88 | the fast path's promises when the classifier accepted the message, the slow path's otherwise, including the saved reply text of each |
| ChatStreaming.StreamChatResponse | app/api/v1/endpoints/chat_streaming.py:38-347 | a complete event sequence; both rows as `SavedTurn` states, with the canned reply on the fast path and the streamed reply with its suggestion off it, or none and the conversation unchanged; the fast path always saves; off the fast path the stream ends in an error exactly when a failure occurs, and exactly then nothing is saved |
| ChatStreaming.StreamingNumberCollides | app/api/v1/endpoints/chat_streaming.py:107 | the as-written half of the numbering finding: with more than 20 messages numbered 1 upward, the turn gets 21, which the 21st message already has; corrected, it gets one past the count |

## Left out

- Database I/O is not modelled: sessions, commits, rollbacks and SQL. Query results are parameters, and the rows the service builds are values.
- `getOrCreateUser` and `getConversationById` are not modelled. Neither is the streaming endpoint's own conversation lookup. The conversation is a parameter.
- Asynchrony, `asyncio.sleep`, logging and the FastAPI routing and response headers are not modelled.
- The model calls, the embedding calls and `json.loads` are not modelled:
  - the model's reply is a parameter;
  - so is the token stream together with whether it fails;
  - so is whether the embedding succeeds;
  - decoding is a function parameter of `EmotionAnalyzer.AnalyzeEmotion`;
  - JSON encoding of event payloads is abstract, and an event carries a datatype value.
- Randomness and clocks are not modelled. `random.choice` becomes an index, `time.time()` an elapsed-milliseconds parameter, `datetime.utcnow()` a timestamp and `uuid4()` a fresh identifier.
- Floating point is not modelled:
  - importance is integer tenths, so 0.5 + 0.2 is exact here but not in Python;
  - similarity is a `real`, the cosine distance is a given value, and `round(similarity, 3)` is not applied;
  - `min(1.0, score)` never binds and is written as a cap at 10 tenths.
- `analyzeEmotionSimple` is imported by the streaming endpoint but not defined. The slow path's reading is a parameter, the complete `Reading`, so the `KeyError` a missing key would raise is not modelled.
- `ConversationContext` is not in any file of the model. `ChatStreaming.SessionContext` keeps only the four fields the endpoint sets, and its defaults (not yet suggested, no activities) are assumed.
- The context-aware suggestion call of the streaming slow path is not modelled. Its outcome is a parameter (`Outcome`): `Raised`, or `Returned` with at most one suggestion.
- The text of the summarisation prompt and the `content[:2000]` truncation inside it are not modelled, since they only feed the model call.
- Text.Lower: covers ASCII, Latin-1, Latin Extended-A except U+0130, Ơ/ơ and Ư/ư, and the Vietnamese block U+1EA0–U+1EF9. Other scripts are returned unchanged. Python lowers U+0130 (İ) to two code points, "i" and U+0307, and the model returns it unchanged. So a message with İ that Python's lowering would let onto the fast path (such as "Hİ") stays off it in the model, and the fast path's 30-character test counts one fewer character per İ.
- `SimpleResponder.Matches` approximates regular-expression semantics. `\w` is ASCII letters, digits, `_` and the Latin letter blocks. `re.IGNORECASE` is approximated by comparing lowered text.
- Rows of the messages table have no `metadata` column.
  - On those rows `msg.metadata` is not a dictionary, so the history rebuild finds nothing.
  - `ChatStreaming.ContextEntry` allows any metadata value.
  - `ChatStreaming.PlainHistoryRebuildsNothing` states the case of real rows.
- Errors after the stream has been relayed are not modelled: a failing save or commit.
- Errors raised before the fast path are not modelled either.
- MemoryService.FilterRows: requires distinct rows, because the query returns each memory (a primary key) at most once.
- MemoryService.SearchSemanticMemories: requires distinct rows, for the same reason.
- MemoryService.SearchSemanticMemories: the memory-existence check is modelled as "the scored list is empty". The model therefore treats the user's memories and the rows the similarity query scores as one list.
- ChatStreaming.StreamChatResponse: states the event sequence's shape, and the saved rows with their reply text through `ChatStreaming.SavedTurn`. The exact chunk and metadata events are stated by `ChatStreaming.FastPath` and `ChatStreaming.SlowPath`, which it reaches through `ChatStreaming.TakePath`.
- ChatStreaming.TakePath: the same as `ChatStreaming.StreamChatResponse`.
- ChatStreaming.StreamChatResponse: takes no language. `user.language` only shapes the model request, which `ChatStreaming.BuildRequest` states; the streamed reply is a parameter.
- ChatStreaming.RelayModelReply: does not form the model request itself. `ChatStreaming.BuildRequest` states the request of lines 196-205, and the stream that answers it is a parameter.
- ChatStreaming.SlowPath: the same; the request is stated by `ChatStreaming.BuildRequest`.
- Records.EmotionData: each known key is either absent or holds a value of the expected type. The analyser returns the decoded JSON as it is (emotion_analyzer.py:75-83), so in the program a key can also be present with `null`, or `energy_level` can be a float or a string. None of these is represented:
  - `.get(k, default)` returns None, not the default, for a key present with `null`;
  - `energyLevel < 5` (suggestion_engine.py:90) then raises `TypeError` for `null` or `"3"`, and the chat turn fails;
  - a float energy is compared as a number, which the integer field cannot hold.

## Findings

| source | as written | input that shows it | evidently intended | confidence | as-written member | corrected member |
|---|---|---|---|---|---|---|
| app/api/v1/endpoints/chat_streaming.py:107 | both paths number the user message `len(contextMessages) + 1` (lines 107 and 229), and the context holds at most 20 messages (service.py:138, 156-165) | a conversation that already holds 22 messages numbered 1 to 22 gets 21 and 22 again | the next free number, one past the stored maximum, as `getNextSequenceNumber` computes it | not executed; high | ChatStreaming.StreamingNumberCollides | ChatStreaming.TurnNumber |
| app/api/v1/endpoints/chat_streaming.py:222-227 | the reply is saved with metadata keyed model, promptTokens, completionTokens and responseTimeMs (lines 126 and 297; simple_responder.py:125-130); saveMessage reads model_used, prompt_tokens, completion_tokens and response_time_ms (service.py:237-241) | any streamed turn: the model name, token counts and time are stored as null | the values stored under the keys saveMessage reads, as `generateAIResponse` provides them (service.py:340-345) | not executed; high | ChatStreaming.ReplyFieldsAsSaved | ChatStreaming.ToStoredMetadata |

The endpoint members take a `ChatStreaming.Build` argument that selects one of the two versions:

- `AsWritten` is the endpoint as the file has it. It numbers the turn `len(contextMessages) + 1` and saves the camelCase metadata unchanged.
- `Corrected` numbers the turn with `ChatStreaming.TurnNumber` and saves the metadata through `ChatStreaming.ToStoredMetadata`.

`ChatStreaming.StreamChatResponse` states both through `ChatStreaming.SavedTurn`:

- with `AsWritten`, the user row is numbered `min(20, n) + 1` for `n` stored messages, and the reply row's AI fields are empty;
- with `Corrected`, the user row takes a number no stored message has, and the reply row holds the model name and the counts.
