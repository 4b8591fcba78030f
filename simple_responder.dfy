/** The fast-path classifier: short greetings, thanks, farewells and yes/no
    replies are answered from fixed response banks without calling the model.
    The Vietnamese alternatives and responses are kept exactly as the source
    holds them, mis-encoded text included. */
module SimpleResponder {
  import opened Records
  import opened Text

  /** A regular expression of the form `\b(a1|a2|...)\b` (matched anywhere, on
      word boundaries) or `^(a1|a2|...)$` (the whole message), matched
      ignoring case. */
  datatype Pattern = WordBounded(alts: seq<string>) | WholeMessage(alts: seq<string>)

  const GreetingPatterns: seq<Pattern> := [
    WordBounded(["xin chÃ\U{00A0}o", "chÃ\U{00A0}o", "hello", "hi", "hey", "hii", "hiii"]),
    WordBounded(["buá»•i sÃ¡ng", "buá»•i chiá»u", "buá»•i tá»‘i", "chÃ\U{00A0}o buá»•i"]),
    WordBounded(["good morning", "good afternoon", "good evening"])
  ]

  const ThanksPatterns: seq<Pattern> := [
    WordBounded(["cáº£m Æ¡n", "cÃ¡m Æ¡n", "thanks", "thank you", "thank", "thks", "tks"])
  ]

  const ByePatterns: seq<Pattern> := [
    WordBounded(["táº¡m biá»‡t", "bye", "goodbye", "see you", "háº¹n gáº·p láº¡i"])
  ]

  const YesNoPatterns: seq<Pattern> := [
    WholeMessage(["cÃ³", "khÃ´ng", "ok", "okay", "oke", "yes", "no", "yep", "nope", "yeah", "nah"])
  ]

  /** The pattern groups in the order the classifier tries them. */
  const AllPatterns: seq<seq<Pattern>> := [GreetingPatterns, ThanksPatterns, ByePatterns, YesNoPatterns]

  const GreetingResponses: seq<string> := [
    "Xin chÃ\U{00A0}o! MÃ¬nh ráº¥t vui Ä‘Æ°á»£c nÃ³i chuyá»‡n vá»›i báº¡n hÃ´m nay. Báº¡n cÃ³ muá»‘n chia sáº» Ä‘iá»u gÃ¬ khÃ´ng? ðŸ’™",
    "ChÃ\U{00A0}o báº¡n! MÃ¬nh á»Ÿ Ä‘Ã¢y Ä‘á»ƒ láº¯ng nghe báº¡n. Báº¡n cáº£m tháº¥y tháº¿ nÃ\U{00A0}o hÃ´m nay? ðŸŒ¸",
    "Hello! Ráº¥t vui Ä‘Æ°á»£c gáº·p báº¡n. HÃ£y thoáº£i mÃ¡i chia sáº» báº¥t cá»© Ä‘iá»u gÃ¬ báº¡n muá»‘n nhÃ©. âœ¨"
  ]

  const ThanksResponses: seq<string> := [
    "KhÃ´ng cÃ³ gÃ¬ Ä‘Ã¢u báº¡n! MÃ¬nh luÃ´n á»Ÿ Ä‘Ã¢y khi báº¡n cáº§n. ðŸ’™",
    "Ráº¥t vui Ä‘Æ°á»£c giÃºp báº¡n! Báº¡n cáº£m tháº¥y tháº¿ nÃ\U{00A0}o rá»“i? ðŸŒ¸",
    "Báº¡n khÃ´ng cáº§n cáº£m Æ¡n Ä‘Ã¢u. MÃ¬nh luÃ´n sáºµn sÃ\U{00A0}ng láº¯ng nghe báº¡n nhÃ©. âœ¨"
  ]

  const ByeResponses: seq<string> := [
    "Táº¡m biá»‡t báº¡n! HÃ£y chÄƒm sÃ³c báº£n thÃ¢n nhÃ©. MÃ¬nh luÃ´n á»Ÿ Ä‘Ã¢y khi báº¡n cáº§n. ðŸ’™",
    "Háº¹n gáº·p láº¡i báº¡n! ChÃºc báº¡n má»™t ngÃ\U{00A0}y tá»‘t lÃ\U{00A0}nh. ðŸŒ¸",
    "Bye bye! Nhá»› nghá»‰ ngÆ¡i Ä‘áº§y Ä‘á»§ nhÃ©. See you soon! âœ¨"
  ]

  const YesNoResponses: seq<string> := [
    "MÃ¬nh hiá»ƒu rá»“i. Báº¡n cÃ³ muá»‘n chia sáº» thÃªm gÃ¬ khÃ´ng? ðŸ’™",
    "Okay! Báº¡n cáº£m tháº¥y tháº¿ nÃ\U{00A0}o vá» Ä‘iá»u Ä‘Ã³? ðŸŒ¸",
    "ÄÆ°á»£c rá»“i. MÃ¬nh Ä‘ang láº¯ng nghe báº¡n Ä‘Ã¢y. âœ¨"
  ]

  // ---------------------------------------------------------------- matching

  /** A character of the regular-expression class `\w`: letters, digits and
      the underscore (for the Latin scripts; see the README). */
  predicate IsWordChar(c: char) {
    ('a' <= c <= 'z') || ('A' <= c <= 'Z') || ('0' <= c <= '9') || c == '_'
    || c == '\U{AA}' || c == '\U{B2}' || c == '\U{B3}' || c == '\U{B5}' || c == '\U{B9}'
    || c == '\U{BA}' || ('\U{BC}' <= c <= '\U{BE}')
    || ('\U{C0}' <= c <= '\U{24F}' && c != '\U{D7}' && c != '\U{F7}')
    || ('\U{1E00}' <= c <= '\U{1EFF}')
  }

  /** `\b` at position `p`: a word character on exactly one side. */
  predicate AtBoundary(text: string, p: nat) {
    p <= |text| &&
    ((p > 0 && IsWordChar(text[p - 1])) != (p < |text| && IsWordChar(text[p])))
  }

  /** `alt` occurs at `j` ignoring case, on a word boundary at both ends. */
  predicate WordMatchAt(text: string, alt: string, j: nat) {
    j + |alt| <= |text| && AtBoundary(text, j)
    && Lower(text[j..j + |alt|]) == Lower(alt) && AtBoundary(text, j + |alt|)
  }

  /** `^alt$` ignoring case: `$` also matches just before a final newline. */
  predicate WholeMatch(text: string, alt: string) {
    Lower(text) == Lower(alt) || Lower(text) == Lower(alt) + "\n"
  }

  /** What `re.search(pattern, text, re.IGNORECASE)` finds. */
  predicate Matches(pat: Pattern, text: string) {
    match pat
    case WordBounded(alts) =>
      exists j, k :: 0 <= j <= |text| && 0 <= k < |alts| && WordMatchAt(text, alts[k], j)
    case WholeMessage(alts) =>
      exists k :: 0 <= k < |alts| && WholeMatch(text, alts[k])
  }

  /** Tries every alternative at position `j`. */
  function AltAt(text: string, alts: seq<string>, j: nat): (r: bool)
    ensures r <==> exists k :: 0 <= k < |alts| && WordMatchAt(text, alts[k], j)
  {
    if alts == [] then false
    else WordMatchAt(text, alts[0], j) || AltAt(text, alts[1..], j)
  }

  /** Scans the positions from `j` on. */
  function SearchFrom(text: string, alts: seq<string>, j: nat): (r: bool)
    ensures r <==> exists i, k :: j <= i <= |text| && 0 <= k < |alts| && WordMatchAt(text, alts[k], i)
    decreases |text| + 1 - j
  {
    if j > |text| then false
    else AltAt(text, alts, j) || SearchFrom(text, alts, j + 1)
  }

  function AnyWhole(text: string, alts: seq<string>): (r: bool)
    ensures r <==> exists k :: 0 <= k < |alts| && WholeMatch(text, alts[k])
  {
    if alts == [] then false
    else WholeMatch(text, alts[0]) || AnyWhole(text, alts[1..])
  }

  /** The regular-expression search for one pattern. */
  function Search(pat: Pattern, text: string): (r: bool)
    ensures r <==> Matches(pat, text)
  {
    match pat
    case WordBounded(alts) => SearchFrom(text, alts, 0)
    case WholeMessage(alts) => AnyWhole(text, alts)
  }

  /** `any(re.search(p, text, re.IGNORECASE) for p in pats)`. */
  function AnyPattern(pats: seq<Pattern>, text: string): (r: bool)
    ensures r <==> exists p :: 0 <= p < |pats| && Matches(pats[p], text)
  {
    if pats == [] then false
    else Search(pats[0], text) || AnyPattern(pats[1..], text)
  }

  /** Some pattern of some group matches. */
  function AnyGroup(groups: seq<seq<Pattern>>, text: string): (r: bool)
    ensures r <==> exists g, p :: 0 <= g < |groups| && 0 <= p < |groups[g]| && Matches(groups[g][p], text)
  {
    if groups == [] then false
    else AnyPattern(groups[0], text) || AnyGroup(groups[1..], text)
  }

  // ---------------------------------------------------------------- classifier

  /** `message.lower().strip()`. */
  function Normalize(message: string): string {
    Strip(Lower(message))
  }

  /** A message is a simple pattern when its normalized form has at most 30
      characters, some pattern matches it, and it has at most four words. */
  function IsSimplePattern(message: string): (r: bool)
    ensures |Normalize(message)| > 30 ==> !r
    ensures |Normalize(message)| <= 30 ==>
      (r <==> (exists g, p :: 0 <= g < |AllPatterns| && 0 <= p < |AllPatterns[g]|
                             && Matches(AllPatterns[g][p], Normalize(message)))
              && |Words(Normalize(message))| <= 4)
  {
    var m := Normalize(message);
    if |m| > 30 then false
    else AnyGroup(AllPatterns, m) && |Words(m)| <= 4
  }

  /** The older name of the classifier. */
  function IsSimpleGreeting(message: string): (r: bool)
    ensures r == IsSimplePattern(message)
  {
    IsSimplePattern(message)
  }

  /** Normalization ignores letter case and surrounding whitespace. */
  lemma NormalizeIgnoresCaseAndSpace(w1: string, message: string, w2: string)
    requires forall i :: 0 <= i < |w1| ==> IsSpace(w1[i])
    requires forall i :: 0 <= i < |w2| ==> IsSpace(w2[i])
    ensures Normalize(w1 + message + w2) == Normalize(message)
    ensures Normalize(Lower(message)) == Normalize(message)
  {
    LowerAppend(w1 + message, w2);
    LowerAppend(w1, message);
    LowerOfSpaces(w1);
    LowerOfSpaces(w2);
    StripIgnoresSurroundingSpace(Lower(w1), Lower(message), Lower(w2));
    LowerIdempotent(message);
  }

  /** Neither letter case nor surrounding whitespace changes the verdict. */
  lemma IsSimplePatternIgnoresCaseAndSpace(w1: string, message: string, w2: string)
    requires forall i :: 0 <= i < |w1| ==> IsSpace(w1[i])
    requires forall i :: 0 <= i < |w2| ==> IsSpace(w2[i])
    ensures IsSimplePattern(w1 + message + w2) == IsSimplePattern(message)
    ensures IsSimplePattern(Lower(message)) == IsSimplePattern(message)
  {
    NormalizeIgnoresCaseAndSpace(w1, message, w2);
  }

  /** The normalized message is its own lower-case form and does not end in
      whitespace. */
  lemma NormalizedShape(message: string)
    ensures Lower(Normalize(message)) == Normalize(message)
    ensures Normalize(message) == [] || !IsSpace(Normalize(message)[|Normalize(message)| - 1])
  {
    var l := Lower(message);
    StripIsSlice(l);
    var k := |l| - |TrimStart(l)|;
    LowerOfLowerSlice(message, k, k + |Strip(l)|);
  }

  /** Because the yes/no pattern is anchored, a yes/no match means the whole
      normalized message is one of its tokens (in lower case). */
  lemma YesNoMatchIsWholeMessage(message: string)
    requires Matches(YesNoPatterns[0], Normalize(message))
    ensures exists k :: 0 <= k < |YesNoPatterns[0].alts| && Normalize(message) == Lower(YesNoPatterns[0].alts[k])
  {
    var m := Normalize(message);
    NormalizedShape(message);
    NoTrailingNewline(m);
    AnchoredMatchIsWhole(YesNoPatterns[0].alts, m);
  }

  /** An anchored match of a lower-case text that does not end in a newline
      is a match of the whole text. */
  lemma AnchoredMatchIsWhole(alts: seq<string>, m: string)
    requires Matches(WholeMessage(alts), m)
    requires Lower(m) == m && (m == [] || m[|m| - 1] != '\n')
    ensures exists k :: 0 <= k < |alts| && m == Lower(alts[k])
  {
    var k :| 0 <= k < |alts| && WholeMatch(m, alts[k]);
    var alt := Lower(alts[k]);
    assert (alt + "\n")[|alt|] == '\n';
  }

  // ---------------------------------------------------------------- responses

  datatype Category = Thanks | Bye | YesNo | Greeting

  /** The response category, tried in the order thanks, bye, yes/no; anything
      else is answered as a greeting. */
  function ResponseCategory(message: string): (c: Category)
    ensures c == Thanks <==> (exists p :: 0 <= p < |ThanksPatterns| && Matches(ThanksPatterns[p], Normalize(message)))
    ensures c == Bye <==> !(exists p :: 0 <= p < |ThanksPatterns| && Matches(ThanksPatterns[p], Normalize(message)))
                          && (exists p :: 0 <= p < |ByePatterns| && Matches(ByePatterns[p], Normalize(message)))
    ensures c == YesNo <==> !(exists p :: 0 <= p < |ThanksPatterns| && Matches(ThanksPatterns[p], Normalize(message)))
                            && !(exists p :: 0 <= p < |ByePatterns| && Matches(ByePatterns[p], Normalize(message)))
                            && (exists p :: 0 <= p < |YesNoPatterns| && Matches(YesNoPatterns[p], Normalize(message)))
  {
    var m := Normalize(message);
    if AnyPattern(ThanksPatterns, m) then Thanks
    else if AnyPattern(ByePatterns, m) then Bye
    else if AnyPattern(YesNoPatterns, m) then YesNo
    else Greeting
  }

  function Bank(c: Category): (b: seq<string>)
    ensures |b| == 3
  {
    match c
    case Thanks => ThanksResponses
    case Bye => ByeResponses
    case YesNo => YesNoResponses
    case Greeting => GreetingResponses
  }

  /** The canned reply and its metadata. `pick` stands for the random choice
      within the bank and `elapsedMs` for the measured time in milliseconds. */
  function GetSimpleResponse(message: string, pick: nat, elapsedMs: int): (r: (string, map<string, JsonValue>))
    ensures r.0 in Bank(ResponseCategory(message))
    ensures r.0 == Bank(ResponseCategory(message))[pick % 3]
    ensures r.1.Keys == {"model", "promptTokens", "completionTokens", "responseTimeMs"}
    ensures r.1["model"] == JStr("simple-responder")
    ensures r.1["promptTokens"] == JInt(0) && r.1["completionTokens"] == JInt(0)
    ensures r.1["responseTimeMs"] == JInt(elapsedMs)
  {
    var bank := Bank(ResponseCategory(message));
    (bank[pick % |bank|],
     map["model" := JStr("simple-responder"), "promptTokens" := JInt(0),
         "completionTokens" := JInt(0), "responseTimeMs" := JInt(elapsedMs)])
  }

  /** The reply category, like the classifier, ignores letter case and
      surrounding whitespace. */
  lemma ResponseCategoryIgnoresCaseAndSpace(w1: string, message: string, w2: string)
    requires forall i :: 0 <= i < |w1| ==> IsSpace(w1[i])
    requires forall i :: 0 <= i < |w2| ==> IsSpace(w2[i])
    ensures ResponseCategory(w1 + message + w2) == ResponseCategory(message)
    ensures ResponseCategory(Lower(message)) == ResponseCategory(message)
  {
    NormalizeIgnoresCaseAndSpace(w1, message, w2);
  }
}
