/** The activity suggestion engine: when a wellness activity should be offered,
    which catalogue entry fits the user's emotion and energy, and the friendly
    message that presents it. */
module SuggestionEngine {
  import opened Records
  import opened Text

  datatype EnergyRequirement = Low | Medium

  /** One entry of the activity catalogue; `key` is its activity type. */
  datatype Activity = Activity(
    key: string,
    name: string,
    duration: nat,
    goodFor: seq<string>,
    energyRequired: EnergyRequirement,
    description: string)

  /** The catalogue, in its declaration order (the order every scan follows). */
  const Activities: seq<Activity> := [
    Activity("breathing", "Bài tập hít thở", 5,
      ["anxious", "stressed", "overwhelmed"], Low, "Hít thở sâu 4-7-8 để thư giãn"),
    Activity("meditation", "Thiền ngắn", 10,
      ["anxious", "sad", "confused"], Low, "Thiền nhẹ nhàng để tĩnh tâm"),
    Activity("journaling", "Viết nhật ký", 10,
      ["confused", "sad", "overwhelmed"], Medium, "Viết ra cảm xúc để hiểu rõ hơn"),
    Activity("music", "Nghe nhạc thư giãn", 15,
      ["tired", "sad", "stressed"], Low, "Nhạc nhẹ nhàng giúp thư giãn"),
    Activity("walk", "Đi bộ ngắn", 10,
      ["stressed", "angry", "tired"], Medium, "Vận động nhẹ để giải tỏa")
  ]

  /** The suggestion handed back to the chat flow. */
  datatype Suggestion = Suggestion(
    activityType: string,
    activityName: string,
    duration: nat,
    reason: string,
    description: string)

  // ---------------------------------------------------------------- when to suggest

  /** Phrases by which the user asks for help directly. */
  const Keywords: seq<string> := ["làm gì", "giúp", "tôi nên", "gợi ý", "suggest", "help me"]

  const UrgentLevels: seq<string> := ["high", "crisis"]

  const SupportEmotions: seq<string> := ["anxious", "stressed", "overwhelmed", "sad"]

  /** Some phrase of `kws` occurs in `text`. */
  function AnyKeyword(text: string, kws: seq<string>): (r: bool)
    ensures r <==> exists k :: 0 <= k < |kws| && Contains(text, kws[k])
  {
    if kws == [] then false
    else Contains(text, kws[0]) || AnyKeyword(text, kws[1..])
  }

  /** The lower-cased message holds one of the direct-request phrases. */
  predicate AsksDirectly(message: string) {
    exists k :: 0 <= k < |Keywords| && Contains(Lower(message), Keywords[k])
  }

  predicate IsUrgent(e: EmotionData) {
    e.urgencyLevel.Some? && e.urgencyLevel.value in UrgentLevels
  }

  /** A negative emotion together with an energy below 5; a missing emotion
      reads as neutral and a missing energy as 10. */
  predicate NeedsSupportWithLowEnergy(e: EmotionData) {
    e.emotionState.GetOr("neutral") in SupportEmotions && e.energyLevel.GetOr(10) < 5
  }

  /** Whether an activity should be offered for this message and reading. */
  function ShouldSuggestActivity(e: EmotionData, message: string): (r: bool)
    ensures AsksDirectly(message) ==> r
    ensures !AsksDirectly(message) && IsUrgent(e) ==> r
    ensures !AsksDirectly(message) && !IsUrgent(e) ==>
      (r <==> e.emotionState.Some? && e.emotionState.value in SupportEmotions
              && e.energyLevel.Some? && e.energyLevel.value < 5)
  {
    if AnyKeyword(Lower(message), Keywords) then true
    else if IsUrgent(e) then true
    else NeedsSupportWithLowEnergy(e)
  }

  /** The direct-request phrases are already in lower case. */
  lemma KeywordsAreLower()
    ensures forall k :: 0 <= k < |Keywords| ==> Lower(Keywords[k]) == Keywords[k]
  {
    forall k | 0 <= k < |Keywords| ensures Lower(Keywords[k]) == Keywords[k] {
      var w := Keywords[k];
      assert forall i :: 0 <= i < |w| ==> LowerChar(w[i]) == w[i];
    }
  }

  /** A request phrase anywhere in the message triggers a suggestion,
      whatever the reading says. */
  lemma MentioningAKeywordSuggests(e: EmotionData, before: string, k: nat, after: string)
    requires k < |Keywords|
    ensures ShouldSuggestActivity(e, before + Keywords[k] + after)
  {
    var m := before + Keywords[k] + after;
    LowerAppend(before + Keywords[k], after);
    LowerAppend(before, Keywords[k]);
    KeywordsAreLower();
    assert OccursAt(Lower(m), Keywords[k], |before|) by {
      assert Lower(m) == Lower(before) + Keywords[k] + Lower(after);
      assert Lower(m)[|before|..|before| + |Keywords[k]|] == Keywords[k];
    }
    assert AsksDirectly(m);
  }

  /** The decision does not depend on the letter case of the message. */
  lemma ShouldSuggestIgnoresCase(e: EmotionData, message: string)
    ensures ShouldSuggestActivity(e, Lower(message)) == ShouldSuggestActivity(e, message)
  {
    LowerIdempotent(message);
  }

  // ---------------------------------------------------------------- what to suggest

  predicate Suits(a: Activity, emotion: string) {
    emotion in a.goodFor
  }

  /** Suits the emotion, and needs low energy when `lowOnly` holds. */
  predicate Wanted(a: Activity, emotion: string, lowOnly: bool) {
    Suits(a, emotion) && (lowOnly ==> a.energyRequired == Low)
  }

  /** The catalogue entries that suit the emotion, in catalogue order. */
  function Suitable(cat: seq<Activity>, emotion: string): (s: seq<Activity>)
    ensures |s| <= |cat|
    ensures forall a :: a in s ==> a in cat && Suits(a, emotion)
  {
    if cat == [] then []
    else (if Suits(cat[0], emotion) then [cat[0]] else []) + Suitable(cat[1..], emotion)
  }

  /** The position of the first wanted entry of `cat`. */
  function FirstWanted(cat: seq<Activity>, emotion: string, lowOnly: bool): (r: Option<nat>)
    ensures r.Some? ==> r.value < |cat| && Wanted(cat[r.value], emotion, lowOnly)
    ensures r.Some? ==> forall j :: 0 <= j < r.value ==> !Wanted(cat[j], emotion, lowOnly)
    ensures r.None? ==> forall j :: 0 <= j < |cat| ==> !Wanted(cat[j], emotion, lowOnly)
  {
    if cat == [] then None
    else if Wanted(cat[0], emotion, lowOnly) then Some(0)
    else
      match FirstWanted(cat[1..], emotion, lowOnly)
      case None => None
      case Some(i) => Some(i + 1)
  }

  lemma {:induction false} SuitableAppend(a: seq<Activity>, b: seq<Activity>, emotion: string)
    ensures Suitable(a + b, emotion) == Suitable(a, emotion) + Suitable(b, emotion)
  {
    if a == [] {
      assert a + b == b;
    } else {
      assert (a + b)[0] == a[0];
      assert (a + b)[1..] == a[1..] + b;
      SuitableAppend(a[1..], b, emotion);
    }
  }

  /** Nothing suits exactly when no catalogue entry lists the emotion. */
  lemma {:induction false} SuitableEmpty(cat: seq<Activity>, emotion: string)
    ensures Suitable(cat, emotion) == [] <==> FirstWanted(cat, emotion, false).None?
  {
    if cat != [] {
      SuitableEmpty(cat[1..], emotion);
    }
  }

  /** The head of the suitable list is the first entry that suits. */
  lemma {:induction false} SuitableHead(cat: seq<Activity>, emotion: string)
    requires Suitable(cat, emotion) != []
    ensures FirstWanted(cat, emotion, false).Some?
    ensures cat[FirstWanted(cat, emotion, false).value] == Suitable(cat, emotion)[0]
  {
    if !Suits(cat[0], emotion) {
      SuitableHead(cat[1..], emotion);
    }
  }

  /** The first low-effort entry of the suitable list is the first entry of the
      catalogue that both suits and needs low energy. */
  lemma {:induction false} SuitableFirstLow(cat: seq<Activity>, emotion: string, j: nat)
    requires j < |Suitable(cat, emotion)|
    requires Suitable(cat, emotion)[j].energyRequired == Low
    requires forall m :: 0 <= m < j ==> Suitable(cat, emotion)[m].energyRequired != Low
    ensures FirstWanted(cat, emotion, true).Some?
    ensures cat[FirstWanted(cat, emotion, true).value] == Suitable(cat, emotion)[j]
  {
    var s := Suitable(cat, emotion);
    if Suits(cat[0], emotion) {
      if j > 0 {
        assert s[1..] == Suitable(cat[1..], emotion);
        SuitableFirstLow(cat[1..], emotion, j - 1);
      }
    } else {
      assert s == Suitable(cat[1..], emotion);
      SuitableFirstLow(cat[1..], emotion, j);
    }
  }

  /** No low-effort entry in the suitable list means none in the catalogue. */
  lemma {:induction false} SuitableNoLow(cat: seq<Activity>, emotion: string)
    requires forall m :: 0 <= m < |Suitable(cat, emotion)| ==> Suitable(cat, emotion)[m].energyRequired != Low
    ensures FirstWanted(cat, emotion, true).None?
  {
    if cat != [] {
      var s := Suitable(cat, emotion);
      if Suits(cat[0], emotion) {
        assert s[0] == cat[0];
        assert s[1..] == Suitable(cat[1..], emotion);
      } else {
        assert s == Suitable(cat[1..], emotion);
      }
      SuitableNoLow(cat[1..], emotion);
    }
  }

  /** The suggestion made for a low-effort pick. */
  function LowEnergySuggestion(a: Activity, emotion: string): Suggestion {
    Suggestion(a.key, a.name, a.duration, a.name + " phù hợp khi bạn đang cảm thấy " + emotion, a.description)
  }

  /** The suggestion made for the first suitable entry. */
  function DefaultSuggestion(a: Activity): Suggestion {
    Suggestion(a.key, a.name, a.duration, "Mình nghĩ " + a.name + " có thể giúp bạn cảm thấy tốt hơn", a.description)
  }

  function EmotionOf(e: EmotionData): string {
    e.emotionState.GetOr("neutral")
  }

  function EnergyOf(e: EmotionData): int {
    e.energyLevel.GetOr(5)
  }

  /** The suggestion names entry `a`, copies its name, duration and
      description, and `a` suits the emotion. */
  predicate Drawn(s: Suggestion, a: Activity, emotion: string) {
    s.activityType == a.key && s.activityName == a.name && s.duration == a.duration
    && s.description == a.description && Suits(a, emotion)
  }

  /** Picks an activity from catalogue `cat`: none when no entry suits the
      emotion; below energy 4 the first suitable low-effort entry; otherwise
      the first suitable one. */
  method PickActivity(cat: seq<Activity>, emotion: string, energyLevel: int) returns (r: Option<Suggestion>)
    ensures FirstWanted(cat, emotion, false).None? <==> r.None?
    ensures energyLevel < 4 && FirstWanted(cat, emotion, true).Some? ==>
      r == Some(LowEnergySuggestion(cat[FirstWanted(cat, emotion, true).value], emotion))
    ensures (FirstWanted(cat, emotion, false).Some?
             && !(energyLevel < 4 && FirstWanted(cat, emotion, true).Some?)) ==>
      r == Some(DefaultSuggestion(cat[FirstWanted(cat, emotion, false).value]))
    ensures r.Some? ==> exists i :: 0 <= i < |cat| && Drawn(r.value, cat[i], emotion)
  {
    var suitable: seq<Activity> := [];
    var i := 0;
    while i < |cat|
      invariant 0 <= i <= |cat|
      invariant suitable == Suitable(cat[..i], emotion)
    {
      SuitableAppend(cat[..i], [cat[i]], emotion);
      assert cat[..i + 1] == cat[..i] + [cat[i]];
      if emotion in cat[i].goodFor {
        suitable := suitable + [cat[i]];
      }
      i := i + 1;
    }
    assert cat[..i] == cat;
    SuitableEmpty(cat, emotion);
    if suitable == [] {
      return None;
    }
    if energyLevel < 4 {
      var j := 0;
      while j < |suitable|
        invariant 0 <= j <= |suitable|
        invariant forall m :: 0 <= m < j ==> suitable[m].energyRequired != Low
      {
        if suitable[j].energyRequired == Low {
          SuitableFirstLow(cat, emotion, j);
          return Some(LowEnergySuggestion(suitable[j], emotion));
        }
        j := j + 1;
      }
      SuitableNoLow(cat, emotion);
    }
    SuitableHead(cat, emotion);
    return Some(DefaultSuggestion(suitable[0]));
  }

  /** The suggestion for a reading over the built-in catalogue; a missing
      emotion reads as neutral and a missing energy as 5. */
  method GetSuggestedActivity(e: EmotionData) returns (r: Option<Suggestion>)
    ensures FirstWanted(Activities, EmotionOf(e), false).None? <==> r.None?
    ensures EnergyOf(e) < 4 && FirstWanted(Activities, EmotionOf(e), true).Some? ==>
      r == Some(LowEnergySuggestion(Activities[FirstWanted(Activities, EmotionOf(e), true).value], EmotionOf(e)))
    ensures (FirstWanted(Activities, EmotionOf(e), false).Some?
             && !(EnergyOf(e) < 4 && FirstWanted(Activities, EmotionOf(e), true).Some?)) ==>
      r == Some(DefaultSuggestion(Activities[FirstWanted(Activities, EmotionOf(e), false).value]))
    ensures r.Some? ==> exists i :: 0 <= i < |Activities| && Drawn(r.value, Activities[i], EmotionOf(e))
  {
    r := PickActivity(Activities, EmotionOf(e), EnergyOf(e));
  }

  /** The suggestion step of a chat turn: once the gate `gateOpen` has been
      evaluated, the activity the catalogue picks for the reading when it is
      open, and nothing when it is closed. */
  method SuggestWhen(gateOpen: bool, e: EmotionData) returns (r: Option<Suggestion>)
    ensures !gateOpen ==> r.None?
    ensures gateOpen ==> (r.None? <==> FirstWanted(Activities, EmotionOf(e), false).None?)
    ensures gateOpen && EnergyOf(e) < 4 && FirstWanted(Activities, EmotionOf(e), true).Some? ==>
      r == Some(LowEnergySuggestion(Activities[FirstWanted(Activities, EmotionOf(e), true).value], EmotionOf(e)))
    ensures (gateOpen && FirstWanted(Activities, EmotionOf(e), false).Some?
             && !(EnergyOf(e) < 4 && FirstWanted(Activities, EmotionOf(e), true).Some?)) ==>
      r == Some(DefaultSuggestion(Activities[FirstWanted(Activities, EmotionOf(e), false).value]))
  {
    r := None;
    if gateOpen {
      r := GetSuggestedActivity(e);
    }
  }

  /** A neutral reading suits no catalogue entry, so nothing is suggested for it. */
  lemma NeutralSuitsNothing()
    ensures FirstWanted(Activities, "neutral", false).None?
  {
    assert forall j :: 0 <= j < |Activities| ==> !Suits(Activities[j], "neutral");
    SuitableEmpty(Activities, "neutral");
    assert Suitable(Activities, "neutral") == [];
  }

  /** "angry" suits only the walk, which needs medium energy: even at a low
      energy level the pick falls back to the first suitable entry. */
  lemma AngryFallsBackToWalk()
    ensures FirstWanted(Activities, "angry", true).None?
    ensures FirstWanted(Activities, "angry", false) == Some(4)
    ensures Activities[4].key == "walk"
  {
    assert forall j :: 0 <= j < 4 ==> !Suits(Activities[j], "angry");
    assert Suits(Activities[4], "angry");
  }

  // ---------------------------------------------------------------- how to present

  const MessageLead := "Mình có một gợi ý nhỏ: Bạn thử "

  /** The message that offers a suggestion: the lower-cased activity name, the
      duration in minutes and the reason, closed by a blue heart. */
  function GenerateSuggestionMessage(s: Suggestion): (m: string)
    ensures IsPrefix(MessageLead + Lower(s.activityName) + " (", m)
    ensures IsSuffix(" phút) nhé? " + s.reason + " 💙", m)
  {
    MessageLead + Lower(s.activityName) + " (" + DecimalString(s.duration)
    + " phút) nhé? " + s.reason + " 💙"
  }

  /** The duration can be read back from the message, between the opening
      parenthesis after the name and the word for minutes. */
  lemma DurationReadable(s: Suggestion)
    ensures var m := GenerateSuggestionMessage(s);
            var lead := |MessageLead + Lower(s.activityName) + " ("|;
            var tail := |" phút) nhé? " + s.reason + " 💙"|;
            lead + tail <= |m| && ParseDecimal(m[lead..|m| - tail]) == s.duration
  {
    var m := GenerateSuggestionMessage(s);
    var a := MessageLead + Lower(s.activityName) + " (";
    var d := DecimalString(s.duration);
    var b := " phút) nhé? " + s.reason + " 💙";
    assert m == a + d + b;
    assert m[|a|..|m| - |b|] == d;
    DecimalRoundTrip(s.duration);
  }
}
