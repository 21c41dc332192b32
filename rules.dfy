/**
 * The keyword rules that run on each chat message besides the sentiment
 * scorer: the crisis detector, the emotion tagger and the therapy-mode
 * selector.
 */
module Rules {
  import opened Wrappers
  import opened TextOps

  // ---------------------------------------------------------------------
  // Crisis detection
  // ---------------------------------------------------------------------

  const DangerWords: seq<string> :=
    ["suicide", "kill myself", "end my life", "self harm", "want to die", "no reason to live", "give up"]

  /** The helpline notice the sidebar shows when a danger phrase is found. */
  const CrisisNotice: string :=
    "\n🚨 **Emergency Support Needed**\n\n"
    + "If you are in immediate danger or thinking about self-harm,  \n"
    + "please contact a real human support service:\n\n"
    + "📞 **AASRA (India):** +91-22-27546669  \n"
    + "💬 **iCall:** +91-9152987821  \n"
    + "🌍 **Find a Helpline:** https://findahelpline.com/\n\n"
    + "You are not alone 💙\n"

  /** `any(word in message.lower() for word in danger_words)`. */
  function IsCrisis(message: string): (r: bool)
    ensures r <==> exists i :: 0 <= i < |DangerWords| && IsSubstring(DangerWords[i], Lower(message))
  {
    ContainsAny(Lower(message), DangerWords)
  }

  /** Detection ignores the case of ASCII letters. */
  lemma CrisisIgnoresCase(message: string)
    ensures IsCrisis(Lower(message)) == IsCrisis(message)
  {
    LowerIdempotent(message);
  }

  /** The sidebar alert: shown for a non-empty message that holds a danger phrase. */
  function CrisisAlert(message: string): (alert: Option<string>)
    ensures alert.Some? <==> message != "" && IsCrisis(message)
    ensures alert.Some? ==> alert.value == CrisisNotice
  {
    if message != "" && IsCrisis(message) then Some(CrisisNotice) else None
  }

  // ---------------------------------------------------------------------
  // Emotion tagging
  // ---------------------------------------------------------------------

  datatype Emotion = Calm | Anxiety | Sadness | Anger | Happiness | Fatigue
  {
    /** The text shown as "Detected Emotion". */
    function Display(): string {
      match this
      case Calm => "🙂 Calm"
      case Anxiety => "😟 Anxiety"
      case Sadness => "😢 Sadness"
      case Anger => "😡 Anger"
      case Happiness => "😄 Happiness"
      case Fatigue => "😴 Fatigue"
    }
  }

  const AnxietyWords: seq<string> := ["anxious", "nervous", "worried", "panic", "fear"]
  const SadnessWords: seq<string> :=
    ["sad", "depressed", "cry", "lonely", "down", "passed away", "died", "lost", "death", "grief", "funeral"]
  const AngerWords: seq<string> := ["angry", "mad", "frustrated", "irritated"]
  const HappinessWords: seq<string> := ["happy", "excited", "good", "great", "awesome", "topped"]
  const FatigueWords: seq<string> := ["tired", "exhausted", "burnout"]

  /** The if/elif chain over the five keyword lists; `Calm` when none matches. */
  function TagEmotion(message: string): (e: Emotion)
    ensures e == Anxiety <==> SomeOccurs(AnxietyWords, Lower(message))
    ensures e == Calm <==> forall words | words in [AnxietyWords, SadnessWords, AngerWords, HappinessWords, FatigueWords] :: !SomeOccurs(words, Lower(message))
  {
    var text := Lower(message);
    if ContainsAny(text, AnxietyWords) then Anxiety
    else if ContainsAny(text, SadnessWords) then Sadness
    else if ContainsAny(text, AngerWords) then Anger
    else if ContainsAny(text, HappinessWords) then Happiness
    else if ContainsAny(text, FatigueWords) then Fatigue
    else Calm
  }

  /** The "Detected Emotion" line, shown only when a message was submitted. */
  function DetectedEmotion(message: string): (e: Option<Emotion>)
    ensures e.Some? <==> message != ""
    ensures e.Some? ==> e.value == TagEmotion(message)
  {
    if message != "" then Some(TagEmotion(message)) else None
  }

  /** The line `**Detected Emotion:** <emotion>` shown after a submitted message. */
  function EmotionBanner(message: string): (line: Option<string>)
    ensures line.Some? <==> message != ""
    ensures line.Some? ==> line.value == "**Detected Emotion:** " + TagEmotion(message).Display()
  {
    match DetectedEmotion(message)
    case Some(e) => Some("**Detected Emotion:** " + e.Display())
    case None => None
  }

  /** Different emotions are shown differently, so the banner tells which tag was given. */
  lemma DisplayDistinct(e1: Emotion, e2: Emotion)
    ensures e1.Display() == e2.Display() <==> e1 == e2
  {
  }

  /** Each tag is given exactly when its list is the first, in priority order, to match. */
  lemma EmotionPriority(message: string)
    ensures var t, e := Lower(message), TagEmotion(message);
            var anx, sad, ang := SomeOccurs(AnxietyWords, t), SomeOccurs(SadnessWords, t), SomeOccurs(AngerWords, t);
            var hap, fat := SomeOccurs(HappinessWords, t), SomeOccurs(FatigueWords, t);
            (e == Anxiety <==> anx) &&
            (e == Sadness <==> !anx && sad) &&
            (e == Anger <==> !anx && !sad && ang) &&
            (e == Happiness <==> !anx && !sad && !ang && hap) &&
            (e == Fatigue <==> !anx && !sad && !ang && !hap && fat) &&
            (e == Calm <==> !anx && !sad && !ang && !hap && !fat)
  {
  }

  /** An anxiety keyword decides the tag whatever else the message says. */
  lemma AnxietyWins(message: string, i: nat)
    requires i < |AnxietyWords| && IsSubstring(AnxietyWords[i], Lower(message))
    ensures TagEmotion(message) == Anxiety
  {
  }

  // ---------------------------------------------------------------------
  // Therapy modes
  // ---------------------------------------------------------------------

  /** The choices of the support-mode select box. */
  const SupportModes: seq<string> :=
    ["Empathetic Chat", "Healing Therapy Tips", "Breathing Exercise", "Motivational Support"]

  const HealingTips: string :=
    "🧘 Try this healing exercise:\n"
    + "• Sit comfortably\n"
    + "• Close your eyes\n"
    + "• Breathe in slowly for 4 seconds\n"
    + "• Hold for 4 seconds\n"
    + "• Exhale for 6 seconds\n"
    + "Repeat 5 times 🌿"

  const BreathingGuide: string :=
    "🌬️ Guided Breathing:\n"
    + "Inhale... 4s\n"
    + "Hold... 4s\n"
    + "Exhale... 6s\n"
    + "Repeat this cycle 5 times 💙"

  const Motivation: string :=
    "✨ You are stronger than you think.\n"
    + "Every small step matters.\n"
    + "I believe in you 💪"

  /** `therapy_module(mode, user_message)`: a canned reply, or `None` to hand over to the model. */
  function TherapyModule(mode: string, userMessage: string): (reply: Option<string>)
    ensures reply.None? <==> mode !in {"Healing Therapy Tips", "Breathing Exercise", "Motivational Support"}
    ensures reply.Some? ==> reply.value in {HealingTips, BreathingGuide, Motivation} && reply.value != ""
  {
    if mode == "Healing Therapy Tips" then Some(HealingTips)
    else if mode == "Breathing Exercise" then Some(BreathingGuide)
    else if mode == "Motivational Support" then Some(Motivation)
    else None
  }

  /** The canned reply depends on the mode alone. */
  lemma TherapyIgnoresMessage(mode: string, m1: string, m2: string)
    ensures TherapyModule(mode, m1) == TherapyModule(mode, m2)
  {
  }

  /** Each canned mode gets its own fixed text, whatever the message. */
  lemma CannedReplyOfMode(message: string)
    ensures TherapyModule("Healing Therapy Tips", message) == Some(HealingTips)
    ensures TherapyModule("Breathing Exercise", message) == Some(BreathingGuide)
    ensures TherapyModule("Motivational Support", message) == Some(Motivation)
    ensures TherapyModule("Empathetic Chat", message) == None
  {
  }

  /** The three canned modes give three different replies. */
  lemma CannedRepliesDistinct(m1: string, m2: string, message: string)
    requires TherapyModule(m1, message).Some? && TherapyModule(m2, message).Some?
    ensures TherapyModule(m1, message) == TherapyModule(m2, message) <==> m1 == m2
  {
  }

  /** Of the select box's choices, only "Empathetic Chat" delegates. */
  lemma OnlyChatDelegates(i: nat, message: string)
    requires i < |SupportModes|
    ensures TherapyModule(SupportModes[i], message).None? <==> i == 0
  {
  }

  // ---------------------------------------------------------------------
  // Worked examples
  // ---------------------------------------------------------------------

  lemma ExampleCrisisFound()
    ensures IsCrisis("I want to end my life")
  {
    assert DangerWords[2] == "end my life";
    assert OccursAt("end my life", "I want to end my life", 10);
    SomeInLower(DangerWords, "I want to end my life", 2, 10);
  }

  /** Every danger phrase is at least seven characters long, so no shorter message raises the alert. */
  lemma ShortMessageNoCrisis(message: string)
    requires |message| < 7
    ensures CrisisAlert(message) == None
  {
    TooShortForAny(DangerWords, message);
  }

  lemma ExampleAnxietyFirst()
    ensures TagEmotion("I feel anxious and sad") == Anxiety
  {
    SomeInLower(AnxietyWords, "I feel anxious and sad", 0, 7);
  }

  /** Every emotion keyword is at least three characters long, so a shorter message is tagged Calm. */
  lemma ShortMessageIsCalm(message: string)
    requires |message| < 3
    ensures TagEmotion(message) == Calm
  {
    TooShortForAny(AnxietyWords, message);
    TooShortForAny(SadnessWords, message);
    TooShortForAny(AngerWords, message);
    TooShortForAny(HappinessWords, message);
    TooShortForAny(FatigueWords, message);
  }

  /** Keywords match as substrings: any message holding "stopped" holds the happiness keyword "topped". */
  lemma StoppedMatchesHappiness(message: string)
    requires IsSubstring("stopped", Lower(message))
    ensures SomeOccurs(HappinessWords, Lower(message))
  {
    var t := Lower(message);
    var k: nat :| OccursAt("stopped", t, k);
    assert t[k + 1..k + 7] == t[k..k + 7][1..] == "topped";
    assert OccursAt(HappinessWords[5], t, k + 1);
  }
}
