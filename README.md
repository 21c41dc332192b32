# Mental Health Support Chatbot — rule engine model

This project models the logic of the Streamlit chatbot script `app.py` that runs on each
chat turn. It covers:

- the **sentiment scorer** (`analyze_sentiment`). It takes a base polarity, moves it by 0.6
  for each keyword group found in the lower-cased text, clamps it to [-1, 1] and labels it.
- the **coping-tip lookup** (`provide_coping_strategy`).
- the **crisis detector** (the `danger_words` scan and its sidebar notice).
- the **emotion tagger**, an if/elif chain over five keyword lists.
- the **therapy-mode selector** (`therapy_module`).
- the **request builder** of `generate_response`.
- the **turn block**, which appends to the session's `messages` and `mood_tracker`.

The base polarity from TextBlob, the clock reading and the outcome of the completion call
are inputs. Polarity is an exact `real`.

Modules, one per concern of the script:

- `Wrappers` (wrappers.dfy): `Option`, which plays the part of Python's `None`.
- `TextOps` (text.dfy): the Python string built-ins the rules use. These are `str.lower`
  on ASCII letters, the substring test `w in s` and its executable scan, `any(...)` over a
  keyword list, and `str.strip` on ASCII whitespace. It also holds helper lemmas that settle
  keyword tests on concrete and on short messages.
- `Mood` (mood.dfy): the sentiment labels and their bands, `Clamp`, `AnalyzeSentiment`,
  and the coping-tip table.
- `Rules` (rules.dfy): the crisis detector, the emotion tagger and the therapy modes.
- `Chat` (chat.dfy): messages, the completion request, the completion outcome, and the
  `Session` class. `Session` holds the two session lists and the per-turn method
  `ProcessTurn`.

Notes on how the code was read:

- Keywords match as **substrings**, as the code's `word in text` does, not as whole words.
  So "stopped" counts as happiness because it contains "topped" (`Rules.StoppedMatchesHappiness`).
- `therapy_module` returns `None` (not a string) for "Empathetic Chat" and for every other
  mode. The turn block then calls the model whenever the canned reply is falsy.
- The turn block stores the user's message *before* it calls `generate_response`. So the
  five-entry history window already ends with the current prompt, and the prompt is sent
  twice: last in the window and again as the final message. With a long history, a request
  therefore carries four earlier messages, not five (`Chat.PromptSentTwice`).
- The turn block runs only when a message was submitted: `ProcessTurn` with `""` changes
  nothing.

## Model

| member | source | states |
|---|---|---|
| `TextOps.Lower` | app.py:68 | lower-casing keeps the length, maps each character by `LowerChar` and leaves no upper-case ASCII letter |
| `TextOps.LowerIdempotent` | app.py:68 | lower-casing twice is the same as once |
| `TextOps.LowerOfLowered` | app.py:68 | a string with no upper-case letter is its own lower-case form |
| `TextOps.Contains` | app.py:75 | the left-to-right scan is true exactly when the keyword occurs at some position of the text (`w in s`) |
| `TextOps.ContainsAny` | app.py:75 | `any(w in s for w in words)` is true exactly when some keyword of the list occurs in the text |
| `TextOps.OccursInLower` | app.py:247-249 | a lower-case keyword found in a message is also found in its lower-cased form |
| `TextOps.TooShortForAny` | app.py:75 | the keyword scan of the lower-cased text fails when every keyword is longer than the text |
| `TextOps.Strip` | app.py:60 | the stripped reply is the text between a run of leading and a run of trailing whitespace, and neither of its ends is whitespace |
| `TextOps.StripIdempotent` | app.py:60 | stripping twice is the same as once |
| `Mood.Adjusted` | app.py:75-79 | the pre-clamp polarity lies within one keyword shift (0.6) of the base polarity; `Mood.KeywordEffect` gives its value for each keyword combination |
| `Mood.LabelOf` | app.py:85-94 | the if/elif chain returns a label whose band holds the polarity; `Mood.LabelOfCovers` gives the converse |
| `Mood.Clamp` | app.py:82 | `max(-1, min(1, p))` lies in [-1, 1], is `p` inside that range and the nearer bound outside it |
| `Mood.ClampMonotone` | app.py:82 | clamping preserves order |
| `Mood.LabelOfCovers` | app.py:85-94 | the if/elif chain returns a label exactly when the polarity lies in that label's band |
| `Mood.BandsPartition` | app.py:85-94 | the five bands are disjoint and every polarity lies in one of them |
| `Mood.LabelMonotone` | app.py:85-94 | a higher polarity never gets a lower label |
| `Mood.AnalyzeSentiment` | app.py:67-94 | the returned polarity lies in [-1, 1] and the returned label is the one whose band holds it |
| `Mood.KeywordEffect` | app.py:75-82 | negative keywords only: `clamp(base - 0.6)`; positive only: `clamp(base + 0.6)`; both or neither: `clamp(base)` |
| `Mood.NegativeKeywordLowers` | app.py:75-94 | with only negative keywords the pre-clamp polarity is at most `base - 0.6`, and a base below 0.5 ends Negative or Very Negative |
| `Mood.PositiveKeywordRaises` | app.py:78-94 | with only positive keywords the pre-clamp polarity is at least `base + 0.6`, and a base above -0.5 ends Positive or Very Positive |
| `Mood.ShortTextKeepsBase` | app.py:72-94 | no keyword is shorter than three characters, so a shorter text scores `(label of clamp(base), clamp(base))` |
| `Mood.ExampleSad` | app.py:67-94 | "sad" with base 0 scores `(Very Negative, -0.6)` |
| `Mood.CopingStrategy` | app.py:98-106 | a label string in the table gets its listed tip; the default "Stay strong 💪" is returned exactly for strings not in the table |
| `Mood.StrategiesAreLabels` | app.py:99-105 | the table's keys are exactly the names of the five sentiment labels |
| `Mood.CopingTipsDistinct` | app.py:98-106 | no label gets the default tip, and different labels get different tips |
| `Rules.IsCrisis` | app.py:135-140 | true exactly when some danger phrase is a substring of the lower-cased message |
| `Rules.CrisisIgnoresCase` | app.py:140 | detection does not depend on the case of ASCII letters |
| `Rules.CrisisAlert` | app.py:140-152 | the helpline notice is shown exactly for a non-empty message with a danger phrase, and it is the fixed notice text |
| `Rules.ExampleCrisisFound` | app.py:135-140 | "I want to end my life" is detected |
| `Rules.ShortMessageNoCrisis` | app.py:135-152 | no danger phrase is shorter than seven characters, so a shorter message never raises the notice |
| `Rules.TagEmotion` | app.py:245-258 | the tag is Anxiety exactly when an anxiety keyword occurs, and Calm exactly when no list matches; `Rules.EmotionPriority` gives every other tag |
| `Rules.EmotionPriority` | app.py:245-258 | each tag is given exactly when its list matches and no list before it does; Calm exactly when no list matches |
| `Rules.AnxietyWins` | app.py:249-250 | an anxiety keyword makes the tag Anxiety, whatever else the message holds |
| `Rules.DetectedEmotion` | app.py:244-260 | a tag is reported exactly when a message was submitted, and it is that message's tag |
| `Rules.EmotionBanner` | app.py:244-260 | the line `**Detected Emotion:** ` followed by the tag's emoji text is shown exactly when a message was submitted |
| `Rules.DisplayDistinct` | app.py:245-258 | the six emotion texts are pairwise different |
| `Rules.ExampleAnxietyFirst` | app.py:245-252 | "I feel anxious and sad" is tagged Anxiety, not Sadness |
| `Rules.ShortMessageIsCalm` | app.py:245-258 | no emotion keyword is shorter than three characters, so a shorter message is tagged Calm |
| `Rules.StoppedMatchesHappiness` | app.py:255 | any message whose lower-cased form holds "stopped" matches the happiness list, through the keyword "topped" |
| `Rules.TherapyModule` | app.py:176-205 | the reply is `None` exactly for modes other than the three canned ones; otherwise it is one of the three fixed non-empty texts |
| `Rules.CannedReplyOfMode` | app.py:176-205 | "Healing Therapy Tips" gets the healing exercise, "Breathing Exercise" the breathing guide, "Motivational Support" the motivation text, and "Empathetic Chat" `None`, whatever the message |
| `Rules.TherapyIgnoresMessage` | app.py:176-205 | the reply depends on the mode alone, not on the user's message |
| `Rules.CannedRepliesDistinct` | app.py:177-202 | two canned modes give the same reply exactly when they are the same mode |
| `Rules.OnlyChatDelegates` | app.py:171-205 | of the select box's four choices, only "Empathetic Chat" hands the turn to the model |
| `Chat.Recent` | app.py:49 | `history[-5:]` has `min(5, len(history))` entries and is the end of the history |
| `Chat.RequestFor` | app.py:46-52 | the request holds `min(5, len(history)) + 2` messages, starts with the system prompt and ends with the user prompt; `Chat.RequestShape` gives the entries between |
| `Chat.RequestShape` | app.py:46-52 | the request has `min(5, len(history)) + 2 <= 7` messages: the system prompt first, the user prompt last, and the newest history entries between them, oldest first |
| `Chat.PromptSentTwice` | app.py:209-222 | a request built after the prompt was stored ends with the prompt twice and carries at most four earlier messages |
| `Chat.ReplyFrom` | app.py:54-62 | a failed call yields the fixed fallback text; a completed one yields the content with a leading and a trailing run of whitespace removed, and neither end of the reply is whitespace |
| `Chat.TurnReply` | app.py:217-222 | the turn's reply is the canned text when the mode has one, and the model's reply otherwise |
| `Chat.FailureFallsBack` | app.py:61-62 | in "Empathetic Chat" mode a failed call gives exactly the fallback text |
| `Chat.LogExtends` | app.py:209-231 | appending one user message, one assistant message and one mood entry keeps the session log well formed |
| `Chat.RolesAlternate` | app.py:209-231 | in a well-formed log the roles alternate user, assistant, and there is one mood entry per user message |
| `Chat.LoggedMoodHasTip` | app.py:239-242 | the latest logged mood names a label, so its coping tip is that label's tip and never the default |
| `Chat.Session.constructor` | app.py:155-159 | a new session has empty message and mood lists |
| `Chat.Session.GenerateResponse` | app.py:44-62 | the append loop builds exactly the request of `RequestFor` from the stored messages; the reply is the stripped content, or the fallback on any failure |
| `Chat.Session.ProcessTurn` | app.py:209-231 | a submitted turn appends `("user", msg)` then `("assistant", reply)` to the messages and one `(time, label, polarity)` entry to the mood tracker, and keeps every earlier entry; the model is asked exactly when the mode has no canned reply, with the history that already holds the new message; an empty submission changes nothing |
| `Chat.Session.LatestCopingTip` | app.py:239-242 | a tip is shown exactly when the mood tracker is non-empty; it is the tip for the latest entry's label, and never the default in a valid session |

## Left out

- The Streamlit page, the sidebar, chat rendering, the select box widget and the welcome text (app.py:11-17, 109-131, 161-174, 234-237): user interface only. The notice text and the mode names are kept as data.
- The OpenAI/Hugging Face client and the completion call (app.py:37-40, 54-60): a network call. Its result is the input `CompletionOutcome`, a completed content or a failure. Which outcome a request gets is not modelled.
- TextBlob's polarity estimator (app.py:69): a foreign library. The base polarity is a parameter and may be any real; an estimator failure is not modelled.
- Loading `.env` and stopping when `HF_TOKEN` is missing (app.py:14, 31-35): process configuration.
- The average mood score and the mood chart (app.py:263-284): floating-point aggregation and plotting.
- `datetime.now()` (app.py:230): the timestamp is an input, so the model does not claim that timestamps never decrease.
- Floating-point rounding at the label thresholds and clamp bounds: polarity is an exact real.
- `TextOps.Lower`: lower-cases only the ASCII letters `A`-`Z`, not the rest of Unicode as Python's `str.lower` does.
- `TextOps.Strip`: strips only the ASCII characters Python treats as whitespace, not Unicode whitespace.
- `Chat.Session.LatestCopingTip`: its contract states that the tip is the latest label's, not the default, but does not restate the label's tip through the polarity. That link is `Chat.LoggedMoodHasTip`.
