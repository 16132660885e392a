/** The rule-based chat companion: a lexicon-count sentiment classifier, a
    crisis-phrase detector, a first-match-wins reply table, and the chat
    session that appends messages to its log and switches between normal and
    emergency mode. */
module OmexaChat {
  import opened Text
  import opened Lists

  datatype Sentiment = Positive | Negative | Neutral

  /** The words that count towards a positive classification. */
  const PositiveWords: seq<string> := [
      "happy",
      "great",
      "good",
      "excellent",
      "amazing",
      "love",
      "excited",
      "joy",
      "wonderful",
      "fantastic"
    ]

  /** The words that count towards a negative classification. */
  const NegativeWords: seq<string> := [
      "sad",
      "bad",
      "terrible",
      "awful",
      "worried",
      "scared",
      "nervous",
      "anxious",
      "afraid",
      "stressed",
      "depressed",
      "angry",
      "upset"
    ]

  /** The phrases that mark a message as a possible crisis. */
  const EmergencyWords: seq<string> := [
      "help me",
      "emergency",
      "crisis",
      "suicide",
      "hurt myself",
      "abuse",
      "assault",
      "violence",
      "danger",
      "threatened",
      "unsafe",
      "scared for my life"
    ]

  lemma LexiconsHaveNoDuplicates()
    ensures NoDuplicates(PositiveWords) && NoDuplicates(NegativeWords)
    ensures |PositiveWords| == 10 && |NegativeWords| == 13 && |EmergencyWords| == 12
  {
  }

  /** `words.filter(word => text.includes(word)).length`. */
  function CountMatches(words: seq<string>, text: string): (n: nat)
    ensures n <= |words|
  {
    if words == [] then 0
    else (if Contains(text, words[0]) then 1 else 0) + CountMatches(words[1..], text)
  }

  /** The lexicon entries that occur somewhere in `text`. */
  ghost function MatchedWords(words: seq<string>, text: string): set<string> {
    set w | w in words && Contains(text, w)
  }

  /** The filter counts lexicon ENTRIES found in the text, not occurrences:
      on a lexicon without repeats it is the number of distinct words found. */
  lemma {:induction false} CountMatchesIsDistinctWords(words: seq<string>, text: string)
    requires NoDuplicates(words)
    ensures CountMatches(words, text) == |MatchedWords(words, text)|
  {
    if words != [] {
      var rest := words[1..];
      assert NoDuplicates(rest) by {
        forall i, j | 0 <= i < j < |rest| ensures rest[i] != rest[j] {
          assert rest[i] == words[i + 1] && rest[j] == words[j + 1];
        }
      }
      CountMatchesIsDistinctWords(rest, text);
      assert words[0] !in rest by {
        forall i | 0 <= i < |rest| ensures rest[i] != words[0] {
          assert rest[i] == words[i + 1];
        }
      }
      assert words == [words[0]] + rest;
      if Contains(text, words[0]) {
        assert MatchedWords(words, text) == {words[0]} + MatchedWords(rest, text);
      } else {
        assert MatchedWords(words, text) == MatchedWords(rest, text);
      }
    }
  }

  /** `analyzeSentiment`: more positive entries than negative ones found in
      the lower-cased text is positive, more negative ones is negative, and a
      tie (0 to 0 included) is neutral. */
  function AnalyzeSentiment(text: string): (r: Sentiment)
  {
    var lowerText := Lower(text);
    var positiveMatches := CountMatches(PositiveWords, lowerText);
    var negativeMatches := CountMatches(NegativeWords, lowerText);
    if positiveMatches > negativeMatches then Positive
    else if negativeMatches > positiveMatches then Negative
    else Neutral
  }

  /** The classification in terms of the sets of distinct lexicon words that
      occur in the lower-cased text. */
  lemma AnalyzeSentimentByDistinctWords(text: string)
    ensures var p := |MatchedWords(PositiveWords, Lower(text))|;
            var n := |MatchedWords(NegativeWords, Lower(text))|;
            && (AnalyzeSentiment(text) == Positive <==> p > n)
            && (AnalyzeSentiment(text) == Negative <==> n > p)
            && (AnalyzeSentiment(text) == Neutral <==> p == n)
  {
    LexiconsHaveNoDuplicates();
    CountMatchesIsDistinctWords(PositiveWords, Lower(text));
    CountMatchesIsDistinctWords(NegativeWords, Lower(text));
  }

  /** The classifier ignores case. */
  lemma AnalyzeSentimentIgnoresCase(text: string)
    ensures AnalyzeSentiment(Lower(text)) == AnalyzeSentiment(text)
  {
    LowerIdempotent(text);
  }

  /** A lexicon word inside a longer word still counts: any text containing
      "sadness" contains the negative entry "sad". */
  lemma WordInsideLongerWordCounts(text: string)
    requires Contains(Lower(text), "sadness")
    ensures "sad" in MatchedWords(NegativeWords, Lower(text))
  {
    FoundAt("sadness", "sad", 0);
    ContainsTransitive(Lower(text), "sadness", "sad");
  }

  /** `some(word => text.includes(word))`. */
  function AnyContained(words: seq<string>, text: string): (b: bool)
    ensures b <==> exists w :: w in words && Contains(text, w)
  {
    if words == [] then false
    else Contains(text, words[0]) || AnyContained(words[1..], text)
  }

  /** `detectEmergency`: some crisis phrase occurs in the lower-cased text. */
  function DetectEmergency(text: string): bool {
    AnyContained(EmergencyWords, Lower(text))
  }

  /** A message is flagged exactly when some crisis phrase occurs in its
      lower-cased text. */
  lemma DetectEmergencyIff(text: string)
    ensures DetectEmergency(text) <==> exists p :: p in EmergencyWords && Contains(Lower(text), p)
  {
  }

  /** The detector ignores case. */
  lemma DetectEmergencyIgnoresCase(text: string)
    ensures DetectEmergency(Lower(text)) == DetectEmergency(text)
  {
    LowerIdempotent(text);
  }

  /** A crisis phrase is detected whatever its case and whatever surrounds it. */
  lemma EmergencyPhraseAnywhere(before: string, phrase: string, after: string)
    requires Lower(phrase) in EmergencyWords
    ensures DetectEmergency(before + phrase + after)
  {
    var lt := Lower(before + phrase + after);
    assert lt[|before|..|before| + |phrase|] == Lower(phrase);
    FoundAt(lt, Lower(phrase), |before|);
    assert Lower(phrase) in EmergencyWords && Contains(lt, Lower(phrase));
  }

  datatype ChatArticle = ChatArticle(title: string, url: string, source: string)

  /** The reading lists of `moodBasedArticles`. */
  datatype ArticleMood = Anxious | Confident | Sad | General

  /** The text and the optional suggestion list of one canned message. */
  datatype ReplyCopy = ReplyCopy(text: string, suggestions: Option<seq<string>>)

  /** Every piece of display text the chat uses: the greeting, the five rule
      replies, the four reading lists, the three crisis messages and the
      simulated speech result. The rules and the session below are stated
      for any copy; `OmexaCopy` is the app's own. */
  datatype ChatCopy = ChatCopy(
    greeting: string,
    stageFright: ReplyCopy, interview: ReplyCopy,
    positive: ReplyCopy, negative: ReplyCopy, neutral: ReplyCopy,
    anxious: seq<ChatArticle>, confident: seq<ChatArticle>,
    sad: seq<ChatArticle>, general: seq<ChatArticle>,
    emergency: ReplyCopy, counseling: ReplyCopy, police: ReplyCopy,
    recognizedSpeech: string)

  const GreetingText := "Hi there! I'm Omexa, your personal companion and motivator. How are you feeling today? 😊"

  const StageFrightCopy := ReplyCopy(
    "I understand how nerve-wracking public speaking can be! 🎤 Remember that even professional speakers get nervous. Try visualizing a successful presentation, practice deep breathing, and remember that the audience wants you to succeed! Would you like some specific exercises to try?",
    Some([
      "Practice deep breathing for 5 minutes before going on stage",
      "Try the 3-3-3 grounding exercise to calm nerves",
      "Visualize yourself delivering a great presentation",
      "Remember that mild nervousness can actually improve your performance!"
    ]))

  const InterviewCopy := ReplyCopy(
    "Interviews can be challenging, but you've got this! 💪 Remember to prepare examples of your achievements, research the company, and practice common questions. Your skills and experiences are valuable! Would you like some interview preparation tips?",
    Some([
      "Research the company thoroughly before the interview",
      "Prepare STAR (Situation, Task, Action, Result) examples for common questions",
      "Practice in front of a mirror or with a friend",
      "Remember to ask thoughtful questions to the interviewer"
    ]))

  const PositiveCopy := ReplyCopy(
    "I'm so happy to hear you're doing well! 🌟 Your positive energy is contagious. What's been the highlight of your day so far?",
    Some([
      "Share your happiness with someone else today",
      "Take a moment to appreciate what's going well",
      "Build on this positive momentum for your goals"
    ]))

  const NegativeCopy := ReplyCopy(
    "I'm sorry to hear you're feeling this way. 💜 It's completely okay to have these feelings, and you're not alone. Would it help to talk more about what's going on?",
    Some([
      "Take a few deep breaths to ground yourself",
      "Consider doing something small that normally brings you joy",
      "Be gentle with yourself right now"
    ]))

  const NeutralCopy := ReplyCopy(
    "Thanks for sharing that with me! I'm here to chat whenever you need. 😊 Is there anything specific you'd like advice or support with today?",
    None)

  const AnxiousArticles: seq<ChatArticle> := [
      ChatArticle("10 Quick Ways to Calm Anxiety Before a Presentation", "#", "Wellness Today"),
      ChatArticle("The Science Behind Stage Fright and How to Overcome It", "#", "Psychology Insights"),
      ChatArticle("Breathing Techniques for Instant Calm", "#", "Mindful Magazine")
    ]

  const ConfidentArticles: seq<ChatArticle> := [
      ChatArticle("How to Maintain Confidence During Challenging Situations", "#", "Success Weekly"),
      ChatArticle("Building a Lasting Confidence Mindset", "#", "Leadership Today"),
      ChatArticle("Stories of Confidence: How People Overcame Their Fears", "#", "Inspiration Daily")
    ]

  const SadArticles: seq<ChatArticle> := [
      ChatArticle("Finding Joy in Small Moments", "#", "Positive Psychology"),
      ChatArticle("Healthy Ways to Process Difficult Emotions", "#", "Mental Health Journal"),
      ChatArticle("The Power of Connection When Feeling Down", "#", "Community Care")
    ]

  const GeneralArticles: seq<ChatArticle> := [
      ChatArticle("Daily Habits for Improved Mental Wellbeing", "#", "Health Magazine"),
      ChatArticle("The Science of Happiness: Latest Research", "#", "Science Daily"),
      ChatArticle("How Meaningful Conversations Impact Our Brain", "#", "Neuroscience Today")
    ]

  const EmergencyCopy := ReplyCopy(
    "I notice your message contains concerning language. If you're in immediate danger or crisis, please reach out for professional help. Would you like me to provide emergency contact resources? Remember, it's okay to ask for help. 🧡",
    Some([
      "Call emergency services (911) if you're in immediate danger",
      "National Crisis Helpline: 988 (call or text)",
      "Crisis Text Line: Text HOME to 741741"
    ]))

  const CounselingCopy := ReplyCopy(
    "I've provided some counseling resources below. Remember that trained professionals are available 24/7 to help you through difficult situations. You don't have to face this alone. 💜",
    Some([
      "National Suicide Prevention Lifeline: 988",
      "Crisis Text Line: Text HOME to 741741",
      "SAMHSA's National Helpline: 1-800-662-4357",
      "National Alliance on Mental Illness Helpline: 1-800-950-NAMI (6264)"
    ]))

  const PoliceCopy := ReplyCopy(
    "If you're in immediate danger, please call emergency services at 911. Your safety is the top priority. I'm here to support you through this. 🧡",
    None)

  /** The text the simulated voice recognition puts in the input box. */
  const RecognizedSpeech := "I'm feeling good about my progress today, but I'm a bit nervous about my presentation tomorrow."

  /** The app's own copy. */
  const OmexaCopy := ChatCopy(
    GreetingText, StageFrightCopy, InterviewCopy, PositiveCopy, NegativeCopy, NeutralCopy,
    AnxiousArticles, ConfidentArticles, SadArticles, GeneralArticles,
    EmergencyCopy, CounselingCopy, PoliceCopy, RecognizedSpeech)

  /** Each of the app's reading lists has three entries. */
  lemma AnxiousAndConfidentListsHaveThree()
    ensures |AnxiousArticles| == 3 && |ConfidentArticles| == 3
  {
  }

  lemma SadAndGeneralListsHaveThree()
    ensures |SadArticles| == 3 && |GeneralArticles| == 3
  {
  }

  /** Of the app's canned messages, only the neutral reply and the
      emergency-services message come without suggestions. */
  lemma SuggestionlessMessages()
    ensures NeutralCopy.suggestions == None && PoliceCopy.suggestions == None
  {
  }

  lemma RuleRepliesWithSuggestions()
    ensures StageFrightCopy.suggestions.Some? && InterviewCopy.suggestions.Some?
    ensures PositiveCopy.suggestions.Some? && NegativeCopy.suggestions.Some?
  {
  }

  lemma CrisisMessagesWithSuggestions()
    ensures EmergencyCopy.suggestions.Some? && CounselingCopy.suggestions.Some?
  {
  }

  function MoodBasedArticles(copy: ChatCopy, mood: ArticleMood): seq<ChatArticle> {
    match mood
    case Anxious => copy.anxious
    case Confident => copy.confident
    case Sad => copy.sad
    case General => copy.general
  }

  /** `chatStickers`: sticker key to glyph. */
  const ChatStickers: map<string, string> := map[
    "happiness" := "😄",
    "support" := "🤗",
    "confidence" := "💪",
    "encouragement" := "🌟",
    "friendly" := "👋",
    "emergency" := "⚠️",
    "thinking" := "🤔",
    "advice" := "💡"
  ]

  /** The reply `getOmexaResponse` returns; every branch of it sets the
      articles and the sticker key, so neither is optional here. */
  datatype Reply = Reply(text: string, suggestions: Option<seq<string>>,
                         articles: seq<ChatArticle>, sticker: string)

  function StageFrightReply(copy: ChatCopy): Reply {
    Reply(copy.stageFright.text, copy.stageFright.suggestions,
          MoodBasedArticles(copy, Anxious), "encouragement")
  }

  function InterviewReply(copy: ChatCopy): Reply {
    Reply(copy.interview.text, copy.interview.suggestions,
          MoodBasedArticles(copy, Confident), "confidence")
  }

  const StageFrightKeywords: seq<string> := ["stage fright", "presentation", "public speaking"]
  const InterviewKeywords: seq<string> := ["interview", "job"]

  /** The reply for a message that matches no topic. */
  function SentimentReply(copy: ChatCopy, sentiment: Sentiment): Reply {
    match sentiment
    case Positive =>
      Reply(copy.positive.text, copy.positive.suggestions, MoodBasedArticles(copy, Confident), "happiness")
    case Negative =>
      Reply(copy.negative.text, copy.negative.suggestions, MoodBasedArticles(copy, Sad), "support")
    case Neutral =>
      Reply(copy.neutral.text, copy.neutral.suggestions, MoodBasedArticles(copy, General), "friendly")
  }

  /** `getOmexaResponse`: the topic tests first, in order, then the sentiment. */
  function GetOmexaResponse(copy: ChatCopy, text: string, sentiment: Sentiment): (r: Reply)
    ensures r.sticker in ChatStickers
  {
    if Contains(Lower(text), "stage fright") || Contains(Lower(text), "presentation")
       || Contains(Lower(text), "public speaking") then StageFrightReply(copy)
    else if Contains(Lower(text), "interview") || Contains(Lower(text), "job") then InterviewReply(copy)
    else SentimentReply(copy, sentiment)
  }

  /** A topic rule: if any keyword occurs in the lower-cased text, its reply. */
  datatype TopicRule = TopicRule(keywords: seq<string>, reply: Reply)

  /** The topic rules in priority order. */
  function TopicRules(copy: ChatCopy): seq<TopicRule> {
    [TopicRule(StageFrightKeywords, StageFrightReply(copy)), TopicRule(InterviewKeywords, InterviewReply(copy))]
  }

  /** Reference reading of an ordered rule table: the first rule whose
      keywords match wins, otherwise the fallback. */
  function FirstMatch(rules: seq<TopicRule>, lowered: string, fallback: Reply): (r: Reply)
    ensures r == fallback || exists i :: 0 <= i < |rules| && r == rules[i].reply
  {
    if rules == [] then fallback
    else if AnyContained(rules[0].keywords, lowered) then rules[0].reply
    else FirstMatch(rules[1..], lowered, fallback)
  }

  /** The if-chain is the rule table read first-match-wins, with the
      sentiment reply as the fallback. */
  lemma ResponseIsFirstMatchingRule(copy: ChatCopy, text: string, sentiment: Sentiment)
    ensures GetOmexaResponse(copy, text, sentiment)
            == FirstMatch(TopicRules(copy), Lower(text), SentimentReply(copy, sentiment))
  {
    var lt := Lower(text);
    var rules := TopicRules(copy);
    var fallback := SentimentReply(copy, sentiment);
    var stage := AnyContained(StageFrightKeywords, lt);
    var interview := AnyContained(InterviewKeywords, lt);
    assert stage <==>
      Contains(lt, "stage fright") || Contains(lt, "presentation") || Contains(lt, "public speaking");
    assert interview <==> Contains(lt, "interview") || Contains(lt, "job");
    assert rules[0].keywords == StageFrightKeywords && rules[1..][0].keywords == InterviewKeywords;
    assert rules[1..][1..] == [];
    if stage {
      assert FirstMatch(rules, lt, fallback) == rules[0].reply;
    } else if interview {
      assert FirstMatch(rules, lt, fallback) == rules[1..][0].reply;
    } else {
      assert FirstMatch(rules[1..][1..], lt, fallback) == fallback;
    }
  }

  /** The stage-fright rule wins whatever the sentiment, and over the
      interview rule. */
  lemma StageFrightRule(copy: ChatCopy, text: string, sentiment: Sentiment)
    requires AnyContained(StageFrightKeywords, Lower(text))
    ensures var r := GetOmexaResponse(copy, text, sentiment);
            r.text == copy.stageFright.text && r.suggestions == copy.stageFright.suggestions
            && r.articles == MoodBasedArticles(copy, Anxious) && r.sticker == "encouragement"
  {
  }

  /** Without a stage-fright keyword, an interview keyword gives the
      interview reply whatever the sentiment. */
  lemma InterviewRule(copy: ChatCopy, text: string, sentiment: Sentiment)
    requires !AnyContained(StageFrightKeywords, Lower(text))
    requires AnyContained(InterviewKeywords, Lower(text))
    ensures var r := GetOmexaResponse(copy, text, sentiment);
            r.text == copy.interview.text && r.suggestions == copy.interview.suggestions
            && r.articles == MoodBasedArticles(copy, Confident) && r.sticker == "confidence"
  {
    var lt := Lower(text);
    assert "stage fright" in StageFrightKeywords && "presentation" in StageFrightKeywords
      && "public speaking" in StageFrightKeywords;
    assert !Contains(lt, "stage fright") && !Contains(lt, "presentation") && !Contains(lt, "public speaking");
    assert Contains(lt, "interview") || Contains(lt, "job");
  }

  /** A stage-fright keyword, in any case and with anything around it, gets
      the stage-fright reply whatever the sentiment. */
  lemma StageFrightKeywordAnywhere(copy: ChatCopy, before: string, keyword: string, after: string,
                                   sentiment: Sentiment)
    requires Lower(keyword) in StageFrightKeywords
    ensures GetOmexaResponse(copy, before + keyword + after, sentiment) == StageFrightReply(copy)
  {
    var text := before + keyword + after;
    var lt := Lower(text);
    assert lt[|before|..|before| + |keyword|] == Lower(keyword);
    FoundAt(lt, Lower(keyword), |before|);
    assert AnyContained(StageFrightKeywords, lt);
    StageFrightRule(copy, text, sentiment);
  }

  /** With no topic keyword, the reply follows the sentiment alone. */
  lemma SentimentRule(copy: ChatCopy, text: string, sentiment: Sentiment)
    requires !AnyContained(StageFrightKeywords, Lower(text))
    requires !AnyContained(InterviewKeywords, Lower(text))
    ensures GetOmexaResponse(copy, text, sentiment) == SentimentReply(copy, sentiment)
  {
    var lt := Lower(text);
    assert "stage fright" in StageFrightKeywords && "presentation" in StageFrightKeywords
      && "public speaking" in StageFrightKeywords;
    assert "interview" in InterviewKeywords && "job" in InterviewKeywords;
    assert !Contains(lt, "stage fright") && !Contains(lt, "presentation") && !Contains(lt, "public speaking");
    assert !Contains(lt, "interview") && !Contains(lt, "job");
  }

  /** The sentiment replies: positive is the "happiness" sticker with the
      confidence reading list, negative is "support" with the sad list, and
      neutral is "friendly" with the general list. */
  lemma SentimentReplyBundles(copy: ChatCopy, sentiment: Sentiment)
    ensures var r := SentimentReply(copy, sentiment);
            && (sentiment == Positive ==> r.sticker == "happiness" && r.articles == MoodBasedArticles(copy, Confident)
                                          && r.text == copy.positive.text)
            && (sentiment == Negative ==> r.sticker == "support" && r.articles == MoodBasedArticles(copy, Sad)
                                          && r.text == copy.negative.text)
            && (sentiment == Neutral ==> r.sticker == "friendly" && r.articles == MoodBasedArticles(copy, General)
                                         && r.text == copy.neutral.text)
            && r.sticker in ChatStickers
  {
  }

  /** Once a topic matches, the sentiment argument makes no difference. */
  lemma TopicIgnoresSentiment(copy: ChatCopy, text: string, s1: Sentiment, s2: Sentiment)
    requires AnyContained(StageFrightKeywords, Lower(text)) || AnyContained(InterviewKeywords, Lower(text))
    ensures GetOmexaResponse(copy, text, s1) == GetOmexaResponse(copy, text, s2)
  {
  }


  // ---------------------------------------------------------------------
  // The chat session: a message log, the input box, an optional image and
  // the emergency flag. Replies that the component schedules with a timer
  // are kept in `pending` until `DeliverReply` fires one of them.

  datatype Sender = User | Omexa

  datatype ChatMessage = ChatMessage(
    id: int, text: string, sender: Sender, attachment: Option<string>,
    isEmergency: bool, sticker: Option<string>, sentiment: Option<Sentiment>,
    suggestions: Option<seq<string>>, articles: Option<seq<ChatArticle>>)

  /** A reply scheduled by a send: the fixed crisis message, or the rule
      table's reply to the text and sentiment captured at send time. */
  datatype PendingReply = EmergencyPending | ResponsePending(text: string, sentiment: Sentiment)

  datatype Assistance = Counseling | Police

  /** What the footer of the chat card shows. */
  datatype Control =
    | CounselingButton | EmergencyServicesButton | ContinueChattingButton
    | ImagePreview | MessageBox | RecordButton | ImageButton | HelpButton
    | SendButton(enabled: bool)

  /** The first message of every session. */
  function GreetingMessage(copy: ChatCopy): ChatMessage {
    ChatMessage(1, copy.greeting, Omexa, None, false, None, Some(Positive), None, None)
  }

  /** JavaScript truthiness of the image slot: null and "" are false. */
  predicate HasImage(image: Option<string>) {
    image.Some? && image.value != ""
  }

  /** The guard of `handleSendMessage` and of the Send button: a send goes
      through unless the trimmed input is empty and no image is attached. */
  predicate SendAccepted(input: string, image: Option<string>) {
    !(Trim(input) == "" && !HasImage(image))
  }

  /** A send is refused exactly when the input is whitespace only (or empty)
      and there is no image. */
  lemma SendAcceptedIff(input: string, image: Option<string>)
    ensures SendAccepted(input, image) <==> !IsBlank(input) || HasImage(image)
  {
    TrimEmptyIffBlank(input);
  }

  /** The message a send appends for the user. */
  function UserMessage(input: string, image: Option<string>, now: int): (m: ChatMessage)
    ensures m.sender == User && m.text == input && m.id == now
    ensures m.sentiment == Some(AnalyzeSentiment(input))
    ensures m.attachment.Some? <==> HasImage(image)
    ensures m.attachment.Some? ==> image == m.attachment
    ensures !m.isEmergency && m.sticker == None && m.suggestions == None && m.articles == None
  {
    ChatMessage(now, input, User, if HasImage(image) then image else None,
                false, None, Some(AnalyzeSentiment(input)), None, None)
  }

  /** The message a scheduled reply turns into when its timer fires at time
      `now`. */
  function ReplyMessage(copy: ChatCopy, p: PendingReply, now: int): (m: ChatMessage)
    ensures m.sender == Omexa && m.id == now + 1 && m.attachment == None && m.sentiment == None
    ensures p.EmergencyPending? ==>
              m.isEmergency && m.text == copy.emergency.text && m.sticker == Some(ChatStickers["emergency"])
              && m.suggestions == copy.emergency.suggestions && m.articles == None
    ensures p.ResponsePending? ==>
              var r := GetOmexaResponse(copy, p.text, p.sentiment);
              !m.isEmergency && m.text == r.text && m.sticker == Some(ChatStickers[r.sticker])
              && m.suggestions == r.suggestions && m.articles == Some(r.articles)
  {
    match p
    case EmergencyPending =>
      ChatMessage(now + 1, copy.emergency.text, Omexa, None, true, Some(ChatStickers["emergency"]),
                  None, copy.emergency.suggestions, None)
    case ResponsePending(text, sentiment) =>
      var r := GetOmexaResponse(copy, text, sentiment);
      ChatMessage(now + 1, r.text, Omexa, None, false,
                  if r.sticker != "" then Some(ChatStickers[r.sticker]) else None,
                  None, r.suggestions, Some(r.articles))
  }

  /** The message one of the two emergency buttons appends. */
  function AssistanceMessage(copy: ChatCopy, kind: Assistance, now: int): (m: ChatMessage)
    ensures m.sender == Omexa && m.id == now && !m.isEmergency
    ensures m.attachment == None && m.sticker == None && m.sentiment == None && m.articles == None
    ensures kind == Counseling ==> m.text == copy.counseling.text && m.suggestions == copy.counseling.suggestions
    ensures kind == Police ==> m.text == copy.police.text && m.suggestions == copy.police.suggestions
  {
    match kind
    case Counseling =>
      ChatMessage(now, copy.counseling.text, Omexa, None, false, None, None, copy.counseling.suggestions, None)
    case Police =>
      ChatMessage(now, copy.police.text, Omexa, None, false, None, None, copy.police.suggestions, None)
  }

  /** The footer as rendered: the three emergency buttons alone in emergency
      mode; otherwise the image preview (when an image is attached), the
      input box, the three tool buttons and the Send button. */
  function FooterControls(emergency: bool, input: string, image: Option<string>): (cs: seq<Control>)
    ensures emergency <==> CounselingButton in cs
    ensures emergency ==> cs == [CounselingButton, EmergencyServicesButton, ContinueChattingButton]
    ensures !emergency ==> (ImagePreview in cs <==> HasImage(image))
    ensures !emergency ==> SendButton(SendAccepted(input, image)) in cs && MessageBox in cs
  {
    if emergency then [CounselingButton, EmergencyServicesButton, ContinueChattingButton]
    else (if HasImage(image) then [ImagePreview] else [])
         + [MessageBox, RecordButton, ImageButton, HelpButton, SendButton(SendAccepted(input, image))]
  }

  /** In emergency mode there is neither an input box nor a Send button, so
      no message can be typed or sent until one of the three buttons clears
      the mode. */
  lemma EmergencyModeHidesInput(input: string, image: Option<string>)
    ensures var cs := FooterControls(true, input, image);
            |cs| == 3 && MessageBox !in cs && (forall b :: SendButton(b) !in cs)
  {
  }

  class ChatSession {
    /** The display text this session shows. */
    const copy: ChatCopy
    var messages: seq<ChatMessage>
    var inputText: string
    var isRecording: bool
    var imageUrl: Option<string>
    var isEmergencyMode: bool
    var pending: seq<PendingReply>

    /** The log always starts with Omexa's greeting. */
    ghost predicate Valid()
      reads this
    {
      |messages| >= 1 && messages[0] == GreetingMessage(copy)
    }

    function Footer(): seq<Control>
      reads this
    {
      FooterControls(isEmergencyMode, inputText, imageUrl)
    }

    constructor (copy: ChatCopy)
      ensures Valid() && this.copy == copy
      ensures messages == [GreetingMessage(copy)] && inputText == "" && !isRecording
      ensures imageUrl == None && !isEmergencyMode && pending == []
    {
      this.copy := copy;
      messages := [GreetingMessage(copy)];
      inputText := "";
      isRecording := false;
      imageUrl := None;
      isEmergencyMode := false;
      pending := [];
    }

    /** The text area's change handler. */
    method SetInputText(t: string)
      modifies this
      ensures inputText == t
      ensures messages == old(messages) && isRecording == old(isRecording) && imageUrl == old(imageUrl)
      ensures isEmergencyMode == old(isEmergencyMode) && pending == old(pending)
    {
      inputText := t;
    }

    /** `handleFileUpload` with the file already read: a file whose type does
        not mention "image" is refused, and an empty read result is ignored. */
    method AttachImage(fileType: string, dataUrl: string)
      modifies this
      ensures imageUrl == (if Contains(fileType, "image") && dataUrl != "" then Some(dataUrl) else old(imageUrl))
      ensures messages == old(messages) && inputText == old(inputText) && isRecording == old(isRecording)
      ensures isEmergencyMode == old(isEmergencyMode) && pending == old(pending)
    {
      if !Contains(fileType, "image") {
        return;
      }
      if dataUrl != "" {
        imageUrl := Some(dataUrl);
      }
    }

    /** The cross on the image preview. */
    method RemoveImage()
      modifies this
      ensures imageUrl == None
      ensures messages == old(messages) && inputText == old(inputText) && isRecording == old(isRecording)
      ensures isEmergencyMode == old(isEmergencyMode) && pending == old(pending)
    {
      imageUrl := None;
    }

    /** `handleToggleRecording`: stopping a recording fills the input box with
        the simulated recognition result. */
    method ToggleRecording()
      modifies this
      ensures isRecording == !old(isRecording)
      ensures inputText == (if old(isRecording) then copy.recognizedSpeech else old(inputText))
      ensures messages == old(messages) && imageUrl == old(imageUrl)
      ensures isEmergencyMode == old(isEmergencyMode) && pending == old(pending)
    {
      if isRecording {
        isRecording := false;
        inputText := copy.recognizedSpeech;
      } else {
        isRecording := true;
      }
    }

    /** `handleSendMessage` at time `now`. A refused send changes nothing.
        Otherwise exactly one user message is appended, the input and the
        image are cleared, and one reply is scheduled: the crisis message,
        together with emergency mode, when the text holds a crisis phrase,
        and the rule table's reply otherwise. The Send button and the input
        box exist only outside emergency mode. */
    method SendMessage(now: int)
      requires Valid() && !isEmergencyMode
      modifies this
      ensures Valid()
      ensures isRecording == old(isRecording)
      ensures !SendAccepted(old(inputText), old(imageUrl)) ==>
                messages == old(messages) && inputText == old(inputText) && imageUrl == old(imageUrl)
                && isEmergencyMode == old(isEmergencyMode) && pending == old(pending)
      ensures SendAccepted(old(inputText), old(imageUrl)) ==>
                messages == old(messages) + [UserMessage(old(inputText), old(imageUrl), now)]
                && inputText == "" && imageUrl == None
      ensures SendAccepted(old(inputText), old(imageUrl)) && DetectEmergency(old(inputText)) ==>
                isEmergencyMode && pending == old(pending) + [EmergencyPending]
      ensures SendAccepted(old(inputText), old(imageUrl)) && !DetectEmergency(old(inputText)) ==>
                isEmergencyMode == old(isEmergencyMode)
                && pending == old(pending) + [ResponsePending(old(inputText), AnalyzeSentiment(old(inputText)))]
    {
      if Trim(inputText) == "" && !HasImage(imageUrl) {
        return;
      }
      var sentiment := AnalyzeSentiment(inputText);
      var isEmergency := DetectEmergency(inputText);
      var userMessage := UserMessage(inputText, imageUrl, now);
      var text := inputText;
      messages := messages + [userMessage];
      inputText := "";
      imageUrl := None;
      if isEmergency {
        isEmergencyMode := true;
        pending := pending + [EmergencyPending];
        return;
      }
      pending := pending + [ResponsePending(text, sentiment)];
    }

    /** The timer of the `k`-th scheduled reply fires at time `now`: its
        message is appended and it leaves the schedule. */
    method DeliverReply(k: nat, now: int)
      requires Valid() && k < |pending|
      modifies this
      ensures Valid()
      ensures messages == old(messages) + [ReplyMessage(copy, old(pending)[k], now)]
      ensures pending == old(pending)[..k] + old(pending)[k + 1..]
      ensures inputText == old(inputText) && isRecording == old(isRecording)
      ensures imageUrl == old(imageUrl) && isEmergencyMode == old(isEmergencyMode)
    {
      messages := messages + [ReplyMessage(copy, pending[k], now)];
      pending := pending[..k] + pending[k + 1..];
    }

    /** `handleEmergencyAssistance`: leaves emergency mode and appends the
        counseling or the emergency-services message. Its two buttons exist
        only in emergency mode. */
    method EmergencyAssistance(kind: Assistance, now: int)
      requires Valid() && isEmergencyMode
      modifies this
      ensures Valid()
      ensures !isEmergencyMode
      ensures messages == old(messages) + [AssistanceMessage(copy, kind, now)]
      ensures inputText == old(inputText) && isRecording == old(isRecording)
      ensures imageUrl == old(imageUrl) && pending == old(pending)
    {
      isEmergencyMode := false;
      messages := messages + [AssistanceMessage(copy, kind, now)];
    }

    /** "Continue chatting instead", shown only in emergency mode: leaves
        emergency mode, nothing else. */
    method DismissEmergency()
      requires isEmergencyMode
      modifies this
      ensures !isEmergencyMode
      ensures messages == old(messages) && inputText == old(inputText) && isRecording == old(isRecording)
      ensures imageUrl == old(imageUrl) && pending == old(pending)
    {
      isEmergencyMode := false;
    }
  }
}
