# Omexa wellness companion, modelled in Dafny

Omexa is a React wellness app. It has:

- a rule-based chat companion: sentiment by keyword counts, crisis-phrase detection, first-match topic replies, and an emergency mode;
- small self-care widgets: a reminder list, a virtual pet, a four-step confidence exercise, two memory games, a quiz card and a daily mood check-in;
- static catalogues: advice, quiz questions and articles, each with its lookup rule.

This project models that core in Dafny and proves what the code promises.

Each source file keeps its own form in the model:

- **Components whose handlers call `setState` become classes.** Each handler is a method with a `modifies` clause and states the whole new state:
  - `ChatSession`, `ReminderList`, `Pet`, `Exercise`, `SimpleGameBoard`, `MemoryPatch`, `Card`, `CheckIn` and `StickerTray`.
- **A `setTimeout` callback becomes pending data on the object.** The data the callback captured is kept in a `pending` sequence, and an explicit method fires entry `k`. This lets timers fire in any order. `MemoryPatchGame` is the exception: the match check's clean-up leaves at most one reset waiting, so that timer is the flag `resetPending`, fired by `ResetFlipped`.
- **Rules and catalogues are pure functions over datatypes.** Lemmas relate them to reference readings:
  - the chat reply table;
  - the sentiment classifier;
  - the advice, quiz and article filters;
  - the pet's stat updates;
  - the games' card updates.
- **The only in-place loop is the Fisher–Yates shuffle of the colour game.** It is a method over an `array`, proved to be a permutation.

Shared helpers:

- `Text`: ASCII lower-casing, JavaScript `trim()` whitespace and `includes`.
- `Lists`: `Option`, `slice(0, n)`, `map` to a key, keeping or filtering out a key, subsequences and duplicate-freedom.

Inputs the browser provides are parameters:

- **Clock readings** (`Date.now()`, `new Date().getHours()`, hours since the last visit) are `now`, `hour` and `hours`.
- **Random choices** are passed in:
  - the Fisher–Yates picks are a sequence `picks`;
  - a random sort is any permutation of its input;
  - `Math.floor(Math.random() * n)` is `num * n / den` with `num < den`.
- **`localStorage` contents** are the `saved` and `savedName` arguments of `Pet.Mount`.
- **Display text of the chat** is a `ChatCopy` value given to the session. The rules are proved for every copy, and `OmexaChat.OmexaCopy` is the app's own text.

Two behaviours of the chat are easy to misread:

- `analyzeSentiment` counts each lexicon entry once, however often it occurs (`filter(w => text.includes(w)).length`, OmexaChat.tsx:75-76). So "happy happy sad" is neutral (`CountMatchesIsDistinctWords`, `RepeatedWordCountsOnce`).
- In emergency mode the footer shows only the assistance buttons and no input box (OmexaChat.tsx:465-505; `EmergencyModeHidesInput`).

## Model

| member | source | states |
|---|---|---|
| OmexaChat.LexiconsHaveNoDuplicates | src/components/OmexaChat.tsx:70-71 | neither sentiment lexicon repeats a word; the lexicons have 10, 13 and 12 entries |
| OmexaChat.CountMatches | src/components/OmexaChat.tsx:75-76 | the number of lexicon entries found in the text never exceeds the lexicon size |
| OmexaChat.CountMatchesIsDistinctWords | src/components/OmexaChat.tsx:75-76 | on a repeat-free lexicon the count is the number of distinct lexicon words occurring in the text, not the number of occurrences |
| OmexaChat.AnalyzeSentimentByDistinctWords | src/components/OmexaChat.tsx:69-81 | positive iff more distinct positive words than negative ones occur in the lower-cased text, negative iff fewer, neutral iff the two are equal |
| OmexaChat.AnalyzeSentimentIgnoresCase | src/components/OmexaChat.tsx:73-76 | lower-casing the message first does not change its sentiment |
| OmexaChat.WordInsideLongerWordCounts | src/components/OmexaChat.tsx:71-76 | substring matching: a message containing "sadness" matches the negative word "sad" |
| OmexaChat.AnyContained | src/components/OmexaChat.tsx:91 | `some(word => text.includes(word))` holds iff some listed phrase occurs in the text |
| OmexaChat.DetectEmergencyIff | src/components/OmexaChat.tsx:84-92 | a message is flagged iff one of the twelve crisis phrases occurs in its lower-cased text |
| OmexaChat.DetectEmergencyIgnoresCase | src/components/OmexaChat.tsx:90-91 | crisis detection does not depend on letter case |
| OmexaChat.EmergencyPhraseAnywhere | src/components/OmexaChat.tsx:84-92 | a crisis phrase in any letter case, with any text before and after it, is always detected |
| OmexaChat.AnxiousAndConfidentListsHaveThree | src/components/OmexaChat.tsx:45-55 | the anxious and confident reading lists have three articles each |
| OmexaChat.SadAndGeneralListsHaveThree | src/components/OmexaChat.tsx:56-66 | the sad and general reading lists have three articles each |
| OmexaChat.SuggestionlessMessages | src/components/OmexaChat.tsx:152-158 | the neutral reply and the emergency-services message carry no suggestions |
| OmexaChat.RuleRepliesWithSuggestions | src/components/OmexaChat.tsx:101-151 | the stage-fright, interview, positive and negative replies all carry suggestions |
| OmexaChat.CrisisMessagesWithSuggestions | src/components/OmexaChat.tsx:222-233 | the crisis message and the counseling message carry suggestions |
| OmexaChat.GetOmexaResponse | src/components/OmexaChat.tsx:95-171 | every reply's sticker key is a key of `chatStickers`, so the lookup at line 249 always finds a glyph |
| OmexaChat.FirstMatch | src/components/OmexaChat.tsx:100-127 | reference reading of an ordered rule table: the result is the fallback or the reply of one of the rules |
| OmexaChat.ResponseIsFirstMatchingRule | src/components/OmexaChat.tsx:95-159 | `getOmexaResponse` equals the two-rule table read first-match-wins, with the sentiment reply as the fallback |
| OmexaChat.StageFrightRule | src/components/OmexaChat.tsx:101-113 | any stage-fright keyword gives the stage-fright text and suggestions, the anxious reading list and the "encouragement" sticker, whatever the sentiment and even if an interview keyword is also present |
| OmexaChat.InterviewRule | src/components/OmexaChat.tsx:115-127 | with no stage-fright keyword, an interview keyword gives the interview text, the confident list and the "confidence" sticker, whatever the sentiment |
| OmexaChat.StageFrightKeywordAnywhere | src/components/OmexaChat.tsx:101 | a stage-fright keyword in any letter case, anywhere in the message, selects the stage-fright reply |
| OmexaChat.SentimentRule | src/components/OmexaChat.tsx:129-158 | with no topic keyword the reply is the one for the sentiment |
| OmexaChat.SentimentReplyBundles | src/components/OmexaChat.tsx:129-158 | positive gives "happiness" with the confident list, negative gives "support" with the sad list, neutral gives "friendly" with the general list, each with its own text |
| OmexaChat.TopicIgnoresSentiment | src/components/OmexaChat.tsx:100-127 | once a topic keyword matches, the sentiment has no effect on the reply |
| OmexaChat.SendAcceptedIff | src/components/OmexaChat.tsx:197 | a send is refused exactly when the input is empty or whitespace only and no image is attached (same guard as the disabled Send button, line 581) |
| OmexaChat.UserMessage | src/components/OmexaChat.tsx:203-210 | the user's message has the typed text, the send time as id, its sentiment, and the image as attachment exactly when one is set |
| OmexaChat.ReplyMessage | src/components/OmexaChat.tsx:221-255 | a fired crisis timer gives the emergency message with the emergency sticker and crisis suggestions; a fired reply timer gives the rule table's text, sticker glyph, suggestions and articles; the id is the firing time plus one |
| OmexaChat.AssistanceMessage | src/components/OmexaChat.tsx:306-332 | the counseling button's message has the counseling text and resources; the emergency-services message has the police text and no suggestions |
| OmexaChat.FooterControls | src/components/OmexaChat.tsx:465-588 | emergency mode shows exactly the three emergency buttons; otherwise the image preview appears iff an image is attached, next to the input box and a Send button enabled iff a send would be accepted |
| OmexaChat.EmergencyModeHidesInput | src/components/OmexaChat.tsx:465-505 | in emergency mode there is no input box and no Send button |
| OmexaChat.ChatSession.constructor | src/components/OmexaChat.tsx:174-186 | the log holds only the greeting; the input is empty and there is no image, no recording and no emergency |
| OmexaChat.ChatSession.SetInputText | src/components/OmexaChat.tsx:528 | only the input text changes |
| OmexaChat.ChatSession.AttachImage | src/components/OmexaChat.tsx:259-283 | a file whose type does not contain "image" is refused; a non-empty read result becomes the image; nothing else changes |
| OmexaChat.ChatSession.RemoveImage | src/components/OmexaChat.tsx:518 | only the image is cleared |
| OmexaChat.ChatSession.ToggleRecording | src/components/OmexaChat.tsx:286-303 | recording flips; stopping fills the input with the simulated recognition text |
| OmexaChat.ChatSession.SendMessage | src/components/OmexaChat.tsx:196-256 | offered only outside emergency mode; a refused send changes nothing; otherwise exactly one user message is appended, the input and image clear, and one reply is scheduled: the crisis reply with emergency mode on when a crisis phrase occurs, otherwise the rule reply for the text and sentiment captured at send time; the greeting stays first |
| OmexaChat.ChatSession.DeliverReply | src/components/OmexaChat.tsx:221-255 | the fired timer's message is appended and that timer leaves the schedule; nothing else changes |
| OmexaChat.ChatSession.EmergencyAssistance | src/components/OmexaChat.tsx:306-332 | offered only in emergency mode: emergency mode ends and exactly the chosen assistance message is appended |
| OmexaChat.ChatSession.DismissEmergency | src/components/OmexaChat.tsx:500 | offered only in emergency mode: emergency mode ends; nothing else changes |
| ChatExamples.RepeatedWordCountsOnce | src/components/OmexaChat.tsx:75-80 | "happy happy sad" is neutral: a repeated positive word counts once against one negative word |
| SmartReminders.Toggled | src/components/SmartReminders.tsx:46-52 | toggling flips `completed` on exactly the entries with that id and keeps every id, text, category, the length and the order |
| SmartReminders.ToggleTwice | src/components/SmartReminders.tsx:46-52 | toggling the same id twice restores the list |
| SmartReminders.ToggleAbsent | src/components/SmartReminders.tsx:46-52 | toggling an id no entry has changes nothing |
| SmartReminders.CompletedAtMostTotal | src/components/SmartReminders.tsx:154 | the completed count is at most the list length, and zero iff nothing is ticked |
| SmartReminders.DeleteProperties | src/components/SmartReminders.tsx:54-56 | deleting keeps the others in order, removes exactly the entries with that id, and does nothing for an absent id |
| SmartReminders.ReminderList.constructor | src/components/SmartReminders.tsx:19-25 | the three initial reminders, an empty box, category "task" |
| SmartReminders.ReminderList.SetNewReminder | src/components/SmartReminders.tsx:24 | only the input text changes |
| SmartReminders.ReminderList.SetCategory | src/components/SmartReminders.tsx:25 | only the selected category changes |
| SmartReminders.ReminderList.AddReminder | src/components/SmartReminders.tsx:27-44 | blank text adds nothing; otherwise one open reminder with the clock's id, the typed text and the selected category is appended and the box clears |
| SmartReminders.ReminderList.ToggleReminder | src/components/SmartReminders.tsx:46-52 | the list becomes its toggled version |
| SmartReminders.ReminderList.DeleteReminder | src/components/SmartReminders.tsx:54-56 | the list loses exactly the entries with that id |
| SmartReminders.ReminderList.Completed | src/components/SmartReminders.tsx:154 | the footer's completed count never exceeds the number of reminders |
| VirtualPet.DefaultStats | src/components/VirtualPet.tsx:16-21 | the default stats are percentages stamped with the load time |
| VirtualPet.PlayStats | src/components/VirtualPet.tsx:82-88 | happiness +15 capped at 100, energy -10 floored at 0, growth +2 capped at 100, stamped now; percentages stay percentages |
| VirtualPet.FeedStats | src/components/VirtualPet.tsx:99-105 | happiness +5, energy +20, growth +1, each capped at 100, stamped now |
| VirtualPet.RestStats | src/components/VirtualPet.tsx:116-120 | energy becomes 100, happiness and growth are kept, stamped now |
| VirtualPet.DecayStats | src/components/VirtualPet.tsx:56-70 | six hours or less changes nothing; more than six takes one point per hour off happiness and energy, never below 10, and keeps growth |
| VirtualPet.DecayOnlyLowers | src/components/VirtualPet.tsx:61-68 | decay never raises a stat that is at or above the floor of 10 |
| VirtualPet.LevelOf | src/components/VirtualPet.tsx:129 | the level of a growth percentage is between 1 and 11 |
| VirtualPet.LevelOfMonotone | src/components/VirtualPet.tsx:129 | more growth never gives a lower level |
| VirtualPet.StageOf | src/components/VirtualPet.tsx:141-146 | baby below level 3, young from 3 to 5, teen at 6 and 7, adult from 8 |
| VirtualPet.StageMonotone | src/components/VirtualPet.tsx:141-146 | a higher level never shows a younger stage |
| VirtualPet.Pet.constructor | src/components/VirtualPet.tsx:24-26 | "Biscuit" with the default stats at level 1 |
| VirtualPet.Pet.Mount | src/components/VirtualPet.tsx:30-70 | saved stats replace the current ones and set the level from their growth; a non-empty saved name replaces the name; then the decay rule runs |
| VirtualPet.Pet.UpdateLevel | src/components/VirtualPet.tsx:128-138 | the level becomes the larger of the old level and the level of the growth the handler saw |
| VirtualPet.Pet.Play | src/components/VirtualPet.tsx:72-96 | refused below 20 energy; otherwise the play update, with the level checked against the growth from before it; the level never drops |
| VirtualPet.Pet.Feed | src/components/VirtualPet.tsx:98-113 | the feed update, with the level checked against the growth from before it |
| VirtualPet.Pet.Rest | src/components/VirtualPet.tsx:115-126 | the rest update; the level is unchanged |
| ConfidenceExercise.StepCountIsLength | src/components/ConfidenceExercise.tsx:21-44 | there are four steps |
| ConfidenceExercise.StoreAt | src/components/ConfidenceExercise.tsx:49-50 | the answer lands at the step's index and every other saved answer stays |
| ConfidenceExercise.SavedAnswer | src/components/ConfidenceExercise.tsx:64 | the saved answer at the index, or "" when there is none |
| ConfidenceExercise.Exercise.constructor | src/components/ConfidenceExercise.tsx:16-19 | first step, no answers, empty box, not complete |
| ConfidenceExercise.Exercise.SetResponse | src/components/ConfidenceExercise.tsx:68-70 | offered only while the exercise is not complete, as the text box renders only then (lines 88-117); only the box changes |
| ConfidenceExercise.Exercise.NextStep | src/components/ConfidenceExercise.tsx:46-59 | offered only while the exercise is not complete, as the button renders only then (lines 140-160); a blank answer changes nothing; otherwise it is saved at the current step, and the wizard either moves on with an empty box or, on the last step, completes; the answers stay non-blank and a completed exercise holds four |
| ConfidenceExercise.Exercise.PreviousStep | src/components/ConfidenceExercise.tsx:61-66 | offered only while the exercise is not complete, as the button renders only then (lines 140-160); the step changes exactly when the Back button is enabled; on the first step nothing happens; otherwise the step goes back one and the box shows the answer saved there |
| ConfidenceExercise.Exercise.BackEnabled | src/components/ConfidenceExercise.tsx:143-146 | Back is enabled exactly off the first step, and then a saved answer exists for the step it returns to |
| ConfidenceExercise.Exercise.Reset | src/components/ConfidenceExercise.tsx:72-77 | back to the initial state |
| ConfidenceExercise.Exercise.NextEnabled | src/components/ConfidenceExercise.tsx:151 | the Next button is enabled iff the box is not blank |
| SimpleGame.PairBoard | src/components/SimpleGame.tsx:27 | the unshuffled board has twice as many cells as colours |
| SimpleGame.PairBoardHasEachColourTwice | src/components/SimpleGame.tsx:16-27 | each of the six colours is on the unshuffled board exactly twice and nothing else is on it |
| SimpleGame.Swap | src/components/SimpleGame.tsx:32 | the destructuring swap exchanges two cells and keeps the rest |
| SimpleGame.SwapPermutes | src/components/SimpleGame.tsx:32 | a swap permutes the board |
| SimpleGame.FisherYatesPermutes | src/components/SimpleGame.tsx:30-33 | whatever the random picks, the shuffle loop permutes the board |
| SimpleGame.Shuffle | src/components/SimpleGame.tsx:30-33 | the in-place loop computes the Fisher–Yates result for the picks and so permutes the array |
| SimpleGame.Click | src/components/SimpleGame.tsx:43-84 | a click on a selected cell, with a full selection, or on a finished board changes nothing; otherwise the cell joins the selection, and the second cell counts a move and starts the match or mismatch timer |
| SimpleGame.PairTimer | src/components/SimpleGame.tsx:62-82 | the timer is a match iff the two cells have the same colour, and it captures the pair count and board length of that render |
| SimpleGame.Fire | src/components/SimpleGame.tsx:65-81 | a fired timer clears the selection; a match sets the count to the captured count plus one and completes the game when that equals half the board; a mismatch changes nothing else |
| SimpleGame.Restart | src/components/SimpleGame.tsx:35-40 | a new game has the new board, no selection, zero pairs and moves, started and not complete; earlier timers are still pending |
| SimpleGame.ClickPreservesValid | src/components/SimpleGame.tsx:43-84 | clicks keep the game invariant: at most two distinct selected cells on the board, pairs counted within half the board |
| SimpleGame.FirePreservesValid | src/components/SimpleGame.tsx:65-81 | firing a timer keeps the game invariant |
| SimpleGame.RestartPreservesValid | src/components/SimpleGame.tsx:25-41 | a restart keeps the game invariant |
| SimpleGame.ValidBounds | src/components/SimpleGame.tsx:45-51 | in every reachable game the selection has at most two cells and at most six pairs are counted |
| SimpleGame.FlippedIffSelected | src/components/SimpleGame.tsx:86-96 | a cell is face up exactly when it is selected: matched pairs are shown only while still selected |
| SimpleGame.Round | src/components/SimpleGame.tsx:43-81 | one turn on cells 0 and 1 of equal colour, followed by its timer, counts one more pair |
| SimpleGame.Rematch | src/components/SimpleGame.tsx:43-81 | n such turns count n more pairs and complete the game when the count reaches six |
| SimpleGame.SamePairSixTimesCompletes | src/components/SimpleGame.tsx:43-96 | because a counted pair is not remembered, matching the same two cells six times completes a fresh game |
| SimpleGame.KeptStart | src/components/SimpleGame.tsx:35-40 | intended game: a fresh board has nothing matched, no pairs and is not complete |
| SimpleGame.KeptTurn | src/components/SimpleGame.tsx:43-82 | intended game: a turn naming one cell twice, a matched cell or a finished board changes nothing; an accepted turn counts a move, and a pair of equal colours joins the matched cells and counts one pair, so matched cells are always twice the pair count |
| SimpleGame.KeptCompleteMeansEveryCellMatched | src/components/SimpleGame.tsx:44-76 | intended game: a completed board has every one of its cells matched |
| SimpleGame.MatchedPairRefusedAgain | src/components/SimpleGame.tsx:44-51 | intended game: once a pair is counted, repeating it is refused and counts nothing |
| SimpleGame.SimpleGameBoard.constructor | src/components/SimpleGame.tsx:9-14 | the component starts in the initial game, which satisfies the invariant |
| SimpleGame.SimpleGameBoard.SetState | src/components/SimpleGame.tsx:35-40 | the fields become the given game |
| SimpleGame.SimpleGameBoard.InitializeGame | src/components/SimpleGame.tsx:25-41 | the board is the shuffled pair board, so each colour is on it exactly twice, and the state is the restart |
| SimpleGame.SimpleGameBoard.HandleCardClick | src/components/SimpleGame.tsx:43-84 | the state becomes `Click` of the old state and the invariant holds |
| SimpleGame.SimpleGameBoard.FireTimer | src/components/SimpleGame.tsx:65-81 | the state becomes `Fire` of the old state and the invariant holds |
| MemoryPatchGame.DuplicatedEmojis | src/components/MemoryPatchGame.tsx:23 | the duplicated list is twice the emoji list |
| MemoryPatchGame.EmojisOf | src/components/MemoryPatchGame.tsx:26-31 | the emoji of the cards, in order |
| MemoryPatchGame.DuplicatedHasEachEmojiTwice | src/components/MemoryPatchGame.tsx:14-23 | each of the eight emoji is in the duplicated list exactly twice |
| MemoryPatchGame.Deal | src/components/MemoryPatchGame.tsx:26-31 | card i has id i and the i-th shuffled emoji, face down and unmatched |
| MemoryPatchGame.DealHasEachEmojiTwice | src/components/MemoryPatchGame.tsx:22-31 | whatever order the random sort chose, the dealt board has sixteen cards with each emoji exactly twice |
| MemoryPatchGame.FlipAt | src/components/MemoryPatchGame.tsx:87-91 | only the clicked card turns face up |
| MemoryPatchGame.MarkMatched | src/components/MemoryPatchGame.tsx:57-63 | exactly the two cards become matched |
| MemoryPatchGame.UnflipUnmatched | src/components/MemoryPatchGame.tsx:69-73 | every unmatched card goes face down; matched ones stay |
| MemoryPatchGame.UpdatesKeepMatches | src/components/MemoryPatchGame.tsx:57-91 | no card update unmatches a card or changes an emoji |
| MemoryPatchGame.MarkMatchedKeepsMatchedPair | src/components/MemoryPatchGame.tsx:57-63 | marking an already matched pair again leaves the cards as they are |
| MemoryPatchGame.Restart | src/components/MemoryPatchGame.tsx:22-37 | a new game: sixteen face-down, unmatched cards dealt in the shuffled order, nothing face up, no moves, not complete, no reset waiting; the state is valid |
| MemoryPatchGame.Click | src/components/MemoryPatchGame.tsx:80-100 | a face-up or matched card, or any card while two are up, is ignored; otherwise only that card flips, joins the face-up list, and the second card counts a move; validity is kept |
| MemoryPatchGame.MatchEffect | src/components/MemoryPatchGame.tsx:50-78 | the match check as written: with two cards up, a mismatch leaves a reset waiting; a match marks exactly the two cards and leaves no reset that will fire, because the re-run clean-up clears it; validity is kept |
| MemoryPatchGame.MatchEffectRerunsOnMatch | src/components/MemoryPatchGame.tsx:50-78 | after a match the check's condition still holds and running it again gives the same state, so it re-runs on every render |
| MemoryPatchGame.MatchEffectOnce | src/components/MemoryPatchGame.tsx:50-74 | the intended check, running once per turn: with two cards up a reset is left waiting in both cases, and equal emoji mark exactly the two cards |
| MemoryPatchGame.ResetTimer | src/components/MemoryPatchGame.tsx:67-74 | the fired reset empties the face-up list and turns every unmatched card face down; matches, moves and completion stay |
| MemoryPatchGame.CompleteEffect | src/components/MemoryPatchGame.tsx:43-48 | the completion check sets the flag exactly on a non-empty, fully matched board and never clears it; nothing else changes |
| MemoryPatchGame.CompleteIffAllMatched | src/components/MemoryPatchGame.tsx:43-48 | after the completion check, complete iff the board is non-empty and every card matched |
| MemoryPatchGame.Step | src/components/MemoryPatchGame.tsx:43-100 | any click, effect run or timer firing keeps every state invariant |
| MemoryPatchGame.Run | src/components/MemoryPatchGame.tsx:43-100 | so does any sequence of them |
| MemoryPatchGame.FrozenIgnoresEvent | src/components/MemoryPatchGame.tsx:50-100 | with a matched pair face up and no reset waiting, no click, effect run or timer changes the state |
| MemoryPatchGame.FrozenRun | src/components/MemoryPatchGame.tsx:50-100 | no sequence of events changes such a state |
| MemoryPatchGame.FirstMatchIsFrozen | src/components/MemoryPatchGame.tsx:50-100 | on a board with every card face down and unmatched, a matching turn leaves the pair face up and matched, no reset waiting, fourteen cards unmatched and the game not complete |
| MemoryPatchGame.FirstMatchFreezesGame | src/components/MemoryPatchGame.tsx:22-100 | on any freshly dealt board, turning up two cards of the same emoji freezes the game: the pair stays face up and matched, nothing that follows changes the state, and the game is never complete |
| MemoryPatchGame.UnshuffledBoardFreezesAfterFirstPair | src/components/MemoryPatchGame.tsx:14-100 | concretely: cards 0 and 8 of the unshuffled deal freeze the game |
| MemoryPatchGame.MatchOnceLetsPlayContinue | src/components/MemoryPatchGame.tsx:50-100 | with the intended check, a matching turn ends with both cards matched, the face-up list empty, one more move, the other cards reset, and every unmatched card clickable again |
| MemoryPatchGame.MemoryPatch.constructor | src/components/MemoryPatchGame.tsx:17-20 | empty board, no face-up cards, no moves, not complete, no reset waiting |
| MemoryPatchGame.MemoryPatch.SetState | src/components/MemoryPatchGame.tsx:17-20 | the fields become the given state |
| MemoryPatchGame.MemoryPatch.InitializeGame | src/components/MemoryPatchGame.tsx:22-37 | the state becomes the new game, with sixteen cards and each emoji twice |
| MemoryPatchGame.MemoryPatch.HandleCardClick | src/components/MemoryPatchGame.tsx:80-100 | the state becomes `Click` of the old state |
| MemoryPatchGame.MemoryPatch.CheckMatch | src/components/MemoryPatchGame.tsx:50-78 | the state becomes the as-written `MatchEffect` of the old state |
| MemoryPatchGame.MemoryPatch.CheckMatchOnce | src/components/MemoryPatchGame.tsx:50-74 | the state becomes the intended `MatchEffectOnce` of the old state |
| MemoryPatchGame.MemoryPatch.ResetFlipped | src/components/MemoryPatchGame.tsx:67-74 | only with a reset waiting: the state becomes `ResetTimer` of the old state |
| MemoryPatchGame.MemoryPatch.CheckComplete | src/components/MemoryPatchGame.tsx:43-48 | the state becomes `CompleteEffect` of the old state |
| QuizCard.Card.constructor | src/components/QuizCard.tsx:28-29 | nothing selected, not submitted |
| QuizCard.Card.SelectOption | src/components/QuizCard.tsx:31-35 | before submission the option becomes selected; after it nothing changes |
| QuizCard.Card.Submit | src/components/QuizCard.tsx:37-39 | the card is submitted, the selection kept |
| QuizCard.Card.Reset | src/components/QuizCard.tsx:41-44 | nothing selected, not submitted |
| QuizCard.Card.IsCorrect | src/components/QuizCard.tsx:46 | correct iff the selected option is the correct one; no selection is never correct |
| QuizCard.Card.Footer | src/components/QuizCard.tsx:99-115 | "Try Another" iff submitted; otherwise Submit, enabled iff a non-empty option is selected |
| QuizCard.Card.Verdict | src/components/QuizCard.tsx:86-96 | a verdict only after submission: "Correct!" iff correct, "Not quite." otherwise |
| QuizCard.Card.MarkOf | src/components/QuizCard.tsx:64-80 | no marks before submission; after it exactly the correct option is ticked and exactly a wrongly selected option is crossed |
| MoodTracker.Greeting | src/components/MoodTracker.tsx:50-55 | morning before 12, afternoon from 12 to 17, evening from 18 (the same rule as `src/pages/Index.tsx` lines 15-20) |
| MoodTracker.GreetingMonotone | src/components/MoodTracker.tsx:50-55 | the greeting never goes back to an earlier part of the day as the hour grows |
| MoodTracker.ThanksLine | src/components/MoodTracker.tsx:84-91 | a thank-you line shows iff the selected mood is one of the six |
| MoodTracker.CheckIn.constructor | src/components/MoodTracker.tsx:16-17 | nothing selected, not submitted |
| MoodTracker.CheckIn.SelectMood | src/components/MoodTracker.tsx:29-31 | offered only before submission (lines 65-81): the mood becomes selected, the check-in stays open |
| MoodTracker.CheckIn.Submit | src/components/MoodTracker.tsx:33-48 | with no (or an empty) mood nothing changes; otherwise the check-in is submitted |
| MoodTracker.CheckIn.Title | src/components/MoodTracker.tsx:61 | the thank-you title after submission, the greeting question before |
| AdviceData.MoodMatches | src/utils/adviceData.ts:66 | the items whose `moodRelated` lists the mood, and only those |
| AdviceData.MoodMatchesIsSubsequence | src/utils/adviceData.ts:66 | the filter keeps catalogue order |
| AdviceData.ForMood | src/utils/adviceData.ts:65-66 | the catalogue items related to the mood, and only those |
| AdviceData.GetAdviceForMood | src/utils/adviceData.ts:62-68 | no mood gives the first three items; a mood gives the first (at most) three related items in catalogue order |
| AdviceData.AdviceForMoodOrder | src/utils/adviceData.ts:62-68 | the result is in catalogue order, and holds every related item when at most three relate |
| AdviceData.TiredAdvice | src/utils/adviceData.ts:11-68 | "tired" gives advice-3 and advice-5 |
| AdviceData.CatalogueIdsDistinct | src/utils/adviceData.ts:11-60 | the six catalogue ids are distinct |
| AdviceData.GetRandomAdvice | src/utils/adviceData.ts:70-73 | `count` distinct catalogue items (all six when more are asked for) |
| AdviceData.DefaultRandomAdviceIsThree | src/utils/adviceData.ts:70-73 | with the default count of 3, three distinct catalogue items for any shuffle |
| QuizData.CorrectOptionIsAnOption | src/utils/quizData.ts:15-94 | every question's correct option id is one of its options |
| Lists.KeepKeyMembers | src/utils/quizData.ts:100 | `filter(x => key(x) === k)` keeps exactly the elements with that key, in their order (also the article filter at ArticlesSection.tsx:92) |
| QuizData.Candidates | src/utils/quizData.ts:97-101 | no (or an empty) category gives all questions, a category only its questions |
| QuizData.PickIndex | src/utils/quizData.ts:103 | the random index is within the candidates |
| QuizData.PickIndexExact | src/utils/quizData.ts:103 | each index is produced by some random draw |
| QuizData.GetRandomQuiz | src/utils/quizData.ts:96-105 | a question exactly when the category has one, taken from that category; with no category always a question |
| QuizData.EveryCandidateReachable | src/utils/quizData.ts:96-105 | every candidate can be the result |
| QuizData.ConfidenceHasTwoQuestions | src/utils/quizData.ts:15-41 | "confidence" has questions q1 and q2 |
| QuizData.MindsetHasTwoQuestions | src/utils/quizData.ts:42-80 | "mindset" has questions q3 and q5 |
| ArticlesSection.Filtered | src/components/ArticlesSection.tsx:91-93 | no (or an empty) filter gives all articles, a filter exactly its category, always in catalogue order |
| ArticlesSection.Displayed | src/components/ArticlesSection.tsx:95 | the first `limit` filtered articles, with `slice`'s meaning of a negative limit |
| ArticlesSection.ViewAllIffSomeHidden | src/components/ArticlesSection.tsx:196 | "View All" shows iff some filtered article is not displayed |
| ArticlesSection.DefaultShowsEverything | src/components/ArticlesSection.tsx:88-95 | with no filter and the default limit of 6, all articles show and "View All" is hidden |
| ArticlesSection.AnxietyArticles | src/components/ArticlesSection.tsx:20-93 | the "anxiety" filter gives articles 1, 2 and 6 |
| ChatStickers.RemoveAfterSendRestores | src/components/ChatStickers.tsx:50-58 | removing a freshly sent sticker with a new id restores the list |
| ChatStickers.RemoveProperties | src/components/ChatStickers.tsx:60-62 | removal keeps the others in order and drops exactly those with the id |
| ChatStickers.StickerTray.constructor | src/components/ChatStickers.tsx:48 | no stickers, no timers |
| ChatStickers.StickerTray.SendSticker | src/components/ChatStickers.tsx:50-58 | the sticker is appended with the clock's id and its removal timer is scheduled |
| ChatStickers.StickerTray.AutoRemove | src/components/ChatStickers.tsx:55-57 | the fired timer removes the stickers with its id and leaves the schedule |
| ChatStickers.StickerTray.RemoveSticker | src/components/ChatStickers.tsx:60-62 | the stickers with that id are removed; timers stay |

## Left out

- I/O: toasts, rendering details (classes, icons, images), scrolling, navigation, the `localStorage` writes of the pet, and the real timer delays. Timers fire in whatever order the caller chooses.
- The long prose of the data files is not modelled: the descriptions and `content` of advice items, the question texts, option texts and explanations of the quiz, and the descriptions, sources, URLs and image URLs of articles. Ids, titles, tags, mood lists, categories, option ids, correct ids and read times are modelled, and every lookup rule depends only on those.
- The chat's display text is a `ChatCopy` value handed to the session. `OmexaCopy` records the app's own text. The rule and session proofs hold for any copy, and the lemmas on the app's copy are about its lists.
- Pet glyphs are modelled as the four life stages.
- `VirtualPet.Pet.Mount`: the decay effect computes `hours` from the default stats' timestamp, because it sees the first render's state. The model takes `hours` as a parameter and does not reproduce that timestamp choice.
- JavaScript arrays with holes are not modelled. The confidence exercise only ever stores an answer at an index at most the current length (`StoreAt` requires this), so no hole arises from its handlers.
- `ChatStickers.StickerTray.SendSticker`: `handleSendSticker` appends to the `sentStickers` of its render, not to the latest state. The model appends to the current list, which differs only if two sends happen in one render.
- `ChatStickers.StickerTray.RemoveSticker`: `StickerMessage` renders `<X size={14} />` (ChatStickers.tsx:41), but `X` is not imported (line 5). As written, the first `handleSendSticker` makes the next render throw a `ReferenceError`. No sent sticker is ever displayed, and the close button that calls `removeSticker` (line 40) is never rendered, so `RemoveSticker` cannot be reached. `StickerTray` models the component as if the icon were imported; its handlers follow lines 50-62. No page under `src/pages` mounts `ChatStickers`.
- `SimpleGame.Restart`: timers from an earlier game are not cancelled by a restart and may still fire on the new game. The model keeps them pending rather than dropping them.
- `Text.Lower` lower-cases ASCII letters only; JavaScript's full Unicode case mapping is not modelled.
- The JavaScript number type is modelled by unbounded integers; no value in this core gets near 2^53.
- `MemoryPatchGame.MatchEffect`: the endless re-running of the match check after a match is modelled by the state it keeps returning to, a fixed point that `MatchEffectRerunsOnMatch` proves. The render loop itself, and React's handling of it, are not modelled.

## Findings

| source | as written | input that shows it | evidently intended | confidence | as-written member | corrected member |
|---|---|---|---|---|---|---|
| src/components/MemoryPatchGame.tsx:50-78 | on a match the check stores a new `cards` array, and it depends on `cards`, so it runs again at every render; each run's clean-up clears the 1000 ms reset timer before it fires, the pair stays in `flippedCards`, every later click is refused, and the game can never be completed | any freshly dealt board; turn up two cards with the same emoji, for example cards 0 and 8 of the unshuffled deal | the check runs once per turn, so its reset fires after a match as after a mismatch and play goes on | not executed | MemoryPatchGame.FirstMatchFreezesGame | MemoryPatchGame.MatchOnceLetsPlayContinue |
| src/components/SimpleGame.tsx:43-96 | the click guard and `isCardMatched` look only at the current selection, so once a match timer clears the selection the pair is forgotten; the same two cells can be clicked and counted again, and the pair count reaches six with ten cells never turned up | a fresh board whose cells 0 and 1 share a colour; match cells 0 and 1 six times, letting each timer fire | a counted pair stays matched and clicks on it are refused, as the comment on the guard says, so the game completes only with every cell matched | not executed | SimpleGame.SamePairSixTimesCompletes | SimpleGame.KeptCompleteMeansEveryCellMatched |
