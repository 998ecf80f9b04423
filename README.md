# Sign-language assistant: verified model of the page logic

This project models the logic of an Indian Sign Language (ISL) assistant web application in Dafny and proves properties of that model:

- **Gesture recognition** (`gesture_recognition.dfy`, module `GestureRecognition`). The component has six geometric sign detectors over the 21 landmarks of one tracked hand: hello, thank you, yes, no, please and sorry. `detectGesture` tries them in the insertion order of `gesturePatterns` and returns the first that holds. The per-frame `onResults` callback reports the sign of every hand in a frame. There is no smoothing: each frame reports its classified hands again.
- **Learning lab** (`learn.dfy`, module `Learn`). This covers the 30 flashcards in seven categories, the category filter and the count badges, and the completed count. It also covers the practice and quiz session, as a class whose methods are the page's handlers.
- **Translator** (`translate.dfy`, module `Translate`). The simulated phrase table is looked up by the lower-cased, trimmed input, with a `[Translated: …]` fallback. The model includes the guards of the translate and save actions and the speech language chosen from the direction.
- **Settings** (`settings.dfy`, module `Settings`). The preference record has a spread merge for partial updates. Fetched rows are normalised with `||` for the strings and `??` for the booleans. The page class covers fetch, update, the theme-provider sync effect and the two change handlers.
- **Emergency (SOS) page** (`sos.dfy`, module `Sos`). The model covers the trigger and cancel transitions of `loading`, `countdown` and `isEmergency`, the countdown tick, the choice of the pending alert to cancel, and when the SOS button is enabled.
- **Shared modules.** `Text` models the JavaScript string operations the pages use: `toLowerCase`, `trim` and `includes`. `Wrappers` provides `Option`.

Every remote call (the database insert, update and select) becomes a boolean or outcome parameter. Each timer firing is a sequential method call (`Tick`, `ResponseDelayElapsed`).

`onResults` calls `onGestureDetected` for every classified hand on every frame, with no filtering across frames. `OpenPalmReportedEveryFrame` proves that an open palm held for `n` frames is reported `n` times.

## Model

| member | source | states |
|---|---|---|
| `GestureRecognition.NameInjective` | components/GestureRecognition.tsx:33-40 | The six gesture names reported to the caller are pairwise distinct. |
| `GestureRecognition.DetectHelloGesture` | components/GestureRecognition.tsx:162-181 | At least four of the five tips are above their joints (thumb 4 over 3, the others over the joint two below). `HelloAtMostOneDown`, `HelloImpliesPlease` and `ReachHello` state what it accepts. |
| `GestureRecognition.DetectThankYouGesture` | components/GestureRecognition.tsx:183-191 | Index, middle and thumb tips all above their joints. `ThankYouShape` and `ThreeUpIsThankYou` state what it accepts. |
| `GestureRecognition.DetectYesGesture` | components/GestureRecognition.tsx:193-209 | At least three of the four finger tips below their joints. `FistIsYes` and `NoImpliesYes` state what it accepts. |
| `GestureRecognition.DetectNoGesture` | components/GestureRecognition.tsx:211-225 | Index tip up while the middle, ring and pinky tips are down. `NoImpliesYes` and `NoNeverClassified` show that it is always preceded by "yes". |
| `GestureRecognition.DetectPleaseGesture` | components/GestureRecognition.tsx:227-233 | At least three of the four finger tips above the landmark two before them. `PleaseUnrolled`, `PleaseExcludesYes` and `ThreeFingersArePlease` state what it accepts. |
| `GestureRecognition.DetectSorryGesture` | components/GestureRecognition.tsx:235-242 | The wrist alone in a central band. `SorryBand` and `SorryOnlyWrist` state it. |
| `GestureRecognition.Detect` | components/GestureRecognition.tsx:33-40 | The detector each `gesturePatterns` key maps to. `HandednessIgnored` and `DetectReadsPrefix` state what every detector ignores. |
| `GestureRecognition.Rank` | components/GestureRecognition.tsx:33-40 | Each gesture has a position in the detector order, and the order holds the gesture at that position. |
| `GestureRecognition.CountTrue` | components/GestureRecognition.tsx:180 | The number of true flags is at most the number of flags. |
| `GestureRecognition.CountTrue5` | components/GestureRecognition.tsx:172-180 | Counting five flags adds up one for each flag that holds. |
| `GestureRecognition.FirstMatchSkip` | components/GestureRecognition.tsx:133-137 | A pattern whose detector fails is passed over: the first match from it on is the first match from the next one on. |
| `GestureRecognition.FirstMatch` | components/GestureRecognition.tsx:132-139 | The result is None exactly when no detector in the list holds. Otherwise it is a detector that holds, and every earlier one fails. |
| `GestureRecognition.DetectGesture` | components/GestureRecognition.tsx:132-139 | The loop with early return yields the first matching gesture in pattern order. It yields null (None) exactly when no detector holds. |
| `GestureRecognition.Classify` | components/GestureRecognition.tsx:132-139 | `detectGesture` as the first match over the detector order. `DetectGesture`, `ClassifyFirstMatch` and `ClassifyNone` characterise it. |
| `GestureRecognition.ClassifyFirstMatch` | components/GestureRecognition.tsx:132-139 | A hand is classified as g if and only if g's detector holds and every detector earlier in the order fails. |
| `GestureRecognition.ClassifyNone` | components/GestureRecognition.tsx:132-139 | No gesture is reported if and only if all six detectors fail. |
| `GestureRecognition.NoImpliesYes` | components/GestureRecognition.tsx:193-225 | Every hand the "no" detector accepts is also accepted by the "yes" detector. |
| `GestureRecognition.NoNeverClassified` | components/GestureRecognition.tsx:33-40 | Because "yes" is tried before "no", "no" is never the classification of any hand. |
| `GestureRecognition.HelloAtMostOneDown` | components/GestureRecognition.tsx:162-181 | Hello accepts a hand only when at most one of the five fingertips is not above its joint. |
| `GestureRecognition.PleaseUnrolled` | components/GestureRecognition.tsx:227-233 | The please detector compares tip 8 with 6, 12 with 10, 16 with 14 and 20 with 18, and needs at least three of them up. |
| `GestureRecognition.PleaseExcludesYes` | components/GestureRecognition.tsx:193-233 | No hand satisfies both please (three tips up) and yes (three tips down) over the same four fingers. |
| `GestureRecognition.HelloImpliesPlease` | components/GestureRecognition.tsx:162-233 | Every hand hello accepts is also accepted by please. |
| `GestureRecognition.ThankYouShape` | components/GestureRecognition.tsx:183-191 | A hand classified "thank_you" has thumb, index and middle up, and ring and pinky not up; otherwise hello would have matched first. |
| `GestureRecognition.PleaseShape` | components/GestureRecognition.tsx:227-233 | A hand classified "please" has at least three of the four finger tips up and the thumb not up. |
| `GestureRecognition.SorryBand` | components/GestureRecognition.tsx:235-242 | Sorry holds exactly when the wrist lies strictly inside 0.3 < x < 0.7 and 0.4 < y < 0.8. |
| `GestureRecognition.SorryOnlyWrist` | components/GestureRecognition.tsx:235-242 | Sorry depends on the wrist landmark alone. |
| `GestureRecognition.HandednessIgnored` | components/GestureRecognition.tsx:162-242 | The classification does not depend on the handedness label passed in. |
| `GestureRecognition.DetectReadsPrefix` | components/GestureRecognition.tsx:162-242 | No detector reads a landmark beyond index 20. |
| `GestureRecognition.OnlyFirstLandmarksRead` | components/GestureRecognition.tsx:162-242 | Only landmarks 0..20 are read: truncating a longer list to 21 does not change the classification. |
| `GestureRecognition.ReachHello` | components/GestureRecognition.tsx:162-181 | Some hand (an open palm) is classified "hello". |
| `GestureRecognition.ThreeUpIsThankYou` | components/GestureRecognition.tsx:162-191 | Any hand with thumb, index and middle up and ring and pinky not up is classified "thank_you". |
| `GestureRecognition.ReachThankYou` | components/GestureRecognition.tsx:183-191 | Some hand is classified "thank_you". |
| `GestureRecognition.FistIsYes` | components/GestureRecognition.tsx:162-209 | Any hand with no tip above its joint and index..pinky tips below theirs is classified "yes". |
| `GestureRecognition.ReachYes` | components/GestureRecognition.tsx:193-209 | Some hand (a fist) is classified "yes". |
| `GestureRecognition.ThreeFingersArePlease` | components/GestureRecognition.tsx:162-233 | Any hand with index, middle and ring up and thumb and pinky not up is classified "please". |
| `GestureRecognition.ReachPlease` | components/GestureRecognition.tsx:227-233 | Some hand is classified "please". |
| `GestureRecognition.ReachSorry` | components/GestureRecognition.tsx:235-242 | Some hand is classified "sorry". |
| `GestureRecognition.ReachNone` | components/GestureRecognition.tsx:132-139 | Some hand is classified as nothing. |
| `GestureRecognition.Label` | components/GestureRecognition.tsx:119-121 | A classification yields at most one label, and the label is "no" only when the classification is No. |
| `GestureRecognition.Labels` | components/GestureRecognition.tsx:103-128 | A run of classifications yields at most one label each. |
| `GestureRecognition.LabelsAppend` | components/GestureRecognition.tsx:103-128 | The labels of two runs of classifications, one after the other, are the labels of each run concatenated. |
| `GestureRecognition.LabelsSnoc` | components/GestureRecognition.tsx:103-128 | Extending a run by one classification appends that classification's label. |
| `GestureRecognition.LabelsWithoutNo` | components/GestureRecognition.tsx:119-121 | A run that never classifies "no" never reports "no". |
| `GestureRecognition.Classifications` | components/GestureRecognition.tsx:103-119 | The i-th hand classified with the i-th handedness label. `HandEmissions`, `HandEmissionsPrefix` and `ReportHands` state what is reported from it. |
| `GestureRecognition.HandEmissions` | components/GestureRecognition.tsx:103-128 | The labels reported for a list of hands number at most one per hand and never include "no". |
| `GestureRecognition.HandEmissionsAppend` | components/GestureRecognition.tsx:103-128 | Each hand is reported independently, in hand order: the emissions of two hand lists are the emissions of their concatenation. |
| `GestureRecognition.HandEmissionsPrefix` | components/GestureRecognition.tsx:103-106 | Only the first as many handedness entries as there are hands are read. |
| `GestureRecognition.HandEmissionsSingle` | components/GestureRecognition.tsx:103-128 | A single hand reports exactly the label of its classification. |
| `GestureRecognition.ReportHands` | components/GestureRecognition.tsx:103-128 | The for-loop over the hands reports exactly the emission sequence of the hand list. |
| `GestureRecognition.ReportHand` | components/GestureRecognition.tsx:118-121 | One iteration calls back with the hand's gesture name when it is classified, and not at all otherwise. |
| `GestureRecognition.FrameEmissions` | components/GestureRecognition.tsx:89-128 | The labels one `onResults` call reports. `OnResults` and `HandEmissionsSingle` state them. |
| `GestureRecognition.OnResults` | components/GestureRecognition.tsx:89-130 | One frame reports nothing when the canvas, context or video is missing, or when either result list is absent. Otherwise it reports the per-hand emissions, and "no" is never among them. |
| `GestureRecognition.Repeat` | components/GestureRecognition.tsx:89-130 | n copies of a frame: length n, every element that frame. |
| `GestureRecognition.RepeatSeq` | components/GestureRecognition.tsx:89-130 | n copies of a label sequence, one after the other, have n times its length. |
| `GestureRecognition.SessionEmissions` | components/GestureRecognition.tsx:64-73 | Every frame the camera sends is handled by `onResults` on its own. `SessionRepeats` and `OpenPalmReportedEveryFrame` state what a run of frames reports. |
| `GestureRecognition.SessionRepeats` | components/GestureRecognition.tsx:89-130 | The same frame delivered n times reports the frame's own labels n times over, one copy per frame: nothing is suppressed or merged across frames. |
| `GestureRecognition.RepeatSingle` | components/GestureRecognition.tsx:89-130 | n copies of a one-label sequence are that label n times. |
| `GestureRecognition.OpenPalmReportedEveryFrame` | components/GestureRecognition.tsx:89-130 | An open palm held for n frames is reported as "hello" exactly n times. |
| `Text.ToLower` | app/translate/page.tsx:135 | Lower-casing keeps the length, leaves no upper-case ASCII letter, and maps each of A..Z to its lower-case letter. It changes no other character. |
| `Text.ToLowerIdempotent` | app/learn/page.tsx:420 | Lower-casing twice is lower-casing once. |
| `Text.ToLowerAppend` | app/translate/page.tsx:135 | Lower-casing distributes over concatenation. |
| `Text.ToLowerKeepsWhitespace` | app/translate/page.tsx:135 | Lower-casing leaves whitespace unchanged. |
| `Text.TrimStart` | app/translate/page.tsx:135 | The result is the suffix left after removing leading whitespace. The removed part is all whitespace, and the result does not start with whitespace. |
| `Text.TrimEnd` | app/translate/page.tsx:135 | The result is the prefix left after removing trailing whitespace. The removed part is all whitespace, and the result does not end with whitespace. |
| `Text.Trim` | app/translate/page.tsx:135 | The trimmed string has no whitespace at either end. |
| `Text.TrimStartSkips` | app/translate/page.tsx:135 | A whitespace prefix does not change what trimming the start gives. |
| `Text.TrimEndSkips` | app/translate/page.tsx:135 | A whitespace suffix does not change what trimming the end gives. |
| `Text.TrimPadded` | app/translate/page.tsx:135 | Trimming a string padded with whitespace on both sides gives back the unpadded string. |
| `Text.TrimEmptyIffAllWhitespace` | app/translate/page.tsx:140 | A string trims to "" exactly when it is all whitespace. |
| `Text.IncludesWindow` | app/translate/page.tsx:190 | `includes` finds any window of the string that equals the searched text. |
| `Text.IncludesSuffix` | app/translate/page.tsx:190 | A string ending in t includes t. |
| `Text.IncludesPrefix` | app/translate/page.tsx:190 | A string starting with t includes t. |
| `Text.MissingChar` | app/translate/page.tsx:190 | A string lacking some character of t does not include t. |
| `Learn.FilterByCategory` | app/learn/page.tsx:367-369 | The filter keeps a subsequence of the cards in order. Every kept card has the category, and every card of that category is kept. |
| `Learn.FilterCounts` | app/learn/page.tsx:367-369 | The filter keeps each card of the category exactly as often as the input holds it, and no card of another category. |
| `Learn.FilterAppend` | app/learn/page.tsx:367-369 | Filtering distributes over concatenation. |
| `Learn.FilterUniform` | app/learn/page.tsx:367-369 | A block whose cards all share one category is kept whole by that category's filter and dropped whole by any other. |
| `Learn.BlockShare` | app/learn/page.tsx:367-369 | A one-category block of n cards contributes n cards to its own category's filter and none to any other. |
| `Learn.BlocksUniform` | app/learn/page.tsx:40-354 | Each of the seven blocks of the card list holds cards of a single category. |
| `Learn.FilterBlocks` | app/learn/page.tsx:367-369 | Filtering seven blocks laid end to end keeps, in total, the matches of each block. |
| `Learn.BlockShares` | app/learn/page.tsx:40-354 | Each category block keeps all its cards under its own category and none under any other. |
| `Learn.FilterSizes` | app/learn/page.tsx:40-354 | Greetings has 6 cards, needs 5, emergency 4, people 4, emotions 4, numbers 4 and colors 3; any other category has none. |
| `Learn.FilteredCards` | app/learn/page.tsx:367-369 | "all" shows every card. Any other id shows exactly that category's cards, in list order. |
| `Learn.FilteredCardsCounts` | app/learn/page.tsx:367-369 | A selected category shows each of its cards as often as the card list holds it, and nothing else. |
| `Learn.Categories` | app/learn/page.tsx:356-365 | The category tabs with their badges. `CategoryIdsAreTabs`, `CategoryCountsMatchFilters` and `CategoryCounts` state their ids and counts. |
| `Learn.CategoryIdsAreTabs` | app/learn/page.tsx:356-365 | The category buttons are, in order, all, greetings, needs, emergency, people, emotions, numbers and colors. |
| `Learn.CategoryCountsMatchFilters` | app/learn/page.tsx:356-369 | Each button's badge count is the number of cards that selecting it shows; "all" counts the whole list. |
| `Learn.CategoryCounts` | app/learn/page.tsx:356-365 | The badges read 30, 6, 5, 4, 4, 4, 4 and 3, and the seven category counts add up to the total. |
| `Learn.EveryCategoryNonEmpty` | app/learn/page.tsx:356-369 | Every selectable category shows at least one card. |
| `Learn.CompletedCount` | app/learn/page.tsx:371 | The completed count is at most the number of cards. |
| `Learn.UncompletedCount` | app/learn/page.tsx:471 | The cards not completed. `RemainingIsUncompleted` proves the "Remaining" figure counts them. |
| `Learn.RemainingIsUncompleted` | app/learn/page.tsx:471 | The "Remaining" figure (total minus completed) is the number of cards not completed. |
| `Learn.CompletedAppend` | app/learn/page.tsx:371 | The completed count of a concatenation is the sum of the counts. |
| `Learn.NoneCompleted` | app/learn/page.tsx:371 | A list with no completed card has completed count 0. |
| `Learn.CompletedOfBlocks` | app/learn/page.tsx:371 | The completed count of seven blocks laid end to end is the sum of the block counts. |
| `Learn.GreetingsCompleted` | app/learn/page.tsx:42-101 | Exactly two greeting cards are completed. |
| `Learn.OtherBlocksNotCompleted` | app/learn/page.tsx:103-354 | No card outside the greetings is completed. |
| `Learn.CompletedCards` | app/learn/page.tsx:371 | Two cards are completed (Hello and Thank You), so 28 remain. |
| `Learn.AnswerIgnoresCase` | app/learn/page.tsx:418-424 | The answer check ignores the letter case of either side, and the card's own word is always correct. |
| `Learn.LearnPage.constructor` | app/learn/page.tsx:30-37 | The page starts on "all", with no session, index 0, score 0, no answer shown or selected and no completed quiz. |
| `Learn.LearnPage.SelectCategory` | app/learn/page.tsx:545-547 | Outside a session, a button selects its category and changes nothing else. |
| `Learn.LearnPage.StartPractice` | app/learn/page.tsx:383-388 | Practice mode starts at card 0 with the answer hidden and score 0, and the index points at a card. |
| `Learn.LearnPage.StartQuiz` | app/learn/page.tsx:390-396 | Quiz mode starts at card 0 with no answer, score 0 and no completed quiz, and the index points at a card. |
| `Learn.LearnPage.NextCard` | app/learn/page.tsx:398-408 | Before the last card, the index advances, the answer is hidden and the selection is cleared. On the last card, both modes end and the quiz is marked completed. |
| `Learn.LearnPage.PreviousCard` | app/learn/page.tsx:410-416 | Above index 0, the index steps back and the answer and selection are cleared. At 0 nothing changes. |
| `Learn.LearnPage.ToggleAnswer` | app/learn/page.tsx:629 | The answer visibility flips. |
| `Learn.LearnPage.CheckAnswer` | app/learn/page.tsx:418-424 | The answer is recorded, and the score rises by one exactly when it matches the current card's word ignoring case. |
| `Learn.LearnPage.ResetLearning` | app/learn/page.tsx:426-434 | Every session field returns to its initial value, and the category is kept. |
| `Learn.RunActions` | app/learn/page.tsx:383-434 | Under any sequence of enabled actions, the card index stays within the filtered cards whenever a session is on. |
| `Translate.DirectionNameInjective` | app/translate/page.tsx:23 | The four direction strings are distinct. |
| `Translate.TableKeys` | app/translate/page.tsx:114-133 | The table knows exactly "hello", "thank you" and "how are you", each already lower-case and trimmed. |
| `Translate.TableEntries` | app/translate/page.tsx:114-133 | All 3 × 4 entries are non-empty and start with a non-space character, so the fallback never fires for a known key. |
| `Translate.GestureTextVisible` | app/translate/page.tsx:114-133 | A bracketed gesture description starts with "[", so it is visible. |
| `Translate.PhraseGestures` | app/translate/page.tsx:114-133 | Both ISL outputs of every phrase are visible. |
| `Translate.PhraseWords` | app/translate/page.tsx:114-133 | The English and Hindi outputs of every phrase are visible. |
| `Translate.LookupKey` | app/translate/page.tsx:135 | The lookup key has no outer whitespace and is no longer than the input. |
| `Translate.SimulateTranslation` | app/translate/page.tsx:113-137 | The table lookup by the lower-cased, trimmed key, with the fallback. `SimulateTranslationCases`, `SimulateTranslationVisible` and `KnownPhraseAnyCase` characterise it. |
| `Translate.Fallback` | app/translate/page.tsx:136 | The `[Translated: …]` template. `FallbackShape` and `FallbackKeepsInput` state its shape. |
| `Translate.SimulateTranslationCases` | app/translate/page.tsx:113-137 | A known key yields its table entry for the direction, since no entry is empty. An unknown key yields the fallback of the original text. The result is never empty. |
| `Translate.SimulateTranslationVisible` | app/translate/page.tsx:113-137 | Every translation, known or fallback, is non-empty and starts with a non-whitespace character. |
| `Translate.KnownPhraseAnyCase` | app/translate/page.tsx:135-136 | A known phrase in any letter case, padded with any whitespace, gets the table entry. |
| `Translate.PaddedKey` | app/translate/page.tsx:135 | The key of a padded phrase is the phrase lower-cased. |
| `Translate.UnknownPaddedPhrase` | app/translate/page.tsx:136 | An unknown padded phrase falls back with its padding and case intact. |
| `Translate.FallbackShape` | app/translate/page.tsx:136 | The fallback text is "[Translated: ", then the given text verbatim, then "]". |
| `Translate.FallbackKeepsInput` | app/translate/page.tsx:135-136 | For an unknown key, the translation is "[Translated: ", then the original untrimmed, un-lowered input, then "]". |
| `Translate.SpeechLang` | app/translate/page.tsx:190 | The speech language from the direction. `SpeechLangHindi` states when it is "hi-IN". |
| `Translate.SpeechLangHindi` | app/translate/page.tsx:190-202 | The speech language is "hi-IN" if and only if the direction contains "hindi"; the other two directions get "en-US". |
| `Translate.TranslatePage.constructor` | app/translate/page.tsx:27-32 | Input and output start empty, the direction is isl_to_english, and nothing is loading. |
| `Translate.TranslatePage.SetInput` | app/translate/page.tsx:210 | A typed or spoken input replaces the input text. |
| `Translate.TranslatePage.SetDirection` | app/translate/page.tsx:250 | Choosing a direction sets it. |
| `Translate.TranslatePage.HandleTranslate` | app/translate/page.tsx:139-160 | Blank input (after trim) leaves the output and the loading flag unchanged. Otherwise the output becomes the translation and loading ends false. |
| `Translate.TranslatePage.CanSave` | app/translate/page.tsx:163 | The save guard: trimmed input and output non-empty and a user. `SaveTranslation` and `TranslatedOutputSavable` use it. |
| `Translate.TranslatePage.SaveTranslation` | app/translate/page.tsx:162-185 | Nothing is saved when the input or output is blank or there is no user. Otherwise the outcome is saved or failed, as the insert answers. |
| `Translate.TranslatedOutputSavable` | app/translate/page.tsx:139-166 | The output of any translation is non-blank, so a translated input always passes the save guard's output test. |
| `Translate.VisibleTrim` | app/translate/page.tsx:163 | A string whose first character is not whitespace does not trim to "". |
| `Settings.Merge` | app/settings/page.tsx:86 | Each field present in the update wins, and every other field keeps its old value. |
| `Settings.MergeNoChange` | app/settings/page.tsx:86 | An empty update changes nothing. |
| `Settings.MergeIdempotent` | app/settings/page.tsx:86 | Applying the same update twice equals applying it once. |
| `Settings.Then` | app/settings/page.tsx:86 | Two partial updates combined, the second winning per field. `MergeThen` proves it matches two successive spreads. |
| `Settings.MergeThen` | app/settings/page.tsx:86 | Two successive merges equal one merge of the combined update. |
| `Settings.MergeSingleField` | app/settings/page.tsx:108-115 | A one-field update (theme, language, notifications or auto-save) changes that field alone. |
| `Settings.OrDefault` | app/settings/page.tsx:71-72 | `||` on a string read from the row. `OrDefaultTruthiness` and `OrDefaultNonEmpty` state its semantics. |
| `Settings.Coalesce` | app/settings/page.tsx:73-74 | `??` on a boolean read from the row. `CoalesceKeepsFalse` states its semantics. |
| `Settings.OrDefaultTruthiness` | app/settings/page.tsx:71-72 | `||` keeps a present non-empty string. An absent value, null or "" takes the fallback. |
| `Settings.OrDefaultNonEmpty` | app/settings/page.tsx:71-72 | With a non-empty fallback, `||` never yields "". |
| `Settings.CoalesceKeepsFalse` | app/settings/page.tsx:73-74 | An explicit false survives `??`; absent and null become the fallback. |
| `Settings.Normalize` | app/settings/page.tsx:69-76 | A normalised row has non-empty language and theme, and keeps a stored false for notifications and auto-save. |
| `Settings.NormalizeRoundTrip` | app/settings/page.tsx:69-76 | An empty row reads as the initial preferences. Preferences stored in full read back unchanged. |
| `Settings.SettingsPage.constructor` | app/settings/page.tsx:37-44 | The page starts with english, light, notifications on, auto-save on, not loading and not mounted. |
| `Settings.SettingsPage.FetchUserPreferences` | app/settings/page.tsx:59-80 | Only a row holding a preferences object replaces the state, with its normalised values. On an error, or a row without preferences, nothing changes. |
| `Settings.SettingsPage.SyncTheme` | app/settings/page.tsx:53-57 | Once mounted, only the theme changes, to the provider's theme or "light". Before mounting nothing changes. |
| `Settings.SettingsPage.Mount` | app/settings/page.tsx:46-57 | Mounting sets mounted and the sync effect makes the theme follow the provider. With a user, the fetched row then lands last: a stored row replaces the preferences with its normalised form, including its own theme, which can differ from the provider's. With no user, an error or no row, only the provider's theme is applied. |
| `Settings.SettingsPage.UpdatePreferences` | app/settings/page.tsx:82-106 | Without a user nothing changes. Otherwise the merge is kept only on success and loading ends false. |
| `Settings.SettingsPage.HandleThemeChange` | app/settings/page.tsx:108-111 | The provider takes the theme. The sync effect depends on `[theme, mounted]`, so it re-runs only when the provider's theme actually changes. The shown theme becomes the new one when the provider's theme changed or the save succeeds, with the other fields unchanged. When the provider already held it and the save fails or there is no user, the preferences stay as they were: a stored theme applied at mount then stays on the page. With a user, loading ends false; without one, loading is untouched. |
| `Settings.SettingsPage.HandleLanguageChange` | app/settings/page.tsx:113-115 | On success only the language changes; otherwise nothing changes. With a user, loading ends false; without one, loading is untouched. |
| `Sos.FirstPendingIndex` | app/sos/page.tsx:138 | The result is the index of the first pending alert, or None exactly when no alert is pending. |
| `Sos.FindPending` | app/sos/page.tsx:138 | The result is a pending alert of the list with no pending alert before it, or None exactly when none is pending. |
| `Sos.FirstPendingSkips` | app/sos/page.tsx:138 | Alerts in front that are not pending shift the index of the first pending alert by their number. |
| `Sos.FindPendingSkips` | app/sos/page.tsx:138 | Alerts in front of the list that are not pending do not change the choice. |
| `Sos.NextCountdown` | app/sos/page.tsx:44-52 | One interval firing, which runs only while the countdown is positive. `TicksFloorAtZero` and `SosPage.Tick` state its effect. |
| `Sos.AfterTicks` | app/sos/page.tsx:44-52 | The countdown after n firings. `TicksFloorAtZero` proves it is max(0, c − n). |
| `Sos.TicksFloorAtZero` | app/sos/page.tsx:44-52 | n ticks from c give max(0, c − n): the countdown reaches zero and never goes below. |
| `Sos.SosPage.constructor` | app/sos/page.tsx:31-35 | The page starts with no emergency, not loading, countdown 0 and no alerts. |
| `Sos.SosPage.SosButtonDisabled` | app/sos/page.tsx:221 | `loading || countdown > 0`. `BeginTrigger` ensures it after a start, and `ResponseDelayElapsed` ensures it is false again. |
| `Sos.SosPage.CanTrigger` | app/sos/page.tsx:217-221 | The SOS button is shown and enabled. `RunEvents` issues triggers only when it holds. |
| `Sos.SosPage.BeginTrigger` | app/sos/page.tsx:89-93 | Without a user nothing changes. Otherwise loading is set and the countdown becomes 5, which disables the SOS button. |
| `Sos.SosPage.InsertFinished` | app/sos/page.tsx:107-130 | A successful insert raises the emergency. A failed one clears loading and the countdown and leaves isEmergency as it was. |
| `Sos.SosPage.TriggerSOS` | app/sos/page.tsx:89-131 | The whole trigger: no-op without a user; an emergency with loading and countdown 5 after success, followed by the refresh of the recent alerts; loading false and countdown 0 after failure, with the alerts untouched. |
| `Sos.SosPage.ResponseDelayElapsed` | app/sos/page.tsx:117-120 | The response timeout clears the countdown and loading, and the SOS button is enabled again. |
| `Sos.SosPage.Tick` | app/sos/page.tsx:44-52 | One interval firing applies one countdown tick, staying within 0..5. |
| `Sos.SosPage.CancelSOS` | app/sos/page.tsx:133-156 | Without a user or an active emergency, nothing happens. With no pending alert, no update is issued and the state clears. With one, the first pending alert's id is updated, and the state clears unless that update fails. Only a cleared state is followed by the refresh of the recent alerts. |
| `Sos.SosPage.FetchRecentAlerts` | app/sos/page.tsx:73-87 | A successful fetch replaces the list, and a missing result gives []. An error leaves the list unchanged. |
| `Sos.RunEvents` | app/sos/page.tsx:44-156 | Under any sequence of triggers (only while the button is enabled), ticks, timeouts, cancels and fetches, the countdown stays within 0..5. |

## Left out

- Hand tracking, camera access and drawing: the `Hands` model, `getUserMedia`, video playback and every canvas call. The model takes the tracker's landmark lists as input. A missing canvas, context or video is one `canvasReady` flag.
- Landmark coordinates are exact reals, so the NaN and infinite values a float could carry are not modelled. The detectors compare against the decimal constants 0.2, 0.4, 0.5 and 0.8 exactly, while the source compares doubles, so the results can differ at the boundaries. For example, when `wrist.y` is the double written 0.4, whose exact value is slightly above 0.4, the model's `wrist.y > 0.4` holds and the source's does not. `SorryBand` and the other detector lemmas are statements about exact reals. `HandsWellFormed` requires at least 21 landmarks per hand and a handedness entry for every hand. With fewer, the source reads `undefined` and throws a TypeError when it reads a coordinate or the `label` of it; that failure path is not modelled.
- Database access and authentication (Supabase, `useAuth`): each call is a boolean or outcome parameter, and the signed-in user is `hasUser`. The rows written (user id, location, timestamps) are not modelled.
- Browser APIs: speech synthesis and recognition (only the language choice is modelled), geolocation and its `toFixed` formatting, toasts, and the JSON export download of the settings page.
- Timer scheduling and React re-rendering: intervals, `setTimeout`, effect ordering and the interleaving of asynchronous handlers. Each timer firing or effect run is a sequential method call. `HandleTranslate` takes its one-second delay as elapsed. `TriggerSOS` takes the insert, and the alerts refresh after it, as answered before any tick, and `CancelSOS` takes its refresh as answered at once; `BeginTrigger`, `Tick` and `InsertFinished` can be called separately to interleave ticks.
- Quiz option shuffling with `Math.random`, and the progress and score percentages with `Math.round`. The integer counts are modelled instead. No bound of the score by the number of cards is claimed: a correct answer button can be pressed repeatedly.
- Card images, descriptions and the locked-card display; `getStatusColor` and `formatTime` (display only).
- `Text.ToLower`: models `toLowerCase` on ASCII letters only; every other character is unchanged. All table keys and card words are ASCII, but the Unicode case mapping is not modelled, and non-ASCII input can therefore match in the source and not in the model. For example, U+212A KELVIN SIGN lower-cases to ASCII "k", so "THAN\u212A YOU" finds the "thank you" entry in the source but takes the fallback in the model.
- `Settings.Normalize`: fetched `language` and `theme` are treated as strings (or absent/null), and `notifications`/`autoSave` as booleans. A row holding values of other JavaScript types (a number, an object) is not modelled.
- `Settings.Merge`: an update object that carries a key explicitly set to `undefined` would overwrite the field with `undefined` under spread. Updates are modelled as carrying a field or not, which is how every caller in the page uses them.
- `Learn.LearnPage.CheckAnswer`: requires quiz mode, because the answer buttons are rendered only in quiz mode on the current card.
- `Settings.SettingsPage.HandleThemeChange`: requires `mounted`, because the page renders a placeholder without controls until it has mounted.
