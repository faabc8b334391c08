# Trivia quiz engine — a Dafny model

This project models the client-side engine of a single-player trivia quiz
(`frontend/script.js`). The engine does the following:

- It throttles quiz starts and checks the player's name.
- It derives the category and difficulty labels.
- It takes the outcome of the question request.
- It builds each question's options and shuffles them with Fisher–Yates.
- On submit, it checks that every question is answered, counts the correct answers after HTML decoding, and awards a badge.
- It appends a record to the leaderboard stored under `quiz_leaderboard` and shows the top 3 by score.
- It can clear the leaderboard and return to the welcome screen for a retake.

Modules, leaf first:

- `Wrappers` (`wrappers.dfy`): `Option` and `Min`.
- `Labels` (`labels.dfy`): `String.prototype.trim` and the name check, the category map with its "Unknown" fallback, and the difficulty capitalisation.
- `AnswerKey` (`answer_key.dfy`): questions, the option list `[...incorrect_answers, correct_answer]`, and the in-place shuffle (`Shuffle`, a method over an `array`). The shuffle is proved equal to a functional reference `Shuffled` and proved to be a permutation.
- `Scoring` (`scoring.dfy`): the completeness loop (`AllAnswered`) and the scoring loop (`Grade`), both specified by functions (`Complete`, `CountCorrect`, `DetailsOf`). Also the badge chain `BadgeFor` and their properties.
- `Leaderboard` (`leaderboard.dfy`): leaderboard records, absent-as-empty reading and append. The ranked view `TopThree` is defined as a stable insertion sort by score, highest first, followed by taking 3. It is proved sorted, a permutation and stable: for each score, the records of that score keep their log order.
- `QuizSession` (`quiz_app.dfy`): class `QuizApp`. Its fields are the page's module-level state: `quizData`, `userName`, `quizMeta` and `lastRequestTime`. It also has fields for the visible screen, the rendered radio groups, the result box, the leaderboard box and the storage key.
  - Its methods are the page's handlers: `StartQuiz`, `OnFetch` (the part of `startQuiz` after the request settles), `LoadQuiz`, `Submit`, `Retake` and `ResetLeaderboard`.
  - `Valid()` is the object invariant. Each rendered radio group is a permutation of its question's options. A quiz being answered has questions. A shown ranking is the top 3 of the stored log. The stored log is taken as found; a submit keeps every record within its total when the log already was.

Inputs the page takes from its environment are parameters of the model:

- the clock (`now`, the value of `Date.now()`);
- the `Math.random()` draws, one list per question, each draw in `[0, 1)`;
- the outcome of the fetch;
- the checked radio value of each question (`selections`);
- the answer to the confirmation dialog;
- `decodeHTML`, an arbitrary function `string -> string`.

Some behaviours of the code that a reader might not expect:

- The code keeps no session generation token, so `OnFetch` applies whatever outcome arrives, on any screen. A loaded quiz replaces `quizData` and the rendered options, but only the loading screen gives way to the questions; any other visible screen stays as it is.
- Whether a quiz is loading or being answered plays no part: a start is refused only by the five-second throttle or the name check.
- `lastRequestTime` is set before the name check, so a start with an empty name still restarts the window.
- A failed or empty request returns to the welcome screen but keeps the previous `quizData`.
- A submit with no questions is complete and scores 0 out of 0, which the badge chain rates Gold (`Scoring.EmptyQuizIsGold`).
- Unreadable stored JSON makes the handler throw; it is not read as an empty log. The model stores the list itself.

The methods `QuizSession.ThrottleScenario`, `QuizSession.IncompleteSubmitScenario` and `QuizSession.OverTotalLogScenario` are example scenarios; Dafny checks their assertions against the class's contracts. They cover a throttled second start, a failed fetch returning to welcome, an incomplete submit that stores nothing, and a page load over a stored record that scores above its total, which is kept.

## Model

| member | source | states |
|---|---|---|
| Labels.TrimStartSpec | frontend/script.js:46 | the leading part removed by trimming is all white space, and what is left does not start with white space |
| Labels.TrimEndSpec | frontend/script.js:46 | the trailing part removed by trimming is all white space, and what is left does not end with white space |
| Labels.TrimIsInfix | frontend/script.js:46 | the trimmed name is a contiguous piece of the input with only white space cut on either side, and it neither starts nor ends with white space |
| Labels.TrimEmptyIff | frontend/script.js:50 | the name check fails exactly when the input is all white space (both directions) |
| Labels.TrimIdempotent | frontend/script.js:46 | trimming an already trimmed name changes nothing |
| Labels.CategoryLabelKnown | frontend/script.js:55 | the four known identifiers get their mapped names; the label is "Unknown" exactly when the identifier is not in the map; no label is empty |
| Labels.DifficultyLabelShape | frontend/script.js:56 | the difficulty label has the same length, the same characters after the first; a lower-case first letter becomes the capital at the same alphabet position, any other first character is kept; "" maps to "" |
| Labels.DifficultyLabelIdempotent | frontend/script.js:56 | capitalising an already capitalised label changes nothing |
| Labels.DifficultyLabelExamples | frontend/script.js:56 | easy, medium and hard become Easy, Medium and Hard |
| AnswerKey.OptionList | frontend/script.js:112 | the unshuffled options number one more than the incorrect answers and end with the correct answer |
| AnswerKey.PickInRange | frontend/script.js:216 | `Math.floor(Math.random() * (i + 1))` lies in `[0, i]` for every draw in `[0, 1)` |
| AnswerKey.SwapPermutes | frontend/script.js:217 | exchanging two elements keeps the multiset of elements |
| AnswerKey.ShuffleFromPermutes | frontend/script.js:215-218 | the remaining shuffle iterations from any loop index keep the length and the multiset of elements |
| AnswerKey.ShuffledPermutes | frontend/script.js:214-220 | the whole shuffle is a permutation of its input for every sequence of draws |
| AnswerKey.Shuffle | frontend/script.js:214-220 | the in-place loop leaves the array equal to the reference shuffle of its old contents, and a permutation of them |
| AnswerKey.PresentOptions | frontend/script.js:112 | a question's presented options are the reference shuffle of incorrect answers plus the correct one, 1 + the number of incorrect answers long, the same multiset, and they contain the correct answer |
| Scoring.AllAnswered | frontend/script.js:134-137 | the validation loop succeeds exactly when every question index has a selection, and on failure some index has none |
| Scoring.Grade | frontend/script.js:139-151 | the scoring loop returns the count of answers equal to the correct answer after decoding, which is at most the number of questions, and one detail per question in order with the decoded texts and the verdict |
| Scoring.CountCorrectBounded | frontend/script.js:139-151 | 0 ≤ score ≤ total |
| Scoring.CountCorrectFull | frontend/script.js:146-147 | score equals total exactly when every answer decodes to the decoded correct answer (both directions) |
| Scoring.CountCorrectZero | frontend/script.js:146-147 | score is zero exactly when no answer is correct (both directions) |
| Scoring.Evaluate | frontend/script.js:134-155 | no report exactly when a question has no selection; otherwise the report of the selected answers, with score ≤ total = number of questions |
| Scoring.GoldIffPerfect | frontend/script.js:152-155 | the badge is Gold exactly when score equals total |
| Scoring.NothingRightIsBeginner | frontend/script.js:152-155 | zero correct answers out of a positive total is Beginner |
| Scoring.BadgeMonotone | frontend/script.js:152-155 | with the same total, a higher score never earns a lower badge |
| Scoring.BadgeBoundariesAtTen | frontend/script.js:152-155 | with total 10, scores 7, 6, 4 and 3 give Silver, Bronze, Bronze and Beginner |
| Scoring.BadgesAtFive | frontend/script.js:152-155 | with the fixed total of 5: 5 is Gold, 4 Silver, 2–3 Bronze, 0–1 Beginner |
| Scoring.AllCorrectIsGold | frontend/script.js:139-155 | all answers correct gives score = total and Gold |
| Scoring.NoneCorrectIsBeginner | frontend/script.js:139-155 | no answer correct on a non-empty quiz gives score 0 and Beginner |
| Scoring.EmptyQuizIsGold | frontend/script.js:134-153 | with no questions the selection is complete and the report is 0/0 Gold |
| Leaderboard.Append | frontend/script.js:158-164 | pushing adds exactly one record, at the end, and keeps every earlier record unchanged |
| Leaderboard.ClearedBoardIsEmpty | frontend/script.js:157 | an absent key reads as the empty log, whose ranked view is empty; a present key reads as its list |
| Leaderboard.SortByScorePermutes | frontend/script.js:200 | the sorted copy has exactly the records of the log |
| Leaderboard.SortByScoreSorted | frontend/script.js:200 | the sorted copy is ordered by score, highest first |
| Leaderboard.SortByScoreStable | frontend/script.js:200 | for every score, the records with that score appear in the sorted copy in log order |
| Leaderboard.TopThreeShape | frontend/script.js:200 | the ranked view has min(3, log length) records of the log, highest score first |
| Leaderboard.TopThreeHighest | frontend/script.js:200 | no record left out of the view scores more than a record in it |
| Leaderboard.TopThreeStable | frontend/script.js:200 | for every score, the records shown with that score are the earliest such records of the log |
| Leaderboard.TopThreeExample | frontend/script.js:200 | scores 2, 5, 5, 1, 3 rank as the two 5s in insertion order, then the 3 |
| QuizSession.AppendWithinTotals | frontend/script.js:157-165 | appending a record whose score is at most its total keeps that property for the whole stored log |
| QuizSession.QuizApp.constructor | frontend/script.js:20-23 | the initial state: no questions, empty name and labels, `lastRequestTime` 0, welcome screen, stored log as found, whatever its records hold |
| QuizSession.QuizApp.StartQuiz | frontend/script.js:40-66 | refused exactly when `now - lastRequestTime < 5000`, and then nothing changes; otherwise `lastRequestTime := now`. An all-white-space name is then refused with nothing else changed. Otherwise it sets the trimmed name and the labels, shows the loading screen, and clears the container, the result and the ranking |
| QuizSession.QuizApp.LoadQuiz | frontend/script.js:109-130 | the rendered options are each question's shuffled options, one group per question, each a permutation |
| QuizSession.QuizApp.OnFetch | frontend/script.js:83-94 | a non-empty `results` list becomes `quizData`, is rendered, and the loading screen gives way to the answering screen while any other screen is left as it is; a missing or empty list or a failed request goes back to welcome and keeps the old `quizData` |
| QuizSession.QuizApp.Submit | frontend/script.js:133-203 | an incomplete selection changes nothing. Otherwise it stores the old log plus exactly one record {name, score, total, category, difficulty} and shows the report. The ranking shown is the top 3 of the new log. If every stored record scored at most its total before, that still holds after |
| QuizSession.QuizApp.Retake | frontend/script.js:190-196 | back to the welcome screen with the container, result and ranking cleared; the stored log, questions and name are kept |
| QuizSession.QuizApp.ResetLeaderboard | frontend/script.js:206-211 | when confirmed, the key is removed, so the log reads as empty, and the ranking is cleared; when not confirmed, nothing changes |

## Left out

- `backend/server.js` and `server.js` are not part of this model. They only forward the request to the trivia provider.
- The fetch itself is not modelled: the request URL, `AbortController`, the ten-second timer and `async`/`await`. Only its three outcomes are modelled: a non-empty list, a missing or empty list, and failure. Interleavings of two overlapping requests are not modelled beyond `OnFetch` being callable on any screen.
- `decodeHTML` uses a DOM textarea and is a parameter of the model. Entity decoding itself is not modelled.
- How the checked radio value arises from the option text is not modelled. The option text is decoded and interpolated into HTML, and that round trip is left out. `Submit` takes each checked value as given.
- Randomness: the draws are inputs. The property that every permutation is equally likely is statistical and is not stated.
- Scoring.BadgeFor: `score >= total * 0.7` and `score >= total * 0.4` are floating-point comparisons, modelled as the exact integer comparisons `10 * score >= 7 * total` and `5 * score >= 2 * total`. These agree for the quiz size of 5 that the provider is asked for.
- Labels.DifficultyLabel: `toUpperCase` is modelled for the ASCII letters only. Other characters are left unchanged, and full Unicode case mapping is not modelled. The offered tokens are lower-case ASCII.
- Labels.CategoryLabel: identifiers that name inherited object properties, such as `"toString"`, would yield a truthy non-string through `categoryMap[category]`. They are treated as unknown.
- AnswerKey.Pick: `Math.random() * (i + 1)` is a double product, rounded to nearest, and is modelled as an exact real product. A draw just below an integer boundary can round up in floating point: r = 6004799503160661·2^-53 with i = 2 gives 2 in the code and 1 in the model. The index still lies in `[0, i]` either way, so the permutation properties do not depend on this.
- Strings are sequences of Unicode scalar values, not UTF-16 code units.
- The JSON encoding of the stored log and a corrupted stored value are not modelled. The stored key holds the record list itself, or nothing.
- Presentation is not modelled: DOM rendering, `alert`/`confirm` text, the loader, dark mode, `scrollToTop`, the chart canvas, the console timing log, the `quiz_user` write and the name prefilled on retake.
