# Flashcard quiz: progression engine, mock question store, results page

A Dafny model of the logic inside a browser flashcard quiz (shebll/filp-card).

- **`QuizEngine`** (`quiz_engine.dfy`) models the quiz page `src/app/page.tsx`. It holds the question index and the animation direction, the confidence ratings given so far (`userAnswers`, each 0..3) and the `showResults` flag. It has the Next/Skip/Previous/restart transitions, the localStorage mirror (`"quizState"`) and the score.
  - The transitions are functions on a `Progress` value.
  - `QuizSession` is a class whose fields are the component's state hooks. Each handler method updates them in place and is proved to match its function. Each method also keeps the class invariant `Valid()`: one rating per question passed, and the stored snapshot equals the current index and ratings.
- **`QuestionStore`** (`question_store.dfy`) models the mock API `src/api/api.ts`, with record shapes from `src/types/types.ts`.
  - `MockBackend.questions` is the module-level question table.
  - `updateQuestion` and `addQuestion` change it in place.
  - `fetchQuestions`, `fetchQuiz`, `updateQuizSettings` and `deleteQuestion` change nothing.
- **`ResultsPage`** (`results_page.dfy`) models `src/app/components/flashcard/ResultsPage.tsx`: the confidence labels, the banner and confetti threshold, the gauge fraction and the per-question rows.
- **`Wrappers`** (`wrappers.dfy`) holds `Option` and `Result`.

Three behaviours the model keeps exactly as the code has them:
- After the last rating the index stays at N-1; it does not become N. `showResults` alone marks the end.
- Restoring on mount performs no validation. The model keeps this behaviour as `RestoreAsWritten`. `Restore` is the checked version; see Findings.
- "Take Quiz Again" removes the `"quizState"` entry. The render that follows sets `userAnswers` to a fresh `[]`, so the save effect writes `(0, [])` straight back. `ResetQuiz` ends with that snapshot. `RestoreAfterReset` shows that this snapshot restores the same state as no snapshot.

## Model

| member | source | states |
|---|---|---|
| `QuizEngine.Saved` | src/app/page.tsx:24-28 | The save effect stores the index and the ratings. Restoring that entry as written gives back both unchanged. |
| `QuizEngine.Advance` | src/app/page.tsx:31-38 | Next appends exactly `level` and keeps earlier ratings. Before the last question it moves forward one and sets direction 1. On the last question it shows the results and leaves the index and direction as they were. |
| `QuizEngine.DropLast` | src/app/page.tsx:43 | `slice(0, -1)` removes exactly the last rating; an empty list stays empty. |
| `QuizEngine.Retreat` | src/app/page.tsx:40-45 | Previous at index 0 changes nothing. Otherwise it steps back one, sets direction -1 and removes exactly the last rating. |
| `QuizEngine.RestoreAsWritten` | src/app/page.tsx:15-22 | The mount effect copies the saved index and ratings verbatim, sets direction 0 and leaves the results hidden. With no entry it gives the initial state. |
| `QuizEngine.Restore` | src/app/page.tsx:15-22 | The checked restore always yields a state satisfying the invariant. An acceptable snapshot is taken over exactly. |
| `QuizEngine.Step` | src/app/page.tsx:58-106 | Each control (the card's rating, Previous, Skip, and "Take Quiz Again", wired to `resetQuiz` at line 62) acts on the ratings as follows: a rating appends exactly that rating and Skip appends 0. Previous keeps a prefix of the ratings. "Take Quiz Again" returns the initial state. Its partner is `StepPreservesInv`. |
| `QuizEngine.Run` | src/app/page.tsx:31-52 | An empty run leaves the state as it is. A run of k events adds at most k ratings. Its partner is `RunPreservesInv`. |
| `QuizEngine.SkipRatesZero` | src/app/page.tsx:101-106 | Skip is the Next transition with rating 0. |
| `QuizEngine.AdvancePreservesInv` | src/app/page.tsx:31-38 | A valid rating on an in-progress state keeps the invariant. It finishes the quiz exactly when the index is N-1. |
| `QuizEngine.RetreatPreservesInv` | src/app/page.tsx:40-45 | Previous on an in-progress state keeps the invariant. |
| `QuizEngine.StepPreservesInv` | src/app/page.tsx:31-52 | Any event from a control on screen keeps the invariant. |
| `QuizEngine.RunPreservesInv` | src/app/page.tsx:31-52 | Every sequence of on-screen events keeps the invariant. |
| `QuizEngine.ReachableStatesKeepInv` | src/app/page.tsx:11-52 | From `[0,0], []`, every reachable in-progress state has `|userAnswers| == currentQuestion` and an index in 0..N-1. Once the results show, there are exactly N ratings. |
| `QuizEngine.LastAdvanceStaysOnLastQuestion` | src/app/page.tsx:33-37 | Rating the last question shows the results with N ratings and leaves the index at N-1. |
| `QuizEngine.AdvanceThenRetreat` | src/app/page.tsx:31-45 | A non-final Next followed by Previous restores the index and the ratings exactly. Only direction differs. |
| `QuizEngine.RestoreSavedRoundTrip` | src/app/page.tsx:15-29 | Saving an in-progress state and restoring it gives the state back with direction 0. |
| `QuizEngine.RestoreAsWrittenLosesResults` | src/app/page.tsx:15-29 | A snapshot saved after the last rating restores, as written, an in-progress state with N ratings at index N-1. That state breaks the invariant. |
| `QuizEngine.RestoreAfterFinishStartsOver` | src/app/page.tsx:15-29 | With the check, that snapshot is ignored and the quiz starts fresh. |
| `QuizEngine.RestoreAfterReset` | src/app/page.tsx:47-52 | The snapshot left after a reset restores the initial state, just as no snapshot would. |
| `QuizEngine.SumAppend` | src/app/page.tsx:55 | The rating total of `userAnswers + [x]` is the old total plus `x`. |
| `QuizEngine.Sum` | src/app/page.tsx:55 | The total of valid ratings lies between 0 and 3 times their count. |
| `QuizEngine.SumIsMaxIff` | src/app/page.tsx:55 | The total of valid ratings is the maximum iff every rating is 3. |
| `QuizEngine.SumUpdate` | src/app/page.tsx:55 | Changing one rating changes the total by exactly the difference. |
| `QuizEngine.Score` | src/app/page.tsx:53-57 | The score satisfies `score * 3N == 100 * sum(userAnswers)`, so it is the total as a percentage of the maximum 3N. |
| `QuizEngine.ScoreInRange` | src/app/page.tsx:53-57 | With N > 0 and at most N ratings, each 0..3, the score lies in [0, 100]. |
| `QuizEngine.ScoreFullMarksIff` | src/app/page.tsx:53-57 | With N valid ratings, the score is 100 iff every rating is 3. |
| `QuizEngine.ScoreMonotone` | src/app/page.tsx:53-57 | Raising one rating never lowers the score. |
| `QuizEngine.ScoreExamples` | src/app/page.tsx:53-57 | For five questions: all 3s give 100, all 0s give 0, and 3,0,3,0,3 gives 60. |
| `QuizEngine.FinishedScoreInRange` | src/app/page.tsx:53-64 | The score passed to the results page of a reachable state lies in [0, 100]. |
| `QuizEngine.ReloadAfterFinishOverflowsScore` | src/app/page.tsx:15-37 | As written: one question, rated 3, reload, rate 3 again. The results page then shows 200. |
| `QuizEngine.ReloadKeepsScoreInRange` | src/app/page.tsx:15-57 | With the checked restore, every results page after a reload from any reachable snapshot has a score in [0, 100]. |
| `QuizEngine.QuizSession.Mount` | src/app/page.tsx:11-29 | Mounting runs the initial state, then the checked restore, then the save effect. The result is valid, equals `Restore(slot)` and is mirrored in the stored snapshot. |
| `QuizEngine.QuizSession.HandleNextQuestion` | src/app/page.tsx:24-38 | In place, the new state is `Advance` of the old one. The invariant and the snapshot mirror are kept. |
| `QuizEngine.QuizSession.Skip` | src/app/page.tsx:101-106 | The Skip button appends 0 and otherwise behaves as Next. |
| `QuizEngine.QuizSession.HandlePrevQuestion` | src/app/page.tsx:40-45 | In place, the new state is `Retreat` of the old one. The invariant and the mirror are kept; at index 0 nothing changes. |
| `QuizEngine.QuizSession.ResetQuiz` | src/app/page.tsx:47-52 | Reset gives index 0, direction 0, no ratings and results hidden. The stored entry ends as `(0, [])`. |
| `QuizEngine.QuizSession.CalculateScore` | src/app/page.tsx:53-57 | On the results page the score lies in [0, 100] and equals `100 * sum / 3N`. |
| `QuestionStore.Merge` | src/api/api.ts:245-248 | A patch without an id keeps the record's id; a patch with one sets it. |
| `QuestionStore.MergeNothing` | src/api/api.ts:245-248 | An empty patch leaves the record unchanged. |
| `QuestionStore.MergeTwice` | src/api/api.ts:245-248 | Two merges equal one merge of the spread patches. Applying the same patch twice equals applying it once. |
| `QuestionStore.MergeFullPatch` | src/api/api.ts:245-248 | A patch that carries every field replaces the record outright. |
| `QuestionStore.MergeQuiz` | src/api/api.ts:226 | The settings spread over the quiz: a supplied title wins, and an unsupplied id is kept. |
| `QuestionStore.DecimalText` | src/api/api.ts:260 | `String(n)` is a non-empty run of decimal digits with no leading zero. |
| `QuestionStore.DecimalRoundTrip` | src/api/api.ts:260 | Reading the digits of `String(n)` back gives `n`. |
| `QuestionStore.DecimalTextInjective` | src/api/api.ts:260 | Different numbers give different id texts. |
| `QuestionStore.FindIndex` | src/api/api.ts:241 | `findIndex` returns the first position holding the id. If it returns nothing, no position holds the id. |
| `QuestionStore.FindSequentialId` | src/api/api.ts:241-244 | When ids are "1".."n" in position order, id `String(k)` is found at position k-1. |
| `QuestionStore.NextIdIsFresh` | src/api/api.ts:258-264 | When ids are "1".."n", the id that `addQuestion` hands out is not yet in use. |
| `QuestionStore.Stamp` | src/api/api.ts:258-263 | The added record carries the caller's fields unchanged, plus the new id and the two timestamps given. |
| `QuestionStore.AppendKeepsSequentialIds` | src/api/api.ts:258-264 | `addQuestion` keeps ids "1".."n" in position order. |
| `QuestionStore.UpdateKeepsSequentialIds` | src/api/api.ts:241-250 | An update whose patch has no id keeps ids "1".."n" in position order. |
| `QuestionStore.SeedQuestions` | src/api/api.ts:13-182 | There are five seed questions with ids "1".."5" in order. All belong to quiz "1", and every answer's `questionId` is the id of the question that holds it. |
| `QuestionStore.SeedQuiz` | src/api/api.ts:185-206 | Every seed question's `quizId` is the seed quiz's id. |
| `QuestionStore.MockBackend.constructor` | src/api/api.ts:13-206 | The table starts as the seed questions and the quiz as the seed quiz, with sequential ids. |
| `QuestionStore.MockBackend.FetchQuestions` | src/api/api.ts:209-212 | Returns the table as it stands, so earlier updates and additions show. |
| `QuestionStore.MockBackend.FetchQuiz` | src/api/api.ts:215-218 | Returns the stored quiz whatever id is asked for. |
| `QuestionStore.MockBackend.UpdateQuizSettings` | src/api/api.ts:221-227 | Returns the settings merged over the quiz. Nothing is written back, so `fetchQuiz` still returns the seed quiz. |
| `QuestionStore.MockBackend.DeleteQuestion` | src/api/api.ts:230-233 | Leaves the table unchanged. |
| `QuestionStore.MockBackend.UpdateQuestion` | src/api/api.ts:236-251 | It fails with "Question not found" iff no record has the id; the table is then unchanged. Otherwise it replaces only the first match with the merged record and returns exactly that record. Length and every other position stay the same. |
| `QuestionStore.MockBackend.AddQuestion` | src/api/api.ts:254-266 | Appends exactly one record, stamped with id `String(old length + 1)` and the two clock readings, and returns it. Prior records are unchanged. |
| `ResultsPage.ConfidenceText` | src/app/components/flashcard/ResultsPage.tsx:37-50 | The label is non-empty iff the value is a rating 0..3. Any other value gives "". |
| `ResultsPage.ConfidenceTextDistinct` | src/app/components/flashcard/ResultsPage.tsx:37-46 | The four ratings have four distinct labels. |
| `ResultsPage.RatingAt` | src/app/components/flashcard/ResultsPage.tsx:136 | `userAnswers[index]` is defined exactly for recorded positions. |
| `ResultsPage.LabelAt` | src/app/components/flashcard/ResultsPage.tsx:136 | A question's label is non-empty iff it has a recorded rating and that rating is 0..3. |
| `ResultsPage.ShowsBanner` | src/app/components/flashcard/ResultsPage.tsx:103 | The banner shows iff the gauge is at least half full. |
| `ResultsPage.StartsConfetti` | src/app/components/flashcard/ResultsPage.tsx:20-26 | Confetti starts under exactly the condition that shows the banner (line 103). |
| `ResultsPage.GaugeFraction` | src/app/components/flashcard/ResultsPage.tsx:32 | The gauge fill is score/100 and lies in [0, 1] whenever the score is in [0, 100]. |
| `ResultsPage.BannerIffTwoThirds` | src/app/components/flashcard/ResultsPage.tsx:103 | With the engine's score, the banner shows iff `2 * sum(userAnswers) >= 3N`. |
| `ResultsPage.Rows` | src/app/components/flashcard/ResultsPage.tsx:116-149 | There is one row per quiz question. |
| `ResultsPage.RowsFollowQuiz` | src/app/components/flashcard/ResultsPage.tsx:116-137 | Row i is question i+1, with that card's prompt and answer and the label of rating i. A question without a recorded rating shows "". |
| `ResultsPage.FinishedRowsAllLabelled` | src/app/components/flashcard/ResultsPage.tsx:116-137 | On the results page of a reachable state, every row shows the non-empty label of its own rating. |

## Findings

| source | as written | input that shows it | evidently intended | confidence | as-written member | corrected member |
|---|---|---|---|---|---|---|
| src/app/page.tsx:15-29 | The save effect does not store `showResults`, and the restore effect copies any snapshot without checking it. After the last rating the snapshot holds N ratings at index N-1. A reload restores that as an in-progress state, and one more rating records N+1 ratings. | One question: rate 3, reload the page, rate 3 again. The results page shows 200%. | A restored state satisfies the invariant, so the score stays in [0, 100]. The corrected restore accepts only a snapshot with `|userAnswers| == currentQuestion`, index in 0..N-1 and ratings 0..3. Otherwise the quiz starts fresh. | not executed; high for the state, medium for the rendered 200% | `QuizEngine.ReloadAfterFinishOverflowsScore` | `QuizEngine.ReloadKeepsScoreInRange` |

`QuizSession.Mount` uses the corrected `Restore`. The as-written behaviour is kept as `RestoreAsWritten`.

## Left out

- Rendering is not modelled. This covers JSX, styling, framer-motion variants, `AnimatePresence`, `window.scrollTo` and the 5-second confetti timer. The `Confetti` and `ProgressBar` components are left out for the same reason.
- From `QuizCard` only the rating domain 0..3 is kept. Its flip state is UI state.
- `QuizEngine.ReachableStatesKeepInv` and `ResultsPage.FinishedRowsAllLabelled` cover only runs in which each rating lands before the next click. `QuizCard` (src/app/components/QuizCard.tsx:31-34) calls `onNext(level)` 300 ms after the click. That callback is `handleNextQuestion` from the render where the click happened, so it uses that render's `currentQuestion` and `userAnswers`, not the live ones. Changing the card's key does not cancel the timer. The model applies every rating at click time to the live state. A Skip or Previous clicked inside the 300 ms window can therefore reach states outside `Inv`, and those interleavings are not modelled. Two examples:
  - N = 2: rate card 1, then press Skip twice. The results show with `[0, 0]`, and then the timer sets `userAnswers` to `[1]` at index 1.
  - Rate the last card, then press Previous. The results show with index N-2 and N ratings.
- The quiz content module (`@/constdata/Questions`) is not part of this model. The engine takes it as a non-empty sequence of `Flashcard(question, answer)`.
- Browser storage and JSON are modelled as an already-parsed `Option<Snapshot>`. A stored value that fails to parse, or parses to fields of the wrong type, is not modelled.
- React scheduling is simplified. The save effect is folded into each handler. The two saves on mount, first of `(0, [])` and then of the restored state, are collapsed into the final one.
- `Enabled` lets Previous fire at index 0 even though the button is disabled there. The handler's own guard makes that a no-op, so this only widens the set of runs covered.
- `QuizEngine.Score`: the arithmetic is exact rational arithmetic, not IEEE doubles, and the `toFixed(0)` rounding of the display is not modelled.
- `QuizEngine.Score` requires N > 0. In the page N is the length of a fixed non-empty constant. An empty quiz would yield NaN or Infinity, which is not modelled.
- The simulated network delay (`delay`, promises) is dropped: every call is synchronous. `console.log` in `deleteQuestion` is dropped.
- All seed timestamps are one opaque `now` value. The source calls `new Date()` once per field, and those values may differ by milliseconds. `AddQuestion` takes its two timestamps as separate parameters, one per clock read.
- `QuestionStore.Merge` treats a partial field as either present or absent. An explicitly `undefined` field, which spread copies over the old value, is not modelled, and neither are extra keys outside the record type.
- `QuestionStore.MockBackend.FetchQuestions` returns the table as a value. The source returns the array itself, so later in-place updates are also visible through a previously returned array. That aliasing is not captured.
- `QuestionStore.MockBackend.FetchQuiz` returns the quiz as a value. The source returns the `mockQuiz` object itself, and a caller that mutates it changes what later calls see. The model keeps the quiz fixed.
- `QuestionStore.MockBackend.UpdateQuestion` and `QuestionStore.MockBackend.AddQuestion` return the record as a value. The source returns the very object stored in the table, so a caller's later mutation of it would change the table. That aliasing is not captured.
