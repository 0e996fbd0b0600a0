# Random Trivia: verified model of the quiz logic

Random Trivia is a one-screen SwiftUI app. It fetches an array of trivia
questions from `https://the-trivia-api.com/v2/questions/` and lists them. Each
row shows the category, the difficulty (coloured by level), the question text
and the answers in shuffled order. A tap on an answer opens a result screen
with a checkmark or a cross. All of this lives in
`Random_Trivia_API/ContentView.swift`. This project models the logic in that
file:

- `quiz_model.dfy` (module `QuizModel`): the `QuizItem` and `Question` records
  and `allAnswers`. The shuffle is a Fisher–Yates pass whose random draws are
  nondeterministic choices, so the contract holds for every ordering. The
  file also holds `difficultyColor`.
- `trivia_fetch.dfy` (module `TriviaFetch`): `QuizViewModel` as a class with a
  `quizList` field. `Classify` models the guards of `fetchTrivia` in the order
  the code tests them. `FetchOutcome` stands in for what `URLSession` and
  `JSONDecoder` deliver. `Replay` applies the outcomes of a run of fetches in
  the order they complete. Only a success is dispatched to the main queue and
  assigns the list; a failure returns inside the completion handler, so
  `Replay` folds it in as a no-op.
- `presentation.dfy` (module `Presentation`): the prompt fallback and the
  result screen's exact-equality verdict. It also holds `ContentView` as a
  class, with its one optional `selectedAnswer` that every row of the list
  shares.

`ContentView` keeps a single `selectedAnswer` for the whole list (line 72)
and binds every answer link to it by tag (line 99). So a tap on a text makes
the matching link active (its tag equals the selection) in every row that
lists that text, for example "True" in two true/false questions. `RowResult`
and the contract of `ContentView.Tap` state this behaviour. Leaving a result screen writes `nil`
back through the same binding (`ContentView.Back`).

## Model

| member | source | states |
|---|---|---|
| `QuizModel.AllAnswers` | Random_Trivia_API/ContentView.swift:24-26 | the answers shown are `incorrectAnswers + [correctAnswer]` in some order: length `|incorrectAnswers| + 1`, the same multiset, and so the correct answer is always among them, whichever order the shuffle picks |
| `QuizModel.CorrectAnswerPresent` | Random_Trivia_API/ContentView.swift:24-26 | for every item, well formed or not, any permutation of the answers holds the correct answer at some position |
| `QuizModel.CorrectAnswerAtMostOnce` | Random_Trivia_API/ContentView.swift:14-15 | for an item whose correct answer is not also a distractor, any permutation of the answers holds the correct answer at no more than one position |
| `QuizModel.DifficultyColor` | Random_Trivia_API/ContentView.swift:176-187 | total four-way mapping: green iff "easy", yellow iff "medium", red iff "hard", secondary iff any other text |
| `TriviaFetch.Classify` | Random_Trivia_API/ContentView.swift:40-64 | a fetch ends in a configuration error iff the URL is invalid. It ends in a transport error iff the URL is valid and an error came back, even alongside a body. It ends in no-data iff there is neither error nor body, and in a decode error iff the body does not decode. It succeeds iff the body decodes, and then carries exactly the decoded items |
| `TriviaFetch.QuizViewModel.constructor` | Random_Trivia_API/ContentView.swift:37 | the quiz list starts empty |
| `TriviaFetch.QuizViewModel.ApplyFetchOutcome` | Random_Trivia_API/ContentView.swift:46-64 | every failure leaves `quizList` as it was; a successful decode replaces it wholesale with the decoded sequence |
| `TriviaFetch.QuizViewModel.FetchTrivia` | Random_Trivia_API/ContentView.swift:39-66 | one fetch yields the outcome its guards select, and the list afterwards is the decoded list on success and the old list otherwise |
| `TriviaFetch.LastDecodeWins` | Random_Trivia_API/ContentView.swift:58-61 | with overlapping fetches, the published list is the items of the last successful decode delivered, or the starting list when none succeeded |
| `TriviaFetch.FailuresLeaveListUnchanged` | Random_Trivia_API/ContentView.swift:40-64 | any run of failed fetches leaves the list exactly as it was |
| `Presentation.Prompt` | Random_Trivia_API/ContentView.swift:92 | the row prompt is never empty: "No Question Available" when the question text is empty, the text unchanged otherwise |
| `Presentation.EvaluateIsExactMatch` | Random_Trivia_API/ContentView.swift:142-150 | the correct answer is judged correct; every other text is judged incorrect, including text that is none of the item's answers |
| `Presentation.SomeAnswerIsCorrect` | Random_Trivia_API/ContentView.swift:97-99 | for every item, at least one of the shuffled answers a row shows leads to the checkmark |
| `Presentation.AtMostOneAnswerIsCorrect` | Random_Trivia_API/ContentView.swift:97-99 | for a well-formed item, at most one of the shuffled answers a row shows leads to the checkmark |
| `Presentation.RowResult` | Random_Trivia_API/ContentView.swift:97-110 | a row has an active link (its tag equals the selection) iff the selection is one of its answers, and that link's destination shows the checkmark iff the selection equals the row's correct answer |
| `Presentation.ContentView.constructor` | Random_Trivia_API/ContentView.swift:71-72 | the view starts with a fresh view model, an empty list and no selection |
| `Presentation.ContentView.Tap` | Random_Trivia_API/ContentView.swift:108-110 | a tap sets the selection to the tapped answer, overwriting any earlier one, and leaves the quiz list alone; since the selection is shared, every row of the current list has an active link iff it lists the tapped text, and that link's destination judges the text against the row's own item |
| `Presentation.ContentView.Back` | Random_Trivia_API/ContentView.swift:99 | popping a result screen writes `nil` back through the link's selection binding: no selection, no row with an active link, the quiz list unchanged |
| `Presentation.ContentView.Refresh` | Random_Trivia_API/ContentView.swift:120-125 | appearing or pulling to refresh runs one fetch on the view model and leaves the selection alone |

## Left out

- Layout: `ZStack`, `NavigationView`, `List`, fonts, colours as drawn, padding and the preview. They have no state to model.
- Network I/O (`URLSession.shared.dataTask`, `.resume()`). Its delivery is the `Response` input.
- `URL(string:)` parsing. Whether the fixed endpoint parses is the boolean input `endpointValid`.
- `JSONDecoder`. It is the `decode` function input, which yields the items or nothing. The JSON format itself is not modelled.
- `DispatchQueue.main.async` and concurrency. Outcomes are applied one at a time, in the order the fetches complete (`Replay`), so the model has no interleaving.
- The distribution of `.shuffled()`. The loop of `AllAnswers` follows the shape of the standard library's shuffle pass, but each random draw is a nondeterministic choice, and only the length and multiset contract is relied on. The model does not capture uniformity, and it does not capture that every read of `allAnswers` reshuffles.
- Logging with `print` on the error paths.
- String comparison. Swift compares `String` values by Unicode canonical equivalence, in `==` and in `switch`. The model compares exact character sequences, so `DifficultyColor` and `Evaluate` may differ from the app on texts that are canonically equivalent but spelled differently.
- `Identifiable` identity of rows (`id`) and `ForEach(id: \.self)` identity of answers. These matter only to the renderer; duplicate answer texts within one row are not modelled.
- The UI launch test, which only starts the app and takes a screenshot.
- Presentation.ContentView.Tap: when the tapped text appears in several rows, several links are active at once; the model does not capture which destination the navigation view presents.
- Presentation.RowResult: it gives the verdict behind each row's active link; when several rows have one, the model does not capture which row's verdict the user sees.
