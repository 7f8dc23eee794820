# Serious game engine — a verified Dafny model

This project models the game-state engine of a small educational game ("Serious Game - Gestion de Patrimoine"). The player manages three integer gauges: `budget`, `loisirs` (leisure) and `epargne` (savings). All three start at 50. Each turn the game draws a scenario card, takes a checkpoint, and lets the player pick option A or B. The chosen option's effect deltas go to the gauges and one entry goes to the decision log. When any gauge reaches 0 or below, a recovery quiz of up to ten distinct questions starts. A perfect quiz rewinds the gauges and the log to the checkpoint taken before the failing card, and a new card is drawn. Any wrong answer shows the corrections and ends the game.

Modules, one per component of `main.py`'s `SeriousGame` and `QuizFrame`:

- `Content` (content.dfy): the card, quiz-question and log-entry records, and the default texts used for missing keys.
- `GaugeState` (gauges.dfy): the gauge triple, how an effect map changes it (`Apply`), and the failure test (`Failing`).
- `Quiz` (quiz.dfy): the size and sampling of the quiz, and the all-or-nothing grading loop with its corrections.
- `Navigation` (navigation.dfy): the cyclic up/down selection over the letters A–D.
- `Game` (game.dfy): the `SeriousGame` class with the mutable state (gauges, log, checkpoint, current card, quiz list, index and answers). Its methods are proved against the functions above. Two client methods, `DefeatScenario` and `RecoveryScenario`, replay a depletion followed by a failed quiz and by a passed quiz, using only the method contracts.

Random draws are parameters. The card draw is a card position. The quiz sample is a sequence of distinct catalog positions of length `QuizSize(n)`.

`main.py` has no single-use quiz flag, no menu and no score file; the model follows `main.py`:

- There is no single-use quiz flag. The quiz is offered on every depletion.
- There is no menu, no score computation and no score file.
- A failed quiz destroys the window. The model records this as `destroyed`.
- Empty catalogs are not refused at start-up. An empty quiz catalog makes `start_quiz` fail when it loads the first question, which is modelled as the `QuizNotLoaded` outcome.

## Model

| member | source | states |
|---|---|---|
| Content.Chosen | main.py:180-190 | "A" selects option A and "B" selects option B. No option is selected exactly when the choice is neither. |
| GaugeState.Apply | main.py:192-194 | Each gauge becomes its old value plus the effect map's delta for its own name (0 when absent), independently of the other gauges. |
| GaugeState.ApplyUnnamed | main.py:192-194 | A gauge the effect map does not name keeps its value. |
| GaugeState.ApplyEmpty | main.py:192-194 | An empty effect map leaves all gauges unchanged. |
| GaugeState.ApplyIgnoresOtherKeys | main.py:192-194 | Effect keys that are not gauge names have no influence. |
| GaugeState.ApplyTwice | main.py:192-194 | Two successive effect maps add up, with no clamping in between. |
| GaugeState.AddEntriesAgrees | main.py:192-194 | Adding the entries of an effect map one at a time, in any order, gives the same gauges as `Apply`. |
| GaugeState.Failing | main.py:205 | The failure test holds exactly when some gauge is at most 0. |
| GaugeState.FailingBoundary | main.py:205 | A gauge of 0 fails, and gauges of 1 do not. |
| Quiz.QuizSize | main.py:213 | The quiz size is at most 10 and at most the catalog size, and equals one of them. |
| Quiz.Sample | main.py:213-214 | The quiz list has `min(10, n)` questions. Question i is the catalog entry at the i-th sampled position, and the positions are distinct. |
| Quiz.SmallCatalogFullyAsked | main.py:213-214 | With at most 10 questions in the catalog, every question is asked (exactly once). |
| Quiz.WrongUpToExactly | main.py:235-236 | A position is in the correction list exactly when its answer differs from the question's answer. |
| Quiz.WrongUpToIncreasing | main.py:235-236 | The corrections come in strictly increasing question order. |
| Quiz.PassIffAllCorrect | main.py:235-244 | There are no corrections exactly when every answer equals its question's answer. |
| Quiz.SingleMistake | main.py:235-239 | With exactly one wrong answer, the correction list is exactly that position. |
| Quiz.Grade | main.py:233-240 | The grading loop returns one correction per wrong answer, in order, with the question text, given answer, correct answer and explanation (or their defaults). The list is empty exactly when all answers are right. |
| Navigation.IndexOf | main.py:425 | The position returned holds the letter, and no earlier position does. |
| Navigation.Up | main.py:419-427 | The up arrow always selects a letter. From no selection it selects "A". |
| Navigation.Down | main.py:429-437 | The down arrow always selects a letter. From no selection it selects "A". |
| Navigation.Neighbours | main.py:419-437 | Up moves one letter back with "A" wrapping to "D". Down moves one letter forward with "D" wrapping to "A". |
| Navigation.UpDownInverse | main.py:419-437 | Down undoes Up and Up undoes Down on every letter. |
| Navigation.FullCycle | main.py:419-437 | Four presses of the same arrow return to the starting letter (mod 4). |
| Game.SeriousGame.constructor | main.py:91-95 | A new game has all gauges at 50 and an empty log. The first card is then drawn by the `load_next_card` call at main.py:137, so the checkpoint equals that initial state. |
| Game.SeriousGame.LoadNextCard | main.py:173-178 | The checkpoint becomes the current gauge triple and the current log length. Then the drawn card is shown, and nothing else changes. |
| Game.SeriousGame.StartQuiz | main.py:211-221 | The quiz list becomes the sample, the index becomes 0 and the answers become empty. The first question loads exactly when the catalog is not empty. |
| Game.SeriousGame.ApplyChoice | main.py:180-209 | A choice other than A/B changes nothing. A valid choice sets the gauges to `Apply` of its effects and appends exactly one log entry (situation, option text, explanation). The checkpoint is kept. Then `Failing` starts the quiz, or else the next button is enabled. |
| Game.SeriousGame.ProcessQuizAnswer | main.py:223-249 | Appends one answer and advances the index by one, keeping `len(answers) == index <= len(list)`. Grading happens only at the last question. A pass restores the gauges and the log to the checkpoint and draws a new card whose checkpoint is the restored state. A failure returns the corrections and ends the game. |
| Game.SeriousGame.SubmitAnswer | main.py:439-444 | An empty selection is rejected with no state change. Any other selection is processed as by `ProcessQuizAnswer`. |

## Left out

- All widget code is left out: window and frame construction, styles, `show_frame`, the text of `update_gauges_display`, message boxes, the character image and logo loading (`load_image_from_file`, `get_random_character_image`), and `center_window`. It is presentation only.
- `QuizFrame.load_question` displays a question and clears the selected letter. It is a widget update, so the selected letter is a parameter of `SubmitAnswer` and of `Up`/`Down` rather than a field.
- The event bindings (`on_left_arrow`, `on_right_arrow`, `on_enter_key`, `on_i_key`, the quiz frame's key bindings, `show_indice`, `show_shortcuts`, the quit buttons) are event-loop dispatch. The model's methods are the actions those bindings call.
- Loading `cards.json` and `quiz.json` is file I/O. The catalogs are given as immutable sequences.
- Records with missing required keys (`optionA`/`optionB`, `effects`, `text`, `explanation`, `answer`) are not modelled: such a record makes the original raise a key error. Only the keys with defaults (`question`, the quiz `explanation`) are optional.
- The card `hint` and the quiz `options` are only displayed, so the records leave them out.
- Effect values are integers. A non-integer value in the JSON catalog is not modelled.
- The randomness of `random.choice` and `random.sample` is left out. The caller supplies the drawn card position and the sampled question positions.
- Game.SeriousGame.constructor: requires a valid first card position. With an empty card catalog the original fails during start-up, before any state exists.
- Game.SeriousGame.ProcessQuizAnswer: requires a question on screen (`QuizActive`), which keeps `len(answers) == index <= len(list)`. The original also accepts answers when no question is on screen, and the model leaves those cases out. The quiz frame binds Enter to `submit_answer` on itself (main.py:403) and takes the keyboard focus when it is created (main.py:406); nothing moves the focus away, and the selected letter is cleared only when a question is loaded. So Enter can submit a letter at these times:
  - After a passed quiz, the last letter is submitted again. The index goes past the total, the loop re-grades the same correct answers, and the pass branch rewinds the gauges and the log to the checkpoint of the card now on screen. This undoes a choice already made on that card and draws another card.
  - Before the first quiz, a letter chosen with the arrow keys is submitted, and the original raises an attribute error because the answer list does not exist yet.
  - After a quiz whose first question could not be loaded (empty quiz catalog, `QuizNotLoaded`), the empty list is graded as passed and the run is rewound.
- Game.SeriousGame.SubmitAnswer: requires a question on screen, and so leaves out the same submissions as `ProcessQuizAnswer`.
- After `destroy()` no further event reaches the engine. The model only sets `destroyed` and does not model the window's teardown.
