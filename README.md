# Arckybot vs Expert: the quiz session state machine

"Arckybot vs Expert" is a quiz page. A player asks a maintenance question.
A remote language model ("Arckybot") answers it. The player rates the answer
as correct, partially correct or incorrect. The player may then add an
expert answer or skip. Each step earns points toward a reward threshold.
A game has fifteen questions.

This project models the session state behind that page:

- `Quiz.dfy` (module `Quiz`) holds the session keys as a value `State`.
  `PhaseOf` is the if/elif chain that picks the panel on every rerun.
  `Step` applies one button press; a press on a button that the current
  panel does not show changes nothing. `Run` applies a sequence of presses.
  The module also holds the last-evaluation lookup `LastEvaluation`, the
  reward check `Verdict`, and `Inv`, the invariant of every reachable
  session. `Points` and `CountTag` are reference definitions over the
  history used to state that invariant.
- `QuizProperties.dfy` (module `QuizProperties`) proves what the game
  promises. The score always equals the points the history accounts for.
  At most 15 questions are asked and at most 14 answers are rated, so the
  score is at most 14 × (5 + 10) = 210. Between new games the score never
  drops and the history only grows at its end. Game over takes precedence
  over a pending answer. The expert panel shows the label of the rating
  just given. It also plays whole games out.
- `Session.dfy` (module `QuizSession`) is the object the page mutates in
  place. It is a class `Session` with one field per session key. Its
  constructor is the session initialisation. It has one method per button.
  Each method states its new fields outright and also as
  `Step(old(Snapshot()), action)`, so the lemmas about `Step` apply to it.

The completion client (`Arckybot.generate_response`) is not modelled. In
`Session.SubmitQuestion` it is a parameter `generate: string -> Option<string>`.
`Some(reply)` is the string the client returns. This includes its fixed
error text for a non-200 status. `None` means the client raised, for
example because the request failed or the reply had no answer where the
client looks for one. A raise aborts the handler after it has stored the
question, so the question is not counted and no answer is held
(`AskFailed`, `FailedAskKeepsQuestionPanel`). At the value level, the
`Ask` action carries the reply the client returned, so replies may differ
from one question to the next.

Python truthiness is modelled exactly. The page tests `not arcky_response`
(`Truthy`). So, before the last question, an empty reply counts the
question but leaves the question panel up (`EmptyReplyKeepsQuestionPanel`).

Facts about the page that the model makes explicit:

- The page's rules (streamlit_app.py:261-262) ask the player to pose 15 questions and rate each of
  Arckybot's answers. But the game-over test comes before the test for a
  pending answer, so the answer to the 15th question is never rated, and
  pressing anything other than "Nouvelle partie" then does nothing
  (`LastAnswerNeverRated`). At most 14 answers are rated in a game. Fifteen
  turns rated "Partiellement correcte" and skipped end at 42 points
  (`PartialSkipGame`).
- "Nouvelle partie" is drawn only on the game-over panel, so a new game can
  start only from there (`NewGameRestoresInit`).
- After the 15th question its answer is still held on the game-over panel.
  So "an answer is held" matches the two answer panels only while questions
  remain (`AnswerPanels`).
- One "Correcte" rating gives 5 points (`FirstTurn`).

## Model

| member | source | states |
|---|---|---|
| `QuizSession.Session.constructor` | streamlit_app.py:40-53 | a fresh session has score 0, empty history, the game on, no questions asked, no answer, nothing rated, no current question; the question panel shows and the invariant holds |
| `QuizSession.Session.SubmitQuestion` | streamlit_app.py:144-153 | a non-empty question is stored; if the client answers, its reply is held and the question count rises by exactly one, with nothing else changed; if the client raises, only the question is stored; an empty question changes nothing; the invariant is kept |
| `QuizSession.Session.RateAnswer` | streamlit_app.py:162-181 | the history gains exactly ("Arckybot", answer) then ("Évaluation", label), in that order; the score rises by 3 for a partial rating and by 5 otherwise; the answer is marked rated; the expert panel follows and shows that label |
| `QuizSession.Session.SubmitExpert` | streamlit_app.py:197-205 | non-empty text appends exactly one ("Expert", text) entry and adds 10; empty text leaves score and history alone; either way the answer, the rated flag and the current question are cleared and the question count is kept |
| `QuizSession.Session.SkipQuestion` | streamlit_app.py:208-214 | the answer, the rated flag and the current question are cleared; score, history and question count are unchanged |
| `QuizSession.Session.Reset` | streamlit_app.py:235-242 | from the game-over panel the session becomes exactly the fresh session and the question panel shows again |
| `Quiz.Init` | streamlit_app.py:40-53 | the fresh session shows the question panel, has no verdict, and its score equals the points of its (empty) history |
| `Quiz.Truthy` | streamlit_app.py:140 | the held answer counts as present exactly when it is neither None nor the empty string |
| `Quiz.PhaseOf` | streamlit_app.py:137-217 | game over shows exactly when 15 or more questions were asked, even with an answer pending; an answer panel needs questions left and a truthy answer; the expert panel needs a rated answer; no panel shows only when the game is off with questions left (never reachable: `QuizProperties.GameBounds`; see also `QuizProperties.AnswerPanels`, `QuizProperties.LastAnswerNeverRated`) |
| `Quiz.Step` | streamlit_app.py:137-242 | a press on a button the current panel does not draw changes nothing, and no press turns the game off; its effect per button is stated by the `Session` methods and the lemmas below |
| `Quiz.Run` | streamlit_app.py:137-242 | a sequence of presses never turns the game off, and from game over presses without a new game change nothing |
| `Quiz.LastEvaluation` | streamlit_app.py:188 | the result is absent exactly when no entry is tagged "Évaluation"; otherwise it is the text of an "Évaluation" entry after which no other "Évaluation" entry follows |
| `Quiz.Verdict` | streamlit_app.py:222-231 | the reward is granted exactly when the score reaches 100; otherwise the reported shortfall is strictly positive and brings the score to exactly 100 |
| `Quiz.EndOfGame` | streamlit_app.py:217-231 | a verdict is displayed exactly when 15 or more questions have been asked; it is granted exactly when the score reaches 100, and otherwise the shortfall shown is 100 - score |
| `QuizProperties.PointsBound` | streamlit_app.py:162-200 | the points a history accounts for are non-negative and at most 5 per rating plus 10 per expert answer |
| `QuizProperties.InitInv` | streamlit_app.py:40-53 | the fresh session satisfies the invariant and shows the question panel |
| `QuizProperties.RatePreservesInv` | streamlit_app.py:162-181 | a rating on the evaluation panel keeps the invariant: the score still equals the history's points and at most 14 answers are rated |
| `QuizProperties.ExpertPreservesInv` | streamlit_app.py:197-205 | an expert answer keeps the invariant: expert answers never outnumber ratings |
| `QuizProperties.StepPreservesInv` | streamlit_app.py:137-242 | every button press, on any panel, keeps the invariant |
| `QuizProperties.RunPreservesInv` | streamlit_app.py:137-242 | every sequence of presses keeps the invariant |
| `QuizProperties.ScoreBound` | streamlit_app.py:137-217 | under the invariant at most 15 questions are asked, at most 14 answers are rated and 0 <= score <= 14 × (5 + 10) |
| `QuizProperties.GameBounds` | streamlit_app.py:137-217 | after any presses from a fresh session the question count, rating count and score bounds hold, and some panel is always shown |
| `QuizProperties.AnswerPanels` | streamlit_app.py:137-217 | an answer panel shows exactly when questions remain and a truthy answer is held; the expert panel exactly when questions remain and the answer is rated; game over exactly at 15 questions |
| `QuizProperties.EmptyReplyKeepsQuestionPanel` | streamlit_app.py:140-151 | before the last question, an empty reply counts the question but the question panel stays up, and rating or skipping does nothing |
| `QuizProperties.FailedAskKeepsQuestionPanel` | streamlit_app.py:146-150 | when the client raises, only the typed question is stored; nothing is counted, the question panel stays up and the invariant holds |
| `QuizProperties.LastAnswerNeverRated` | streamlit_app.py:137-217 | submitting the 15th question leaves its answer pending on the game-over panel, where every press other than a new game changes nothing |
| `QuizProperties.NewGameRestoresInit` | streamlit_app.py:235-242 | a new game yields the fresh session at game over and is ignored before it |
| `QuizProperties.StepMonotone` | streamlit_app.py:144-214 | any press other than a new game never lowers the score, and the old history is a prefix of the new one |
| `QuizProperties.RunMonotone` | streamlit_app.py:144-214 | across any presses without a new game the score never drops and the history only grows at its end |
| `QuizProperties.RatingShownInExpertPanel` | streamlit_app.py:162-189 | after a rating the expert panel shows, and its last evaluation is that rating's label |
| `QuizProperties.ExpertPanelShowsLastRating` | streamlit_app.py:184-189 | on the expert panel of any reachable session the history ends with the held answer and a rating label, and the last evaluation shown is that label |
| `QuizProperties.TurnEffect` | streamlit_app.py:144-214 | a full turn before the last question counts one question, returns to the question panel and adds the rating's points plus 10 for a non-empty expert answer |
| `QuizProperties.TurnsEffect` | streamlit_app.py:137-214 | k identical turns from a fresh session (k <= 14) count k questions and earn k times the turn's points |
| `QuizProperties.FullGame` | streamlit_app.py:137-231 | fifteen identical turns end at game over with only fourteen turns scored |
| `QuizProperties.PartialSkipGame` | streamlit_app.py:137-231 | fifteen turns rated partial and skipped end at 42 points, reward missed by 58 |
| `QuizProperties.BestGame` | streamlit_app.py:137-231 | rating correct and answering as expert every turn reaches the bound 210 and the reward |
| `QuizProperties.FirstTurn` | streamlit_app.py:144-205 | ask, rate correct, answer as expert: evaluation panel with one question, then 5 points on the expert panel showing "Correcte", then 15 points, the question panel and a three-entry history |

## Left out

- The completion client `Arckybot.generate_response` (streamlit_app.py:18-34) is a blocking HTTP POST. It is network I/O. It appears only as its outcome: a reply, or a raise that aborts the handler.
- Loading the API key from the environment (streamlit_app.py:9-10) is configuration I/O.
- Page layout, CSS, markdown, spinners, success and warning banners, the sidebar and the history-rendering loop (streamlit_app.py:37, 66-134, 204, 213, 218-233, 245-280) are presentation only. So are the discount string and the promotion code.
- The progress fractions `questions_asked / MAX_QUESTIONS` and `min(score / REWARD_THRESHOLD, 1.0)` (streamlit_app.py:75, 152, 273) are floating-point display values. The integer comparisons behind them are modelled.
- Streamlit's rerun model and widget state are not modelled. Each press is one atomic `Step`, and widget contents are parameters. A press on a button that the current panel does not render is treated as no press.
- The `Session` methods require the panel that renders their button, because that is the only place the page calls them. `Step` covers presses on any panel.
