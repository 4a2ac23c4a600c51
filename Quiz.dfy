/**
  The quiz session of "Arckybot vs Expert", as values.

  A session holds the score, the exchange history, the number of questions
  asked, the bot's pending answer and whether that answer has been rated.
  The panel shown (the phase) is not stored: it is recomputed from these
  fields on every rerun of the page. Each button press is one `Action`;
  `Step` applies it through the same if/elif chain the page runs, so a press
  on a button that the current phase does not show changes nothing.
 */
module Quiz {

  // Game constants.
  const MAX_QUESTIONS: int := 15
  const POINTS_FOR_EVALUATION: int := 5
  const POINTS_FOR_EXPERT_ANSWER: int := 10
  const POINTS_PARTIAL_CORRECT: int := 3
  const REWARD_THRESHOLD: int := 100

  // Author tags of history entries.
  const ARCKYBOT: string := "Arckybot"
  const EVALUATION: string := "Évaluation"
  const EXPERT: string := "Expert"

  // Rating labels as they are written into the history.
  const CORRECT_LABEL: string := "Correcte"
  const PARTIAL_LABEL: string := "Partiellement correcte"
  const INCORRECT_LABEL: string := "Incorrecte"

  datatype Option<+T> = None | Some(value: T)

  /** One history entry: the (author, text) pair appended by the page. */
  datatype Entry = Entry(author: string, text: string)

  /** The three rating buttons of the evaluation panel. */
  datatype Rating = Correct | Partial | Incorrect

  function Label(r: Rating): string {
    match r
    case Correct => CORRECT_LABEL
    case Partial => PARTIAL_LABEL
    case Incorrect => INCORRECT_LABEL
  }

  /** Points a rating earns; "Correcte" and "Incorrecte" earn the same. */
  function RatingPoints(r: Rating): int {
    match r
    case Correct => POINTS_FOR_EVALUATION
    case Partial => POINTS_PARTIAL_CORRECT
    case Incorrect => POINTS_FOR_EVALUATION
  }

  /** The session fields kept across reruns. */
  datatype State = State(
    score: int,
    history: seq<Entry>,
    gameOn: bool,
    questionsAsked: int,
    arckyResponse: Option<string>,
    evaluationDone: bool,
    currentQuestion: string)

  /** The session as it is first created. */
  function Init(): (r: State)
    ensures PhaseOf(r) == QuestionPhase && r.score == Points(r.history) && EndOfGame(r) == None
  {
    State(0, [], true, 0, None, false, "")
  }

  /**
    The panel the page renders. `NoPanel` is the case where neither branch of
    the top-level chain applies (the game is off but questions remain).
   */
  datatype Phase = QuestionPhase | EvaluationPhase | ExpertPhase | GameOverPhase | NoPanel

  /** Python truthiness of the optional answer: None and "" are both false. */
  predicate Truthy(response: Option<string>): (b: bool)
    ensures b <==> response != None && response != Some("")
  {
    response.Some? && response.value != ""
  }

  /**
    The if/elif chain that picks the panel on every rerun. Game over is tested
    first, so it wins over a pending answer; an answer panel needs a truthy
    answer, and the expert panel a rated one.
   */
  function PhaseOf(s: State): (r: Phase)
    ensures r == GameOverPhase <==> s.questionsAsked >= MAX_QUESTIONS
    ensures r in {EvaluationPhase, ExpertPhase} ==> s.questionsAsked < MAX_QUESTIONS && Truthy(s.arckyResponse)
    ensures r == ExpertPhase ==> s.evaluationDone
    ensures r == NoPanel <==> !s.gameOn && s.questionsAsked < MAX_QUESTIONS
  {
    if s.gameOn && s.questionsAsked < MAX_QUESTIONS then
      if !Truthy(s.arckyResponse) then QuestionPhase
      else if !s.evaluationDone then EvaluationPhase
      else ExpertPhase
    else if s.questionsAsked >= MAX_QUESTIONS then GameOverPhase
    else NoPanel
  }

  /**
    One button press. `Ask` carries the text typed and the reply the
    completion client returned for it; `AskFailed` is the same press when the
    client raised instead of returning (the request failed, or the reply had
    no answer where the client looks for one), which aborts the handler after
    it has stored the question. The client itself is not modelled.
   */
  datatype Action =
    | Ask(question: string, reply: string)
    | AskFailed(question: string)
    | Rate(rating: Rating)
    | Expert(text: string)
    | Skip
    | NewGame

  /** The action a submission becomes, given what the client did: answered or raised. */
  function Submission(q: string, reply: Option<string>): Action {
    match reply
    case Some(answer) => Ask(q, answer)
    case None => AskFailed(q)
  }

  /** The panel whose button the action is. */
  predicate Offered(p: Phase, a: Action) {
    match a
    case Ask(_, _) => p == QuestionPhase
    case AskFailed(_) => p == QuestionPhase
    case Rate(_) => p == EvaluationPhase
    case Expert(_) => p == ExpertPhase
    case Skip => p == ExpertPhase
    case NewGame => p == GameOverPhase
  }

  /**
    The state after one button press followed by a rerun. A press on a
    button the current panel does not draw is no press; no press turns the
    game off.
   */
  function Step(s: State, a: Action): (r: State)
    ensures !Offered(PhaseOf(s), a) ==> r == s
    ensures r.gameOn == s.gameOn
  {
    var p := PhaseOf(s);
    match a
    case Ask(q, reply) =>
      if p == QuestionPhase && q != "" then
        s.(currentQuestion := q, arckyResponse := Some(reply), questionsAsked := s.questionsAsked + 1)
      else s
    case AskFailed(q) =>
      if p == QuestionPhase && q != "" then s.(currentQuestion := q) else s
    case Rate(r) =>
      if p == EvaluationPhase then
        s.(history := s.history + [Entry(ARCKYBOT, s.arckyResponse.value), Entry(EVALUATION, Label(r))],
           evaluationDone := true,
           score := s.score + RatingPoints(r))
      else s
    case Expert(text) =>
      if p == ExpertPhase then
        var t := if text != "" then
            s.(history := s.history + [Entry(EXPERT, text)], score := s.score + POINTS_FOR_EXPERT_ANSWER)
          else s;
        t.(arckyResponse := None, evaluationDone := false, currentQuestion := "")
      else s
    case Skip =>
      if p == ExpertPhase then
        s.(arckyResponse := None, evaluationDone := false, currentQuestion := "")
      else s
    case NewGame =>
      if p == GameOverPhase then
        s.(history := [], score := 0, questionsAsked := 0, arckyResponse := None,
           evaluationDone := false, currentQuestion := "")
      else s
  }

  /** The state after a sequence of button presses. */
  function Run(s: State, trace: seq<Action>): (r: State)
    ensures r.gameOn == s.gameOn
    ensures PhaseOf(s) == GameOverPhase && (forall i :: 0 <= i < |trace| ==> !trace[i].NewGame?) ==> r == s
    decreases |trace|
  {
    if trace == [] then s else Run(Step(s, trace[0]), trace[1..])
  }

  /**
    The evaluation label shown in the expert panel: the text of the most
    recent history entry tagged "Évaluation", looked up from the end.
   */
  function LastEvaluation(h: seq<Entry>): (r: Option<string>)
    ensures r.None? <==> forall i :: 0 <= i < |h| ==> h[i].author != EVALUATION
    ensures r.Some? ==>
      exists i :: 0 <= i < |h| && h[i] == Entry(EVALUATION, r.value) &&
        forall j :: i < j < |h| ==> h[j].author != EVALUATION
  {
    if |h| == 0 then None
    else if h[|h| - 1].author == EVALUATION then Some(h[|h| - 1].text)
    else LastEvaluation(h[..|h| - 1])
  }

  /** What the game-over panel announces. */
  datatype Reward = Granted | Missed(shortfall: int)

  /** The reward check: granted at the threshold, otherwise the points missing. */
  function Verdict(score: int): (r: Reward)
    ensures r.Granted? <==> score >= REWARD_THRESHOLD
    ensures r.Missed? ==> r.shortfall > 0 && score + r.shortfall == REWARD_THRESHOLD
  {
    if score >= REWARD_THRESHOLD then Granted else Missed(REWARD_THRESHOLD - score)
  }

  /** The verdict displayed, present only on the game-over panel. */
  function EndOfGame(s: State): (r: Option<Reward>)
    ensures r.Some? <==> s.questionsAsked >= MAX_QUESTIONS
    ensures r.Some? ==> (r.value.Granted? <==> s.score >= REWARD_THRESHOLD)
    ensures r.Some? && r.value.Missed? ==> r.value.shortfall == REWARD_THRESHOLD - s.score
  {
    if PhaseOf(s) == GameOverPhase then Some(Verdict(s.score)) else None
  }

  // ---------------------------------------------------------------------
  // Reference definitions over the history, used to state invariants.

  /** Number of history entries carrying the given author tag. */
  function CountTag(h: seq<Entry>, tag: string): nat {
    if h == [] then 0
    else CountTag(h[..|h| - 1], tag) + (if h[|h| - 1].author == tag then 1 else 0)
  }

  function LabelPoints(text: string): int {
    if text == CORRECT_LABEL then POINTS_FOR_EVALUATION
    else if text == PARTIAL_LABEL then POINTS_PARTIAL_CORRECT
    else if text == INCORRECT_LABEL then POINTS_FOR_EVALUATION
    else 0
  }

  /** Points one recorded entry stands for. */
  function EntryPoints(e: Entry): int {
    if e.author == EVALUATION then LabelPoints(e.text)
    else if e.author == EXPERT then POINTS_FOR_EXPERT_ANSWER
    else 0
  }

  /** The score that a history accounts for, entry by entry. */
  function Points(h: seq<Entry>): int {
    if h == [] then 0 else Points(h[..|h| - 1]) + EntryPoints(h[|h| - 1])
  }

  predicate IsLabel(text: string) {
    text == CORRECT_LABEL || text == PARTIAL_LABEL || text == INCORRECT_LABEL
  }

  /** An answer is on screen that has not yet been rated. */
  predicate Pending(s: State) {
    Truthy(s.arckyResponse) && !s.evaluationDone
  }

  /**
    After a rating: the history ends with the bot's answer and the label
    just given, and the answer is still held.
   */
  predicate JustRated(s: State) {
    && Truthy(s.arckyResponse)
    && |s.history| >= 2
    && s.history[|s.history| - 2] == Entry(ARCKYBOT, s.arckyResponse.value)
    && s.history[|s.history| - 1].author == EVALUATION
    && IsLabel(s.history[|s.history| - 1].text)
  }

  /**
    The invariant of every session reachable from `Init`: the game stays on,
    at most MAX_QUESTIONS questions are asked, the score is exactly the points
    the history accounts for, ratings never outnumber questions and at most
    MAX_QUESTIONS - 1 answers are rated, and every expert answer follows its
    own rating.
   */
  ghost predicate Inv(s: State) {
    && s.gameOn
    && 0 <= s.questionsAsked <= MAX_QUESTIONS
    && s.score == Points(s.history)
    && (s.evaluationDone ==> JustRated(s))
    && CountTag(s.history, EVALUATION) + (if Pending(s) then 1 else 0) <= s.questionsAsked
    && CountTag(s.history, EVALUATION) < MAX_QUESTIONS
    && CountTag(s.history, EXPERT) + (if s.evaluationDone then 1 else 0) <= CountTag(s.history, EVALUATION)
  }
}
