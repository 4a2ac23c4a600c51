/**
  What the quiz session promises: the invariant every reachable session
  keeps, the score bound it implies, monotonicity between new games, the
  precedence of game over over a pending answer, the label shown in the
  expert panel, and whole games played out.
 */
module QuizProperties {
  import opened Quiz

  // ---------------------------------------------------------------------
  // History bookkeeping

  /** Appending one entry adds that entry's tag count and points. */
  lemma AppendEntry(h: seq<Entry>, e: Entry)
    ensures CountTag(h + [e], EVALUATION) == CountTag(h, EVALUATION) + (if e.author == EVALUATION then 1 else 0)
    ensures CountTag(h + [e], EXPERT) == CountTag(h, EXPERT) + (if e.author == EXPERT then 1 else 0)
    ensures Points(h + [e]) == Points(h) + EntryPoints(e)
  {
    assert (h + [e])[..|h|] == h;
  }

  /**
    A history accounts for at most the evaluation points of its ratings plus
    the expert points of its expert answers, and never for a negative score.
   */
  lemma {:induction false} PointsBound(h: seq<Entry>)
    ensures 0 <= Points(h)
    ensures Points(h) <= POINTS_FOR_EVALUATION * CountTag(h, EVALUATION)
                         + POINTS_FOR_EXPERT_ANSWER * CountTag(h, EXPERT)
  {
    if h != [] {
      PointsBound(h[..|h| - 1]);
    }
  }

  // ---------------------------------------------------------------------
  // The invariant of reachable sessions

  lemma InitInv()
    ensures Inv(Init()) && PhaseOf(Init()) == QuestionPhase
  {
  }

  lemma RatePreservesInv(s: State, r: Rating)
    requires Inv(s) && PhaseOf(s) == EvaluationPhase
    ensures Inv(Step(s, Rate(r)))
  {
    var x := Entry(ARCKYBOT, s.arckyResponse.value);
    var y := Entry(EVALUATION, Label(r));
    assert s.history + [x, y] == (s.history + [x]) + [y];
    AppendEntry(s.history, x);
    AppendEntry(s.history + [x], y);
  }

  lemma ExpertPreservesInv(s: State, text: string)
    requires Inv(s) && PhaseOf(s) == ExpertPhase
    ensures Inv(Step(s, Expert(text)))
  {
    if text != "" {
      AppendEntry(s.history, Entry(EXPERT, text));
    }
  }

  /** Every button press keeps the invariant. */
  lemma StepPreservesInv(s: State, a: Action)
    requires Inv(s)
    ensures Inv(Step(s, a))
  {
    match a
    case Ask(q, reply) =>
    case AskFailed(q) =>
    case Rate(r) =>
      if PhaseOf(s) == EvaluationPhase {
        RatePreservesInv(s, r);
      }
    case Expert(text) =>
      if PhaseOf(s) == ExpertPhase {
        ExpertPreservesInv(s, text);
      }
    case Skip =>
    case NewGame =>
  }

  lemma {:induction false} RunPreservesInv(s: State, trace: seq<Action>)
    requires Inv(s)
    ensures Inv(Run(s, trace))
    decreases |trace|
  {
    if trace != [] {
      StepPreservesInv(s, trace[0]);
      RunPreservesInv(Step(s, trace[0]), trace[1..]);
    }
  }

  /**
    In a session that keeps the invariant at most MAX_QUESTIONS questions are
    asked, at most MAX_QUESTIONS - 1 answers are rated, and the score lies
    between 0 and one full turn's points for each of those ratings.
   */
  lemma ScoreBound(s: State)
    requires Inv(s)
    ensures 0 <= s.questionsAsked <= MAX_QUESTIONS
    ensures CountTag(s.history, EVALUATION) <= MAX_QUESTIONS - 1
    ensures 0 <= s.score <= (MAX_QUESTIONS - 1) * (POINTS_FOR_EVALUATION + POINTS_FOR_EXPERT_ANSWER)
  {
    PointsBound(s.history);
  }

  /** Whatever buttons are pressed from a fresh session, the bounds hold and a panel is shown. */
  lemma GameBounds(trace: seq<Action>)
    ensures var s := Run(Init(), trace);
      && s.questionsAsked <= MAX_QUESTIONS
      && CountTag(s.history, EVALUATION) <= MAX_QUESTIONS - 1
      && 0 <= s.score <= (MAX_QUESTIONS - 1) * (POINTS_FOR_EVALUATION + POINTS_FOR_EXPERT_ANSWER)
      && PhaseOf(s) != NoPanel
  {
    InitInv();
    RunPreservesInv(Init(), trace);
    ScoreBound(Run(Init(), trace));
  }

  // ---------------------------------------------------------------------
  // Panels

  /**
    An answer panel (evaluation or expert) is shown exactly when questions
    remain and a truthy answer is held; the expert panel exactly when, in
    addition, the answer has been rated.
   */
  lemma AnswerPanels(s: State)
    requires Inv(s)
    ensures PhaseOf(s) in {EvaluationPhase, ExpertPhase} <==>
              s.questionsAsked < MAX_QUESTIONS && Truthy(s.arckyResponse)
    ensures PhaseOf(s) == ExpertPhase <==> s.questionsAsked < MAX_QUESTIONS && s.evaluationDone
    ensures PhaseOf(s) == GameOverPhase <==> s.questionsAsked == MAX_QUESTIONS
  {
  }

  /**
    An empty reply is falsy: the question is counted but the question panel
    stays up, so the answer can be neither rated nor skipped.
   */
  lemma EmptyReplyKeepsQuestionPanel(s: State, q: string)
    requires Inv(s) && PhaseOf(s) == QuestionPhase && q != ""
    requires s.questionsAsked < MAX_QUESTIONS - 1
    ensures var t := Step(s, Ask(q, ""));
      t.questionsAsked == s.questionsAsked + 1 && PhaseOf(t) == QuestionPhase
      && (forall r :: Step(t, Rate(r)) == t) && Step(t, Skip) == t
  {
  }

  /**
    When the client raises, the question typed is kept but not counted, no
    answer is held and the question panel stays up for another try.
   */
  lemma FailedAskKeepsQuestionPanel(s: State, q: string)
    requires Inv(s) && PhaseOf(s) == QuestionPhase && q != ""
    ensures var t := Step(s, AskFailed(q));
      && t.currentQuestion == q
      && t == s.(currentQuestion := q)
      && PhaseOf(t) == QuestionPhase && Inv(t)
  {
  }

  /**
    The page tests for game over before it looks at the pending answer: the
    answer to the last question is never rated, and from game over nothing
    but a new game changes the session.
   */
  lemma LastAnswerNeverRated(s: State, q: string, reply: string)
    requires Inv(s) && PhaseOf(s) == QuestionPhase && q != "" && reply != ""
    requires s.questionsAsked == MAX_QUESTIONS - 1
    ensures var t := Step(s, Ask(q, reply));
      && Pending(t) && PhaseOf(t) == GameOverPhase
      && forall a: Action :: !a.NewGame? ==> Step(t, a) == t
  {
  }

  /** A new game, available only on the game-over panel, restores the fresh session. */
  lemma NewGameRestoresInit(s: State)
    requires Inv(s)
    ensures Step(s, NewGame) == if s.questionsAsked == MAX_QUESTIONS then Init() else s
  {
  }

  // ---------------------------------------------------------------------
  // Monotonicity between new games

  /** A press other than "new game" never lowers the score and only appends to the history. */
  lemma StepMonotone(s: State, a: Action)
    requires !a.NewGame?
    ensures Step(s, a).score >= s.score
    ensures s.history <= Step(s, a).history
  {
  }

  lemma {:induction false} RunMonotone(s: State, trace: seq<Action>)
    requires forall i :: 0 <= i < |trace| ==> !trace[i].NewGame?
    ensures Run(s, trace).score >= s.score
    ensures s.history <= Run(s, trace).history
    decreases |trace|
  {
    if trace != [] {
      StepMonotone(s, trace[0]);
      RunMonotone(Step(s, trace[0]), trace[1..]);
    }
  }

  // ---------------------------------------------------------------------
  // The last evaluation shown in the expert panel

  /** A rating moves to the expert panel, which then shows that rating's label. */
  lemma RatingShownInExpertPanel(s: State, r: Rating)
    requires PhaseOf(s) == EvaluationPhase
    ensures var t := Step(s, Rate(r));
      PhaseOf(t) == ExpertPhase && LastEvaluation(t.history) == Some(Label(r))
  {
  }

  /**
    In any session keeping the invariant, the expert panel shows the label of
    the history's last entry, which is the rating just given.
   */
  lemma ExpertPanelShowsLastRating(s: State)
    requires Inv(s) && PhaseOf(s) == ExpertPhase
    ensures var h := s.history;
      |h| >= 2 && h[|h| - 1].author == EVALUATION && IsLabel(h[|h| - 1].text)
      && h[|h| - 2] == Entry(ARCKYBOT, s.arckyResponse.value)
      && LastEvaluation(h) == Some(h[|h| - 1].text)
  {
  }

  // ---------------------------------------------------------------------
  // Whole turns and games

  lemma {:induction false} RunAppend(s: State, a: seq<Action>, b: seq<Action>)
    ensures Run(s, a + b) == Run(Run(s, a), b)
    decreases |a|
  {
    if a == [] {
      assert a + b == b;
    } else {
      assert (a + b)[0] == a[0] && (a + b)[1..] == a[1..] + b;
      RunAppend(Step(s, a[0]), a[1..], b);
    }
  }

  /** One turn: ask, rate, then close with an expert answer or a skip. */
  function Turn(q: string, reply: string, r: Rating, close: Action): seq<Action> {
    [Ask(q, reply), Rate(r), close]
  }

  function Repeat(k: nat, t: seq<Action>): seq<Action> {
    if k == 0 then [] else Repeat(k - 1, t) + t
  }

  /** Points the closing action of a turn earns. */
  function ClosePoints(close: Action): int {
    if close.Expert? && close.text != "" then POINTS_FOR_EXPERT_ANSWER else 0
  }

  predicate IsClose(close: Action) {
    close.Skip? || close.Expert?
  }

  /** A turn is its three presses in order. */
  lemma RunTurn(s: State, q: string, reply: string, r: Rating, close: Action)
    ensures Run(s, Turn(q, reply, r, close)) == Step(Step(Step(s, Ask(q, reply)), Rate(r)), close)
  {
    var s1 := Step(s, Ask(q, reply));
    var s2 := Step(s1, Rate(r));
    var tr := Turn(q, reply, r, close);
    assert tr[1..] == [Rate(r), close];
    assert [Rate(r), close][1..] == [close];
    assert [close][1..] == [];
    assert Run(s2, [close]) == Run(Step(s2, close), []);
    assert Run(s1, [Rate(r), close]) == Run(s2, [close]);
  }

  /** A full turn before the last question counts one question and earns rating plus expert points. */
  lemma TurnEffect(s: State, q: string, reply: string, r: Rating, close: Action)
    requires Inv(s) && PhaseOf(s) == QuestionPhase && IsClose(close)
    requires q != "" && reply != "" && s.questionsAsked < MAX_QUESTIONS - 1
    ensures var t := Run(s, Turn(q, reply, r, close));
      && Inv(t) && PhaseOf(t) == QuestionPhase
      && t.questionsAsked == s.questionsAsked + 1
      && t.score == s.score + RatingPoints(r) + ClosePoints(close)
  {
    var s1 := Step(s, Ask(q, reply));
    var s2 := Step(s1, Rate(r));
    var s3 := Step(s2, close);
    RunTurn(s, q, reply, r, close);
    StepPreservesInv(s, Ask(q, reply));
    StepPreservesInv(s1, Rate(r));
    StepPreservesInv(s2, close);
  }

  /** k identical turns from a fresh session, for k up to MAX_QUESTIONS - 1. */
  lemma {:induction false} TurnsEffect(k: nat, q: string, reply: string, r: Rating, close: Action)
    requires q != "" && reply != "" && IsClose(close) && k <= MAX_QUESTIONS - 1
    ensures var t := Run(Init(), Repeat(k, Turn(q, reply, r, close)));
      && Inv(t) && PhaseOf(t) == QuestionPhase
      && t.questionsAsked == k
      && t.score == k * (RatingPoints(r) + ClosePoints(close))
  {
    var turn := Turn(q, reply, r, close);
    if k == 0 {
      InitInv();
    } else {
      TurnsEffect(k - 1, q, reply, r, close);
      RunAppend(Init(), Repeat(k - 1, turn), turn);
      TurnEffect(Run(Init(), Repeat(k - 1, turn)), q, reply, r, close);
    }
  }

  /**
    Playing all MAX_QUESTIONS turns the same way: the last answer is never
    rated, so only MAX_QUESTIONS - 1 turns score, and the game is over.
   */
  lemma {:induction false} FullGame(q: string, reply: string, r: Rating, close: Action)
    requires q != "" && reply != "" && IsClose(close)
    ensures var t := Run(Init(), Repeat(MAX_QUESTIONS, Turn(q, reply, r, close)));
      && PhaseOf(t) == GameOverPhase
      && t.score == (MAX_QUESTIONS - 1) * (RatingPoints(r) + ClosePoints(close))
      && EndOfGame(t) == Some(Verdict(t.score))
  {
    var turn := Turn(q, reply, r, close);
    var k := MAX_QUESTIONS - 1;
    TurnsEffect(k, q, reply, r, close);
    var s := Run(Init(), Repeat(k, turn));
    RunAppend(Init(), Repeat(k, turn), turn);
    LastAnswerNeverRated(s, q, reply);
    var s1 := Step(s, Ask(q, reply));
    RunTurn(s, q, reply, r, close);
  }

  /** Fifteen turns each rated "Partiellement correcte" and skipped end at 42 points, short by 58. */
  lemma PartialSkipGame()
    ensures var t := Run(Init(), Repeat(MAX_QUESTIONS, Turn("pump fails", "Check the seal.", Partial, Skip)));
      t.score == 42 && PhaseOf(t) == GameOverPhase && EndOfGame(t) == Some(Missed(58))
  {
    FullGame("pump fails", "Check the seal.", Partial, Skip);
  }

  /** Rating every answer "Correcte" and giving an expert answer each time reaches the bound, and the reward. */
  lemma BestGame()
    ensures var t := Run(Init(), Repeat(MAX_QUESTIONS, Turn("pump fails", "Check the seal.", Correct, Expert("Replace gasket"))));
      t.score == (MAX_QUESTIONS - 1) * (POINTS_FOR_EVALUATION + POINTS_FOR_EXPERT_ANSWER)
      && EndOfGame(t) == Some(Granted)
  {
    FullGame("pump fails", "Check the seal.", Correct, Expert("Replace gasket"));
  }

  /** The first turn of a game, press by press. */
  lemma FirstTurn()
    ensures var s1 := Step(Init(), Ask("pump fails", "Check the seal."));
      && PhaseOf(s1) == EvaluationPhase && s1.questionsAsked == 1 && s1.currentQuestion == "pump fails"
      && var s2 := Step(s1, Rate(Correct));
      && PhaseOf(s2) == ExpertPhase && s2.score == 5
      && LastEvaluation(s2.history) == Some(CORRECT_LABEL)
      && var s3 := Step(s2, Expert("Replace gasket"));
      && PhaseOf(s3) == QuestionPhase && s3.score == 15
      && s3.history == [Entry(ARCKYBOT, "Check the seal."), Entry(EVALUATION, CORRECT_LABEL), Entry(EXPERT, "Replace gasket")]
  {
  }
}
