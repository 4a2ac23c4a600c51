/**
  The session object the page mutates in place. Its fields are the session
  keys; each button handler is a method that assigns them. Every method also
  states its effect as `Quiz.Step` on the snapshot of the fields, which is
  how the properties proved over `Step` carry over to the object.
 */
module QuizSession {
  import opened Quiz
  import QuizProperties

  class Session {
    var score: int
    var history: seq<Entry>
    var gameOn: bool
    var questionsAsked: int
    var arckyResponse: Option<string>
    var evaluationDone: bool
    var currentQuestion: string

    /** The fields as a value. */
    function Snapshot(): State
      reads this
    {
      State(score, history, gameOn, questionsAsked, arckyResponse, evaluationDone, currentQuestion)
    }

    ghost predicate Valid()
      reads this
    {
      Inv(Snapshot())
    }

    /** The panel the next rerun shows. */
    function CurrentPhase(): Phase
      reads this
    {
      PhaseOf(Snapshot())
    }

    /** The session keys as first initialised. */
    constructor ()
      ensures Valid()
      ensures score == 0 && history == [] && gameOn && questionsAsked == 0
      ensures arckyResponse == None && !evaluationDone && currentQuestion == ""
      ensures Snapshot() == Init() && CurrentPhase() == QuestionPhase
    {
      score := 0;
      history := [];
      gameOn := true;
      questionsAsked := 0;
      arckyResponse := None;
      evaluationDone := false;
      currentQuestion := "";
      QuizProperties.InitInv();
    }

    /**
      "Soumettre la question": a non-empty question is stored and sent to the
      completion client `generate`. When the client answers (`Some`), its
      reply is kept and the question counted. When it raises (`None`), the
      handler stops with only the question stored. An empty question changes
      nothing.
     */
    method SubmitQuestion(question: string, generate: string -> Option<string>)
      requires Valid() && CurrentPhase() == QuestionPhase
      modifies this
      ensures Valid()
      ensures question != "" && generate(question).Some? ==>
        && currentQuestion == question
        && arckyResponse == generate(question)
        && questionsAsked == old(questionsAsked) + 1
        && score == old(score) && history == old(history)
        && evaluationDone == old(evaluationDone) && gameOn == old(gameOn)
      ensures question != "" && generate(question).None? ==>
        Snapshot() == old(Snapshot()).(currentQuestion := question)
      ensures question == "" ==> Snapshot() == old(Snapshot())
      ensures Snapshot() == Step(old(Snapshot()), Submission(question, generate(question)))
    {
      ghost var before := Snapshot();
      if question != "" {
        currentQuestion := question;
        var answer := generate(question);
        if answer.Some? {
          arckyResponse := answer;
          questionsAsked := questionsAsked + 1;
        }
      }
      QuizProperties.StepPreservesInv(before, Submission(question, generate(question)));
    }

    /**
      One of the three rating buttons: the answer and the rating's label are
      appended, the answer is marked rated and the rating's points are added.
     */
    method RateAnswer(r: Rating)
      requires Valid() && CurrentPhase() == EvaluationPhase
      modifies this
      ensures Valid()
      ensures history == old(history) + [Entry(ARCKYBOT, old(arckyResponse).value), Entry(EVALUATION, Label(r))]
      ensures score == old(score) + RatingPoints(r)
      ensures r == Partial ==> score == old(score) + 3
      ensures r != Partial ==> score == old(score) + 5
      ensures evaluationDone
      ensures questionsAsked == old(questionsAsked) && arckyResponse == old(arckyResponse)
      ensures currentQuestion == old(currentQuestion) && gameOn == old(gameOn)
      ensures CurrentPhase() == ExpertPhase && LastEvaluation(history) == Some(Label(r))
      ensures Snapshot() == Step(old(Snapshot()), Rate(r))
    {
      ghost var before := Snapshot();
      history := history + [Entry(ARCKYBOT, arckyResponse.value)];
      history := history + [Entry(EVALUATION, Label(r))];
      evaluationDone := true;
      score := score + RatingPoints(r);
      assert history == before.history + [Entry(ARCKYBOT, before.arckyResponse.value), Entry(EVALUATION, Label(r))];
      QuizProperties.StepPreservesInv(before, Rate(r));
    }

    /**
      "Soumettre votre expertise": a non-empty answer is appended and earns
      the expert points; in every case the turn is closed.
     */
    method SubmitExpert(text: string)
      requires Valid() && CurrentPhase() == ExpertPhase
      modifies this
      ensures Valid()
      ensures text != "" ==> history == old(history) + [Entry(EXPERT, text)] && score == old(score) + POINTS_FOR_EXPERT_ANSWER
      ensures text == "" ==> history == old(history) && score == old(score)
      ensures arckyResponse == None && !evaluationDone && currentQuestion == ""
      ensures questionsAsked == old(questionsAsked) && gameOn == old(gameOn)
      ensures Snapshot() == Step(old(Snapshot()), Expert(text))
    {
      ghost var before := Snapshot();
      if text != "" {
        history := history + [Entry(EXPERT, text)];
        score := score + POINTS_FOR_EXPERT_ANSWER;
      }
      arckyResponse := None;
      evaluationDone := false;
      currentQuestion := "";
      QuizProperties.StepPreservesInv(before, Expert(text));
    }

    /** "Passer cette question": closes the turn without points or history. */
    method SkipQuestion()
      requires Valid() && CurrentPhase() == ExpertPhase
      modifies this
      ensures Valid()
      ensures arckyResponse == None && !evaluationDone && currentQuestion == ""
      ensures score == old(score) && history == old(history)
      ensures questionsAsked == old(questionsAsked) && gameOn == old(gameOn)
      ensures Snapshot() == Step(old(Snapshot()), Skip)
    {
      ghost var before := Snapshot();
      arckyResponse := None;
      evaluationDone := false;
      currentQuestion := "";
      QuizProperties.StepPreservesInv(before, Skip);
    }

    /** "Nouvelle partie" on the game-over panel: back to the fresh session. */
    method Reset()
      requires Valid() && CurrentPhase() == GameOverPhase
      modifies this
      ensures Valid()
      ensures history == [] && score == 0 && questionsAsked == 0
      ensures arckyResponse == None && !evaluationDone && currentQuestion == ""
      ensures gameOn == old(gameOn)
      ensures Snapshot() == Init() && CurrentPhase() == QuestionPhase
      ensures Snapshot() == Step(old(Snapshot()), NewGame)
    {
      history := [];
      score := 0;
      questionsAsked := 0;
      arckyResponse := None;
      evaluationDone := false;
      currentQuestion := "";
      QuizProperties.InitInv();
    }
  }
}
