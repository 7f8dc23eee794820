/** The game-state engine of the serious game: the gauges, the decision log,
    the single checkpoint taken before every card, the choice that changes the
    gauges, and the recovery quiz that either rewinds the run to the checkpoint
    or ends it. The widgets around it are left out; a random draw is a
    parameter (a card position, or a sample of quiz positions). */
module Game {
  import opened Content
  import opened GaugeState
  import opened Quiz

  /** What the game screen does after a choice. */
  datatype ChoiceOutcome =
    | Ignored        // neither "A" nor "B": nothing happens
    | NextEnabled    // no gauge depleted: the "next" button is enabled
    | QuizStarted    // a gauge depleted: the first quiz question is shown
    | QuizNotLoaded  // a gauge depleted, but with an empty quiz catalog there is no first question to show

  /** What the quiz screen does after an answer is submitted. */
  datatype AnswerOutcome =
    | Rejected                              // nothing selected: a warning, no state change
    | NextQuestion                          // more questions remain
    | Passed                                // every answer right: rewound to the checkpoint, new card drawn
    | Failed(corrections: seq<Correction>)  // some answer wrong: corrections shown, window destroyed

  class SeriousGame {
    const cards: seq<Card>
    const quizQuestions: seq<QuizQuestion>

    var gauges: Gauges
    var gameLog: seq<LogEntry>
    var checkpointState: Gauges
    var checkpointLogIndex: nat
    /** The log as it was when the checkpoint was taken. */
    ghost var checkpointLog: seq<LogEntry>
    var currentCard: Card

    var currentQuizList: seq<QuizQuestion>
    var currentQuizIndex: nat
    var quizAnswers: seq<string>
    /** The window has been destroyed: the run is over. */
    var destroyed: bool

    ghost predicate Valid()
      reads this
    {
      |cards| > 0 && currentCard in cards &&
      checkpointLogIndex <= |gameLog| &&
      checkpointLog == gameLog[..checkpointLogIndex] &&
      |quizAnswers| == currentQuizIndex <= |currentQuizList|
    }

    /** A quiz question is on screen, waiting for an answer. */
    predicate QuizActive()
      reads this
    {
      currentQuizIndex < |currentQuizList|
    }

    /** The checkpoint holds exactly the current gauges and log. */
    ghost predicate AtCheckpoint()
      reads this
    {
      checkpointState == gauges && checkpointLogIndex == |gameLog| && checkpointLog == gameLog
    }

    /** A new game: all gauges at 50, an empty log, and the first card drawn. */
    constructor (cards: seq<Card>, quizQuestions: seq<QuizQuestion>, cardIndex: nat)
      requires cardIndex < |cards|
      ensures Valid() && !destroyed && !QuizActive()
      ensures this.cards == cards && this.quizQuestions == quizQuestions
      ensures gauges == Start && gameLog == [] && AtCheckpoint()
      ensures currentCard == cards[cardIndex]
    {
      this.cards := cards;
      this.quizQuestions := quizQuestions;
      gauges := Start;
      gameLog := [];
      checkpointState, checkpointLogIndex, checkpointLog := Start, 0, [];
      currentCard := cards[cardIndex];
      currentQuizList, currentQuizIndex, quizAnswers := [], 0, [];
      destroyed := false;
      new;
      LoadNextCard(cardIndex);
    }

    /** Takes the checkpoint of the current gauges and log length, then shows
        the card at the drawn position. */
    method LoadNextCard(cardIndex: nat)
      requires Valid() && cardIndex < |cards|
      modifies this
      ensures Valid() && AtCheckpoint()
      ensures currentCard == cards[cardIndex]
      ensures gauges == old(gauges) && gameLog == old(gameLog)
      ensures currentQuizList == old(currentQuizList) && currentQuizIndex == old(currentQuizIndex)
      ensures quizAnswers == old(quizAnswers) && destroyed == old(destroyed)
    {
      checkpointState := gauges;
      checkpointLogIndex := |gameLog|;
      checkpointLog := gameLog;
      currentCard := cards[cardIndex];
    }

    /** Draws the quiz: `selection` is the sample of catalog positions. The
        index and the answers start afresh; the first question can be shown
        only when the catalog is not empty. */
    method StartQuiz(selection: seq<nat>) returns (loaded: bool)
      requires Valid() && IsSample(selection, |quizQuestions|)
      modifies this
      ensures Valid()
      ensures currentQuizList == Sample(quizQuestions, selection)
      ensures currentQuizIndex == 0 && quizAnswers == []
      ensures loaded <==> QuizActive()
      ensures loaded <==> |quizQuestions| > 0
      ensures gauges == old(gauges) && gameLog == old(gameLog) && currentCard == old(currentCard)
      ensures checkpointState == old(checkpointState) && checkpointLogIndex == old(checkpointLogIndex)
      ensures checkpointLog == old(checkpointLog) && destroyed == old(destroyed)
    {
      currentQuizList := Sample(quizQuestions, selection);
      currentQuizIndex := 0;
      quizAnswers := [];
      loaded := |currentQuizList| > 0;
    }

    /** Applies choice "A" or "B" on the current card: the option's effects go
        to the gauges, one entry goes to the log, and a depleted gauge starts
        the quiz drawn from `selection`. Any other choice changes nothing. */
    method ApplyChoice(choice: string, selection: seq<nat>) returns (outcome: ChoiceOutcome)
      requires Valid() && IsSample(selection, |quizQuestions|)
      modifies this
      ensures Valid()
      ensures currentCard == old(currentCard) && destroyed == old(destroyed)
      ensures checkpointState == old(checkpointState) && checkpointLogIndex == old(checkpointLogIndex)
      ensures checkpointLog == old(checkpointLog)
      ensures Chosen(currentCard, choice).None? ==>
        outcome == Ignored && gauges == old(gauges) && gameLog == old(gameLog) &&
        currentQuizList == old(currentQuizList) && currentQuizIndex == old(currentQuizIndex) &&
        quizAnswers == old(quizAnswers)
      ensures Chosen(currentCard, choice).Some? ==>
        var opt := Chosen(currentCard, choice).value;
        gauges == Apply(old(gauges), opt.effects) &&
        gameLog == old(gameLog) + [EntryFor(currentCard, opt)]
      ensures Chosen(currentCard, choice).Some? && !Failing(gauges) ==>
        outcome == NextEnabled &&
        currentQuizList == old(currentQuizList) && currentQuizIndex == old(currentQuizIndex) &&
        quizAnswers == old(quizAnswers)
      ensures Chosen(currentCard, choice).Some? && Failing(gauges) ==>
        currentQuizList == Sample(quizQuestions, selection) && currentQuizIndex == 0 && quizAnswers == [] &&
        outcome == (if QuizActive() then QuizStarted else QuizNotLoaded)
    {
      var chosen := Chosen(currentCard, choice);
      if chosen.None? {
        return Ignored;
      }
      var opt := chosen.value;
      gauges := Apply(gauges, opt.effects);
      gameLog := gameLog + [EntryFor(currentCard, opt)];
      assert gameLog[..checkpointLogIndex] == old(gameLog)[..checkpointLogIndex];
      if Failing(gauges) {
        var loaded := StartQuiz(selection);
        outcome := if loaded then QuizStarted else QuizNotLoaded;
      } else {
        outcome := NextEnabled;
      }
    }

    /** What processing `answer` did, relative to the state before it: the
        answer is recorded; while questions remain nothing else changes; after
        the last one the quiz is passed exactly when every answer is right. A
        failed quiz ends the run with one correction per wrong answer and
        leaves gauges, log and checkpoint alone; a passed one restores the
        gauges and the log from the checkpoint and draws the card at
        `cardIndex`, which takes a new checkpoint of the restored state. */
    twostate predicate Processed(answer: string, cardIndex: nat, outcome: AnswerOutcome)
      reads this
    {
      quizAnswers == old(quizAnswers) + [answer] &&
      currentQuizIndex == old(currentQuizIndex) + 1 && currentQuizList == old(currentQuizList) &&
      outcome != Rejected &&
      (outcome == NextQuestion <==> QuizActive()) &&
      (outcome != Passed ==>
        gauges == old(gauges) && gameLog == old(gameLog) && currentCard == old(currentCard) &&
        checkpointState == old(checkpointState) && checkpointLogIndex == old(checkpointLogIndex) &&
        checkpointLog == old(checkpointLog)) &&
      (outcome == NextQuestion ==> destroyed == old(destroyed)) &&
      (!QuizActive() && |currentQuizList| <= |quizAnswers| ==>
        (outcome == Passed <==> AllCorrect(currentQuizList, quizAnswers)) &&
        (outcome.Failed? ==>
          outcome.corrections == Corrections(currentQuizList, quizAnswers) &&
          outcome.corrections != [] && destroyed)) &&
      (outcome == Passed ==>
        gauges == old(checkpointState) && gameLog == old(checkpointLog) && AtCheckpoint() &&
        cardIndex < |cards| && currentCard == cards[cardIndex] && destroyed == old(destroyed))
    }

    /** Records the answer to the question on screen; after the last one the
        quiz is graded (see `Processed`). */
    method ProcessQuizAnswer(answer: string, cardIndex: nat) returns (outcome: AnswerOutcome)
      requires Valid() && QuizActive() && cardIndex < |cards|
      modifies this
      ensures Valid() && Processed(answer, cardIndex, outcome)
    {
      quizAnswers := quizAnswers + [answer];
      currentQuizIndex := currentQuizIndex + 1;
      if currentQuizIndex < |currentQuizList| {
        return NextQuestion;
      }
      var corrections := Grade(currentQuizList, quizAnswers);
      if corrections != [] {
        destroyed := true;
        outcome := Failed(corrections);
      } else {
        gauges := checkpointState;
        gameLog := gameLog[..checkpointLogIndex];
        LoadNextCard(cardIndex);
        outcome := Passed;
      }
    }

    /** The quiz screen's submit action on the selected letter: nothing
        selected is refused without any change; otherwise the answer is
        processed. */
    method SubmitAnswer(selected: string, cardIndex: nat) returns (outcome: AnswerOutcome)
      requires Valid() && QuizActive() && cardIndex < |cards|
      modifies this
      ensures Valid()
      ensures selected == "" ==> outcome == Rejected && unchanged(this)
      ensures selected != "" ==> Processed(selected, cardIndex, outcome)
    {
      if selected == "" {
        return Rejected;
      }
      outcome := ProcessQuizAnswer(selected, cardIndex);
    }
  }

  /** A run that ends at its first depletion: the option costs 60 budget out
      of 50, the quiz of the single question is answered wrong, and the run
      ends with one decision in the log. */
  method DefeatScenario()
  {
    var buy := CardOption("Acheter", "Trop cher", map[Budget := -60]);
    var wait := CardOption("Attendre", "Prudent", map[]);
    var card := Card(Some("Une voiture ?"), buy, wait);
    var question := QuizQuestion(Some("Que vaut 2 + 2 ?"), "B", None);
    var game := new SeriousGame([card], [question], 0);
    var outcome := game.ApplyChoice("A", [0]);
    assert game.gauges == Gauges(-10, 50, 50);
    assert outcome == QuizStarted && |game.gameLog| == 1;
    assert game.currentQuizList == [question];
    var result := game.SubmitAnswer("C", 0);
    assert game.quizAnswers[0] != game.currentQuizList[0].answer;
    assert result.Failed? && game.destroyed && |game.gameLog| == 1;
  }

  /** The same depletion followed by a passed quiz: the run is rewound to the
      state before the depleting card, which is the start of the game. */
  method RecoveryScenario()
  {
    var buy := CardOption("Acheter", "Trop cher", map[Budget := -60]);
    var wait := CardOption("Attendre", "Prudent", map[]);
    var card := Card(Some("Une voiture ?"), buy, wait);
    var question := QuizQuestion(Some("Que vaut 2 + 2 ?"), "B", None);
    var game := new SeriousGame([card], [question], 0);
    var outcome := game.ApplyChoice("A", [0]);
    assert outcome == QuizStarted;
    var rejected := game.SubmitAnswer("", 0);
    assert rejected == Rejected && game.QuizActive();
    var result := game.SubmitAnswer("B", 0);
    assert result == Passed && game.gauges == Start && game.gameLog == [] && !game.destroyed;
  }
}
