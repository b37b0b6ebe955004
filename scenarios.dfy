/** Click sequences on a fresh application, showing what the button states
    do and do not rule out. */
module Scenarios {
  import opened Scoring
  import opened Choices
  import opened Flashcards

  /** In the flashcard window a grade before Reveal is ignored, but Reveal
      re-enables Right and Wrong without looking at whether the card was
      already graded: one flashcard can be graded twice, here Right and then
      Wrong, giving 1/2 for a session that saw a single card. */
  method RegradeOneFlashcard() returns (s: Score)
    ensures s == Score(1, 2)
  {
    var app := new MarkDramaFlashcards();
    app.Press(FlashcardsButton);
    app.Press(GotItRight);
    assert app.score == Score(0, 0);
    app.Press(RevealAnswer);
    app.Press(GotItRight);
    assert app.score == Score(1, 1);
    app.Press(RevealAnswer);
    app.Press(GotItWrong);
    s := app.score;
  }

  /** In the multiple-choice window the first answer disables every answer
      button, so a second click on the same question is not graded. */
  method AnswerTwiceGradedOnce() returns (s: Score)
    ensures s.total == 1 && s.correct <= 1
  {
    var app := new MarkDramaFlashcards();
    app.Press(MultipleChoiceButton(0, [0, 0, 0, 0, 0, 0, 0], 0, [0, 0, 0], 0));
    app.Press(AnswerButton(0));
    assert app.score.total == 1;
    app.Press(AnswerButton(1));
    s := app.score;
  }

  /** Clicking the answer button that carries the correct answer scores a
      point. */
  method ClickCorrectLabel() returns (s: Score)
    ensures s == Score(1, 1)
  {
    var app := new MarkDramaFlashcards();
    app.Press(MultipleChoiceButton(0, [0, 0, 0, 0, 0, 0, 0], 0, [0, 0, 0], 0));
    assert app.mode2CorrectAnswer in app.answerButtonText[..];
    var i :| 0 <= i < 4 && app.answerButtonText[i] == app.mode2CorrectAnswer;
    app.Press(AnswerButton(i));
    s := app.score;
  }

  /** Clicking an answer button with another label counts towards the total
      only; since the labels are distinct, one of the first two buttons is
      such a button. */
  method ClickWrongLabel() returns (s: Score)
    ensures s == Score(0, 1)
  {
    var app := new MarkDramaFlashcards();
    app.Press(MultipleChoiceButton(0, [0, 0, 0, 0, 0, 0, 0], 0, [0, 0, 0], 0));
    var i := if app.answerButtonText[0] != app.mode2CorrectAnswer then 0 else 1;
    assert app.answerButtonText[..][0] != app.answerButtonText[..][1];
    app.Press(AnswerButton(i));
    s := app.score;
  }

  /** Ticking a part while the flashcard window is open keeps the window and
      its buttons working. */
  method TickWhileFlashcardsOpen() returns (parts: seq<int>, revealed: bool)
    ensures parts == [1] && revealed
  {
    var app := new MarkDramaFlashcards();
    app.Press(FlashcardsButton);
    app.Press(PartCheckbox(1));
    app.Press(RevealAnswer);
    parts, revealed := app.partsToInclude, app.correctEnabled && app.wrongEnabled;
  }
}
