/** The session logic of the `MarkDramaFlashcards` application object: the
    part checkboxes, the score, and the enabled/disabled state of the buttons
    of the flashcard window (mode 1) and the multiple-choice window (mode 2).
    Widgets are reduced to the flags and texts the handlers set; the random
    module's choices are parameters. */
module Flashcards {
  import opened Lists
  import opened Selection
  import opened Scoring
  import opened Choices

  /** A click on one of the application's controls. A multiple-choice click
      carries the random choices made while handling it: the question drawn
      (`pick` indexes the dict's keys), the shuffle's swap choices and the
      fix-up slot (`random.randint(0, 3)`). */
  datatype Event =
    | PartCheckbox(part: int)
    | FlashcardsButton
    | MultipleChoiceButton(pick: nat, windowSwaps: seq<nat>, windowSlot: nat, swaps: seq<nat>, slot: nat)
    | RevealAnswer
    | GotItRight
    | GotItWrong
    | FlashcardNext
    | AnswerButton(index: nat)
    | MultipleChoiceNext(pick: nat, swaps: seq<nat>, slot: nat)

  class MarkDramaFlashcards {
    var partsToInclude: seq<int>
    var score: Score
    /** The grading events since the last `reset_score`. */
    ghost var sessionGrades: seq<bool>

    // Mode 1: whether the window exists, and the states of its buttons.
    var mode1Created: bool
    var mode1NextEnabled: bool
    var correctEnabled: bool
    var wrongEnabled: bool
    /** The answer of the current flashcard has been revealed. */
    ghost var mode1Revealed: bool
    /** Grades given to the current flashcard. */
    ghost var mode1Grades: nat

    // Mode 2.
    const mode2CorrectAnswers: Table
    var mode2Created: bool
    var mode2QuestionNumber: string
    var mode2CorrectAnswer: string
    var nextQuestionEnabled: bool
    /** The texts and states of the four answer buttons. */
    var answerButtonText: array<string>
    var answerButtonEnabled: array<bool>
    /** Grades given to the displayed multiple-choice question. */
    ghost var mode2Grades: nat

    /** The displayed question is a key of the dict and its answer is that
        key's value. */
    ghost predicate QuestionDrawn()
      reads this`mode2QuestionNumber, this`mode2CorrectAnswer
    {
      mode2QuestionNumber in Keys(mode2CorrectAnswers)
      && mode2CorrectAnswer == Lookup(mode2CorrectAnswers, mode2QuestionNumber)
    }

    /** The part list, the score and the dict. */
    ghost predicate SessionValid()
      reads this`partsToInclude, this`score, this`sessionGrades
    {
      Distinct(partsToInclude)
      && score == ScoreAfter(sessionGrades)
      && score.correct <= score.total
      && WellFormed(mode2CorrectAnswers)
    }

    /** The multiple-choice window, once it exists: four answer buttons,
        pairwise distinct labels, one of which is the displayed question's
        answer. */
    ghost predicate Mode2Valid()
      reads this`mode2Created, this`mode2QuestionNumber, this`mode2CorrectAnswer,
        this`answerButtonText, this`answerButtonEnabled, answerButtonText
    {
      mode2Created ==>
        answerButtonText.Length == 4 && answerButtonEnabled.Length == 4
        && QuestionDrawn()
        && mode2CorrectAnswer in answerButtonText[..]
        && Distinct(answerButtonText[..])
    }

    /** What holds however the handlers are called. */
    ghost predicate Valid()
      reads this`partsToInclude, this`score, this`sessionGrades, this`mode2Created,
        this`mode2QuestionNumber, this`mode2CorrectAnswer, this`answerButtonText,
        this`answerButtonEnabled, answerButtonText
    {
      SessionValid() && Mode2Valid()
    }

    /** What the button states guarantee when handlers are only reached
        through enabled buttons: in mode 1 Right/Wrong are enabled only after
        Reveal and Next only after a grade; in mode 2 a question is either
        ungraded with every answer button enabled and Next disabled, or
        graded once with every answer button disabled and Next enabled. */
    ghost predicate Gating()
      reads this`mode1Created, this`correctEnabled, this`wrongEnabled, this`mode1NextEnabled,
        this`mode1Revealed, this`mode1Grades, this`mode2Created, this`mode2Grades,
        this`nextQuestionEnabled, this`answerButtonEnabled, answerButtonEnabled
    {
      (mode1Created ==>
         correctEnabled == wrongEnabled
         && (correctEnabled ==> mode1Revealed)
         && (mode1NextEnabled <==> mode1Grades > 0))
      && (mode2Created ==>
            (mode2Grades == 0 && !nextQuestionEnabled
             && forall i :: 0 <= i < answerButtonEnabled.Length ==> answerButtonEnabled[i])
            || (mode2Grades == 1 && nextQuestionEnabled
                && forall i :: 0 <= i < answerButtonEnabled.Length ==> !answerButtonEnabled[i]))
    }

    /** The state of the flashcard window. */
    ghost function Mode1State(): (bool, bool, bool, bool, bool, nat)
      reads this`mode1Created, this`mode1NextEnabled, this`correctEnabled, this`wrongEnabled,
        this`mode1Revealed, this`mode1Grades
    {
      (mode1Created, mode1NextEnabled, correctEnabled, wrongEnabled, mode1Revealed, mode1Grades)
    }

    /** The state of the multiple-choice window. */
    ghost function Mode2State(): (bool, string, string, bool, array<string>, array<bool>,
                                  seq<string>, seq<bool>, nat)
      reads this`mode2Created, this`mode2QuestionNumber, this`mode2CorrectAnswer,
        this`nextQuestionEnabled, this`answerButtonText, this`answerButtonEnabled, this`mode2Grades,
        answerButtonText, answerButtonEnabled
    {
      (mode2Created, mode2QuestionNumber, mode2CorrectAnswer, nextQuestionEnabled,
       answerButtonText, answerButtonEnabled, answerButtonText[..], answerButtonEnabled[..], mode2Grades)
    }

    /** `__init__`: no part selected, the dict loaded, the score reset, no
        game window yet. */
    constructor ()
      ensures Valid() && Gating()
      ensures partsToInclude == [] && score == Score(0, 0)
      ensures mode2CorrectAnswers == LoadMode2CorrectAnswers()
      ensures !mode1Created && !mode2Created
      ensures fresh(answerButtonText) && fresh(answerButtonEnabled)
    {
      partsToInclude := [];
      mode2CorrectAnswers := LoadMode2CorrectAnswers();
      mode1Created, mode2Created := false, false;
      answerButtonText, answerButtonEnabled := new string[0], new bool[0];
      new;
      ResetScore();
    }

    /** `reset_score` */
    method ResetScore()
      modifies this`score, this`sessionGrades
      ensures score == Score(0, 0) && sessionGrades == []
    {
      score := Score(0, 0);
      sessionGrades := [];
    }

    /** `toggle_part` */
    method TogglePart(p: int)
      requires Valid()
      modifies this`partsToInclude
      ensures Valid()
      ensures partsToInclude == Toggled(old(partsToInclude), p)
      ensures p in partsToInclude <==> p !in old(partsToInclude)
      ensures forall q :: q != p ==> (q in partsToInclude <==> q in old(partsToInclude))
    {
      ToggleFlips(partsToInclude, p);
      ToggleKeepsDistinct(partsToInclude, p);
      forall q | q != p ensures q in Toggled(partsToInclude, p) <==> q in partsToInclude {
        ToggleKeepsOthers(partsToInclude, p, q);
      }
      if p in partsToInclude {
        partsToInclude := RemoveFirst(partsToInclude, p);
      } else {
        partsToInclude := partsToInclude + [p];
      }
    }

    /** Records one grading event in the score. */
    method RecordGrade(right: bool)
      requires Valid()
      modifies this`score, this`sessionGrades
      ensures Valid()
      ensures score == Graded(old(score), right)
      ensures sessionGrades == old(sessionGrades) + [right]
    {
      ghost var grades := sessionGrades + [right];
      ScoreAfterSnoc(sessionGrades, right);
      CorrectAtMostTotal(grades);
      var next := Graded(score, right);
      assert next == ScoreAfter(grades) && next.correct <= next.total;
      score := next;
      sessionGrades := grades;
    }

    // ---------------------------------------------------------------- Mode 1

    /** `start_mode1`: resets the score, then opens the flashcard window. */
    method StartMode1()
      requires Valid()
      modifies this`score, this`sessionGrades, this`mode1Created, this`mode1NextEnabled,
        this`correctEnabled, this`wrongEnabled, this`mode1Revealed, this`mode1Grades
      ensures Valid() && mode1Created && score == Score(0, 0)
      ensures !mode1NextEnabled && !correctEnabled && !wrongEnabled
      ensures !mode1Revealed && mode1Grades == 0
    {
      ResetScore();
      CreateMode1Window();
    }

    /** `create_mode1_window`: resets the score, creates the buttons (Right
        and Wrong start enabled as Tk buttons do, Next disabled) and shows the
        first flashcard. */
    method CreateMode1Window()
      requires Valid()
      modifies this`score, this`sessionGrades, this`mode1Created, this`mode1NextEnabled,
        this`correctEnabled, this`wrongEnabled, this`mode1Revealed, this`mode1Grades
      ensures Valid() && mode1Created && score == Score(0, 0)
      ensures !mode1NextEnabled && !correctEnabled && !wrongEnabled
      ensures !mode1Revealed && mode1Grades == 0
    {
      ResetScore();
      mode1Created := true;
      correctEnabled, wrongEnabled := true, true;
      mode1NextEnabled := false;
      UpdateMode1Question();
    }

    /** `reveal_mode1_answer`: enables Right and Wrong, whatever their state. */
    method RevealMode1Answer()
      requires Valid() && mode1Created
      modifies this`correctEnabled, this`wrongEnabled, this`mode1Revealed
      ensures Valid()
      ensures correctEnabled && wrongEnabled && mode1Revealed
    {
      mode1Revealed := true;
      correctEnabled, wrongEnabled := true, true;
    }

    /** `update_mode1_question`: a new flashcard, with Next, Right and Wrong
        disabled. */
    method UpdateMode1Question()
      requires Valid() && mode1Created
      modifies this`mode1NextEnabled, this`correctEnabled, this`wrongEnabled,
        this`mode1Revealed, this`mode1Grades
      ensures Valid()
      ensures !mode1NextEnabled && !correctEnabled && !wrongEnabled
      ensures !mode1Revealed && mode1Grades == 0
    {
      mode1Revealed, mode1Grades := false, 0;
      mode1NextEnabled := false;
      correctEnabled, wrongEnabled := false, false;
    }

    /** `correct_mode1_answer`: correct and total both rise by one; Next is
        enabled, Right and Wrong disabled. */
    method CorrectMode1Answer()
      requires Valid() && mode1Created
      modifies this`score, this`sessionGrades, this`mode1NextEnabled,
        this`correctEnabled, this`wrongEnabled, this`mode1Grades
      ensures Valid()
      ensures score == Score(old(score.correct) + 1, old(score.total) + 1)
      ensures sessionGrades == old(sessionGrades) + [true]
      ensures mode1NextEnabled && !correctEnabled && !wrongEnabled
      ensures mode1Grades == old(mode1Grades) + 1
    {
      mode1Grades, mode1NextEnabled, correctEnabled, wrongEnabled := mode1Grades + 1, true, false, false;
      RecordGrade(true);
    }

    /** `wrong_mode1_answer`: only total rises; Next is enabled, Right and
        Wrong disabled. */
    method WrongMode1Answer()
      requires Valid() && mode1Created
      modifies this`score, this`sessionGrades, this`mode1NextEnabled,
        this`correctEnabled, this`wrongEnabled, this`mode1Grades
      ensures Valid()
      ensures score == Score(old(score.correct), old(score.total) + 1)
      ensures sessionGrades == old(sessionGrades) + [false]
      ensures mode1NextEnabled && !correctEnabled && !wrongEnabled
      ensures mode1Grades == old(mode1Grades) + 1
    {
      mode1Grades, mode1NextEnabled, correctEnabled, wrongEnabled := mode1Grades + 1, true, false, false;
      RecordGrade(false);
    }

    // ---------------------------------------------------------------- Mode 2

    /** `random.choice(list(keys()))` and the lookup of its answer, as both
        `start_mode2` and `next_mode2_question` do it. */
    method DrawQuestion(pick: nat)
      requires WellFormed(mode2CorrectAnswers) && pick < |mode2CorrectAnswers|
      modifies this`mode2QuestionNumber, this`mode2CorrectAnswer
      ensures QuestionDrawn()
      ensures mode2QuestionNumber == Keys(mode2CorrectAnswers)[pick]
      ensures mode2CorrectAnswer == Values(mode2CorrectAnswers)[pick]
    {
      LookupAt(mode2CorrectAnswers, pick);
      mode2QuestionNumber := Keys(mode2CorrectAnswers)[pick];
      mode2CorrectAnswer := Lookup(mode2CorrectAnswers, mode2QuestionNumber);
    }

    /** `start_mode2`: draws the first question, then opens the window. */
    method StartMode2(pick: nat, windowSwaps: seq<nat>, windowSlot: nat, swaps: seq<nat>, slot: nat)
      requires Valid() && pick < |mode2CorrectAnswers|
      requires ShuffleChoices(|mode2CorrectAnswers|, windowSwaps) && windowSlot <= 3
      requires ShuffleChoices(4, swaps) && slot <= 3
      modifies this`mode2QuestionNumber, this`mode2CorrectAnswer, this`score, this`sessionGrades,
        this`mode2Created, this`answerButtonText, this`answerButtonEnabled,
        this`nextQuestionEnabled, this`mode2Grades
      ensures Valid() && mode2Created && score == Score(0, 0)
      ensures fresh(answerButtonText) && fresh(answerButtonEnabled)
      ensures mode2QuestionNumber == Keys(mode2CorrectAnswers)[pick]
      ensures mode2CorrectAnswer == Values(mode2CorrectAnswers)[pick]
      ensures answerButtonText[..] == AnswerOptions(mode2CorrectAnswers, swaps, slot, mode2CorrectAnswer)
      ensures !nextQuestionEnabled && mode2Grades == 0
      ensures forall i :: 0 <= i < 4 ==> answerButtonEnabled[i]
    {
      DrawQuestion(pick);
      CreateMode2Window(windowSwaps, windowSlot, swaps, slot);
    }

    /** `create_mode2_window`: resets the score, creates four enabled answer
        buttons labelled with the first four of all the dict values shuffled,
        disables Next, then lets `update_mode2_question` relabel the buttons. */
    method CreateMode2Window(windowSwaps: seq<nat>, windowSlot: nat, swaps: seq<nat>, slot: nat)
      requires SessionValid() && QuestionDrawn()
      requires ShuffleChoices(|mode2CorrectAnswers|, windowSwaps) && windowSlot <= 3
      requires ShuffleChoices(4, swaps) && slot <= 3
      modifies this`score, this`sessionGrades, this`mode2Created, this`answerButtonText,
        this`answerButtonEnabled, this`nextQuestionEnabled, this`mode2Grades
      ensures Valid() && mode2Created && score == Score(0, 0)
      ensures fresh(answerButtonText) && fresh(answerButtonEnabled)
      ensures answerButtonText[..] == AnswerOptions(mode2CorrectAnswers, swaps, slot, mode2CorrectAnswer)
      ensures !nextQuestionEnabled && mode2Grades == 0
      ensures forall i :: 0 <= i < 4 ==> answerButtonEnabled[i]
    {
      ResetScore();
      answerButtonText, answerButtonEnabled := NewAnswerButtons(windowSwaps, windowSlot);
      nextQuestionEnabled := false;
      mode2Created := true;
      UpdateMode2Question(swaps, slot);
    }

    /** The answer buttons `create_mode2_window` creates: four enabled buttons
        labelled with the first four of all the dict values, shuffled and then
        fixed up. */
    method NewAnswerButtons(windowSwaps: seq<nat>, windowSlot: nat)
      returns (texts: array<string>, enabled: array<bool>)
      requires WellFormed(mode2CorrectAnswers)
      requires ShuffleChoices(|mode2CorrectAnswers|, windowSwaps) && windowSlot <= 3
      ensures fresh(texts) && fresh(enabled) && texts.Length == 4 && enabled.Length == 4
      ensures texts[..] == FixUp(Shuffled(Values(mode2CorrectAnswers), windowSwaps, |windowSwaps|),
                                 windowSlot, mode2CorrectAnswer)[..4]
      ensures forall i :: 0 <= i < 4 ==> enabled[i]
    {
      var values := Values(mode2CorrectAnswers);
      var options := new string[|values|](i requires 0 <= i < |values| => values[i]);
      assert options[..] == values;
      Shuffle(options, windowSwaps);
      if mode2CorrectAnswer !in options[..] {
        options[windowSlot] := mode2CorrectAnswer;
      }
      texts := new string[4];
      enabled := new bool[4];
      for i := 0 to 4
        modifies texts, enabled
        invariant forall k :: 0 <= k < i ==> texts[k] == options[k] && enabled[k]
      {
        texts[i] := options[i];
        enabled[i] := true;
      }
    }

    /** `update_mode2_question`: relabels the four answer buttons with the
        first four dict values, shuffled and fixed up so that the correct
        answer is present, and disables Next. */
    method UpdateMode2Question(swaps: seq<nat>, slot: nat)
      requires WellFormed(mode2CorrectAnswers) && QuestionDrawn()
      requires answerButtonText.Length == 4
      requires ShuffleChoices(4, swaps) && slot <= 3
      modifies answerButtonText, this`nextQuestionEnabled, this`mode2Grades
      ensures answerButtonText[..] == AnswerOptions(mode2CorrectAnswers, swaps, slot, mode2CorrectAnswer)
      ensures mode2CorrectAnswer in answerButtonText[..] && Distinct(answerButtonText[..])
      ensures !nextQuestionEnabled && mode2Grades == 0
    {
      var first := Values(mode2CorrectAnswers)[..4];
      var options := new string[4](i requires 0 <= i < 4 => first[i]);
      assert options[..] == first;
      Shuffle(options, swaps);
      if mode2CorrectAnswer !in options[..] {
        options[slot] := mode2CorrectAnswer;
      }
      assert options[..] == AnswerOptions(mode2CorrectAnswers, swaps, slot, mode2CorrectAnswer);
      for i := 0 to 4
        modifies answerButtonText
        invariant forall k :: 0 <= k < i ==> answerButtonText[k] == options[k]
      {
        answerButtonText[i] := options[i];
      }
      assert answerButtonText[..] == options[..];
      AnswerOptionsDistinct(mode2CorrectAnswers, swaps, slot, mode2CorrectAnswer);
      nextQuestionEnabled := false;
      mode2Grades := 0;
    }

    /** `check_mode2_answer`: exact string comparison with the correct answer;
        total rises by one and correct by one on a match; Next is enabled and
        every answer button disabled. */
    method CheckMode2Answer(userAnswer: string)
      requires Valid() && mode2Created
      modifies this`score, this`sessionGrades, this`nextQuestionEnabled, this`mode2Grades,
        answerButtonEnabled
      ensures Valid()
      ensures score == Graded(old(score), userAnswer == mode2CorrectAnswer)
      ensures sessionGrades == old(sessionGrades) + [userAnswer == mode2CorrectAnswer]
      ensures nextQuestionEnabled && forall i :: 0 <= i < 4 ==> !answerButtonEnabled[i]
      ensures mode2Grades == old(mode2Grades) + 1
    {
      RecordGrade(userAnswer == mode2CorrectAnswer);
      mode2Grades := mode2Grades + 1;
      nextQuestionEnabled := true;
      for i := 0 to 4
        modifies answerButtonEnabled
        invariant forall k :: 0 <= k < i ==> !answerButtonEnabled[k]
      {
        answerButtonEnabled[i] := false;
      }
    }

    /** `next_mode2_question`: draws a question (with replacement), enables
        every answer button, then `update_mode2_question` disables Next. */
    method NextMode2Question(pick: nat, swaps: seq<nat>, slot: nat)
      requires Valid() && mode2Created && pick < |mode2CorrectAnswers|
      requires ShuffleChoices(4, swaps) && slot <= 3
      modifies this`mode2QuestionNumber, this`mode2CorrectAnswer, answerButtonText,
        answerButtonEnabled, this`nextQuestionEnabled, this`mode2Grades
      ensures Valid()
      ensures mode2QuestionNumber == Keys(mode2CorrectAnswers)[pick]
      ensures mode2CorrectAnswer == Values(mode2CorrectAnswers)[pick]
      ensures answerButtonText[..] == AnswerOptions(mode2CorrectAnswers, swaps, slot, mode2CorrectAnswer)
      ensures !nextQuestionEnabled && mode2Grades == 0
      ensures forall i :: 0 <= i < 4 ==> answerButtonEnabled[i]
    {
      DrawQuestion(pick);
      for i := 0 to 4
        modifies answerButtonEnabled
        invariant forall k :: 0 <= k < i ==> answerButtonEnabled[k]
      {
        answerButtonEnabled[i] := true;
      }
      UpdateMode2Question(swaps, slot);
    }

    // ------------------------------------------------------------- Dispatch

    /** Tk invokes a button's command only while the button is enabled. The
        Reveal button and the title-screen controls are never disabled; the
        checkboxes exist for parts 1 to 6. */
    predicate Enabled(e: Event)
      reads this, answerButtonEnabled
    {
      match e
      case PartCheckbox(p) => 1 <= p <= 6
      case FlashcardsButton => true
      case MultipleChoiceButton(_, _, _, _, _) => true
      case RevealAnswer => mode1Created
      case GotItRight => mode1Created && correctEnabled
      case GotItWrong => mode1Created && wrongEnabled
      case FlashcardNext => mode1Created && mode1NextEnabled
      case AnswerButton(i) => mode2Created && i < answerButtonEnabled.Length && answerButtonEnabled[i]
      case MultipleChoiceNext(_, _, _) => mode2Created && nextQuestionEnabled
    }

    /** The random choices an event carries are ones the random module can make. */
    predicate ChoicesInRange(e: Event)
    {
      match e
      case MultipleChoiceButton(pick, windowSwaps, windowSlot, swaps, slot) =>
        pick < |mode2CorrectAnswers| && ShuffleChoices(|mode2CorrectAnswers|, windowSwaps)
        && windowSlot <= 3 && ShuffleChoices(4, swaps) && slot <= 3
      case MultipleChoiceNext(pick, swaps, slot) =>
        pick < |mode2CorrectAnswers| && ShuffleChoices(4, swaps) && slot <= 3
      case _ => true
    }

    /** A click: ignored on a disabled control, otherwise handled by the
        control's command. Each command leaves the part list and the other
        window's state as they were. */
    method Press(e: Event)
      requires Valid() && Gating() && ChoicesInRange(e)
      modifies this, answerButtonText, answerButtonEnabled
      ensures Valid() && Gating()
      ensures answerButtonText == old(answerButtonText) || fresh(answerButtonText)
      ensures answerButtonEnabled == old(answerButtonEnabled) || fresh(answerButtonEnabled)
      ensures !old(Enabled(e)) ==>
                unchanged(this) && unchanged(answerButtonText) && unchanged(answerButtonEnabled)
      ensures old(Enabled(e)) && e.PartCheckbox? ==>
                partsToInclude == Toggled(old(partsToInclude), e.part) && score == old(score)
                && Mode1State() == old(Mode1State()) && Mode2State() == old(Mode2State())
      ensures old(Enabled(e)) && e.FlashcardsButton? ==>
                mode1Created && score == Score(0, 0) && mode1Grades == 0
                && !mode1NextEnabled && !correctEnabled && !wrongEnabled
                && partsToInclude == old(partsToInclude) && Mode2State() == old(Mode2State())
      ensures old(Enabled(e)) && e.MultipleChoiceButton? ==>
                mode2Created && score == Score(0, 0) && mode2Grades == 0
                && mode2QuestionNumber == Keys(mode2CorrectAnswers)[e.pick]
                && mode2CorrectAnswer == Values(mode2CorrectAnswers)[e.pick]
                && answerButtonText[..] == AnswerOptions(mode2CorrectAnswers, e.swaps, e.slot, mode2CorrectAnswer)
                && !nextQuestionEnabled && answerButtonEnabled[..] == [true, true, true, true]
                && partsToInclude == old(partsToInclude) && Mode1State() == old(Mode1State())
      ensures old(Enabled(e)) && e.RevealAnswer? ==>
                mode1Created && correctEnabled && wrongEnabled && score == old(score)
                && mode1Grades == old(mode1Grades) && mode1NextEnabled == old(mode1NextEnabled)
                && partsToInclude == old(partsToInclude) && Mode2State() == old(Mode2State())
      ensures old(Enabled(e)) && (e.GotItRight? || e.GotItWrong?) ==>
                old(mode1Revealed) && mode1Created && score == Graded(old(score), e.GotItRight?)
                && mode1Grades == old(mode1Grades) + 1
                && mode1NextEnabled && !correctEnabled && !wrongEnabled
                && partsToInclude == old(partsToInclude) && Mode2State() == old(Mode2State())
      ensures old(Enabled(e)) && e.FlashcardNext? ==>
                old(mode1Grades) > 0 && mode1Created && mode1Grades == 0 && score == old(score)
                && !mode1NextEnabled && !correctEnabled && !wrongEnabled
                && partsToInclude == old(partsToInclude) && Mode2State() == old(Mode2State())
      ensures old(Enabled(e)) && e.AnswerButton? ==>
                old(mode2Grades) == 0 && mode2Grades == 1 && mode2Created
                && score == Graded(old(score), old(answerButtonText[e.index]) == old(mode2CorrectAnswer))
                && mode2QuestionNumber == old(mode2QuestionNumber)
                && mode2CorrectAnswer == old(mode2CorrectAnswer)
                && answerButtonText == old(answerButtonText) && answerButtonText[..] == old(answerButtonText[..])
                && nextQuestionEnabled && answerButtonEnabled[..] == [false, false, false, false]
                && partsToInclude == old(partsToInclude) && Mode1State() == old(Mode1State())
      ensures old(Enabled(e)) && e.MultipleChoiceNext? ==>
                old(mode2Grades) == 1 && mode2Grades == 0 && mode2Created && score == old(score)
                && mode2QuestionNumber == Keys(mode2CorrectAnswers)[e.pick]
                && mode2CorrectAnswer == Values(mode2CorrectAnswers)[e.pick]
                && answerButtonText[..] == AnswerOptions(mode2CorrectAnswers, e.swaps, e.slot, mode2CorrectAnswer)
                && !nextQuestionEnabled && answerButtonEnabled[..] == [true, true, true, true]
                && partsToInclude == old(partsToInclude) && Mode1State() == old(Mode1State())
    {
      if !Enabled(e) {
        return;
      }
      if e.PartCheckbox? || e.FlashcardsButton? || e.MultipleChoiceButton? {
        PressTitleScreen(e);
      } else if e.AnswerButton? {
        PressAnswer(e);
      } else if e.MultipleChoiceNext? {
        PressNextQuestion(e);
      } else {
        PressMode1(e);
      }
    }

    /** An enabled control of the title screen. */
    method PressTitleScreen(e: Event)
      requires Valid() && Gating() && ChoicesInRange(e) && Enabled(e)
      requires e.PartCheckbox? || e.FlashcardsButton? || e.MultipleChoiceButton?
      modifies this, answerButtonText, answerButtonEnabled
      ensures Valid() && Gating()
      ensures answerButtonText == old(answerButtonText) || fresh(answerButtonText)
      ensures answerButtonEnabled == old(answerButtonEnabled) || fresh(answerButtonEnabled)
      ensures e.PartCheckbox? ==>
                partsToInclude == Toggled(old(partsToInclude), e.part) && score == old(score)
                && Mode1State() == old(Mode1State()) && Mode2State() == old(Mode2State())
      ensures e.FlashcardsButton? ==>
                mode1Created && score == Score(0, 0) && mode1Grades == 0
                && !mode1NextEnabled && !correctEnabled && !wrongEnabled
                && partsToInclude == old(partsToInclude) && Mode2State() == old(Mode2State())
      ensures e.MultipleChoiceButton? ==>
                mode2Created && score == Score(0, 0) && mode2Grades == 0
                && mode2QuestionNumber == Keys(mode2CorrectAnswers)[e.pick]
                && mode2CorrectAnswer == Values(mode2CorrectAnswers)[e.pick]
                && answerButtonText[..] == AnswerOptions(mode2CorrectAnswers, e.swaps, e.slot, mode2CorrectAnswer)
                && !nextQuestionEnabled && answerButtonEnabled[..] == [true, true, true, true]
                && partsToInclude == old(partsToInclude) && Mode1State() == old(Mode1State())
    {
      match e
      case PartCheckbox(p) =>
        TogglePart(p);
      case FlashcardsButton =>
        StartMode1();
      case MultipleChoiceButton(pick, windowSwaps, windowSlot, swaps, slot) =>
        StartMode2(pick, windowSwaps, windowSlot, swaps, slot);
        assert answerButtonEnabled[..] == [true, true, true, true];
    }

    /** An enabled button of the flashcard window. */
    method PressMode1(e: Event)
      requires Valid() && Gating() && Enabled(e)
      requires e.RevealAnswer? || e.GotItRight? || e.GotItWrong? || e.FlashcardNext?
      modifies this`score, this`sessionGrades, this`mode1NextEnabled, this`correctEnabled,
        this`wrongEnabled, this`mode1Revealed, this`mode1Grades
      ensures Valid() && Gating() && mode1Created
      ensures e.RevealAnswer? ==>
                correctEnabled && wrongEnabled && score == old(score) && mode1Grades == old(mode1Grades)
                && mode1NextEnabled == old(mode1NextEnabled)
      ensures e.GotItRight? || e.GotItWrong? ==>
                old(mode1Revealed) && score == Graded(old(score), e.GotItRight?)
                && mode1Grades == old(mode1Grades) + 1
                && mode1NextEnabled && !correctEnabled && !wrongEnabled
      ensures e.FlashcardNext? ==>
                old(mode1Grades) > 0 && mode1Grades == 0 && score == old(score)
                && !mode1NextEnabled && !correctEnabled && !wrongEnabled
    {
      match e
      case RevealAnswer =>
        RevealMode1Answer();
      case GotItRight =>
        CorrectMode1Answer();
      case GotItWrong =>
        WrongMode1Answer();
      case FlashcardNext =>
        UpdateMode1Question();
    }

    /** An enabled answer button of the multiple-choice window. */
    method PressAnswer(e: Event)
      requires Valid() && Gating() && Enabled(e) && e.AnswerButton?
      modifies this`score, this`sessionGrades, this`nextQuestionEnabled, this`mode2Grades,
        answerButtonEnabled
      ensures Valid() && Gating() && mode2Created
      ensures old(mode2Grades) == 0 && mode2Grades == 1
      ensures score == Graded(old(score), answerButtonText[e.index] == mode2CorrectAnswer)
      ensures nextQuestionEnabled && answerButtonEnabled[..] == [false, false, false, false]
    {
      CheckMode2Answer(answerButtonText[e.index]);
      assert answerButtonEnabled[..] == [false, false, false, false];
    }

    /** The enabled Next button of the multiple-choice window. */
    method PressNextQuestion(e: Event)
      requires Valid() && Gating() && ChoicesInRange(e) && Enabled(e) && e.MultipleChoiceNext?
      modifies this`mode2QuestionNumber, this`mode2CorrectAnswer, this`nextQuestionEnabled,
        this`mode2Grades, answerButtonText, answerButtonEnabled
      ensures Valid() && Gating() && mode2Created
      ensures old(mode2Grades) == 1 && mode2Grades == 0
      ensures mode2QuestionNumber == Keys(mode2CorrectAnswers)[e.pick]
      ensures mode2CorrectAnswer == Values(mode2CorrectAnswers)[e.pick]
      ensures answerButtonText[..] == AnswerOptions(mode2CorrectAnswers, e.swaps, e.slot, mode2CorrectAnswer)
      ensures !nextQuestionEnabled && answerButtonEnabled[..] == [true, true, true, true]
    {
      NextMode2Question(e.pick, e.swaps, e.slot);
      assert answerButtonEnabled[..] == [true, true, true, true];
    }
  }
}
