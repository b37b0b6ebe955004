# Mark Drama flashcards: session logic

`mark_drama.py` is the static demo of the Mark Drama learning game. It is a
Tkinter program. Underneath its widgets, the `MarkDramaFlashcards` object keeps
a small amount of session state:

- the list of selected parts (`parts_to_include`);
- the score dict `{"correct", "total"}`;
- the enabled/disabled state of the buttons of the two game windows: the
  flashcard window (mode 1) and the multiple-choice window (mode 2);
- the multiple-choice question, its correct answer and the labels of the four
  answer buttons.

This project models that state as the class
`Flashcards.MarkDramaFlashcards`. Each handler becomes a method that updates
the fields as the Python code does. Tk's dispatch rule becomes the method
`Press`: a click on a disabled button does nothing, and any other click runs
the button's command. Everything the code leaves to the `random` module is a
parameter:

- the key `random.choice` draws, as an index into the dict's keys;
- the swap choices of `random.shuffle`, as CPython's Fisher-Yates loop makes
  them;
- the replacement slot `random.randint(0, 3)`.

Every property is therefore proved for every possible outcome of the random
module.

Files:

- `lists.dfy`: `Distinct` and Python's `list.remove`.
- `selection.dfy`: `toggle_part` on values.
- `scoring.dfy`: the score and its grading events.
- `choices.dfy`: the answer dict, `random.shuffle`, and how the four answer
  options are built.
- `flashcards.dfy`: the application object and its handlers.
- `scenarios.dfy`: click sequences on a fresh application.

The model has two invariants:

- `Valid()` holds after every handler. It says:
  - the part list has no duplicates;
  - the score equals the fold of the grading events since the last
    `reset_score`, so `correct <= total`;
  - the dict has distinct keys and values;
  - once the multiple-choice window exists, the displayed answer is the dict's
    value for the displayed key, and the four button labels are pairwise
    distinct and include that answer.
- `Gating()` is the button-state invariant. `Press` preserves it, because it
  only runs the commands of enabled buttons. It says:
  - in mode 1, Right and Wrong are enabled only after Reveal, and Next only
    after a grade;
  - in mode 2, a displayed question is either ungraded, with every answer
    button enabled and Next disabled, or graded exactly once, with every answer
    button disabled and Next enabled.

This is the early demo version of the game. It has no non-repeating
question pool, no generated distractors, no duplicate detection and no
session completion:

- mode 2 draws its questions with replacement (`mark_drama.py:331`);
- the mode-1 Reveal button re-enables Right and Wrong even after the card was
  graded, so one flashcard can be graded more than once.
  `Scenarios.RegradeOneFlashcard` exhibits this.

## Model

| member | source | states |
|---|---|---|
| Lists.RemoveFirst | mark_drama.py:116 | `list.remove(x)` on a list holding `x`: the result is one element shorter |
| Lists.RemoveFirstMembers | mark_drama.py:116 | after removing `x`, exactly the other elements remain members; `x` itself is gone when the list had no duplicates |
| Lists.RemoveFirstDistinct | mark_drama.py:116 | removing an element keeps a duplicate-free list duplicate-free |
| Lists.RemoveFirstAppended | mark_drama.py:115-118 | removing an element that was just appended to a list not holding it gives back the list |
| Selection.ToggleFlips | mark_drama.py:114-118 | on a duplicate-free list, `Toggled` (the list after `toggle_part(p)`) makes `p` a member exactly when it was not one |
| Selection.ToggleKeepsOthers | mark_drama.py:114-118 | toggling `p` leaves the membership of every other part unchanged |
| Selection.ToggleKeepsDistinct | mark_drama.py:114-118 | toggling never creates a duplicate |
| Selection.ToggleTwiceRestores | mark_drama.py:114-118 | toggling an absent part twice restores the list exactly |
| Selection.ToggleTwiceMovesToEnd | mark_drama.py:114-118 | toggling a present part twice moves it to the end of the list |
| Scoring.RightAnswersConcat | mark_drama.py:297-316 | the right answers of two runs of grades add up |
| Scoring.RightAnswersAtMostLength | mark_drama.py:297-316 | a run of grades has at most as many right answers as grades |
| Scoring.ScoreCounts | mark_drama.py:217-230 | `ScoreAfter` folds one `Graded` step (the `+= 1` increments of lines 218-219, 305 and 315) per grading event; after any run of grades, `total` is the number of grades and `correct` the number of right ones |
| Scoring.CorrectAtMostTotal | mark_drama.py:297-316 | `correct <= total` after any run of grades |
| Scoring.ScoreNeverDecreases | mark_drama.py:217-230 | extending a session never lowers `correct`, and raises `total` by exactly the number of new grades |
| Choices.LoadMode2CorrectAnswers | mark_drama.py:235-245 | the dict has eight entries with unique keys and distinct values, and its first four values are A-D |
| Choices.Lookup | mark_drama.py:250 | `d[k]` for a present key is the value of an item whose key is `k` |
| Choices.LookupAt | mark_drama.py:249-250 | with unique keys, looking up the key at position `i` gives the value at position `i` |
| Choices.LookupIsValue | mark_drama.py:249-250 | a looked-up answer is one of the dict's values |
| Choices.Shuffled | mark_drama.py:344 | CPython's `random.shuffle` on a list, given its swap choices, keeps the length |
| Choices.Shuffle | mark_drama.py:344 | shuffling an array in place leaves it equal to `Shuffled` of its old contents |
| Choices.SwapPermutes | mark_drama.py:344 | one swap of the shuffle (`SwapAt`) keeps the multiset of elements |
| Choices.ShuffledPermutes | mark_drama.py:344 | the shuffle is a permutation: the multiset of elements is unchanged |
| Choices.ShuffledDistinct | mark_drama.py:344 | shuffling a duplicate-free list keeps it duplicate-free |
| Choices.FixUp | mark_drama.py:346-350 | the fix-up puts the correct answer in, changes at most the one slot, changes nothing when the answer is already present, and keeps the options distinct |
| Choices.AnswerOptionsArePermutedValues | mark_drama.py:343-350 | the four options (`AnswerOptions`: the first four values shuffled, then fixed up) contain the correct answer and equal a permutation of the first four dict values, except at most at the replacement slot; when the answer is among the first four values they are exactly that permutation |
| Choices.AnswerOptionsDistinct | mark_drama.py:343-350 | with distinct dict values the four options are pairwise distinct, so exactly one of them is the correct answer |
| Choices.WindowFixUpNeverFires | mark_drama.py:264-271 | `create_mode2_window` shuffles all the values, so the correct answer is always among them and its replacement never happens |
| Flashcards.MarkDramaFlashcards.constructor | mark_drama.py:28-55 | no part selected, the dict loaded, the score 0/0, no game window, both invariants hold |
| Flashcards.MarkDramaFlashcards.ResetScore | mark_drama.py:57-58 | the score becomes 0/0 and the session's grading history is emptied |
| Flashcards.MarkDramaFlashcards.TogglePart | mark_drama.py:114-118 | the list becomes its toggled version; `p` flips membership, every other part keeps it, no duplicate appears |
| Flashcards.MarkDramaFlashcards.RecordGrade | mark_drama.py:218-219 | one grading event: `total` rises by one, `correct` by one exactly on a right answer, and `correct <= total` is kept |
| Flashcards.MarkDramaFlashcards.StartMode1 | mark_drama.py:129-132 | the score is reset and the flashcard window is opened with Next, Right and Wrong disabled |
| Flashcards.MarkDramaFlashcards.CreateMode1Window | mark_drama.py:134-183 | the score is reset, the buttons are created with Next disabled, then the first card disables Right and Wrong |
| Flashcards.MarkDramaFlashcards.RevealMode1Answer | mark_drama.py:185-197 | Right and Wrong become enabled whatever their previous state; nothing else changes |
| Flashcards.MarkDramaFlashcards.UpdateMode1Question | mark_drama.py:199-215 | a new card: Next, Right and Wrong disabled, the score unchanged |
| Flashcards.MarkDramaFlashcards.CorrectMode1Answer | mark_drama.py:217-223 | correct and total each rise by one; Next enabled, Right and Wrong disabled |
| Flashcards.MarkDramaFlashcards.WrongMode1Answer | mark_drama.py:225-230 | only total rises by one; Next enabled, Right and Wrong disabled |
| Flashcards.MarkDramaFlashcards.DrawQuestion | mark_drama.py:249-250 | the question is the key drawn from the dict's keys, and the correct answer is that key's value |
| Flashcards.MarkDramaFlashcards.StartMode2 | mark_drama.py:247-251 | draws a question, then opens the multiple-choice window for it, with score 0/0 |
| Flashcards.MarkDramaFlashcards.CreateMode2Window | mark_drama.py:253-295 | the score is reset, four new answer buttons are enabled, Next is disabled, and the labels are the options `update_mode2_question` builds |
| Flashcards.MarkDramaFlashcards.NewAnswerButtons | mark_drama.py:263-278 | four new enabled buttons labelled with the first four of all the dict values, shuffled and fixed up |
| Flashcards.MarkDramaFlashcards.UpdateMode2Question | mark_drama.py:339-359 | relabels the buttons with the options built from the first four values; they contain the answer and are distinct; Next disabled |
| Flashcards.MarkDramaFlashcards.CheckMode2Answer | mark_drama.py:297-327 | exact equality with the correct answer decides the grade; total rises by one, correct by one on a match; Next enabled and every answer button disabled |
| Flashcards.MarkDramaFlashcards.NextMode2Question | mark_drama.py:329-337 | draws a new question with replacement, re-enables every answer button, relabels them, and Next is disabled again |
| Flashcards.MarkDramaFlashcards.Press | mark_drama.py:72-76 | a click on a control that is not `Enabled` changes nothing; otherwise it runs the control's command, with that command's effect, and leaves the part list and the other window's state as they were. Both invariants are kept. An answer is graded against the label clicked and the unchanged question, only on an ungraded question; Next of mode 2 only follows a graded one and gives the new question's options; Right/Wrong only follow a Reveal and Next of mode 1 only follows a grade |
| Flashcards.MarkDramaFlashcards.PressTitleScreen | mark_drama.py:72-76 | a part checkbox toggles its part and changes nothing else; Flashcards opens the flashcard window with score 0/0 and Multiple Choice opens the multiple-choice window on the drawn question with its options, each leaving the parts and the other window alone |
| Flashcards.MarkDramaFlashcards.PressMode1 | mark_drama.py:153-178 | Reveal/Right/Wrong/Next of the flashcard window, with the gating facts above |
| Flashcards.MarkDramaFlashcards.PressAnswer | mark_drama.py:274-278 | an enabled answer button's click grades its own label against the correct answer on an ungraded question, keeps the question and labels (outside its frame) and disables all four buttons |
| Flashcards.MarkDramaFlashcards.PressNextQuestion | mark_drama.py:284-289 | the enabled Next button follows a graded question; it draws key `pick`, relabels the buttons with the new options and re-enables them, and disables Next |
| Scenarios.RegradeOneFlashcard | mark_drama.py:185-197 | Right before Reveal is ignored, but Reveal, Right, Reveal, Wrong on one card scores 1/2 |
| Scenarios.AnswerTwiceGradedOnce | mark_drama.py:322-327 | a second answer click on the same multiple-choice question is ignored: total is 1 |
| Scenarios.ClickCorrectLabel | mark_drama.py:301-315 | clicking the button labelled with the correct answer scores 1/1 |
| Scenarios.ClickWrongLabel | mark_drama.py:301-315 | clicking a button with another label scores 0/1 |
| Scenarios.TickWhileFlashcardsOpen | mark_drama.py:114-118 | ticking a part while the flashcard window is open keeps the window, and Reveal still enables Right and Wrong |

## Left out

- Tkinter construction and layout: windows, frames, geometry, fonts, the
  grid/pack calls, the scrollbar, the Text widgets' contents and their colour
  tags. Buttons are reduced to their enabled flag and, for the answer buttons,
  their label.
- The "Jesus Dialogue" and "Extra Jesus Dialogue" checkboxes. Their variables
  are created but never read.
- `reset_mode1`, the placeholder question and answer texts, and the random
  encouragement strings of `check_mode2_answer`. They only set text that is
  shown.
- `update_score_label`. It only formats the score into a label.
- The random module itself. Its outcomes are parameters, as described above.
- `mainloop` and Tk's event queue. `Press` models what one click does.
- Closing a window. The model assumes no game window is ever closed. In the
  source, `score_label` belongs to whichever window was opened last (lines 180
  and 292). Closing that window destroys the label, so the other window's grade
  handlers raise in `update_score_label` after `total` has risen:
  `wrong_mode1_answer` then stops before disabling Right and Wrong (line 228
  against lines 229-230), and `check_mode2_answer` stops before enabling Next
  and disabling the answer buttons (line 316 against lines 323-327). The
  gating facts of `Press` and `Gating()` do not cover that case.
- Several windows of the same mode. In Tk the Flashcards or Multiple Choice
  button can be clicked again while a window is open. That opens a second
  window, and the old window's buttons still call the handlers. The model keeps
  only the latest window's buttons.
- Flashcards.MarkDramaFlashcards.StartMode1: does not model the `reset_mode1`
  call, because it only assigns display strings and a Tk `StringVar`.
- Flashcards.MarkDramaFlashcards.CheckMode2Answer: takes the button's label as
  the answer. In the source, each button's command is a lambda bound to the
  same option it is labelled with, and `update_mode2_question` rebinds both
  together.
- Flashcards.MarkDramaFlashcards.PressTitleScreen: models only the six part
  checkboxes shown on the title screen (parts 1 to 6), while `TogglePart`
  accepts any part number.
