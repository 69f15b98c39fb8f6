/** The step-by-step multiple-choice quiz that `MarketStructuresQuiz` and
    `ChineseHistoryQuiz` both implement, with the same handlers, over their
    own static question tables: answer the current question, read the
    explanation, go on to the next one, and see the score at the end.

    A handler is only reachable through the control the component renders
    for it: the options only while no explanation is shown (they are
    `disabled` otherwise), the "next" button only beside an explanation, and
    the restart button only on the result screen. `Enabled` states this, and
    `Step` ignores an event whose control is not on screen. */
module Quiz {
  import opened Wrappers

  datatype Question = Question(id: nat, question: string, options: seq<string>,
                               correctAnswer: nat, explanation: string)

  /** A usable table: not empty, and each correct answer names an option. */
  predicate WellFormedTable(questions: seq<Question>) {
    && |questions| > 0
    && forall i :: 0 <= i < |questions| ==> questions[i].correctAnswer < |questions[i].options|
  }

  /** The component's state hooks. */
  datatype State = State(current: nat, selected: Option<nat>, showExplanation: bool,
                         score: nat, completed: bool)

  /** The `useState` initial values. */
  const Initial := State(0, None, false, 0, false)

  /** `handleAnswer`: records the choice, shows the explanation, and scores a
      point exactly when the choice is the current question's correct answer. */
  function Answer(questions: seq<Question>, s: State, option: nat): (t: State)
    requires s.current < |questions|
    ensures t.score == s.score + 1 <==> option == questions[s.current].correctAnswer
    ensures t.score == s.score <==> option != questions[s.current].correctAnswer
    ensures t.selected == Some(option) && t.showExplanation
    ensures t.current == s.current && t.completed == s.completed
  {
    s.(selected := Some(option), showExplanation := true,
       score := if option == questions[s.current].correctAnswer then s.score + 1 else s.score)
  }

  /** `nextQuestion`: clears the choice and the explanation, then moves to the
      next question or, after the last one, to the result screen. */
  function Next(questions: seq<Question>, s: State): (t: State)
    ensures t.selected.None? && !t.showExplanation && t.score == s.score
    ensures s.current + 1 < |questions| ==> t.current == s.current + 1 && t.completed == s.completed
    ensures s.current + 1 >= |questions| ==> t.current == s.current && t.completed
  {
    var cleared := s.(selected := None, showExplanation := false);
    if s.current < |questions| - 1 then cleared.(current := s.current + 1)
    else cleared.(completed := true)
  }

  /** `restartQuiz` / `resetQuiz`: its five setter calls bring back exactly
      the initial state, whatever the state before. */
  function Restart(s: State): (t: State)
    ensures t == Initial
  {
    s.(current := 0, score := 0, showExplanation := false, selected := None, completed := false)
  }

  datatype Event = Choose(option: nat) | Advance | Again

  /** Whether the control for the event is on screen and active. */
  predicate Enabled(questions: seq<Question>, s: State, e: Event) {
    match e
    case Choose(option) =>
      && !s.completed && !s.showExplanation
      && s.current < |questions| && option < |questions[s.current].options|
    case Advance => !s.completed && s.showExplanation
    case Again => s.completed
  }

  function Step(questions: seq<Question>, s: State, e: Event): State {
    if !Enabled(questions, s, e) then s
    else match e
      case Choose(option) => Answer(questions, s, option)
      case Advance => Next(questions, s)
      case Again => Restart(s)
  }

  function Run(questions: seq<Question>, s: State, events: seq<Event>): State
    decreases |events|
  {
    if |events| == 0 then s else Run(questions, Step(questions, s, events[0]), events[1..])
  }

  /** The states reachable from the initial one: the index stays inside the
      table, a choice is on record exactly while its explanation is shown,
      and each question seen so far has contributed at most one point. */
  predicate Inv(questions: seq<Question>, s: State) {
    && s.current < |questions|
    && (s.selected.Some? <==> s.showExplanation)
    && (s.completed ==> !s.showExplanation && s.current == |questions| - 1)
    && s.score <= s.current + (if s.showExplanation || s.completed then 1 else 0)
  }

  lemma InitialInv(questions: seq<Question>)
    requires |questions| > 0
    ensures Inv(questions, Initial)
  {
  }

  lemma StepInv(questions: seq<Question>, s: State, e: Event)
    requires Inv(questions, s)
    ensures Inv(questions, Step(questions, s, e))
  {
  }

  /** From any reachable state, whatever the user clicks, the index stays a
      valid question and the score never exceeds the number of questions. */
  lemma {:induction false} RunInv(questions: seq<Question>, s: State, events: seq<Event>)
    requires Inv(questions, s)
    ensures Inv(questions, Run(questions, s, events))
    ensures Run(questions, s, events).score <= |questions|
    decreases |events|
  {
    if |events| > 0 {
      StepInv(questions, s, events[0]);
      RunInv(questions, Step(questions, s, events[0]), events[1..]);
    }
  }

  /** While its explanation is shown a question cannot be answered again:
      a second choice changes nothing. */
  lemma AnsweredOnce(questions: seq<Question>, s: State, first: nat, second: nat)
    ensures var t := Step(questions, s, Choose(first));
            t != s ==> Step(questions, t, Choose(second)) == t
  {
  }

  const CorrectHeading := "✓ Correct! "
  const WrongHeading := "✗ Helaas! "

  /** The heading above the explanation: "Correct!" exactly when the recorded
      choice is the current question's correct answer. */
  function ExplanationHeading(questions: seq<Question>, s: State): string
    requires s.current < |questions|
  {
    if s.selected == Some(questions[s.current].correctAnswer) then CorrectHeading else WrongHeading
  }

  /** The heading shown after a choice says "Correct!" exactly when that choice
      scored a point. */
  lemma HeadingMatchesScoring(questions: seq<Question>, s: State, option: nat)
    requires Enabled(questions, s, Choose(option))
    ensures var t := Step(questions, s, Choose(option));
            ExplanationHeading(questions, t) == CorrectHeading <==> t.score == s.score + 1
  {
  }
}
