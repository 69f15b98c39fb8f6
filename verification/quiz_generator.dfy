/** `QuizGenerator`: asks the language model for a quiz on a topic, lets the
    user pick an option per question, and scores the picks. The request and
    the parsing of the model's JSON are outside the model: their result is
    the parameter `parsed` of `Deliver`, `None` when either failed. */
module QuizGenerator {
  import opened Wrappers
  import opened Text

  datatype GeneratedQuestion = GeneratedQuestion(question: string, options: seq<string>,
                                                 correctAnswer: string)

  /** `userAnswers`: a JavaScript array that may have holes; `None` is a hole. */
  type Answers = seq<Option<string>>

  /** `userAnswers[i]`: `undefined`, here `None`, for a hole and past the end. */
  function AnswerAt(answers: Answers, i: nat): Option<string> {
    if i < |answers| then answers[i] else None
  }

  /** `handleAnswer`: a copy of the answers with position `index` set. Every
      other position keeps its answer; writing past the end extends the array,
      leaving holes between the old end and `index`. */
  function SetAnswer(answers: Answers, index: nat, answer: string): (r: Answers)
    ensures |r| == if index < |answers| then |answers| else index + 1
    ensures AnswerAt(r, index) == Some(answer)
    ensures forall i: nat :: i != index ==> AnswerAt(r, i) == AnswerAt(answers, i)
  {
    if index < |answers| then answers[index := Some(answer)]
    else answers + seq(index - |answers|, _ => None) + [Some(answer)]
  }

  /** Whether question `i` is answered correctly: a hole never is. */
  predicate IsCorrect(questions: seq<GeneratedQuestion>, answers: Answers, i: nat)
    requires i < |questions|
  {
    AnswerAt(answers, i) == Some(questions[i].correctAnswer)
  }

  /** The `reduce` of `getScore` over the first `k` questions. */
  function Matches(questions: seq<GeneratedQuestion>, answers: Answers, k: nat): (n: nat)
    requires k <= |questions|
    ensures n <= k
  {
    if k == 0 then 0
    else Matches(questions, answers, k - 1) + (if IsCorrect(questions, answers, k - 1) then 1 else 0)
  }

  /** `getScore`: 0 when no quiz is loaded, otherwise the number of questions
      whose answer equals their `correctAnswer`. */
  function Score(quiz: Option<seq<GeneratedQuestion>>, answers: Answers): (n: nat)
    ensures quiz.None? ==> n == 0
    ensures quiz.Some? ==> n <= |quiz.value|
  {
    match quiz
    case None => 0
    case Some(questions) => Matches(questions, answers, |questions|)
  }

  /** The full score is reached exactly when every question is answered
      correctly. */
  lemma {:induction false} FullScoreIffAllCorrect(questions: seq<GeneratedQuestion>, answers: Answers, k: nat)
    requires k <= |questions|
    ensures Matches(questions, answers, k) == k
            <==> forall i :: 0 <= i < k ==> IsCorrect(questions, answers, i)
  {
    if k > 0 {
      FullScoreIffAllCorrect(questions, answers, k - 1);
    }
  }

  /** Setting one answer moves the score only through that question: it
      loses the point the old answer earned and gains one if the new answer
      is correct. */
  lemma {:induction false} SetAnswerScore(questions: seq<GeneratedQuestion>, answers: Answers,
                                          index: nat, answer: string, k: nat)
    requires index < k <= |questions|
    ensures Matches(questions, SetAnswer(answers, index, answer), k)
            == Matches(questions, answers, k)
               - (if IsCorrect(questions, answers, index) then 1 else 0)
               + (if answer == questions[index].correctAnswer then 1 else 0)
  {
    var updated := SetAnswer(answers, index, answer);
    if k - 1 == index {
      UnchangedBelow(questions, answers, updated, index, index);
    } else {
      SetAnswerScore(questions, answers, index, answer, k - 1);
    }
  }

  lemma {:induction false} UnchangedBelow(questions: seq<GeneratedQuestion>, a: Answers, b: Answers,
                                          index: nat, k: nat)
    requires k <= index < |questions|
    requires forall i: nat :: i != index ==> AnswerAt(a, i) == AnswerAt(b, i)
    ensures Matches(questions, a, k) == Matches(questions, b, k)
  {
    if k > 0 {
      UnchangedBelow(questions, a, b, index, k - 1);
    }
  }

  // ---------------------------------------------------------------------------
  // The component's state
  // ---------------------------------------------------------------------------

  datatype GenState = GenState(topic: string, loading: bool, quiz: Option<seq<GeneratedQuestion>>,
                               answers: Answers, showResults: bool)

  const Initial := GenState("", false, None, [], false)

  /** The generate button is disabled while loading and for a blank topic. */
  predicate GenerateDisabled(s: GenState) {
    s.loading || IsBlank(s.topic)
  }

  /** The start of `generateQuiz`: nothing happens for a topic that trims to
      the empty string; otherwise loading starts and the quiz, the answers
      and the results are cleared before the request is sent. */
  function StartGenerate(s: GenState): (t: GenState)
    ensures IsBlank(s.topic) ==> t == s
    ensures !IsBlank(s.topic) ==>
              t == GenState(s.topic, true, None, [], false)
  {
    if IsBlank(s.topic) then s
    else s.(loading := true, quiz := None, answers := [], showResults := false)
  }

  /** The end of `generateQuiz`: the parsed quiz, if any, is shown, and
      loading stops in `finally`. */
  function Deliver(s: GenState, parsed: Option<seq<GeneratedQuestion>>): (t: GenState)
    ensures !t.loading && t.topic == s.topic && t.answers == s.answers && t.showResults == s.showResults
    ensures parsed.Some? ==> t.quiz == parsed
    ensures parsed.None? ==> t.quiz == s.quiz
  {
    match parsed
    case Some(questions) => s.(loading := false, quiz := Some(questions))
    case None => s.(loading := false)
  }

  const QuizFailureAlert := "Er ging iets mis bij het maken van de quiz"

  /** The alert `generateQuiz` raises: one exactly when the request, its
      status or the parse of its reply failed, and no quiz arrives. */
  function DeliverAlert(parsed: Option<seq<GeneratedQuestion>>): (alert: Option<string>)
    ensures alert.Some? <==> parsed.None?
    ensures alert.Some? ==> alert.value == QuizFailureAlert
  {
    match parsed
    case Some(_) => None
    case None => Some(QuizFailureAlert)
  }

  /** The check button as the component renders it: results hidden and as
      many answers as questions. With a sparse array the length only says
      that the LAST question is answered. */
  predicate CheckOfferedAsWritten(s: GenState) {
    s.quiz.Some? && !s.showResults && |s.answers| == |s.quiz.value|
  }

  /** Every question has an answer. */
  predicate AllAnswered(questions: seq<GeneratedQuestion>, answers: Answers) {
    forall i :: 0 <= i < |questions| ==> AnswerAt(answers, i).Some?
  }

  /** The check button as evidently intended: results hidden and every
      question answered. */
  predicate CheckOffered(s: GenState) {
    s.quiz.Some? && !s.showResults && AllAnswered(s.quiz.value, s.answers)
  }

  datatype Event =
    | EditTopic(topic: string)
    | Generate
    | Delivered(parsed: Option<seq<GeneratedQuestion>>)
    | Pick(index: nat, option: string)
    | Check

  /** Which test shows the check button: the component's length test, or the
      evidently intended test that every question is answered. */
  datatype CheckGate = AsWritten | Corrected

  predicate CheckEnabled(gate: CheckGate, s: GenState) {
    match gate
    case AsWritten => CheckOfferedAsWritten(s)
    case Corrected => CheckOffered(s)
  }

  /** Whether the control for the event is on screen and active: the topic
      field is disabled while loading, a response arrives only while loading,
      an option is offered only for a shown question and only until the
      results are shown, and the check button is shown when `gate` says so.
      With `AsWritten` this is the component; with `Corrected` it is the
      component with the check gate fixed. */
  predicate Enabled(gate: CheckGate, s: GenState, e: Event) {
    match e
    case EditTopic(_) => !s.loading
    case Generate => !GenerateDisabled(s)
    case Delivered(_) => s.loading
    case Pick(index, option) =>
      && s.quiz.Some? && !s.showResults
      && index < |s.quiz.value| && option in s.quiz.value[index].options
    case Check => CheckEnabled(gate, s)
  }

  function Step(gate: CheckGate, s: GenState, e: Event): GenState {
    if !Enabled(gate, s, e) then s
    else match e
      case EditTopic(topic) => s.(topic := topic)
      case Generate => StartGenerate(s)
      case Delivered(parsed) => Deliver(s, parsed)
      case Pick(index, option) => s.(answers := SetAnswer(s.answers, index, option))
      case Check => s.(showResults := true)
  }

  function Run(gate: CheckGate, s: GenState, events: seq<Event>): GenState
    decreases |events|
  {
    if |events| == 0 then s else Run(gate, Step(gate, s, events[0]), events[1..])
  }

  /** The states reachable from the initial one under either gate: no answers
      without a quiz, never more answers than questions, no quiz while
      loading, and results shown only once there are as many answers as
      questions. */
  predicate Inv(s: GenState) {
    && (s.quiz.None? ==> s.answers == [] && !s.showResults)
    && (s.quiz.Some? ==> |s.answers| <= |s.quiz.value|)
    && (s.loading ==> s.quiz.None?)
    && (s.showResults ==> s.quiz.Some? && |s.answers| == |s.quiz.value|)
  }

  /** The states reachable under the corrected gate: besides `Inv`, results
      are shown only for a fully answered quiz. */
  predicate CorrectedInv(s: GenState) {
    Inv(s) && (s.showResults ==> AllAnswered(s.quiz.value, s.answers))
  }

  lemma StepInv(gate: CheckGate, s: GenState, e: Event)
    requires Inv(s)
    ensures Inv(Step(gate, s, e))
  {
    if Enabled(gate, s, e) && e.Check? && gate == Corrected && |s.quiz.value| > 0 {
      assert AnswerAt(s.answers, |s.quiz.value| - 1).Some?;
    }
  }

  lemma CorrectedStepInv(s: GenState, e: Event)
    requires CorrectedInv(s)
    ensures CorrectedInv(Step(Corrected, s, e))
  {
    StepInv(Corrected, s, e);
  }

  /** On every run, under either gate, the results, when shown, cover as many
      answers as there are questions. */
  lemma {:induction false} RunInv(gate: CheckGate, s: GenState, events: seq<Event>)
    requires Inv(s)
    ensures var t := Run(gate, s, events);
            Inv(t) && (t.showResults ==> |t.answers| == |t.quiz.value|)
    decreases |events|
  {
    if |events| > 0 {
      StepInv(gate, s, events[0]);
      RunInv(gate, Step(gate, s, events[0]), events[1..]);
    }
  }

  /** On every run under the corrected gate, the results, when shown, cover a
      fully answered quiz: every question that is scored had an answer. */
  lemma {:induction false} CorrectedRunInv(s: GenState, events: seq<Event>)
    requires CorrectedInv(s)
    ensures var t := Run(Corrected, s, events);
            CorrectedInv(t) && (t.showResults ==> AllAnswered(t.quiz.value, t.answers))
    decreases |events|
  {
    if |events| > 0 {
      CorrectedStepInv(s, events[0]);
      CorrectedRunInv(Step(Corrected, s, events[0]), events[1..]);
    }
  }

  lemma RunCons(gate: CheckGate, s: GenState, e: Event, rest: seq<Event>)
    ensures Run(gate, s, [e] + rest) == Run(gate, Step(gate, s, e), rest)
  {
    assert ([e] + rest)[1..] == rest;
  }

  /** The component as written shows the results after this run from the
      start, in which only the last of two or more questions is answered;
      with the corrected gate the same clicks leave the results hidden. */
  lemma AsWrittenGateAdmitsUnanswered(topic: string, questions: seq<GeneratedQuestion>)
    requires !IsBlank(topic) && |questions| >= 2 && |questions[|questions| - 1].options| > 0
    ensures var last := |questions| - 1;
            var events := [EditTopic(topic), Generate, Delivered(Some(questions)),
                           Pick(last, questions[last].options[0]), Check];
            var t := Run(AsWritten, Initial, events);
            && t.showResults
            && AnswerAt(t.answers, 0).None?
            && !Run(Corrected, Initial, events).showResults
  {
    var last := |questions| - 1;
    var pick := Pick(last, questions[last].options[0]);
    var s1 := Initial.(topic := topic);
    var s2 := StartGenerate(s1);
    var s3 := Deliver(s2, Some(questions));
    var s4 := s3.(answers := SetAnswer(s3.answers, last, questions[last].options[0]));
    assert AnswerAt(s4.answers, 0).None?;
    forall gate: CheckGate
      ensures Run(gate, Initial, [EditTopic(topic), Generate, Delivered(Some(questions)), pick, Check])
              == Step(gate, s4, Check)
    {
      assert Step(gate, Initial, EditTopic(topic)) == s1;
      assert Step(gate, s1, Generate) == s2;
      assert Step(gate, s2, Delivered(Some(questions))) == s3;
      assert Step(gate, s3, pick) == s4;
      RunCons(gate, Initial, EditTopic(topic), [Generate, Delivered(Some(questions)), pick, Check]);
      RunCons(gate, s1, Generate, [Delivered(Some(questions)), pick, Check]);
      RunCons(gate, s2, Delivered(Some(questions)), [pick, Check]);
      RunCons(gate, s3, pick, [Check]);
      RunCons(gate, s4, Check, []);
    }
    assert CheckOfferedAsWritten(s4);
    assert !CheckOffered(s4);
  }

  /** On reachable states the corrected gate only adds a condition to the
      written one: whenever it offers the check, so does the component. */
  lemma CorrectedGateRefinesWritten(s: GenState)
    requires Inv(s)
    ensures CheckOffered(s) ==> CheckOfferedAsWritten(s)
  {
    if CheckOffered(s) && |s.quiz.value| > 0 {
      assert AnswerAt(s.answers, |s.quiz.value| - 1).Some?;
    }
  }
}
