/** `TestGenerator`: a form that configures a test (question type, count,
    education level, Bloom levels, whether each question gets a case,
    subject and context), builds the prompt for the language model, and
    renders the model's reply as HTML, one block per `---`-separated
    question. The request itself is outside the model. */
module TestGenerator {
  import opened Text
  import opened Markup
  import opened Wrappers

  datatype QuestionType = MultipleChoice | TrueFalse | Open
  datatype EducationLevel = HighSchool | Bachelor | University
  datatype BloomLevel = Knowledge | Comprehension | Application | Analysis | Synthesis | Evaluation

  /** The count field holds `parseInt` of the input, which may be NaN. */
  datatype QuestionCount = Count(n: int) | NotANumber

  datatype TestConfig = TestConfig(questionType: QuestionType, questionCount: QuestionCount,
                                   educationLevel: EducationLevel, bloomLevels: seq<BloomLevel>,
                                   needsCase: bool, subject: string, context: string)

  /** The `useState` initial configuration. */
  const InitialConfig := TestConfig(MultipleChoice, Count(5), Bachelor, [Knowledge], false, "", "")

  // ---------------------------------------------------------------------------
  // Rendering the reply
  // ---------------------------------------------------------------------------

  const QuestionSeparator := "---"

  /** `formatQuestions`: one HTML block per `---`-separated segment of the
      reply, that is one more than the number of separators, and no newline
      left in any block. */
  function FormatQuestions(text: string): (blocks: seq<string>)
    ensures |blocks| == Occurrences(text, QuestionSeparator) + 1
    ensures forall k, i :: 0 <= k < |blocks| && 0 <= i < |blocks[k]| ==> blocks[k][i] != '\n'
  {
    var segments := Split(text, QuestionSeparator);
    seq(|segments|, k requires 0 <= k < |segments| => FormatBlock(segments[k]))
  }

  /** The blocks are the formatted segments, and gluing the segments back
      with `---` gives the reply. */
  lemma FormatQuestionsSegments(text: string)
    ensures var segments := Split(text, QuestionSeparator);
            && Join(segments, QuestionSeparator) == text
            && forall k :: 0 <= k < |segments| ==> FormatQuestions(text)[k] == FormatBlock(segments[k])
  {
    JoinSplit(text, QuestionSeparator);
  }

  // ---------------------------------------------------------------------------
  // Bloom levels
  // ---------------------------------------------------------------------------

  /** Checking a box appends its level at the end. */
  function CheckLevel(levels: seq<BloomLevel>, level: BloomLevel): (r: seq<BloomLevel>)
    ensures |r| == |levels| + 1 && r[..|levels|] == levels && r[|levels|] == level
  {
    levels + [level]
  }

  /** Unchecking a box keeps the levels different from it, in order: it
      removes every occurrence of the level and nothing else. */
  function UncheckLevel(levels: seq<BloomLevel>, level: BloomLevel): (r: seq<BloomLevel>)
    ensures level !in r
    ensures forall x :: x != level ==> multiset(r)[x] == multiset(levels)[x]
    ensures forall x :: x != level ==> (x in r <==> x in levels)
  {
    if |levels| == 0 then []
    else
      assert levels == [levels[0]] + levels[1..];
      (if levels[0] == level then [] else [levels[0]]) + UncheckLevel(levels[1..], level)
  }

  /** Removal works piecewise, which is what keeping the order means. */
  lemma {:induction false} UncheckConcat(a: seq<BloomLevel>, b: seq<BloomLevel>, level: BloomLevel)
    ensures UncheckLevel(a + b, level) == UncheckLevel(a, level) + UncheckLevel(b, level)
    decreases |a|
  {
    if |a| > 0 {
      assert (a + b)[1..] == a[1..] + b;
      UncheckConcat(a[1..], b, level);
    } else {
      assert a + b == b;
    }
  }

  /** A click on a box: the box shows `levels.includes(level)`, and the click
      flips that box and no other. */
  function ToggleLevel(levels: seq<BloomLevel>, level: BloomLevel): (r: seq<BloomLevel>)
    ensures level in r <==> level !in levels
    ensures forall x :: x != level ==> (x in r <==> x in levels)
  {
    if level in levels then UncheckLevel(levels, level) else CheckLevel(levels, level)
  }

  predicate Distinct(levels: seq<BloomLevel>) {
    forall i, j :: 0 <= i < j < |levels| ==> levels[i] != levels[j]
  }

  /** Clicks keep the list free of duplicates. */
  lemma ToggleKeepsDistinct(levels: seq<BloomLevel>, level: BloomLevel)
    requires Distinct(levels)
    ensures Distinct(ToggleLevel(levels, level))
  {
    if level in levels {
      UncheckDistinct(levels, level);
    }
  }

  lemma {:induction false} UncheckDistinct(levels: seq<BloomLevel>, level: BloomLevel)
    requires Distinct(levels)
    ensures Distinct(UncheckLevel(levels, level))
  {
    if |levels| > 0 {
      UncheckDistinct(levels[1..], level);
      var rest := UncheckLevel(levels[1..], level);
      assert multiset(rest)[levels[0]] <= multiset(levels[1..])[levels[0]];
      assert levels[0] !in levels[1..];
    }
  }

  // ---------------------------------------------------------------------------
  // The form and the prompt
  // ---------------------------------------------------------------------------

  /** The submit button is disabled while generating and for an empty subject. */
  predicate SubmitDisabled(generating: bool, config: TestConfig) {
    generating || config.subject == ""
  }

  /** The form's state: the configuration, whether a request is running,
      and the last reply shown. */
  datatype Form = Form(config: TestConfig, generating: bool, questions: string)

  const InitialForm := Form(InitialConfig, false, "")

  /** What the user and the pending request can do. `Reply(Some(text))` is a
      request that returned `text`; `Reply(None)` is one that failed. */
  datatype FormEvent = ClickBloom(level: BloomLevel) | EditSubject(subject: string) | Submit
                     | Reply(response: Option<string>)

  /** Submitting, by the button or by pressing Enter, needs the button
      enabled; a reply only arrives for a running request. */
  predicate FormEnabled(f: Form, e: FormEvent) {
    match e
    case Submit => !SubmitDisabled(f.generating, f.config)
    case Reply(_) => f.generating
    case _ => true
  }

  /** A submission starts a request, which blocks a second submission until
      its reply; a reply ends it; a click or an edit changes only its own
      field. */
  function FormStep(f: Form, e: FormEvent): (g: Form)
    requires FormEnabled(f, e)
    ensures e.Submit? ==> f.config.subject != "" && g.generating && !FormEnabled(g, Submit)
                          && g.config == f.config && g.questions == f.questions
    ensures e.Reply? ==> !g.generating && g.config == f.config
    ensures e.Reply? && e.response.Some? ==> g.questions == e.response.value
    ensures e.Reply? && e.response.None? ==> g.questions == f.questions
    ensures e.ClickBloom? ==> g.config.bloomLevels == ToggleLevel(f.config.bloomLevels, e.level)
                              && g.config == f.config.(bloomLevels := g.config.bloomLevels)
                              && g.generating == f.generating && g.questions == f.questions
    ensures e.EditSubject? ==> g.config.subject == e.subject
                               && g.config == f.config.(subject := g.config.subject)
                               && g.generating == f.generating && g.questions == f.questions
  {
    match e
    case ClickBloom(level) =>
      f.(config := f.config.(bloomLevels := ToggleLevel(f.config.bloomLevels, level)))
    case EditSubject(subject) => f.(config := f.config.(subject := subject))
    case Submit => f.(generating := true)
    case Reply(response) =>
      match response
      case Some(text) => f.(generating := false, questions := text)
      case None => f.(generating := false)
  }

  /** The state after the enabled prefix of `events`. */
  function FormRun(f: Form, events: seq<FormEvent>): Form
    decreases |events|
  {
    if |events| == 0 || !FormEnabled(f, events[0]) then f
    else FormRun(FormStep(f, events[0]), events[1..])
  }

  /** Every run keeps the Bloom list free of duplicates. */
  lemma {:induction false} FormRunDistinct(f: Form, events: seq<FormEvent>)
    requires Distinct(f.config.bloomLevels)
    ensures Distinct(FormRun(f, events).config.bloomLevels)
    decreases |events|
  {
    if |events| > 0 && FormEnabled(f, events[0]) {
      if events[0].ClickBloom? {
        ToggleKeepsDistinct(f.config.bloomLevels, events[0].level);
      }
      FormRunDistinct(FormStep(f, events[0]), events[1..]);
    }
  }

  /** The initial form cannot be submitted until a subject is typed, and no
      run from it ever puts a Bloom level in the list twice. */
  lemma InitialFormRuns(events: seq<FormEvent>)
    ensures !FormEnabled(InitialForm, Submit)
    ensures Distinct(FormRun(InitialForm, events).config.bloomLevels)
  {
    FormRunDistinct(InitialForm, events);
  }

  function TypeName(t: QuestionType): string {
    match t
    case MultipleChoice => "multiple-choice"
    case TrueFalse => "true-false"
    case Open => "open"
  }

  function LevelName(e: EducationLevel): string {
    match e
    case HighSchool => "high-school"
    case Bachelor => "bachelor"
    case University => "university"
  }

  function BloomName(b: BloomLevel): string {
    match b
    case Knowledge => "knowledge"
    case Comprehension => "comprehension"
    case Application => "application"
    case Analysis => "analysis"
    case Synthesis => "synthesis"
    case Evaluation => "evaluation"
  }

  function DigitsOf(n: nat): string
    decreases n
  {
    var digit := ['0' + (n % 10) as char];
    if n < 10 then digit else DigitsOf(n / 10) + digit
  }

  /** How a template literal renders the count. */
  function CountText(c: QuestionCount): string {
    match c
    case NotANumber => "NaN"
    case Count(n) => if n < 0 then "-" + DigitsOf(-n) else DigitsOf(n)
  }

  /** `bloomLevels.join(', ')`, the empty string for no levels. */
  function BloomList(levels: seq<BloomLevel>): string {
    if |levels| == 0 then ""
    else Join(seq(|levels|, i requires 0 <= i < |levels| => BloomName(levels[i])), ", ")
  }

  const WithCase := "Met korte casus voor elke vraag"
  const WithoutCase := "Zonder casus"

  function CasePhrase(needsCase: bool): string {
    if needsCase then WithCase else WithoutCase
  }

  const Indent := "\n        "

  /** The template's empty line and instruction lines, each after a line
      break and the indentation. */
  const FormattingInstructions :=
    Indent + Indent + "Gebruik deze opmaak voor de vragen:"
    + Indent + "- Gebruik \"**Vraag X:**\" voor vraagnummers (bijv. **Vraag 1:**)"
    + Indent + "- Gebruik \"**Casus:**\" voor casustekst"
    + Indent + "- Gebruik \"**Stelling:**\" voor de vraagstelling"
    + Indent + "- Gebruik \"**Antwoord:**\" voor het juiste antwoord"
    + Indent + "- Gebruik \"**Motivatie:**\" voor de uitleg"
    + Indent + "- Maak belangrijke termen *cursief*"
    + Indent + "- Gebruik --- om vragen te scheiden"

  /** The prompt `handleSubmit` sends. Written as one template literal, its
      lines are the six settings and then the formatting instructions, each
      line after the first indented by eight spaces. */
  function Prompt(config: TestConfig): (p: string)
    ensures p == Join(SettingLines(config), Indent) + FormattingInstructions
  {
    PromptLayout(config);
    PromptHead(config) + BloomLine(config) + CaseLine(config) + Indent + PromptTail(config)
  }

  /** The setting lines of the prompt, without their indentation. */
  function SettingLines(config: TestConfig): seq<string> {
    [ "Als toetsexpert met specialisatie kennistoetsen, genereer " + CountText(config.questionCount)
      + " " + TypeName(config.questionType) + " vragen.",
      "Niveau: " + LevelName(config.educationLevel),
      "Bloom niveaus: " + BloomList(config.bloomLevels),
      CasePhrase(config.needsCase),
      "Onderwerp: " + config.subject,
      "Context: " + config.context ]
  }

  lemma PromptLayout(config: TestConfig)
    ensures PromptHead(config) + BloomLine(config) + CaseLine(config) + Indent + PromptTail(config)
            == Join(SettingLines(config), Indent) + FormattingInstructions
  {
    var lines := SettingLines(config);
    JoinSix(lines, Indent);
    assert PromptHead(config) == lines[0] + Indent + lines[1];
    assert PromptTail(config) == lines[4] + Indent + lines[5] + FormattingInstructions;
    Glue(lines[0], lines[1], lines[2], lines[3], lines[4], lines[5], FormattingInstructions, Indent);
  }

  /** The regrouping `PromptLayout` needs, stated over plain strings. */
  lemma Glue(a: string, b: string, c: string, d: string, e: string, f: string, t: string, sep: string)
    ensures (a + sep + b) + (sep + c) + (sep + d) + sep + (e + sep + f + t)
            == (a + sep + b + sep + c + sep + d + sep + e + sep + f) + t
  {
  }

  lemma JoinSix(lines: seq<string>, sep: string)
    requires |lines| == 6
    ensures Join(lines, sep) == lines[0] + sep + lines[1] + sep + lines[2] + sep + lines[3]
                                + sep + lines[4] + sep + lines[5]
  {
    assert lines[4..][1..] == lines[5..];
    assert Join(lines[4..], sep) == lines[4] + sep + lines[5];
    assert lines[3..][1..] == lines[4..];
    assert Join(lines[3..], sep) == lines[3] + sep + Join(lines[4..], sep);
    assert lines[2..][1..] == lines[3..];
    assert Join(lines[2..], sep) == lines[2] + sep + Join(lines[3..], sep);
    assert lines[1..][1..] == lines[2..];
    assert Join(lines[1..], sep) == lines[1] + sep + Join(lines[2..], sep);
  }

  function PromptHead(config: TestConfig): string {
    "Als toetsexpert met specialisatie kennistoetsen, genereer " + CountText(config.questionCount)
    + " " + TypeName(config.questionType) + " vragen."
    + Indent + "Niveau: " + LevelName(config.educationLevel)
  }

  function BloomLine(config: TestConfig): string {
    Indent + ("Bloom niveaus: " + BloomList(config.bloomLevels))
  }

  function CaseLine(config: TestConfig): string {
    Indent + CasePhrase(config.needsCase)
  }

  function PromptTail(config: TestConfig): string {
    "Onderwerp: " + config.subject + Indent + "Context: " + config.context + FormattingInstructions
  }

  /** In `h + sep + x + sep + y + sep + t`, both `sep + x + sep` and
      `sep + y + sep` occur. */
  lemma LinesOccur(h: string, sep: string, x: string, y: string, t: string)
    ensures Contains(h + (sep + x) + (sep + y) + sep + t, sep + x + sep)
    ensures Contains(h + (sep + x) + (sep + y) + sep + t, sep + y + sep)
  {
    var s := h + (sep + x) + (sep + y) + sep + t;
    assert s == h + (sep + x + sep) + (y + sep + t);
    ContainsInfix(h, sep + x + sep, y + sep + t);
    assert s == (h + (sep + x)) + (sep + y + sep) + t;
    ContainsInfix(h + (sep + x), sep + y + sep, t);
  }

  /** The prompt holds a line with the Bloom levels joined by ", " and a line
      that is exactly the case phrase `needsCase` selects. */
  lemma PromptMentionsSettings(config: TestConfig)
    ensures Contains(Prompt(config), Indent + ("Bloom niveaus: " + BloomList(config.bloomLevels)) + Indent)
    ensures Contains(Prompt(config), Indent + CasePhrase(config.needsCase) + Indent)
  {
    LinesOccur(PromptHead(config), Indent, "Bloom niveaus: " + BloomList(config.bloomLevels),
               CasePhrase(config.needsCase), PromptTail(config));
  }
}
