/** The `FileUploadWithFeedback` component: a simplified scorer that turns
    the text extracted from a student's document into five rubric scores
    (content, argumentation, structure, language, originality), a mean total
    and one feedback sentence per dimension, together with the handler that
    gates the chosen file, posts it to the upload route and scores the text
    it gets back.

    The source computes the scores with floating-point expressions of the
    form `Math.floor((a / b) * 8)` on non-negative operands; here they are
    exact integer floor divisions `(8 * a) / b`. The originality score comes
    from `Math.floor(Math.random() * 8)`, an integer in 0..7, which is the
    parameter `draw`. */
module Feedback {
  import opened Wrappers
  import opened Text
  import opened Files
  import opened Http
  import UploadDocxRoute

  datatype Scores = Scores(content: int, argumentation: int, structure: int,
                           language: int, originality: int)
  {
    function Sum(): int {
      content + argumentation + structure + language + originality
    }

    predicate InRange() {
      && 1 <= content <= 8 && 1 <= argumentation <= 8 && 1 <= structure <= 8
      && 1 <= language <= 8 && 1 <= originality <= 8
    }
  }

  datatype Remarks = Remarks(content: string, argumentation: string, structure: string,
                             language: string, originality: string)

  datatype Report = Report(scores: Scores, feedback: Remarks, totalScore: real)

  /** Tokens longer than this many characters count against the language score. */
  const LongWordLength: nat := 20

  function Min(a: int, b: int): int { if a <= b then a else b }
  function Max(a: int, b: int): int { if a >= b then a else b }

  /** `Math.min(8, Math.max(1, x))`: every dimension score is forced into 1..8. */
  function Clamp(x: int): (r: int)
    ensures 1 <= r <= 8
    ensures 1 <= x <= 8 ==> r == x
    ensures x <= 1 ==> r == 1
    ensures x >= 8 ==> r == 8
  {
    Min(8, Max(1, x))
  }

  // ---------------------------------------------------------------------------
  // The five dimension scores
  // ---------------------------------------------------------------------------

  /** Content: `floor((length / 500) * 8)`, clamped. */
  function ContentScore(text: string): (r: int)
    ensures 1 <= r <= 8
    ensures |text| >= 500 ==> r == 8
    ensures r == 1 <==> |text| < 125
  {
    Clamp(8 * |text| / 500)
  }

  /** A longer text never scores lower on content. */
  lemma ContentMonotone(shorter: string, longer: string)
    requires |shorter| <= |longer|
    ensures ContentScore(shorter) <= ContentScore(longer)
  {
  }

  /** Floor division reaches `k` exactly when the dividend reaches `k` times
      the divisor. */
  lemma DivAtLeast(n: nat, d: nat, k: nat)
    requires d > 0
    ensures n / d >= k <==> n >= k * d
  {
    var q, r := n / d, n % d;
    assert n == q * d + r && 0 <= r < d;
    if q >= k {
      MulMonotone(k, q, d);
    } else {
      MulMonotone(q + 1, k, d);
      assert (q + 1) * d == q * d + d;
    }
  }

  lemma MulMonotone(a: nat, b: nat, d: nat)
    requires a <= b
    ensures a * d <= b * d
  {
    assert b * d == a * d + (b - a) * d;
  }

  /** Argumentation: `(text.split('omdat').length + text.split('dus').length) * 2`,
      clamped. Each split has one piece more than there are occurrences, so the
      score is 4 plus 2 per occurrence of either marker, capped at 8: it is at
      least 4 even for the empty text. */
  function ArgumentationScore(text: string): (r: int)
    ensures r == Min(8, 4 + 2 * (Occurrences(text, "omdat") + Occurrences(text, "dus")))
    ensures 4 <= r <= 8
  {
    Clamp((|Split(text, "omdat")| + |Split(text, "dus")|) * 2)
  }

  /** Structure: `floor((pieces / 3) * 8)`, clamped, where the pieces are those
      of `text.split('\n\n')`. It depends only on the number of pieces k:
      2 for k = 1, 5 for k = 2 and 8 from k = 3 on. */
  function StructureScore(text: string): (r: int)
    ensures Occurrences(text, "\n\n") == 0 ==> r == 2
    ensures Occurrences(text, "\n\n") == 1 ==> r == 5
    ensures Occurrences(text, "\n\n") >= 2 ==> r == 8
  {
    Clamp(8 * |Split(text, "\n\n")| / 3)
  }

  /** How many of the tokens are longer than `LongWordLength`. */
  function LongTokens(tokens: seq<string>): (n: nat)
    ensures n <= |tokens|
  {
    if |tokens| == 0 then 0
    else (if |tokens[0]| > LongWordLength then 1 else 0) + LongTokens(tokens[1..])
  }

  /** Language: `floor((1 - long / all) * 8)`, clamped, over the tokens of
      `text.split(' ')`. `split` always yields at least one token, so the
      ratio is always defined. The score is 8 exactly when no token is long,
      and 1 when every token is. */
  function LanguageScore(text: string): (r: int)
    ensures 1 <= r <= 8
    ensures r == 8 <==> LongTokens(Split(text, " ")) == 0
    ensures LongTokens(Split(text, " ")) == |Split(text, " ")| ==> r == 1
  {
    var tokens := Split(text, " ");
    var long := LongTokens(tokens);
    DivAtLeast(8 * (|tokens| - long), |tokens|, 8);
    DivAtLeast(8 * (|tokens| - long), |tokens|, 1);
    Clamp(8 * (|tokens| - long) / |tokens|)
  }

  /** Originality: `floor(random * 8)` is at most 7, so after clamping the
      score lies in 1..7 and never reaches the top. */
  function OriginalityScore(draw: nat): (r: int)
    requires draw < 8
    ensures 1 <= r <= 7
    ensures draw >= 1 ==> r == draw
  {
    Clamp(draw)
  }

  // ---------------------------------------------------------------------------
  // Score bands: the feedback sentence and the display colour
  // ---------------------------------------------------------------------------

  /** The four bands shared by the feedback sentence and the colour. */
  datatype Band = NeedsWork | Sufficient | Good | Excellent

  function BandOf(score: int): Band {
    if score <= 2 then NeedsWork
    else if score <= 4 then Sufficient
    else if score <= 6 then Good
    else Excellent
  }

  /** The feedback sentence of each band, for a dimension named `category`. */
  function BandSentence(b: Band, category: string): string {
    match b
    case NeedsWork => "Je " + category + " needs significant improvement."
    case Sufficient => "Je " + category + " is voldoende, maar kan beter."
    case Good => "Je " + category + " is goed!"
    case Excellent => "Uitstekend werk met je " + category + "!"
  }

  /** The text colour of each band. */
  function BandColour(b: Band): string {
    match b
    case NeedsWork => "text-red-600"
    case Sufficient => "text-orange-600"
    case Good => "text-green-600"
    case Excellent => "text-emerald-600"
  }

  /** `getFeedbackForScore`: its chain of thresholds picks the sentence of
      the score's band. */
  function FeedbackForScore(score: int, category: string): (f: string)
    ensures f == BandSentence(BandOf(score), category)
  {
    if score <= 2 then "Je " + category + " needs significant improvement."
    else if score <= 4 then "Je " + category + " is voldoende, maar kan beter."
    else if score <= 6 then "Je " + category + " is goed!"
    else "Uitstekend werk met je " + category + "!"
  }

  /** `getScoreColor`: its chain of thresholds, the same as the sentence's,
      picks the colour of the score's band. */
  function ScoreColor(score: int): (colour: string)
    ensures colour == BandColour(BandOf(score))
  {
    if score <= 2 then "text-red-600"
    else if score <= 4 then "text-orange-600"
    else if score <= 6 then "text-green-600"
    else "text-emerald-600"
  }

  /** Two scores get the same feedback sentence exactly when they fall in the
      same band. */
  lemma SentencesShareBands(s: int, t: int, category: string)
    ensures FeedbackForScore(s, category) == FeedbackForScore(t, category)
            <==> BandOf(s) == BandOf(t)
  {
  }

  /** Two scores get the same colour exactly when they fall in the same band,
      so the colour and the sentence always agree. */
  lemma ColoursShareBands(s: int, t: int)
    ensures ScoreColor(s) == ScoreColor(t) <==> BandOf(s) == BandOf(t)
  {
  }

  /** Band membership is monotone in the score. */
  lemma BandMonotone(s: int, t: int)
    requires s <= t
    ensures BandRank(BandOf(s)) <= BandRank(BandOf(t))
  {
  }

  function BandRank(b: Band): nat {
    match b
    case NeedsWork => 0
    case Sufficient => 1
    case Good => 2
    case Excellent => 3
  }

  // ---------------------------------------------------------------------------
  // The analysis
  // ---------------------------------------------------------------------------

  /** `analyzeFeedback`: the five scores, one sentence per dimension chosen
      by the band of that dimension's score, and the mean of the five scores
      as the total. */
  function Analyze(text: string, draw: nat): (report: Report)
    requires draw < 8
    ensures report.scores == Scores(ContentScore(text), ArgumentationScore(text), StructureScore(text),
                                    LanguageScore(text), OriginalityScore(draw))
    ensures report.feedback == Remarks(
              BandSentence(BandOf(report.scores.content), "inhoud"),
              BandSentence(BandOf(report.scores.argumentation), "argumentatie"),
              BandSentence(BandOf(report.scores.structure), "structuur"),
              BandSentence(BandOf(report.scores.language), "taalgebruik"),
              BandSentence(BandOf(report.scores.originality), "originaliteit"))
    ensures report.scores.InRange()
    ensures report.scores.argumentation >= 4 && report.scores.originality <= 7
    ensures report.totalScore * 5.0 == report.scores.Sum() as real
    ensures 1.0 <= report.totalScore <= 8.0
  {
    var scores := Scores(ContentScore(text), ArgumentationScore(text), StructureScore(text),
                         LanguageScore(text), OriginalityScore(draw));
    Report(
      scores,
      Remarks(
        FeedbackForScore(scores.content, "inhoud"),
        FeedbackForScore(scores.argumentation, "argumentatie"),
        FeedbackForScore(scores.structure, "structuur"),
        FeedbackForScore(scores.language, "taalgebruik"),
        FeedbackForScore(scores.originality, "originaliteit")),
      scores.Sum() as real / 5.0)
  }

  /** The argumentation sentence is never the "needs significant improvement"
      one, whatever the text, and the originality sentence is the top-band
      one exactly when the random draw is 7. */
  lemma ArgumentationNeverInLowestBand(text: string, draw: nat)
    requires draw < 8
    ensures Analyze(text, draw).feedback.argumentation != "Je argumentatie needs significant improvement."
    ensures Analyze(text, draw).feedback.originality == "Uitstekend werk met je originaliteit!" <==> draw == 7
  {
    var report := Analyze(text, draw);
    LowestSentenceNeedsLowScore(report.scores.argumentation, "argumentatie");
    TopSentenceNeedsTopScore(report.scores.originality, "originaliteit");
  }

  lemma LowestSentenceNeedsLowScore(score: int, category: string)
    ensures FeedbackForScore(score, category) == "Je " + category + " needs significant improvement."
            <==> score <= 2
  {
  }

  lemma TopSentenceNeedsTopScore(score: int, category: string)
    ensures FeedbackForScore(score, category) == "Uitstekend werk met je " + category + "!"
            <==> score > 6
  {
  }

  // ---------------------------------------------------------------------------
  // The file handler
  // ---------------------------------------------------------------------------

  const WrongTypeAlert := "Alleen .docx en .pdf bestanden zijn toegestaan!"
  const UploadFailedAlert := "Er is een fout opgetreden bij het uploaden van het bestand."

  /** The component's state: the chosen file, the "processing" flag and the
      feedback on display. */
  datatype Panel = Panel(uploaded: Option<UploadedFile>, processing: bool, feedback: Option<Report>)

  /** A handler step: the new state and the alert it raised, if any. */
  datatype Reaction = Reaction(panel: Panel, alert: Option<string>)

  /** The synchronous part of `handleFileSelect`: a name ending in neither
      `.docx` nor `.pdf` only raises an alert and leaves the state as it was;
      otherwise the file is recorded, processing starts and old feedback is
      cleared before anything is sent. */
  function BeginUpload(panel: Panel, file: UploadedFile): (r: Reaction)
    ensures !IsDocumentName(file.name) ==> r == Reaction(panel, Some(WrongTypeAlert))
    ensures IsDocumentName(file.name) ==>
              r.alert.None? && r.panel.uploaded == Some(file)
              && r.panel.processing && r.panel.feedback.None?
  {
    if !IsDocumentName(file.name) then Reaction(panel, Some(WrongTypeAlert))
    else Reaction(Panel(Some(file), true, None), None)
  }

  /** The rest of `handleFileSelect`, once the upload route has answered: an
      answer that is not OK, or one without extracted text, raises an alert
      and leaves the feedback as it was; otherwise the text is scored. The
      flag is cleared in `finally` either way. */
  function FinishUpload(panel: Panel, response: Response, draw: nat): (r: Reaction)
    requires draw < 8
    ensures !r.panel.processing && r.panel.uploaded == panel.uploaded
    ensures r.alert.None? <==> response.Ok() && response.body.Uploaded?
    ensures r.alert.None? ==> r.panel.feedback == Some(Analyze(response.body.content, draw))
    ensures r.alert.Some? ==> r.alert == Some(UploadFailedAlert) && r.panel.feedback == panel.feedback
  {
    if response.Ok() && response.body.Uploaded? then
      Reaction(panel.(processing := false, feedback := Some(Analyze(response.body.content, draw))), None)
    else
      Reaction(panel.(processing := false), Some(UploadFailedAlert))
  }

  /** `handleDrop`: only the first dropped file is handled; an empty drop
      changes nothing. */
  function DropFiles(panel: Panel, files: seq<UploadedFile>): (r: Reaction)
    ensures |files| == 0 ==> r == Reaction(panel, None)
    ensures |files| > 0 ==> r == BeginUpload(panel, files[0])
  {
    match FirstFile(files)
    case None => Reaction(panel, None)
    case Some(file) => BeginUpload(panel, file)
  }

  // ---------------------------------------------------------------------------
  // The handler together with the upload route
  // ---------------------------------------------------------------------------

  /** A `.pdf` file passes this component's gate, but the upload route accepts
      only `.docx`: the round trip always ends in the upload-failed alert and
      never in feedback, whatever the file's size or contents. */
  lemma PdfIsNeverScored(panel: Panel, file: UploadedFile, extraction: Option<string>, draw: nat)
    requires EndsWith(file.name, PdfSuffix) && draw < 8
    ensures BeginUpload(panel, file).alert.None?
    ensures var r := FinishUpload(BeginUpload(panel, file).panel,
                                  UploadDocxRoute.Post(UploadDocxRoute.Form(UploadDocxRoute.Attached(file)), extraction),
                                  draw);
            r.alert == Some(UploadFailedAlert) && r.panel.feedback.None?
  {
    PdfIsNotDocx(file.name);
    RouteRejectsPdf(file, extraction);
  }

  lemma RouteRejectsPdf(file: UploadedFile, extraction: Option<string>)
    requires EndsWith(file.name, PdfSuffix)
    ensures !UploadDocxRoute.Post(UploadDocxRoute.Form(UploadDocxRoute.Attached(file)), extraction).Ok()
  {
    PdfIsNotDocx(file.name);
  }

  /** A `.docx` file within the size limit whose text the converter extracts
      ends up scored: the feedback shown is the analysis of exactly that text. */
  lemma DocxIsScored(panel: Panel, file: UploadedFile, text: string, draw: nat)
    requires EndsWith(file.name, DocxSuffix) && file.size <= MaxUploadBytes && draw < 8
    ensures var begun := BeginUpload(panel, file);
            var response := UploadDocxRoute.Post(UploadDocxRoute.Form(UploadDocxRoute.Attached(file)), Some(text));
            FinishUpload(begun.panel, response, draw)
              == Reaction(Panel(Some(file), false, Some(Analyze(text, draw))), None)
  {
  }
}
