/** `MarketStructuresQuiz`: the quiz state machine over four questions on
    market structures, and the message on its result screen. */
module MarketStructuresQuiz {
  import opened Quiz

  const Options := ["Monopolie", "Oligopolie", "Monopolistische concurrentie", "Volledige concurrentie"]

  /** The static question table; the explanations are abbreviated to their
      first sentence, since nothing depends on their text. */
  const Questions: seq<Question> := [
    Question(1, "Welke marktvorm kenmerkt zich door één aanbieder die alle macht heeft?", Options, 0,
             "Een monopolie is een marktvorm waarbij er slechts één aanbieder is die volledige controle heeft over de markt."),
    Question(2, "Bij welke marktvorm zijn er veel aanbieders met gedifferentieerde producten?", Options, 2,
             "Bij monopolistische concurrentie zijn er veel aanbieders die vergelijkbare, maar net verschillende producten aanbieden."),
    Question(3, "Welke marktvorm heeft weinig grote aanbieders die elkaar sterk beïnvloeden?", Options, 1,
             "Een oligopolie heeft enkele grote aanbieders die elkaars gedrag nauwlettend in de gaten houden."),
    Question(4, "Bij welke marktvorm zijn er veel aanbieders met identieke producten?", Options, 3,
             "Volledige concurrentie kenmerkt zich door veel aanbieders die identieke producten verkopen.")
  ]

  lemma TableIsWellFormed()
    ensures WellFormedTable(Questions) && |Questions| == 4
  {
  }

  const PerfectMessage := "Perfect! Je beheerst de marktvormen uitstekend!"
  const WellDoneMessage := "Goed gedaan! Je hebt een goede basiskennis van marktvormen."
  const TryAgainMessage := "Je kunt je kennis van marktvormen nog verbeteren. Probeer het nog eens!"

  /** The result-screen message. `score >= questions.length / 2` divides as a
      real number, so it compares `score` with half the count, not a rounded
      half. For a score that does not exceed the count, the three messages
      split the scores into: all correct; at least half but not all; fewer
      than half. */
  function ResultMessage(score: nat, total: nat): (message: string)
    ensures score <= total ==> (message == PerfectMessage <==> score == total)
    ensures score <= total ==> (message == WellDoneMessage <==> total <= 2 * score && score < total)
    ensures score <= total ==> (message == TryAgainMessage <==> 2 * score < total)
  {
    if score == total then PerfectMessage
    else if score as real >= total as real / 2.0 then WellDoneMessage
    else TryAgainMessage
  }

  /** Whatever the user clicks from the start, the result screen shows
      "Perfect!" exactly for 4 correct answers, "Goed gedaan!" exactly for 2
      or 3, and the try-again message exactly for at most one. */
  lemma ReachableResultMessage(events: seq<Event>)
    ensures var score := Run(Questions, Initial, events).score;
            && (ResultMessage(score, |Questions|) == PerfectMessage <==> score == 4)
            && (ResultMessage(score, |Questions|) == WellDoneMessage <==> 2 <= score <= 3)
            && (ResultMessage(score, |Questions|) == TryAgainMessage <==> score <= 1)
  {
    InitialInv(Questions);
    RunInv(Questions, Initial, events);
  }
}
