/** `ChineseHistoryQuiz`: the quiz state machine over five questions on
    Chinese history. Besides the `disabled` attribute, its option buttons
    guard the click with `!showExplanation`, which is the same condition
    `Quiz.Enabled` puts on a choice. */
module ChineseHistoryQuiz {
  import opened Quiz

  /** The static question table; the explanations are abbreviated to their
      first sentence, since nothing depends on their text. */
  const Questions: seq<Question> := [
    Question(1, "Welke dynastie wordt gezien als de eerste keizerlijke dynastie van China?",
             ["Han Dynastie", "Qin Dynastie", "Zhou Dynastie", "Tang Dynastie"], 1,
             "De Qin Dynastie (221-206 v.Chr.) wordt beschouwd als de eerste keizerlijke dynastie van China."),
    Question(2, "Wat was een van de grootste bouwprojecten tijdens de Qin dynastie?",
             ["De Verboden Stad", "De Chinese Muur", "Het Terracottaleger", "De Zijderoute"], 1,
             "Hoewel er al eerder verdedigingsmuren waren gebouwd, werd tijdens de Qin dynastie begonnen met het verbinden en uitbreiden van deze muren tot wat we nu kennen als de Chinese Muur."),
    Question(3, "Tijdens welke dynastie werd het kompas uitgevonden?",
             ["Song Dynastie", "Ming Dynastie", "Yuan Dynastie", "Tang Dynastie"], 0,
             "Het kompas werd uitgevonden tijdens de Song Dynastie (960-1279)."),
    Question(4, "Welke filosofische stroming, gesticht door Confucius, had grote invloed op de Chinese samenleving?",
             ["Taoïsme", "Boeddhisme", "Confucianisme", "Legalisme"], 2,
             "Confucianisme, gesticht door Confucius (551-479 v.Chr.), heeft een enorme impact gehad op de Chinese cultuur, politiek en sociale normen."),
    Question(5, "Welke uitvinding uit het oude China wordt gezien als een van de Vier Grote Uitvindingen?",
             ["Porselein", "Zijde", "Papier", "Thee"], 2,
             "Papier is een van de Vier Grote Uitvindingen van China, samen met het kompas, buskruit en de boekdrukkunst.")
  ]

  /** Every correct answer in the table is a valid index into its options. */
  lemma TableIsWellFormed()
    ensures WellFormedTable(Questions) && |Questions| == 5
  {
  }

  /** The final score shown, "Je score: {score} van de 5", lies between 0 and 5
      whatever the user clicks from the start. */
  lemma ReachableScoreBounded(events: seq<Event>)
    ensures Run(Questions, Initial, events).score <= |Questions|
    ensures Run(Questions, Initial, events).current < |Questions|
  {
    InitialInv(Questions);
    RunInv(Questions, Initial, events);
  }
}
