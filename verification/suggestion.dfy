/** The fixed mapping from taste feedback to brewing advice. */
module Suggestion {

  const BitterAdvice: string :=
    "To make it less bitter, try coarsening the grind size or lowering the temperature."

  const SourAdvice: string :=
    "To make it less sour, try making the grind size finer or increasing the temperature."

  /** The advice table as data: only the two faulty tastes have an entry. */
  const AdviceTable: map<string, string> := map["bitter" := BitterAdvice, "sour" := SourAdvice]

  /** The advice shown for a taste selection, written as the handler's
      if/else-if chain over a default of the empty string. */
  function Suggest(taste: string): (r: string)
    ensures r == BitterAdvice <==> taste == "bitter"
    ensures r == SourAdvice <==> taste == "sour"
    ensures r == "" <==> taste != "bitter" && taste != "sour"
  {
    if taste == "bitter" then BitterAdvice
    else if taste == "sour" then SourAdvice
    else ""
  }

  /** The chain agrees with the table on every input: a tabled taste gets its
      entry and every other string, including "" and "good", gets no advice. */
  lemma SuggestMatchesTable(taste: string)
    ensures taste in AdviceTable ==> Suggest(taste) == AdviceTable[taste]
    ensures taste !in AdviceTable ==> Suggest(taste) == ""
  {
  }
}
