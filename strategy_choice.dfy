/** The command-line strategy selector: the lower-cased answer to the
    "straddle or strangle" prompt becomes the use_strangle flag, and any
    answer other than the two recognised words falls back to a straddle
    with a warning. */
module StrategyChoice {

  datatype Selection = Selection(useStrangle: bool, warned: bool)

  function SelectStrategy(choice: string): (s: Selection)
    ensures s.useStrangle <==> choice == "strangle"
    ensures s.warned <==> choice != "strangle" && choice != "straddle"
  {
    var useStrangle := choice == "strangle";
    if useStrangle then Selection(true, false)
    else if choice != "straddle" then Selection(false, true)
    else Selection(false, false)
  }

  /** A warning always means the straddle default, and a choice passes
      without warning exactly when it is one of the two recognised words. */
  lemma WarningMeansStraddle(choice: string)
    ensures SelectStrategy(choice).warned ==> !SelectStrategy(choice).useStrangle
    ensures !SelectStrategy(choice).warned <==> choice in ["straddle", "strangle"]
  {
  }
}
