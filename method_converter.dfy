/**
 * `MethodConverter` of both ObjectConverters files: the UI shows a POST
 * check box, on for POST and off for GET.
 */
module MethodConverter {
  import opened Text
  import opened Http

  /** `Convert`: true when the method is "POST" ignoring case. */
  function Convert(value: string): bool
  {
    EqualsIgnoreCase(value, "POST")
  }

  /** `ConvertBack`: true gives "POST", false gives "GET". */
  function ConvertBack(isPost: bool): string
  {
    if isPost then "POST" else "GET"
  }

  /** The check box is on exactly for the four-letter spellings of "post" in any mix of cases. */
  lemma ConvertIsPostIgnoringCase(value: string)
    ensures Convert(value) <==>
              |value| == 4 && value[0] in "pP" && value[1] in "oO" && value[2] in "sS" && value[3] in "tT"
  {
    EqualsIgnoreCaseIff(value, "POST");
  }

  /** Converting back and forth gives the check box state back, and the methods back are both accepted by the request templates. */
  lemma RoundTrip(isPost: bool)
    ensures Convert(ConvertBack(isPost)) == isPost
    ensures AcceptedMethod(ConvertBack(isPost))
  {
  }

  /** Converting a method and back normalises it: any casing of "post" gives "POST", anything else "GET", and normalising twice changes nothing. */
  lemma Normalises(value: string)
    ensures ConvertBack(Convert(value)) == "POST" <==>
              |value| == 4 && value[0] in "pP" && value[1] in "oO" && value[2] in "sS" && value[3] in "tT"
    ensures ConvertBack(Convert(value)) != "POST" ==> ConvertBack(Convert(value)) == "GET"
    ensures ConvertBack(Convert(ConvertBack(Convert(value)))) == ConvertBack(Convert(value))
  {
    ConvertIsPostIgnoringCase(value);
    RoundTrip(Convert(value));
  }

  /** For a method a request template accepts, the check box is on exactly when it is not a GET. */
  lemma AcceptedMethodShown(verb: string)
    requires AcceptedMethod(verb)
    ensures Convert(verb) <==> !EqualsIgnoreCase(verb, "GET")
  {
    AcceptedMethodSpelling(verb);
    ConvertIsPostIgnoringCase(verb);
    EqualsIgnoreCaseIff(verb, "GET");
  }
}
