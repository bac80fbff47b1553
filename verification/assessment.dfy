/**
 The vocabulary shared by the site assessor and the claim verifier: how many
 loaded sources a claim is checked against, and the four assessment strings the
 language model is told to answer with.
 */
module Assessments {

  /** Number of sources whose page loaded that a claim is checked against. */
  const SITES_CHECKED: nat := 5

  const TRUE_ASSESSMENT: string := "true"
  const FALSE_ASSESSMENT: string := "false"
  const UNCLEAR_ASSESSMENT: string := "unclear"
  const NOT_FOUND_ASSESSMENT: string := "notfound"

  datatype Option<+T> = None | Some(value: T)

  /** The four verdicts a single source can give on a claim. */
  datatype Assessment =
    | Supports     // the source backs the claim ("true")
    | Contradicts  // the source contradicts the claim ("false")
    | Unclear      // the source neither clearly backs nor contradicts it
    | NotFound     // the source says nothing about the claim

  /** The wire string of an assessment. */
  function Name(a: Assessment): (s: string)
    ensures s in {TRUE_ASSESSMENT, FALSE_ASSESSMENT, UNCLEAR_ASSESSMENT, NOT_FOUND_ASSESSMENT}
  {
    match a
    case Supports => TRUE_ASSESSMENT
    case Contradicts => FALSE_ASSESSMENT
    case Unclear => UNCLEAR_ASSESSMENT
    case NotFound => NOT_FOUND_ASSESSMENT
  }

  /** True of exactly the strings the model is allowed to answer with. */
  predicate IsKnown(s: string) {
    s == TRUE_ASSESSMENT || s == FALSE_ASSESSMENT || s == UNCLEAR_ASSESSMENT || s == NOT_FOUND_ASSESSMENT
  }

  /** Reads an assessment string; any other string is not an assessment. */
  function Parse(s: string): (r: Option<Assessment>)
    ensures r.Some? <==> IsKnown(s)
    ensures r.Some? ==> Name(r.value) == s
  {
    if s == TRUE_ASSESSMENT then Some(Supports)
    else if s == FALSE_ASSESSMENT then Some(Contradicts)
    else if s == UNCLEAR_ASSESSMENT then Some(Unclear)
    else if s == NOT_FOUND_ASSESSMENT then Some(NotFound)
    else None
  }

  /** Reading the name of an assessment gives that assessment back, so no two
      assessments share a string. */
  lemma ParseName(a: Assessment)
    ensures Parse(Name(a)) == Some(a)
    ensures IsKnown(Name(a))
  {
  }

  lemma NameInjective(a: Assessment, b: Assessment)
    ensures Name(a) == Name(b) <==> a == b
  {
    ParseName(a);
    ParseName(b);
  }
}
