/**
 Worked runs of the claim verifier on small search results, each outcome
 derived from CheckClaim's contract alone.
 */
module ClaimCheckExamples {
  import opened Assessments
  import opened Verdicts
  import opened ClaimCheck

  function Loaded(assessment: string): SiteResult {
    SiteResult(assessment, "summary", true)
  }

  /** Five search results with distinct links, in rank order. */
  const FiveItems := [Item("https://a.example"), Item("https://b.example"), Item("https://c.example"),
                      Item("https://d.example"), Item("https://e.example")]

  /** Three supporting and two contradicting sources: no majority vote, the
      verdict is "unclear" and all five are cited. */
  method MixedSourcesAreUnclear() {
    var results := [Loaded("true"), Loaded("false"), Loaded("true"), Loaded("true"), Loaded("false")];
    var s := Search(FiveItems, results, None);
    assert s.Counted(1) == [0] && s.Counted(2) == [0, 1] && s.Counted(3) == [0, 1, 2];
    assert s.Counted(4) == [0, 1, 2, 3] && s.Counted(5) == [0, 1, 2, 3, 4];
    assert |s.Bucket(1, Supports)| == 1 && |s.Bucket(2, Supports)| == 1 && |s.Bucket(3, Supports)| == 2;
    assert |s.Bucket(4, Supports)| == 3 && |s.Bucket(5, Supports)| == 3;
    assert |s.Bucket(1, Contradicts)| == 0 && |s.Bucket(2, Contradicts)| == 1 && |s.Bucket(3, Contradicts)| == 1;
    assert |s.Bucket(4, Contradicts)| == 1 && |s.Bucket(5, Contradicts)| == 2;
    var r, examined, consulted := CheckClaim("claim", s);
    assert r.Ok?;
    assert examined == 5;
    assert |r.value.citations.supports| == 3 && |r.value.citations.contradicts| == 2;
    assert r.value.overallAssessment == Unclear;
  }

  /** Five supporting sources and none contradicting give "true". */
  method AllSupportingIsTrue() {
    var results := [Loaded("true"), Loaded("true"), Loaded("true"), Loaded("true"), Loaded("true")];
    var s := Search(FiveItems, results, None);
    assert s.Counted(1) == [0] && s.Counted(2) == [0, 1] && s.Counted(3) == [0, 1, 2];
    assert s.Counted(4) == [0, 1, 2, 3] && s.Counted(5) == [0, 1, 2, 3, 4];
    assert |s.Bucket(1, Supports)| == 1 && |s.Bucket(5, Contradicts)| == 0;
    var r, examined, consulted := CheckClaim("claim", s);
    assert r.Ok? && r.value.overallAssessment == Supports;
  }

  /** Two results, neither of which loads: the cursor runs off the end of the
      list and the verifier fails instead of returning empty buckets. */
  method TooFewLoadedSourcesFails() {
    var s := Search([Item("https://a.example"), Item("https://b.example")], [SiteResult("notfound", "", false), SiteResult("notfound", "", false)], None);
    assert s.Counted(1) == [] && s.Counted(2) == [];
    assert s.Consulted(1) == [0] && s.Consulted(2) == [0, 1];
    var r, examined, consulted := CheckClaim("claim", s);
    assert r == Err(IndexOutOfRange(2));
    assert consulted == [0, 1];
  }

  /** The first result is the article being checked: it is never handed to
      the assessor and does not use up a checked slot. */
  method OriginatingArticleIsSkipped() {
    var items := [Item("https://a.example"), Item("https://b.example"), Item("https://c.example"),
                  Item("https://d.example"), Item("https://e.example"), Item("https://f.example")];
    var results := [Loaded("false"), Loaded("true"), Loaded("true"), Loaded("notfound"), Loaded("unclear"), Loaded("true")];
    var s := Search(items, results, Some("https://a.example"));
    assert s.Skipped(0) && !s.Skipped(1) && !s.Skipped(2) && !s.Skipped(3) && !s.Skipped(4) && !s.Skipped(5);
    assert s.Counted(1) == [] && s.Counted(2) == [1] && s.Counted(3) == [1, 2];
    assert s.Counted(4) == [1, 2, 3] && s.Counted(5) == [1, 2, 3, 4] && s.Counted(6) == [1, 2, 3, 4, 5];
    assert s.Consulted(1) == [] && s.Consulted(2) == [1] && s.Consulted(3) == [1, 2];
    assert s.Consulted(4) == [1, 2, 3] && s.Consulted(5) == [1, 2, 3, 4] && s.Consulted(6) == [1, 2, 3, 4, 5];
    assert s.Bucket(1, Contradicts) == [] && s.Bucket(3, Contradicts) == [] && s.Bucket(6, Contradicts) == [];
    assert |s.Bucket(2, Supports)| == 1;
    var r, examined, consulted := CheckClaim("claim", s);
    assert r.Ok? && examined == 6;
    assert consulted == [1, 2, 3, 4, 5];
    assert r.value.citations.contradicts == [];
    assert r.value.overallAssessment == Supports;
  }

  /** A loaded source whose assessment is not one of the four strings makes
      the verifier fail at that source. */
  method UnexpectedAssessmentFails() {
    var results := [Loaded("true"), Loaded("maybe"), Loaded("true"), Loaded("true"), Loaded("true")];
    var s := Search(FiveItems, results, None);
    assert s.Counted(1) == [0] && s.Counted(2) == [0, 1];
    assert !IsKnown("maybe");
    var r, examined, consulted := CheckClaim("claim", s);
    assert r == Err(UnknownAssessment("maybe"));
    assert examined == 2;
  }
}
