/**
 The claim verifier: walks the rank-ordered search results for a claim, asks
 the site assessor about each one that is not the originating article, counts
 the sources whose page loaded until SITES_CHECKED of them have been counted,
 files every informative assessment as a citation and derives the overall
 verdict.

 The search engine and the site assessor are not called: the search result is
 the list `items`, and the assessor's answer for the item at rank j is
 `results[j]`, an oracle aligned with the items. The answer at a rank the
 verifier never asks about is never read.
 */
module ClaimCheck {
  import opened Assessments
  import opened Verdicts

  /** One search result. Only its link is used. */
  datatype Item = Item(link: string)

  /** What the site assessor answers about one source. `assessment` is the raw
      string the language model returned, which need not be one of the four. */
  datatype SiteResult = SiteResult(assessment: string, summary: string, articleLoaded: bool)

  /** The verdict on one claim, as returned to the caller. */
  datatype ClaimResult = ClaimResult(summary: string, citations: Citations, overallAssessment: Assessment)

  /** The two ways the verifier fails: running past the end of the search
      results, and filing under a key the citations map does not have. */
  datatype Error =
    | IndexOutOfRange(index: nat)
    | UnknownAssessment(assessment: string)

  datatype Result<+T> = Ok(value: T) | Err(error: Error)

  /** Which ranks an index list collects. */
  datatype Filter =
    | NotSkipped             // ranks handed to the site assessor
    | Loaded                 // ranks counted as checked sites
    | LoadedAs(a: Assessment) // counted ranks whose assessment is `a`

  predicate StrictlyIncreasing(xs: seq<nat>) {
    forall i, k :: 0 <= i < k < |xs| ==> xs[i] < xs[k]
  }

  /** The inputs of one verification run: the search results, the assessor's
      answer for each of them, and the originating article's URL, if any. */
  datatype Search = Search(items: seq<Item>, results: seq<SiteResult>, articleUrl: Option<string>)
  {
    predicate Valid() {
      |items| == |results|
    }

    /** The item at rank j is the originating article itself. An absent URL
        never equals a link. */
    predicate Skipped(j: nat)
      requires j < |items|
    {
      articleUrl == Some(items[j].link)
    }

    /** The item at rank j counts as a checked site: it is not the originating
        article and its page loaded. */
    predicate Counts(j: nat)
      requires Valid() && j < |items|
    {
      !Skipped(j) && results[j].articleLoaded
    }

    predicate Picks(j: nat, f: Filter)
      requires Valid() && j < |items|
    {
      match f
      case NotSkipped => !Skipped(j)
      case Loaded => Counts(j)
      case LoadedAs(a) => Counts(j) && results[j].assessment == Name(a)
    }

    /** The ranks below n that `f` collects, in rank order. */
    function Indices(n: nat, f: Filter): seq<nat>
      requires Valid() && n <= |items|
    {
      if n == 0 then []
      else Indices(n - 1, f) + (if Picks(n - 1, f) then [n - 1] else [])
    }

    /** Ranks below n handed to the site assessor. */
    function Consulted(n: nat): seq<nat>
      requires Valid() && n <= |items|
    {
      Indices(n, NotSkipped)
    }

    /** Ranks below n counted as checked sites. */
    function Counted(n: nat): seq<nat>
      requires Valid() && n <= |items|
    {
      Indices(n, Loaded)
    }

    /** Counted ranks below n whose assessment is `a`. */
    function Filed(n: nat, a: Assessment): seq<nat>
      requires Valid() && n <= |items|
    {
      Indices(n, LoadedAs(a))
    }

    /** The citation the item at rank j would produce. */
    function CitationAt(j: nat): Citation
      requires Valid() && j < |items|
    {
      Citation(results[j].summary, items[j].link)
    }

    /** The citations the ranks below n file under assessment `a`. */
    function Bucket(n: nat, a: Assessment): seq<Citation>
      requires Valid() && n <= |items|
    {
      if n == 0 then []
      else Bucket(n - 1, a) + (if Picks(n - 1, LoadedAs(a)) then [CitationAt(n - 1)] else [])
    }

    /** The citations map after the ranks below n have been examined. */
    function CitationsIn(n: nat): Citations
      requires Valid() && n <= |items|
    {
      Citations(Bucket(n, Supports), Bucket(n, Contradicts), Bucket(n, Unclear))
    }

    /** Some counted rank below n carries an assessment outside the four. */
    predicate UnknownIn(n: nat)
      requires Valid() && n <= |items|
    {
      exists j :: 0 <= j < n && Counts(j) && !IsKnown(results[j].assessment)
    }

    /** The verifier meets an unknown assessment before it has counted
        SITES_CHECKED sites: some counted rank with an unknown assessment is
        among the first SITES_CHECKED counted ranks. */
    predicate UnknownReached()
      requires Valid()
    {
      exists j :: 0 <= j < |items| && Counts(j) && !IsKnown(results[j].assessment)
                  && |Counted(j + 1)| <= SITES_CHECKED
    }
  }

  /** server/main.py check_claim. Besides the verdict it returns `examined`,
      the final search-result cursor, and `consulted`, the ranks handed to the
      site assessor in call order. */
  method CheckClaim(claim: string, s: Search) returns (r: Result<ClaimResult>, examined: nat, consulted: seq<nat>)
    requires s.Valid()
    ensures examined <= |s.items|
    ensures consulted == s.Consulted(examined)
    // which outcome
    ensures r.Ok? <==> !s.UnknownReached() && |s.Counted(|s.items|)| >= SITES_CHECKED
    ensures r.Err? && r.error.IndexOutOfRange? <==> !s.UnknownReached() && |s.Counted(|s.items|)| < SITES_CHECKED
    ensures r.Err? && r.error.UnknownAssessment? <==> s.UnknownReached()
    // success: stopped right after the SITES_CHECKED-th counted site
    ensures r.Ok? ==> 0 < examined && s.Counts(examined - 1) && |s.Counted(examined)| == SITES_CHECKED
    ensures r.Ok? ==> r.value.summary == claim && r.value.citations == s.CitationsIn(examined)
    ensures r.Ok? ==> r.value.overallAssessment == Overall(r.value.citations)
    ensures r.Ok? ==> r.value.citations.Total() + |s.Filed(examined, NotFound)| == SITES_CHECKED
    // failures
    ensures r.Err? && r.error.IndexOutOfRange? ==> r.error.index == examined == |s.items|
    ensures r.Err? && r.error.UnknownAssessment? ==>
              && 0 < examined && s.Counts(examined - 1)
              && r.error.assessment == s.results[examined - 1].assessment
              && !IsKnown(r.error.assessment)
              && !s.UnknownIn(examined - 1)
              && |s.Counted(examined)| <= SITES_CHECKED
  {
    var citations := NoCitations;
    var count := 0;
    var index := 0;
    consulted := [];
    while count < SITES_CHECKED
      invariant index <= |s.items|
      invariant count == |s.Counted(index)| <= SITES_CHECKED
      invariant citations == s.CitationsIn(index)
      invariant consulted == s.Consulted(index)
      invariant !s.UnknownIn(index)
      invariant count == SITES_CHECKED ==> 0 < index && s.Counts(index - 1)
      decreases |s.items| - index
    {
      if index >= |s.items| {
        NothingUnknownReached(s, index);
        r, examined := Err(IndexOutOfRange(index)), index;
        return;
      }
      var site := s.items[index];
      index := index + 1;

      if s.articleUrl == Some(site.link) {
        continue;
      }

      var answer := s.results[index - 1];
      consulted := consulted + [index - 1];

      if !answer.articleLoaded {
        continue;
      }

      count := count + 1;

      var citation := Citation(answer.summary, site.link);

      if answer.assessment == NOT_FOUND_ASSESSMENT {
        ParseName(NotFound);
        continue;
      }

      match Parse(answer.assessment)
      case None =>
        assert s.Counts(index - 1) && |s.Counted(index)| <= SITES_CHECKED;
        r, examined := Err(UnknownAssessment(answer.assessment)), index;
        return;
      case Some(a) =>
        citations := citations.File(a, citation);
        NameInjective(a, Supports);
        NameInjective(a, Contradicts);
        NameInjective(a, Unclear);
    }

    examined := index;
    StopsBeforeUnknown(s, index);
    IndicesGrow(s, index, |s.items|, Loaded);
    Tally(s, index);
    var result := ClaimResult(claim, citations, Overall(citations));
    r := Ok(result);
  }

  /** Nothing unknown among all counted ranks means the verifier never meets
      one. */
  lemma NothingUnknownReached(s: Search, n: nat)
    requires s.Valid() && n == |s.items| && !s.UnknownIn(n)
    ensures !s.UnknownReached()
  {
  }

  /** Once SITES_CHECKED sites are counted with nothing unknown among them,
      an unknown assessment further down the list is never reached. */
  lemma StopsBeforeUnknown(s: Search, n: nat)
    requires s.Valid() && n <= |s.items|
    requires |s.Counted(n)| == SITES_CHECKED && !s.UnknownIn(n)
    ensures !s.UnknownReached()
  {
    forall j | n <= j < |s.items| && s.Counts(j)
      ensures |s.Counted(j + 1)| > SITES_CHECKED
    {
      IndicesGrow(s, n, j, Loaded);
      assert s.Counted(j + 1) == s.Counted(j) + [j];
    }
  }

  /** Each index list holds exactly the ranks below n its filter picks, in
      strictly increasing rank order. */
  lemma {:induction false} IndicesSpec(s: Search, n: nat, f: Filter)
    requires s.Valid() && n <= |s.items|
    ensures StrictlyIncreasing(s.Indices(n, f))
    ensures forall j: nat :: j in s.Indices(n, f) <==> j < n && s.Picks(j, f)
  {
    if n > 0 {
      IndicesSpec(s, n - 1, f);
      var prev, cur := s.Indices(n - 1, f), s.Indices(n, f);
      forall i, k | 0 <= i < k < |cur|
        ensures cur[i] < cur[k]
      {
        assert cur[i] == prev[i] && prev[i] in prev;
        if k < |prev| {
          assert cur[k] == prev[k];
        }
      }
    }
  }

  /** Examining more ranks only appends to an index list. */
  lemma {:induction false} IndicesGrow(s: Search, n: nat, m: nat, f: Filter)
    requires s.Valid() && n <= m <= |s.items|
    ensures s.Indices(n, f) <= s.Indices(m, f)
    ensures |s.Indices(n, f)| <= |s.Indices(m, f)|
  {
    if n < m {
      IndicesGrow(s, n, m - 1, f);
    }
  }

  /** Bucket `a` lists the citations of the ranks filed under `a`, one per
      rank and in rank order, each with that rank's link and that rank's
      assessor summary. */
  lemma {:induction false} BucketSpec(s: Search, n: nat, a: Assessment)
    requires s.Valid() && n <= |s.items|
    ensures |s.Bucket(n, a)| == |s.Filed(n, a)|
    ensures forall k :: 0 <= k < |s.Filed(n, a)| ==>
              s.Filed(n, a)[k] < |s.items| && s.Bucket(n, a)[k] == s.CitationAt(s.Filed(n, a)[k])
  {
    if n > 0 {
      BucketSpec(s, n - 1, a);
    }
  }

  /** With no unknown assessment among them, every counted rank is filed
      under exactly one of the four assessments, so the three citation
      buckets and the discarded "notfound" ranks add up to the count. */
  lemma {:induction false} Tally(s: Search, n: nat)
    requires s.Valid() && n <= |s.items| && !s.UnknownIn(n)
    ensures s.CitationsIn(n).Total() + |s.Filed(n, NotFound)| == |s.Counted(n)|
  {
    if n > 0 {
      Tally(s, n - 1);
      BucketSpec(s, n, Supports);
      BucketSpec(s, n, Contradicts);
      BucketSpec(s, n, Unclear);
      BucketSpec(s, n - 1, Supports);
      BucketSpec(s, n - 1, Contradicts);
      BucketSpec(s, n - 1, Unclear);
      if s.Counts(n - 1) {
        var v := s.results[n - 1].assessment;
        assert IsKnown(v);
        var a := Parse(v).value;
        NameInjective(a, Supports);
        NameInjective(a, Contradicts);
        NameInjective(a, Unclear);
        NameInjective(a, NotFound);
      }
    }
  }

  /** What each bucket of the citations map holds: exactly the counted ranks
      whose assessment is that bucket's key, in search-rank order, each cited
      with its own link and summary. No bucket exists for "notfound". */
  lemma CitationsFaithful(s: Search, n: nat, a: Assessment)
    requires s.Valid() && n <= |s.items| && a != NotFound
    ensures var idx, b := s.Filed(n, a), s.CitationsIn(n).Bucket(a);
      && |b| == |idx|
      && StrictlyIncreasing(idx)
      && (forall j: nat :: j in idx <==> j < n && s.Counts(j) && s.results[j].assessment == Name(a))
      && (forall k :: 0 <= k < |idx| ==> idx[k] < |s.items| && b[k] == s.CitationAt(idx[k]))
  {
    IndicesSpec(s, n, LoadedAs(a));
    BucketSpec(s, n, a);
  }

  /** The originating article is never cited, and neither is a source whose
      page did not load. */
  lemma NeverCitedWhenSkipped(s: Search, n: nat, a: Assessment, j: nat)
    requires s.Valid() && n <= |s.items| && a != NotFound && j < |s.items|
    requires s.Skipped(j) || !s.results[j].articleLoaded
    ensures j !in s.Counted(n) && j !in s.Filed(n, a)
    ensures s.articleUrl.Some? ==> forall c :: c in s.CitationsIn(n).Bucket(a) ==> c.link != s.articleUrl.value
  {
    IndicesSpec(s, n, Loaded);
    CitationsFaithful(s, n, a);
    var idx, b := s.Filed(n, a), s.CitationsIn(n).Bucket(a);
    forall c | c in b && s.articleUrl.Some?
      ensures c.link != s.articleUrl.value
    {
      var k :| 0 <= k < |b| && b[k] == c;
      assert idx[k] in idx;
    }
  }

  /** The assessor's answer for a skipped or unloaded rank never matters:
      replacing it by any other answer for an unloaded page changes no count,
      no bucket and no error condition. */
  lemma {:induction false} IgnoredAnswerIrrelevant(s: Search, j: nat, other: SiteResult, n: nat)
    requires s.Valid() && j < |s.items| && n <= |s.items|
    requires s.Skipped(j) || (!s.results[j].articleLoaded && !other.articleLoaded)
    ensures var t := s.(results := s.results[j := other]);
      && t.Valid()
      && (forall f :: t.Indices(n, f) == s.Indices(n, f))
      && (forall a :: t.Bucket(n, a) == s.Bucket(n, a))
      && (t.UnknownIn(n) <==> s.UnknownIn(n))
  {
    var t := s.(results := s.results[j := other]);
    assert forall i :: 0 <= i < |s.items| ==> (t.Counts(i) <==> s.Counts(i));
    if n > 0 {
      IgnoredAnswerIrrelevant(s, j, other, n - 1);
      var last := n - 1;
      assert forall f :: t.Picks(last, f) == s.Picks(last, f);
    }
  }
}
