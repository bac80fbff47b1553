/**
 Citations filed per assessment and the overall verdict on a claim derived
 from which of the buckets are empty.
 */
module Verdicts {
  import opened Assessments

  /** A source reduced to what the verifier cites: its summary and its link. */
  datatype Citation = Citation(summary: string, link: string)

  /** The citations map: exactly one bucket per key "true", "false" and
      "unclear". There is no bucket for "notfound". */
  datatype Citations = Citations(supports: seq<Citation>, contradicts: seq<Citation>, unclear: seq<Citation>)
  {
    /** The bucket keyed by an assessment other than NotFound. */
    function Bucket(a: Assessment): seq<Citation>
      requires a != NotFound
    {
      match a
      case Supports => supports
      case Contradicts => contradicts
      case Unclear => unclear
    }

    /** Appends a citation to one bucket, leaving the other two alone. */
    function File(a: Assessment, c: Citation): (r: Citations)
      requires a != NotFound
      ensures r.Bucket(a) == Bucket(a) + [c]
      ensures forall b :: b != NotFound && b != a ==> r.Bucket(b) == Bucket(b)
    {
      match a
      case Supports => this.(supports := supports + [c])
      case Contradicts => this.(contradicts := contradicts + [c])
      case Unclear => this.(unclear := unclear + [c])
    }

    /** Number of citations across the three buckets. */
    function Total(): nat {
      |supports| + |contradicts| + |unclear|
    }
  }

  const NoCitations := Citations([], [], [])

  /** The overall assessment of a claim. Only the emptiness of the "true" and
      "false" buckets matters: a claim backed by some sources and contradicted
      by none is "true", the mirror case is "false", and everything else,
      including sources on both sides in any proportion, is "unclear". */
  function Overall(c: Citations): (r: Assessment)
    ensures r == Supports <==> |c.supports| > 0 && |c.contradicts| == 0
    ensures r == Contradicts <==> |c.supports| == 0 && |c.contradicts| > 0
    ensures r == Unclear <==> (|c.supports| == 0) == (|c.contradicts| == 0)
    ensures r != NotFound
  {
    if |c.supports| > 0 && |c.contradicts| == 0 then Supports
    else if |c.supports| == 0 && |c.contradicts| > 0 then Contradicts
    else Unclear
  }

  /** Sources on both sides never produce a definite verdict, whatever the
      majority. */
  lemma ConflictIsUnclear(c: Citations)
    requires |c.supports| > 0 && |c.contradicts| > 0
    ensures Overall(c) == Unclear
  {
  }

  /** Swapping the "true" and "false" buckets swaps the verdict, and the
      "unclear" bucket never influences it. */
  lemma OverallSymmetric(c: Citations, u: seq<Citation>)
    ensures var swapped := Citations(c.contradicts, c.supports, u);
      && (Overall(c) == Supports <==> Overall(swapped) == Contradicts)
      && (Overall(c) == Contradicts <==> Overall(swapped) == Supports)
      && (Overall(c) == Unclear <==> Overall(swapped) == Unclear)
  {
  }
}
