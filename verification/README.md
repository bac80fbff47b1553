# Claim verification in mimirs-eye, modelled in Dafny

mimirs-eye fact-checks news articles. It extracts claims with a language
model and runs a web search for each claim. A site assessor (the language
model again) then says whether each search result supports the claim. The
one piece of real logic is the claim verifier, `check_claim`, which turns
those per-source assessments into a verdict:

- it walks the rank-ordered search results;
- it skips the result whose link is the originating article;
- it asks the site assessor about every other result it reaches;
- it skips results whose page did not load;
- it counts loaded sources until `SITES_CHECKED` (5) have been counted;
- it discards `notfound` assessments;
- it files every other assessment as a `{summary, link}` citation under `true`, `false` or `unclear`;
- it derives the overall assessment from which of the buckets are empty.

The project has four files:

- `assessment.dfy` (module `Assessments`): `SITES_CHECKED` and the four
  assessment strings. `Parse` reads a model answer; any other string is not
  an assessment.
- `verdict.dfy` (module `Verdicts`): citations and the citations map. The map
  is a datatype with exactly the three buckets `true`, `false` and `unclear`,
  so a `notfound` bucket cannot exist. `Overall` is the verdict rule.
- `check_claim.dfy` (module `ClaimCheck`): the verifier loop `CheckClaim` and
  a declarative account of what it computes. The account lists which ranks
  are consulted, which are counted, and which are filed under each
  assessment, all as functions of how far down the list the loop has got.
- `examples.dfy` (module `ClaimCheckExamples`): small worked runs. Each
  outcome follows from `CheckClaim`'s contract alone. They cover mixed
  sources, all-supporting sources, too few loaded sources, a skipped
  originating article and an unexpected assessment string.

External services are inputs, not calls:

- The search engine's answer is the list `items`, in rank order.
- The site assessor is an oracle `results`, aligned with `items`: `results[j]`
  is what the assessor would answer about the item at rank `j`. The model
  requires the two lists to have the same length. `CheckClaim` reads
  `results[j]` only for ranks it hands to the assessor. `consulted` records
  those ranks in call order, so the skipped originating article is visibly
  never assessed.
- The optional `article_url` is an `Option<string>`. An absent URL never
  equals a link, as in Python, where a string link never equals `None`.

The two crashes in the code are kept as explicit error outcomes:

- `IndexOutOfRange` is the `IndexError` of reading past the end of the search
  results.
- `UnknownAssessment` is the `KeyError` of filing under a string that is not a
  bucket key.

Running out of search results before five loaded sources are counted does
not end the loop gracefully with the citations gathered so far: the code
raises. The model keeps that outcome, and `TooFewLoadedSourcesFails` in
`examples.dfy` shows such a run. The site assessor asks the language model
even when a page failed to load, relying on the model to report
`articleLoaded: false`. Likewise the model consults every result that is
not the originating article, loaded or not.

## Model

| member | source | states |
|---|---|---|
| Assessments.Parse | server/main.py:32-35 | Exactly the four strings "true", "false", "unclear" and "notfound" are assessments, and reading one yields the assessment whose string it is. |
| Assessments.NameInjective | server/main.py:32-35 | Two assessments share a string only if they are the same assessment, so filing by string picks exactly one bucket. |
| Verdicts.Overall | server/main.py:172-177 | The verdict is "true" exactly when the true bucket is non-empty and the false bucket is empty, and "false" exactly in the mirror case. Otherwise it is "unclear", including when both are empty or both non-empty. It is never "notfound". |
| Verdicts.Citations.File | server/main.py:165 | Filing a citation appends it at the end of its assessment's bucket and leaves the other two buckets unchanged. There is no "notfound" bucket to file into. |
| Verdicts.ConflictIsUnclear | server/main.py:176-177 | Sources on both sides give "unclear" whatever their relative numbers; there is no majority vote. |
| Verdicts.OverallSymmetric | server/main.py:172-177 | Exchanging the true and false buckets exchanges the verdicts "true" and "false" and keeps "unclear". The unclear bucket never affects the verdict. |
| ClaimCheck.CheckClaim | server/main.py:135-179 | The cursor never passes the end of the list. The assessor is asked about exactly the ranks before the cursor that are not the originating article, in order. Success happens exactly when enough ranks are counted and no unknown assessment comes first: the loop stops right after the fifth counted rank, the citations are those of the counted ranks, and the citations plus discarded "notfound" ranks number exactly 5. IndexOutOfRange, at index = list length, happens exactly when fewer than 5 ranks in the whole list are counted and none of them carries an unknown assessment. UnknownAssessment happens exactly when an unknown string is among the first 5 counted ranks, and it carries the first such string. |
| ClaimCheck.IndicesSpec | server/main.py:146-158 | The consulted ranks are exactly the ranks that are not the originating article. The counted ranks are exactly the loaded ones among those. The ranks filed under an assessment are exactly the counted ranks with that answer. Each list is in strictly increasing rank order. |
| ClaimCheck.IndicesGrow | server/main.py:146-148 | Examining more results only appends to these lists, so the checked count never decreases. |
| ClaimCheck.BucketSpec | server/main.py:160-165 | A bucket has one citation per rank filed under its assessment, in rank order. Each citation's link is that item's link and its summary is that rank's assessor summary. |
| ClaimCheck.Tally | server/main.py:158-165 | With no unknown assessment among the counted ranks, the three buckets plus the discarded "notfound" ranks add up to the checked count. |
| ClaimCheck.CitationsFaithful | server/main.py:142-165 | Each of the three buckets holds exactly the counted ranks with that assessment, in search-rank order, each cited with its own link and summary. |
| ClaimCheck.NeverCitedWhenSkipped | server/main.py:150-158 | The originating article and any source whose page did not load are never counted and never cited. No citation carries the originating article's link. |
| ClaimCheck.IgnoredAnswerIrrelevant | server/main.py:150-156 | The answer for the originating article, or for a page that did not load, changes no count, no bucket and no error condition: it is never used. |
| ClaimCheck.StopsBeforeUnknown | server/main.py:146-165 | Once 5 sources are counted with no unknown assessment among them, an unknown assessment further down the list is never reached. |

## Left out

- The HTTP routes and request JSON handling (server/main.py:40-87), including `check_article`'s mapping of `check_claim` over extracted claims: request plumbing.
- `parse_claims` and `check_site` (server/main.py:90-132, 194-249): prompt construction and language-model calls. The assessor's answers are the `results` oracle.
- `google_search` (server/main.py:182-191): a network request. Its result is the `items` list.
- The scrapers (server/scraper.py, scraper.py) and the browser extension (extensions/firefox/popup.js): page fetching and DOM rendering, with no logic of the verifier.
- Logging calls throughout server/main.py.
- ClaimCheck.CheckClaim: does not model a search response without an `items` key, which raises `KeyError` at server/main.py:147 before any result is read. It also does not model an assessor answer missing `articleLoaded`, `summary` or `assessment`. The model's inputs are always well-formed records.
- ClaimCheck.CheckClaim: `articleLoaded` is a boolean, so Python truthiness of other JSON values is not modelled. The assessment is a string, so a non-string JSON value is covered only by the `UnknownAssessment` outcome.
- Search items carry only their link. Titles and other search metadata are never read by the verifier.
