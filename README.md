# Panorama Firm crawlers in Dafny

This project models two small crawlers of the Polish business directory
panoramafirm.pl. Each one reads a category from the user, walks the
directory's result pages from `https://panoramafirm.pl/<category>` by
following the "next page" link, and reads the JSON-LD company records
embedded in each page.

- `main.py` (the scoring crawler) takes every company whose record has a
  website (`sameAs`). It asks Google PageSpeed for a report on that site and
  turns the report into sub-scores and a weighted composite. When PageSpeed
  answers, it then writes the company twice:
  - into `firmy` (firmy.db), keyed by name, only when the name is not there
    yet;
  - into `results` (results.db), with `INSERT OR REPLACE`, so the newest
    scores win.
- `companies-without-website.py` (the no-website crawler) takes every
  company whose record has a name and no website. It writes each one into
  `firmy`, keyed by the pair (name, category), and only once per pair.

Modules:

- `Wrappers`: `Option`.
- `Tables`: the two write rules of the SQLite tables (insert when the key
  is absent, insert or replace), stated on maps from primary key to row.
- `Category`: Python's `str.strip()` with Python's whitespace set, the
  `" "` to `"%20"` replacement and the start URL.
- `Listing`: a fetched page already parsed into its script blocks, its
  next link, and the exceptions reading them can raise.
- `PageSpeed`: `get_pagespeed_data` and `calculate_website_score`.
- `ScoringCrawler`: `main.py`. The two tables are classes with `map`
  fields. `process_page` and `main` are methods with loops. Each is proved
  equal to a pure specification function (`ProcessPageEffect`,
  `CrawlFrom`) under the reading `AsWritten`, which decides each block
  exactly as main.py does. Those functions also take the reading
  `Corrected`, the repair of the defect under "## Findings". Every page
  and crawl property is proved for both readings.
- `NoWebsiteCrawler`: `companies-without-website.py`, in the same shape.

Page fetching and the PageSpeed request are parameters. `fetch` maps a URL
to a parsed page, or to `None` for a non-200 answer. `speed` maps a
website to a report, or to `None` for a failed request or a falsy
document. The text typed at the prompt is a parameter too.

Facts about the code that the model makes explicit:

- The weights 0.4/0.2/0.1/0.1/0.2 give a composite of 81 for the sub-scores
  80/70/90/60/100 (`PageSpeed.CompositeExample`).
- `main.py` has no `try` around the block loop. A block that is not JSON,
  has no text, or is not a JSON object raises, and the crawl aborts.
- `companies-without-website.py` catches `JSONDecodeError` and `TypeError`
  only. A block that is valid JSON but not an object makes `data.get`
  raise `AttributeError`, which escapes and aborts that crawl too.
- `main.py` stores the encoded category (`%20` in place of spaces) in
  `results`. `companies-without-website.py` stores the stripped text as
  typed and uses the encoded form only in the URL.
- A company whose PageSpeed request fails (a non-200 answer, main.py:26-31)
  or returns a falsy document is written to neither table: `if
  pagespeed_data:` (main.py:169) skips it, so the crawl never stores the
  unscored record (`ScoringCrawler.DecidePersists`).
- The unscored record of `calculate_website_score` has a total of 0. A
  truthy report without any category scores or `loadingExperience` gets
  10, because the user-experience default of 50 still weighs in.

## Model

| member | source | states |
|---|---|---|
| Tables.InsertIfAbsent | main.py:129-133 | the keys become the old keys plus the new one; existing rows are unchanged; an absent key gets the new row |
| Tables.Upsert | main.py:136-146 | the keys become the old keys plus the new one; the key maps to the new row; every other row is unchanged |
| Tables.InsertIfAbsentGrowth | companies-without-website.py:37-44 | a guarded insert keeps every row and adds one row exactly when the key was absent |
| Tables.InsertIfAbsentTwice | companies-without-website.py:39-44 | inserting a key a second time leaves the table as the first insert left it |
| Tables.UpsertTwice | main.py:137-139 | replacing a key twice equals replacing it once with the second row; the table grows by at most one row |
| Category.IsSpace | main.py:192 | the characters Python's `str.isspace()` accepts, which `strip()` removes: tab to carriage return, the separators U+001C to U+001F, space, U+0085, no-break space, U+1680, U+2000 to U+200A, the line and paragraph separators U+2028 and U+2029, U+202F, U+205F and U+3000; `Category.Strip` states what is removed with it |
| Category.SkipSpaces | main.py:192 | the returned index is the first non-whitespace character at or after the start, and everything skipped is whitespace |
| Category.SkipSpacesBack | main.py:192 | the returned index follows the last non-whitespace character of the range, and everything after it is whitespace |
| Category.Strip | companies-without-website.py:82 | the result is the slice of the input after its leading whitespace; only whitespace surrounds it; it neither starts nor ends with whitespace |
| Category.StripIdempotent | main.py:192 | stripping twice equals stripping once |
| Category.EncodeSpaces | companies-without-website.py:83 | the result has no space, and a text without spaces is unchanged |
| Category.EncodeChar | main.py:192 | one character's image under `replace(" ", "%20")`: `%20` for a space, the character itself otherwise; `EncodeSpacesAppend` ties `EncodeSpaces` to it |
| Category.EncodeSpacesAppend | main.py:192 | for every input, `%` included, encoding a concatenation concatenates the encodings, and a single character encodes to `EncodeChar` of it, so each space becomes `%20` and every other character is kept in place |
| Category.EncodeExample | companies-without-website.py:83 | the category "% a" encodes to "%%20a": the `%` is kept and only the space changes |
| Category.DecodeEncodeSpaces | companies-without-website.py:83-84 | decoding `%20` back to a space recovers any category that has no `%` |
| Category.StartUrl | main.py:193 | the URL is `https://panoramafirm.pl/` followed by exactly the encoded category, and it is non-empty |
| Listing.Get | main.py:161-164 | `data.get(key)` is present exactly when the key is, with that member's value |
| Listing.NextUrl | main.py:187-188 | a missing link returns None; a link returns its `href`; a link without `href` raises KeyError |
| Listing.NoNextUrl | main.py:199-202 | when the loop breaks on a returned value, the page's link was missing or empty |
| Listing.Truthy | main.py:166 | Python truthiness of a member that may be absent: present and not the empty string, as in `if website:` and `if next_url:` (main.py:199); `ScoringCrawler.DecidePersists` and `NoWebsiteCrawler.DecideStores` state its effect |
| Listing.FollowsLinksCons | main.py:196-200 | prepending the current URL to a chain of followed links keeps it a chain when the first later URL is the current page's link |
| PageSpeed.CalculateWebsiteScore | main.py:34-91 | falsy data gives the unscored record (all zeros, user experience 50); otherwise the total is the weighted composite of the five sub-scores |
| PageSpeed.Lookup | main.py:67-70 | `objects.get(name, {}).get(member, 0)`; its values are stated by `PageSpeed.CategoryScores` and `PageSpeed.Metrics` |
| PageSpeed.GetScore | main.py:53-54 | 100 times the category's `score`, and 0 when it is missing, as `PageSpeed.CategoryScores` states |
| PageSpeed.ExperienceScore | main.py:63 | the table FAST 100, AVERAGE 50, SLOW 20, and 50 for any other label, as `PageSpeed.UserExperienceMapping` states |
| PageSpeed.UserExperienceScore | main.py:61-65 | the user-experience score, 50 when `loadingExperience` or its label is missing, as `PageSpeed.UserExperienceMapping` states |
| PageSpeed.Composite | main.py:72-78 | the weighted total, proved equal to the reference `Dot` over the weights by `PageSpeed.CompositeIsWeighted` and bounded by `PageSpeed.CompositeInRange` |
| PageSpeed.CategoryScores | main.py:49-59 | each category score is 100 times its `score` fraction, and 0 when the category or its score is missing |
| PageSpeed.Metrics | main.py:67-70 | FCP, LCP, CLS and TBT are the audits' `numericValue`s, and 0 when missing |
| PageSpeed.UserExperienceMapping | main.py:61-65 | the user-experience score is 100 exactly for FAST, 20 exactly for SLOW, and 50 otherwise, including a missing `loadingExperience` or label |
| PageSpeed.CompositeIsWeighted | main.py:72-78 | the composite equals the weighted sum of the sub-scores under the weights 0.4, 0.2, 0.1, 0.1, 0.2 |
| PageSpeed.DotMonotone | main.py:72-78 | with non-negative weights, raising any sub-score never lowers the weighted sum |
| PageSpeed.CompositeOfEqualScores | main.py:72-78 | the weights sum to one, so five equal sub-scores give that score |
| PageSpeed.CompositeInRange | main.py:72-78 | sub-scores in [0, 100] give a composite in [0, 100] |
| PageSpeed.ScoresInRange | main.py:53-78 | a report whose fractions lie in [0, 1] gives sub-scores and a total in [0, 100] |
| PageSpeed.CompositeOfUnknownExperience | main.py:72-78 | zero category scores with the default experience of 50 weigh in at 10 |
| PageSpeed.CompositeExample | main.py:72-78 | sub-scores 80, 70, 90, 60 and 100 give exactly 81 |
| PageSpeed.UnscoredIsNotComposite | main.py:35-47 | the unscored record's total of 0 is not the composite of its own sub-scores |
| PageSpeed.UnscoredReportScoresTen | main.py:49-78 | a truthy report with no category scores and no `loadingExperience` totals 10 |
| PageSpeed.GetPageSpeedData | main.py:15-31 | an empty or "N/A" URL gives the string "N/A"; otherwise the answer is None or the report exactly as the request gives it |
| ScoringCrawler.CompanyTable.constructor | main.py:99-104 | the table starts with the rows an earlier run left |
| ScoringCrawler.CompanyTable.CompanyExists | main.py:124-126 | true exactly when the name is stored |
| ScoringCrawler.CompanyTable.AddCompany | main.py:129-133 | the new table is the guarded insert of the row under the name; the name is then stored |
| ScoringCrawler.ResultTable.constructor | main.py:106-122 | the table starts with the rows an earlier run left |
| ScoringCrawler.ResultTable.AddResult | main.py:136-146 | the new table is the insert-or-replace of the row (website, telephone, email, category, scores) under the name |
| ScoringCrawler.ExtractionDefaults | main.py:160-164 | name, telephone and email default to "N/A"; the website is `sameAs` when present and None otherwise |
| ScoringCrawler.ExtractRecord | main.py:160-164 | the members read from a block with their defaults, as `ScoringCrawler.ExtractionDefaults` states |
| ScoringCrawler.DecideAsWritten | main.py:159-172 | the loop body as main.py has it, specified by `ScoringCrawler.DecideAsWrittenRaises` and `ScoringCrawler.DecidePersists` |
| ScoringCrawler.Decide | main.py:159-172 | the corrected loop body, specified by `ScoringCrawler.DecideRaisesOnlyOnBadBlocks`, `ScoringCrawler.DecideAgreesWithAsWritten` and `ScoringCrawler.DecidePersists` |
| ScoringCrawler.Decision | main.py:159-172 | the loop body under a reading: `DecideAsWritten` for main.py, `Decide` for the correction |
| ScoringCrawler.DecideAsWrittenRaises | main.py:16-17 | as written, a block raises exactly when it is not a JSON object or its `sameAs` is "N/A", which then raises AttributeError |
| ScoringCrawler.Persisted | main.py:171-172 | `add_company` then `add_result` of a persisted block: the guarded insert into `firmy` and the insert-or-replace into `results`; nothing for any other block |
| ScoringCrawler.RunBlocks | main.py:159-172 | the loop over the blocks in order up to the first exception; specified by `ScoringCrawler.RunBlocksAt`, `ScoringCrawler.SkippedBlockIsInert`, `ScoringCrawler.RunBlocksKeepsCompanies` and `ScoringCrawler.RunBlocksResultsCategory` |
| ScoringCrawler.ProcessPageEffect | main.py:149-188 | `process_page`: None for a page that fails to load, the exception of a block, or the next link read after all blocks; `ScoringCrawler.ProcessPage` is proved equal to it |
| ScoringCrawler.CrawlFrom | main.py:194-202 | the loop of `main` from a URL on; specified by `ScoringCrawler.CrawlStep`, `ScoringCrawler.CrawlLength`, `ScoringCrawler.CrawlFollowsLinks` and `ScoringCrawler.CrawlStopsAtLastPage` |
| ScoringCrawler.NaWebsiteRaisesAsWritten | main.py:16-17 | as written, a block whose `sameAs` is "N/A" raises AttributeError; with the correction it is skipped |
| ScoringCrawler.DecideAgreesWithAsWritten | main.py:166-172 | the correction changes only blocks whose `sameAs` is "N/A" |
| ScoringCrawler.DecideRaisesOnlyOnBadBlocks | main.py:159-164 | corrected, a block raises exactly when it does not decode to a JSON object, with the exception each failure gives |
| ScoringCrawler.DecidePersists | main.py:161-172 | under either reading, a block is persisted exactly when its `sameAs` is non-empty, not "N/A", and PageSpeed answers; the row then has the defaulted fields and the scores of that answer |
| ScoringCrawler.CrawlStep | main.py:196-202 | one loop iteration extends the crawl by the current page and ends it or continues at the next URL |
| ScoringCrawler.RunBlocksAt | main.py:159-172 | one block of the loop either raises and ends the page or updates the tables and moves on |
| ScoringCrawler.ProcessPage | main.py:149-188 | the returned value and the tables left equal `ProcessPageEffect` under the as-written reading: blocks are decided in order by `DecideAsWritten` until the first exception, a "N/A" website included, and then the next link is read |
| ScoringCrawler.Crawl | main.py:191-202 | the visited pages, the outcome and the tables equal `CrawlFrom` under the as-written reading, run on the stripped, space-encoded category from its start URL |
| ScoringCrawler.CrawlPages | main.py:194-202 | the page loop's visited pages, outcome and tables equal `CrawlFrom` under the as-written reading, from the given start page |
| ScoringCrawler.SkippedBlockIsInert | main.py:159-172 | under either reading, removing a block that reading skips does not change the page's effect; as written, a "N/A" website raises and is not skipped |
| ScoringCrawler.NoWebsiteNoWrites | main.py:164-166 | under either reading, a page whose blocks all decode to JSON objects without a non-empty `sameAs` writes nothing and raises nothing |
| ScoringCrawler.RunBlocksKeepsCompanies | main.py:129-133 | over a page, `firmy` keeps every row it had |
| ScoringCrawler.RunBlocksResultsCategory | main.py:172 | over a page, every `results` row written carries the crawl's category |
| ScoringCrawler.CrawlLength | main.py:194-202 | the crawl visits the start URL first and at most `fuel` pages, and runs out of fuel only after exactly `fuel` pages |
| ScoringCrawler.CrawlFollowsLinks | main.py:198-200 | each visited page after the first is the next link of the page before it |
| ScoringCrawler.CrawlStopsAtLastPage | main.py:199-202 | a crawl that completes ends at a page that failed to load or has no non-empty next link |
| ScoringCrawler.StopsWithoutNextLink | main.py:187-188 | a start page without a next link ends the crawl after that page |
| ScoringCrawler.CrawlKeepsCompanies | main.py:129-133 | over a whole crawl, `firmy` keeps every row it had |
| ScoringCrawler.CrawlResultsCategory | main.py:172 | over a whole crawl, every `results` row written carries the crawl's category |
| ScoringCrawler.EncodedCategoryStored | main.py:192 | every `results` row written holds the stripped, space-encoded category, which contains no space |
| ScoringCrawler.NaPageAbortsAsWritten | main.py:168-170 | a start page whose one company lists the website "N/A" aborts the as-written crawl with AttributeError after that page; the corrected crawl completes there with both tables unchanged |
| NoWebsiteCrawler.CompanyTable.constructor | companies-without-website.py:18-27 | the table starts with the rows an earlier run left |
| NoWebsiteCrawler.CompanyTable.CompanyExists | companies-without-website.py:31-34 | true exactly when the pair (name, category) is stored |
| NoWebsiteCrawler.CompanyTable.AddCompany | companies-without-website.py:37-47 | the new table is the guarded insert of the row under the pair; the pair is then stored |
| NoWebsiteCrawler.AddTwice | companies-without-website.py:39-47 | adding the same pair twice leaves only the first row |
| NoWebsiteCrawler.SameNameTwoCategories | companies-without-website.py:25 | when neither (name, category) pair is stored yet, adding one name under two different categories gives two rows, each with its own data |
| NoWebsiteCrawler.DecideStores | companies-without-website.py:62-75 | a block is stored exactly when it is an object with a non-empty name and no non-empty `sameAs`; telephone and email default to "N/A"; undecodable and text-less blocks are skipped; only non-objects raise, and they raise the AttributeError that the `except` does not catch |
| NoWebsiteCrawler.Decide | companies-without-website.py:61-75 | the `try` body and its `except`, specified by `NoWebsiteCrawler.DecideStores` |
| NoWebsiteCrawler.Stored | companies-without-website.py:70-71 | `add_company(name, telephone, email, None, category)` for a stored block, nothing otherwise |
| NoWebsiteCrawler.RunBlocks | companies-without-website.py:61-75 | the loop over the blocks in order up to the first uncaught exception; specified by `NoWebsiteCrawler.RunBlocksAt`, `NoWebsiteCrawler.RunBlocksAddsWithoutWebsite` and `NoWebsiteCrawler.RerunChangesNothing` |
| NoWebsiteCrawler.ProcessPageEffect | companies-without-website.py:50-78 | `process_page`: None for a page that fails to load, the uncaught exception of a block, or the next link; `NoWebsiteCrawler.ProcessPage` is proved equal to it |
| NoWebsiteCrawler.CrawlFrom | companies-without-website.py:85-93 | the loop of `main` from a URL on; specified by `NoWebsiteCrawler.CrawlStep`, `NoWebsiteCrawler.CrawlLength`, `NoWebsiteCrawler.CrawlFollowsLinks` and `NoWebsiteCrawler.CrawlStopsAtLastPage` |
| NoWebsiteCrawler.CrawlStep | companies-without-website.py:87-93 | one loop iteration extends the crawl by the current page and ends it or continues at the next URL |
| NoWebsiteCrawler.RunBlocksAt | companies-without-website.py:61-75 | one block of the loop either raises and ends the page or updates the table and moves on |
| NoWebsiteCrawler.ProcessPage | companies-without-website.py:50-78 | the returned value and the table left equal the specification `ProcessPageEffect` |
| NoWebsiteCrawler.Crawl | companies-without-website.py:81-93 | visited pages, outcome and table equal `CrawlFrom` from the URL of the encoded category, with rows stored under the stripped category |
| NoWebsiteCrawler.CrawlPages | companies-without-website.py:85-93 | the page loop's visited pages, outcome and table equal `CrawlFrom` from the given start page |
| NoWebsiteCrawler.SkippedBlockIsInert | companies-without-website.py:74-75 | removing a skipped block, such as one that fails to decode, does not change the page's effect |
| NoWebsiteCrawler.RunBlocksAddsWithoutWebsite | companies-without-website.py:70-71 | over a page, every row is kept and every row added has the crawl's category and no website |
| NoWebsiteCrawler.RunBlocksCovers | companies-without-website.py:61-71 | after a page without an uncaught exception, every stored block's pair is in the table |
| NoWebsiteCrawler.CoveredRunIsNoOp | companies-without-website.py:39-47 | over a table that already has every pair, blocks that raise nothing change nothing |
| NoWebsiteCrawler.CleanRunRaisesNothing | companies-without-website.py:61-75 | a page that ends without an exception contains no block that raises |
| NoWebsiteCrawler.RerunChangesNothing | companies-without-website.py:39-47 | for every table and page, processing the same blocks again over the table the first run left adds no duplicate, changes nothing, and ends the same way, with the same uncaught exception if the first run raised one |
| NoWebsiteCrawler.CrawlLength | companies-without-website.py:85-93 | the crawl visits the start URL first and at most `fuel` pages, and runs out of fuel only after exactly `fuel` pages |
| NoWebsiteCrawler.CrawlFollowsLinks | companies-without-website.py:89-91 | each visited page after the first is the next link of the page before it |
| NoWebsiteCrawler.CrawlStopsAtLastPage | companies-without-website.py:90-93 | a crawl that completes ends at a page that failed to load or has no non-empty next link |
| NoWebsiteCrawler.StopsOnFailedFetch | companies-without-website.py:54-56 | a start page that fails to load ends the crawl at once with the table untouched |
| NoWebsiteCrawler.CrawlAddsWithoutWebsite | companies-without-website.py:70-71 | over a whole crawl, every row is kept and every row added has the category and no website |
| NoWebsiteCrawler.RawAndEncodedCategory | companies-without-website.py:82-89 | the first URL carries the encoded category; added rows carry the stripped one; the two are equal exactly when it has no space |

## Left out

- HTTP requests, status codes, the random User-Agent header, `time.sleep`
  and the PageSpeed endpoint and API key are not modelled. They are the
  parameters `fetch` and `speed`.
- HTML parsing with BeautifulSoup is not modelled. A page arrives already
  split into its `application/ld+json` blocks and its next link.
- SQLite is modelled as maps from primary key to row. Connections,
  commits, `CREATE TABLE IF NOT EXISTS` and closing are not modelled.
- Both scripts open a `firmy` table in the same firmy.db with different
  schemas. Running one after the other is not modelled.
- SQL comparison of NULL keys is not modelled. In main.py a missing name
  is the text "N/A" (main.py:161); in companies-without-website.py it is
  None, and the block is skipped (companies-without-website.py:64, 70).
- Console output (`print`) and the prompt (`input`) are not modelled. The
  typed text is the parameter `input`.
- Listing blocks whose `name`, `telephone`, `email` or `sameAs` is not a
  string (a number, an object, a list or `null`) are not modelled: these
  members are always strings or absent.
- PageSpeed members that are `null` or not numbers are not modelled. A
  `score` of `null` makes `None * 100` raise TypeError (main.py:54), and a
  `numericValue` of `null` makes `round(None, 2)` raise TypeError
  (main.py:87-90); with no `try`, either aborts the crawl. In the model
  every `score` and `numericValue` present is a number.
- A `loadingExperience` that is not an object, or whose
  `overall_category` is not a string, is not modelled.
- A PageSpeed document that is truthy but not an object is not modelled.
- Python exceptions raised outside a page's blocks are not modelled,
  except the `KeyError` of a link without `href`.
- PageSpeed.CalculateWebsiteScore: does not model `round(…, 2)` or
  `round(…, 4)`, nor floating point. Scores are exact reals; the
  properties hold before rounding.
- ScoringCrawler.Crawl: the model visits at most `fuel` pages. A site
  whose next links cycle would make the script loop forever; in the model
  that crawl ends with `OutOfFuel`.
- NoWebsiteCrawler.Crawl: bounded by `fuel` in the same way.
- `str.strip()` is modelled over Python's `isspace` characters. Unicode
  normalisation and the encoding of the URL beyond `%20` are not modelled.

## Findings

| source | as written | input that shows it | evidently intended | confidence | as-written member | corrected member |
|---|---|---|---|---|---|---|
| main.py:16-17, 168-170 | `get_pagespeed_data` returns the string "N/A" for a website "N/A". The string is truthy, so `calculate_website_score("N/A")` runs and raises AttributeError on `"N/A".get`, which stops the whole crawl | a listing block `{"name": "Firma", "sameAs": "N/A"}` | such a block is skipped like one without a website; the unscored record, which the falsy branch of `calculate_website_score` returns, is another possible reading | not executed; medium, because the guard shows the authors expected "N/A" websites | ScoringCrawler.DecideAsWritten (used by `ProcessPage` and `Crawl`; shown by ScoringCrawler.NaWebsiteRaisesAsWritten and ScoringCrawler.NaPageAbortsAsWritten) | ScoringCrawler.Decide (the reading `Corrected`; ScoringCrawler.DecideRaisesOnlyOnBadBlocks, ScoringCrawler.DecideAgreesWithAsWritten) |
