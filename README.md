# SEC EDGAR filing change tracker — a Dafny model of its core

The system watches a list of companies on SEC EDGAR. For each company it resolves
a ticker, name or CIK to a ten-digit CIK and lists the recent filings. It cuts
each filing's text into item sections and compares them with the last filing of
the same type it saw. It then reports what changed and how much, and decides
whether a webhook should be told.
There are two implementations of this pipeline:

- a JavaScript one: `SECFilingScraper` in sec-scraper.js, driven by the
  top-level script main.js;
- a Python one: `SECFilingScraper` in apify_actor_main.py.

The model has four modules:

- `Text` (text.dfy) — the string operations both runtimes rely on. JavaScript's
  `\s`/`trim` and Python's `isspace`/`strip` are kept apart. Also here are
  case folding, `indexOf`, `padStart`, `zfill`, removing a character, and
  decimal digits.
- `SecScraper` (sec-scraper.js) — the pure core of the JavaScript scraper:
  - the section-heading regex as an explicit matcher, with the
    `extractSection` cut;
  - the filter loop of `getRecentFilings` over the feed's parallel arrays;
  - fiscal year and period;
  - filing URLs;
  - the ticker-then-title CIK lookup and the ten-digit test of `resolveCompany`;
  - the `rateLimit` state as a class with an injected clock.
- `ActorMain` (apify_actor_main.py):
  - `normalize_identifier`;
  - `_extract_sections`, as a loop over the four patterns;
  - `detect_changes`, as two loops proved against a report function;
  - `process_company`'s compare-then-replace `filing_cache`, as a class whose
    methods update the cache.
- `MainRun` (main.js):
  - the watchlist and filing loops with their `stats` counters;
  - the get-previous → detect → cache order against the change detector's
    store, modelled as a class over a map;
  - the `shouldNotify` decision.

Requests, clocks and outside services are parameters throughout:

- a fetched document is a string;
- the company directory is a sequence of entries;
- a request that fails is an `Option` or a `Fault`;
- `SequenceMatcher.ratio` is a function returning a `real`;
- the change detector's comparison is a function.

## Model

| member | source | states |
|---|---|---|
| SecScraper.FirstHeading | sec-scraper.js:237-241 | the index is where the heading regex `ITEM\s+\d+[A-Z]?\.?\s+<name>` (flag `i`) matches, no earlier index matches, and there is none exactly when the regex matches nowhere; the match begins with `I` or `i` |
| SecScraper.ExtractSection | sec-scraper.js:236-249 | the excerpt is empty iff no heading matches; otherwise it is a piece of the text starting at the first match and has no upper-case `ITEM` at offset 100 or beyond |
| SecScraper.ExcerptAt | sec-scraper.js:241-245 | the trimmed window from a heading is non-empty, lies in the text from `start`, and contains no `ITEM` at offset ≥ 100 |
| SecScraper.SectionEnd | sec-scraper.js:243-245 | the cut lies after `start` and within the text, and no upper-case `ITEM` fits between `start + 100` and the cut |
| SecScraper.NoHeadingNoExcerpt | sec-scraper.js:236-248 | `extractSection` returns `''` exactly when the heading pattern occurs nowhere |
| SecScraper.ExtractSectionUpToNextItem | sec-scraper.js:241-245 | with the first heading at `s` and the first upper-case `ITEM` at or after `s + 100` at `e`, the result is `trim(text[s..e))` |
| SecScraper.ExtractSectionFallbackWindow | sec-scraper.js:243-245 | with no upper-case `ITEM` at or after `s + 100`, the result is `trim(text[s..min(s + 5000, len)))` and at most 5000 long |
| SecScraper.FilingContentOf | sec-scraper.js:193-214 | a failed fetch gives empty text and no excerpts; otherwise the full text is kept and the risk-factors excerpt is empty iff its heading does not occur |
| SecScraper.ExtractFiscalYear | sec-scraper.js:254-258 | null exactly for a missing date; a parsed date gives its year |
| SecScraper.ExtractFiscalPeriod | sec-scraper.js:263-274 | `10-K` gives FY, any type other than `10-K`/`10-Q` gives null, `10-Q` gives a quarter |
| SecScraper.QuarterOfMonth | sec-scraper.js:265-271 | for months 0–11 of a 10-Q the quarter is month / 3 + 1, and it is monotone in the month |
| SecScraper.QuarterlyWithoutDate | sec-scraper.js:266 | a 10-Q without a report date is Q1 |
| SecScraper.FilingAt | sec-scraper.js:152-162 | the pushed record carries the feed's accession number and form, and `isAmendment` holds iff the form ends with `/A` |
| SecScraper.GetRecentFilings | sec-scraper.js:125-165 | no `filings.recent` gives `[]`; otherwise the result is the selection of the feed by the type and date filters, in feed order |
| SecScraper.Selected | sec-scraper.js:136-160 | the records kept among the first n feed entries, never more than n (exactly which ones: `SelectedIsKeptIndices`) |
| SecScraper.SelectedIsKeptIndices | sec-scraper.js:136-163 | the result is the feed restricted to an increasing list of indices, and an index is on it iff the type filter passes (empty list, `ALL`, or listed) and the date is not before the cutoff |
| SecScraper.SelectedFilingsPassFilters | sec-scraper.js:141-159 | every returned filing passes the type filter, is not before the cutoff, and is an amendment iff its type ends with `/A` |
| SecScraper.AccessionPathSegment | sec-scraper.js:222 | the path segment has no `-` |
| SecScraper.GetFilingUrls | sec-scraper.js:221-231 | the document path ends with the dash-free accession number followed by the dashed one and `.htm`; the viewer and XBRL queries carry the dashed number |
| SecScraper.AccessionPathSegmentRoundTrip | sec-scraper.js:222 | for a well-formed accession number the segment is 18 digits and putting the dashes back gives the number again |
| SecScraper.PathCikDropsPadding | sec-scraper.js:223-227 | `parseInt` of a padded CIK prints as the unpadded `cik_str` |
| SecScraper.PaddedCik | sec-scraper.js:62 | the padded CIK is at least 10 characters, all digits |
| SecScraper.PaddedCikValue | sec-scraper.js:62 | padding keeps the number, and a CIK below 10^10 becomes exactly 10 characters |
| SecScraper.FirstTickerMatch | sec-scraper.js:58-60 | the first entry whose ticker equals the identifier ignoring case, or none when no entry matches |
| SecScraper.FirstTitleMatch | sec-scraper.js:66-68 | the first entry whose title contains the identifier ignoring case, or none when no entry matches |
| SecScraper.LookupCik | sec-scraper.js:46-80 | null iff no ticker and no title matches; a result is a padded digit string |
| SecScraper.LookupPrefersFirstTicker | sec-scraper.js:58-63 | the first ticker match decides, whatever titles match |
| SecScraper.LookupFallsBackToFirstTitle | sec-scraper.js:65-71 | without a ticker match, the first title that contains the identifier decides |
| SecScraper.ResolveCik | sec-scraper.js:28-41 | a ten-digit identifier is used as it is; otherwise the lookup decides, and there is none iff nothing matches |
| SecScraper.RequiredWait | sec-scraper.js:280-287 | the wait is non-negative, brings the next request at least `minRequestInterval` after the last, and is no longer than needed |
| SecScraper.SpacingAccumulates | sec-scraper.js:279-290 | requests k apart in the log are at least k · interval apart in time |
| SecScraper.RateLimitStepKeepsSpacing | sec-scraper.js:279-290 | one call keeps the log of request times spaced by the interval, given that the clock read after the sleep is at least `now + wait` (a timer that fires early is not modelled) |
| SecScraper.RateLimiter.constructor | sec-scraper.js:21-22 | starts with `lastRequestTime` 0 and interval 100 |
| SecScraper.RateLimiter.RateLimit | sec-scraper.js:279-290 | waits `max(0, interval − elapsed)`, records the clock read after the wait, and keeps successive request times at least the interval apart |
| Text.Strip | sec-scraper.js:245 | the stripped string is empty iff the input is all whitespace, otherwise it starts and ends with non-whitespace and is the input minus a leading and a trailing whitespace run |
| Text.PadStart | sec-scraper.js:62 | the string padded on the left with `c` to length `n`, the original as its suffix |
| Text.Zfill | apify_actor_main.py:64 | zeros go in front (after a sign) up to the width; a string at least that long is unchanged |
| Text.RemoveCharAppend | sec-scraper.js:222 | removing the dashes distributes over concatenation |
| Text.DecimalRoundTrip | sec-scraper.js:62 | reading back the decimal string of n gives n |
| Text.LeadingZerosIgnored | apify_actor_main.py:64 | leading zeros do not change a digit string's value |
| ActorMain.NormalizedValue | apify_actor_main.py:60 | the stripped, upper-cased value is no longer than the input and neither starts nor ends with whitespace |
| ActorMain.ZfilledCik | apify_actor_main.py:91 | `str(cik_str).zfill(10)` is at least 10 digits and reads back as `cik_str` |
| ActorMain.TickerToCik | apify_actor_main.py:80-93 | fails with "ticker not found" iff no upper-cased directory ticker equals the ticker; otherwise the zero-filled CIK of the first that does |
| ActorMain.NormalizeIdentifier | apify_actor_main.py:54-78 | `cik` gives the stripped upper-cased value zero-filled to 10 (unchanged when already that long); `ticker` goes through the ticker lookup; `name` succeeds iff the fuzzy match accepted an entry, with its CIK; `cusip` and unknown types fail |
| ActorMain.CikPaddingKeepsNumber | apify_actor_main.py:62-64 | a digit CIK normalises to at least 10 digits with the same number |
| ActorMain.AwaitNormalize | apify_actor_main.py:384 | as written, awaiting the plain function fails for every `cik` identifier and agrees with the intended normalisation otherwise |
| ActorMain.AwaitRejectsEveryCik | apify_actor_main.py:54-64 | every `cik` identifier normalises successfully yet fails at the `await` |
| ActorMain.AppleCikIsLost | apify_actor_main.py:384 | `{'type': 'cik', 'value': '320193'}` should give `0000320193` but is lost at the `await` |
| ActorMain.PyFirstHeading | apify_actor_main.py:229-230 | the index is the leftmost match of `ITEM\s+<n>\.?\s+<label>` under `re.IGNORECASE`, and there is none iff the pattern matches nowhere |
| ActorMain.PySectionEnd | apify_actor_main.py:234-235 | `end` is the first `ITEM\s+\d+` at or after `start + 100`, or `len(text)` when there is none |
| ActorMain.SectionText | apify_actor_main.py:237 | the stored value is the untrimmed slice of the text from `start` |
| ActorMain.Get | apify_actor_main.py:277-278 | a dictionary read returns the value of an entry with that key |
| ActorMain.GetAt | apify_actor_main.py:277-278 | with distinct keys, reading an entry's key gives that entry's value |
| ActorMain.ExtractSections | apify_actor_main.py:215-239 | the loop builds the dictionary of the four patterns in order, one entry per pattern that matches |
| ActorMain.SectionsAppend | apify_actor_main.py:237 | storing a key appends it and leaves other keys' values alone |
| ActorMain.AssembleKeys | apify_actor_main.py:229-237 | a pattern's key is present iff that pattern found a heading |
| ActorMain.AssembleDistinct | apify_actor_main.py:229-237 | no key is stored twice |
| ActorMain.AssembleValues | apify_actor_main.py:229-237 | each pattern that found a heading has its section under its key |
| ActorMain.SectionPresentIffHeading | apify_actor_main.py:229-237 | a key is present iff its pattern matches somewhere in the text |
| ActorMain.SectionFromFirstHeading | apify_actor_main.py:229-237 | the value of a key is `text[start:end]`, untrimmed, from the leftmost match to `PySectionEnd` |
| ActorMain.WordCount | apify_actor_main.py:288 | `len(s.split())` is 0 iff the string is all whitespace, and never more than its length |
| ActorMain.Classify | apify_actor_main.py:264-292 | a section missing from the previous filing is 'added' at 100; a common one is 'modified' with its change percentage exactly when that exceeds 5 |
| ActorMain.Report | apify_actor_main.py:241-320 | no previous filing gives `hasChanges` false, score 0, no sections and no severity; `hasChanges` iff the score exceeds 0.05; the severity is the band of the score |
| ActorMain.CurrentLoop | apify_actor_main.py:262-293 | the first loop's entries, total and count are those of the first-loop fold over all current sections |
| ActorMain.RemovedLoop | apify_actor_main.py:295-303 | the second loop continues the first one's totals with one 'removed' entry and 100 for each previous section the current filing lacks |
| ActorMain.DetectChanges | apify_actor_main.py:241-320 | the two loops and the scoring compute the report exactly |
| ActorMain.CurrentTallyBounds | apify_actor_main.py:262-293 | the first loop counts every current section and adds between 0 and 100 for each |
| ActorMain.RemovedTallyBounds | apify_actor_main.py:295-303 | the second loop adds exactly 100 for each section it counts |
| ActorMain.ScoreInUnitInterval | apify_actor_main.py:305-308 | with similarities in [0, 1] the change score is in [0, 1] |
| ActorMain.AverageInUnitInterval | apify_actor_main.py:307 | `total / count / 100` is in [0, 1] when the total is at most 100 per counted section |
| ActorMain.IdenticalSectionsNoChange | apify_actor_main.py:276-318 | a filing compared with itself scores 0, lists nothing, has no changes and is minor |
| ActorMain.UnchangedTally | apify_actor_main.py:276-293 | identical sections each count once with no change and no entry |
| ActorMain.NothingRemoved | apify_actor_main.py:295-303 | no section is removed when the two dictionaries are the same |
| ActorMain.CurrentTallyEntries | apify_actor_main.py:262-292 | the first loop's entries are exactly the classifications of the current sections |
| ActorMain.RemovedTallyEntries | apify_actor_main.py:295-303 | the second loop's entries are exactly the previous sections the current one lacks, as 'removed' at 100 |
| ActorMain.KeyPosition | apify_actor_main.py:277-278 | a present key sits at an entry whose value is what a read gives |
| ActorMain.AddedSectionsListed | apify_actor_main.py:264-273 | a section only in the current filing is listed as 'added' with 100 |
| ActorMain.ModifiedSectionsListed | apify_actor_main.py:276-290 | a common section that changed by more than 5 % is listed as 'modified' with its percentage and word-count delta |
| ActorMain.ClassifiedEntryListed | apify_actor_main.py:262-292 | every classification of a current section appears among the listed sections |
| ActorMain.PreviousSectionsListed | apify_actor_main.py:295-303 | a section only in the previous filing is listed as 'removed' with 100 |
| ActorMain.ListedSectionsSound | apify_actor_main.py:262-303 | every listed entry is of the kind the section's presence calls for, with the percentage the code gives it |
| ActorMain.SeverityMonotone | apify_actor_main.py:310-318 | the severity band never drops as the score grows |
| ActorMain.SeverityOf | apify_actor_main.py:310-318 | 'critical' iff the score exceeds 0.5, 'significant' iff it lies in (0.3, 0.5], 'moderate' iff in (0.1, 0.3], 'minor' iff at most 0.1 |
| ActorMain.FetchedPrefix | apify_actor_main.py:399-435 | the filings downloaded before the first download that raised (the filings processed when `ai_analysis` does not raise) |
| ActorMain.PrefixEndsAtFailure | apify_actor_main.py:399-435 | the loop stops exactly at the end of that prefix |
| ActorMain.FetchedContents | apify_actor_main.py:401 | one content per processed filing, its sections extracted from its text |
| ActorMain.Scraper.constructor | apify_actor_main.py:40 | the cache starts empty |
| ActorMain.Scraper.ProcessCompany | apify_actor_main.py:376-439 | a failed normalisation or company lookup gives no results and leaves the cache; otherwise the filing loop runs (normalisation as intended; the line-384 `await` as written is `AwaitNormalize` / `AwaitedCikLosesCompany`) |
| ActorMain.Scraper.ProcessFilings | apify_actor_main.py:399-435 | when `ai_analysis` raises before its `try` (line 326), no result and the cache untouched; otherwise results and cache are those of the filings before the first failed download, each compared then cached |
| ActorMain.Scraper.CompareFiling | apify_actor_main.py:401-410 | the filing's content is its text with the extracted sections, its cache key is `cik_filingType`, and it is compared with the sections cached under that key, or with none |
| ActorMain.FilingsRunNext | apify_actor_main.py:403-433 | one more filing is compared with what the cache holds under its key, appended to the results, and then stored under that key |
| ActorMain.CacheKey | apify_actor_main.py:404 | the key is the CIK, `_`, then the filing type |
| ActorMain.CacheKeyPerType | apify_actor_main.py:404 | within one company two filings share a cache entry iff they have the same type |
| ActorMain.CacheHoldsLatest | apify_actor_main.py:403-428 | after n filings the cache holds, for each key, the latest content stored under it, or what it held before |
| ActorMain.CompareThenReplace | apify_actor_main.py:403-431 | filing j is compared with the latest earlier filing of its type, or with the cache as it was before the company |
| ActorMain.OtherKeysUnchanged | apify_actor_main.py:403-428 | a key that no processed filing maps to keeps its entry or its absence |
| ActorMain.AwaitedCikLosesCompany | apify_actor_main.py:384 | as written, a `cik` identifier ends the company with no results and the cache untouched, where the intended code processes every downloaded filing |
| ActorMain.AiSettingsLoseCompany | apify_actor_main.py:326 | when `ai_analysis` raises before its `try`, a company yields no result and leaves the cache, whatever was downloaded; with valid AI settings it yields one result per filing before the first failed download |
| MainRun.ShouldNotify | main.js:226-244 | notify iff there is no change detection, or the severity is 'significant' or 'critical', or the AI risk score exceeds 70 |
| MainRun.ChangeStore.constructor | main.js:42-44 | the store starts with the given snapshots |
| MainRun.ChangeStore.GetPreviousFiling | main.js:120-123 | the stored content for (CIK, type), or none |
| MainRun.ChangeStore.CacheFiling | main.js:138-142 | the store holds the content under (CIK, type) and nothing else changes |
| MainRun.OutputOf | main.js:101-116 | the record carries the filing, its URLs, the comparison it was given, full text iff requested, and a risk score only with AI analysis on |
| MainRun.Resolved | main.js:69-75 | a resolved company has a non-empty digit CIK |
| MainRun.CompareAndCache | main.js:118-143 | the change-detection block: the statistics, the store, the comparison and whether it threw, as the detection step gives them |
| MainRun.PushRecord | main.js:159-172 | push the record, then count a webhook when it is configured, called for and delivered; a failing push is one error |
| MainRun.DetectStep | main.js:118-143 | the detection block pushes nothing; it throws iff detection is on and the lookup or the cache write throws, or a previous filing exists and the comparison throws; a throw counts one error; a comparison is attached only with detection on and a previous filing; `changesDetected` grows by at most one |
| MainRun.FilingStep | main.js:90-182 | a filing adds at most one record to the dataset and changes neither `companiesProcessed` nor `filingsFound` |
| MainRun.FilingsFold | main.js:89-183 | the filing loop changes neither `companiesProcessed` nor `filingsFound` |
| MainRun.CompanyStep | main.js:64-194 | an unresolved company counts one error and leaves dataset and store; `filingsFound` grows by the filings of a resolved company only |
| MainRun.ProcessFilings | main.js:89-183 | the inner loop over a company's filings computes exactly the filing fold |
| MainRun.ProcessFiling | main.js:90-182 | one filing's step with its `catch`, exactly as the filing step function gives it (store included) |
| MainRun.ProcessCompany | main.js:64-194 | one watchlist entry: an unresolved one is one error; a resolved one adds its filings to `filingsFound`, runs the filing loop and counts one company processed |
| MainRun.Run | main.js:23-194 | a missing or empty watchlist fails and leaves the store; otherwise statistics, dataset and store are those of the company loop |
| MainRun.FilingStepComparesThenCaches | main.js:119-143 | with change detection on, the previous filing for (CIK, type) is compared before the current one is cached; the comparison is attached iff a previous filing existed; `changesDetected` grows iff it reports changes; afterwards the store holds the current content under that key and nothing else changed |
| MainRun.NoDetectionNoStore | main.js:119 | with change detection off the store and `changesDetected` never change and no output carries a comparison |
| MainRun.PushStepAccounting | main.js:159-182 | pushing ends as one more output or as one error, and a webhook is counted only for a pushed output |
| MainRun.FilingStepAccounting | main.js:90-182 | a filing is either pushed or counted as one error, adds at most one change, and a webhook only if pushed |
| MainRun.FilingsAccounting | main.js:90-183 | over a company's filings, errors plus pushed outputs grow by exactly the number of filings: one failing filing does not stop the rest |
| MainRun.CompanyStepAccounting | main.js:64-194 | one watchlist entry: `companiesProcessed` grows by one iff it resolves, `filingsFound` by its filings; errors plus outputs grow by the filings plus one if unresolved; changes at most the filings, webhooks at most the new outputs |
| MainRun.CompaniesCounts | main.js:64-194 | `companiesProcessed` counts the resolved companies and `filingsFound` their filings |
| MainRun.CompaniesAccounting | main.js:64-194 | each unresolved company and each unpushed filing counts one error; changes at most the filings found, webhooks at most the outputs pushed |
| MainRun.RunStatistics | main.js:55-194 | from zero: `companiesProcessed` is the number resolved, `filingsFound` their filings, errors at least the unresolved count, changes at most `filingsFound`, webhooks at most the outputs pushed |
| MainRun.EmptyWatchlistFails | main.js:23-25 | a missing or empty watchlist makes the run fail |

## Left out

- HTTP requests (axios, aiohttp) and JSON decoding are out. What a request returns is a parameter:
  - the feed's arrays, the company directory and the document text are given;
  - a failed request is `None`, `companyInfoFound == false` or a `Fault`;
  - a failed directory fetch in `lookupCIK` behaves like an empty directory.
- HTML-to-text conversion (JSDOM `textContent`, BeautifulSoup `get_text`) is out: the text is given.
- The `-index.htm` URL that `getFilingContent` downloads is out.
- JavaScript `Date` parsing is out:
  - filing dates and the cutoff are integer timestamps;
  - a report date is missing, unparsable, or a year and month 0–11;
  - the `setDate` arithmetic that computes the cutoff is not modelled.
- The feed's pass-through fields (`acceptanceDateTime`, `primaryDocument`) are out.
- In the JavaScript filing record, the field `type` is called `formType`, because `type` is a Dafny keyword.
- `SecScraper.GetRecentFilings`: the feed's parallel arrays are required to cover the accession-number array. Shorter arrays (read as `undefined` in JavaScript) are not modelled.
- Unicode case mapping, and Python's Unicode `\d`, are out: case folding is ASCII only and digits are `0`–`9`. Whitespace is modelled in full for both runtimes.
- JavaScript string offsets count UTF-16 code units, while Dafny strings count code points. The model's `indexOf('ITEM', start + 100)`, `substring(start, end)` and the 5000-character window of `extractSection` therefore count code points. They agree with JavaScript only for text without characters outside the Basic Multilingual Plane; with such characters, the cut can land elsewhere than JavaScript puts it.
- `SecScraper.RateLimiter.RateLimit`: the sleep itself is not modelled. The wait is returned, and the clock reading after it is a parameter that is at least `now + wait`: a `setTimeout` that fires before the requested wait has elapsed is not modelled, and the spacing guarantee rests on that.
- `ActorMain.NormalizeIdentifier` leaves three things as parameters:
  - the fuzzy `name_to_cik` match (`SequenceMatcher` over titles with the 0.8 threshold) is given as its accepted `cik_str`, or none;
  - `cusip_to_cik` does not exist in the source and is modelled as a failure;
  - a `ticker` or `name` directory request that fails is not distinguished from no match.
- `SequenceMatcher.ratio` is a parameter. Where a property needs it, it is assumed to lie in [0, 1] and to give 1 for equal texts.
- Floating-point arithmetic is modelled as exact `real`s.
- Python dictionaries are association lists. `detect_changes` lemmas about listed sections need distinct keys, which `_extract_sections` always produces (`AssembleDistinct`).
- `ActorMain.Scraper.ProcessCompany` follows only each output's filing and change report:
  - the metadata, timestamps and URLs are not modelled;
  - `get_recent_filings` (with its `limit=10`) and `get_company_info` are given as their results;
  - `ai_analysis` is reduced to whether it raises before its `try` (line 326: the openai package imported and `aiProcessing` present but not a dictionary); its `try` block, which catches its own errors and returns the analysis, is not modelled, and neither is the `aiAnalysis` field of the output.
- `ActorMain.Scraper.ProcessFilings`: when `ai_analysis` raises, the comparison of the first downloaded filing, which it throws away, is not made; the loop does no turn at all.
- The Python `main()` loop, `push_data` and `send_webhook_notifications` are out.
- The change detector behind main.js (`src/change-detector.js`) is not part of this model. Its store is a map from (CIK, type) to content, and its comparison is a function parameter.
- Which calls throw in main.js is an input per filing. AI analysis and webhook delivery are given as a risk score and a delivered flag; their failures are caught in the source and change only `webhooksSent`.
- The company-level `catch` of main.js (lines 187-193) is not modelled. None of the calls before the filing loop can throw: `resolveCompany` and `getRecentFilings` catch their own errors.
- `Actor.sleep`, logging, `Actor.setValue`, proxies and concurrency are out.
- `detect_changes` has no per-section weighting and no configurable threshold: it takes an unweighted average of the section changes, uses a fixed 0.05 threshold and the severity bands 0.5 / 0.3 / 0.1, as the model does.

## Findings

| source | as written | input that shows it | evidently intended | confidence | as-written member | corrected member |
|---|---|---|---|---|---|---|
| apify_actor_main.py:384 | `cik = await self.normalize_identifier(identifier)`, but `normalize_identifier` (lines 54-78) is a plain function. For `type == 'cik'` it returns a `str`, and awaiting a `str` raises `TypeError`. The `except` at line 435 swallows it, so the company yields no results. | `{'type': 'cik', 'value': '320193'}`: the value normalises to `0000320193`, yet the company produces `[]` and the cache is untouched | call `normalize_identifier` and await the result only where it is a coroutine, so a CIK is zero-filled and processed | not executed | ActorMain.AwaitNormalize (with ActorMain.AppleCikIsLost and ActorMain.AwaitedCikLosesCompany) | ActorMain.NormalizeIdentifier (used by ActorMain.Scraper.ProcessCompany) |
