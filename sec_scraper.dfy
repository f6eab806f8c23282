/**
 * The JavaScript EDGAR scraper (`SECFilingScraper` in sec-scraper.js), without
 * its HTTP requests: whatever a request would return is a parameter.
 */
module SecScraper {
  import opened Text

  // ---------------------------------------------------------------------------
  // Section extraction: the regex `ITEM\s+\d+[A-Z]?\.?\s+<name>` with flag `i`,
  // then a cut at the next upper-case `ITEM` at least 100 characters on.
  // ---------------------------------------------------------------------------

  /** The heading regex matches at index `p`. Each regex component is one
      predicate; a `+` or `?` that could stop at several places is an
      existential over where it stops, so this is exactly "some match starts at p". */
  predicate HeadingAt(t: string, p: nat, name: string) {
    OccursAtIgnoringCase(t, "ITEM", p)
    && exists a | p + 4 < a <= SkipWhile(t, p + 4, IsJsSpace) :: NumberThenNameAt(t, a, name)
  }

  /** `\d+[A-Z]?\.?\s+<name>` matches from index `a`. */
  predicate NumberThenNameAt(t: string, a: nat, name: string)
    requires a <= |t|
  {
    exists b | a < b <= SkipWhile(t, a, IsDigit) :: LetterThenNameAt(t, b, name)
  }

  /** `[A-Z]?\.?\s+<name>` matches from index `b` (the `i` flag admits lower case). */
  predicate LetterThenNameAt(t: string, b: nat, name: string)
    requires b <= |t|
  {
    DotThenNameAt(t, b, name) || (b < |t| && IsLetter(t[b]) && DotThenNameAt(t, b + 1, name))
  }

  /** `\.?\s+<name>` matches from index `c`. */
  predicate DotThenNameAt(t: string, c: nat, name: string)
    requires c <= |t|
  {
    SpacesThenNameAt(t, c, name) || (c < |t| && t[c] == '.' && SpacesThenNameAt(t, c + 1, name))
  }

  /** `\s+<name>` matches from index `d`. */
  predicate SpacesThenNameAt(t: string, d: nat, name: string)
    requires d <= |t|
  {
    exists e | d < e <= SkipWhile(t, d, IsJsSpace) :: OccursAtIgnoringCase(t, name, e)
  }

  /** `text.match(regex).index`: the leftmost index where the heading regex matches. */
  function FirstHeading(text: string, name: string): (r: Option<nat>)
    ensures r.Some? ==> HeadingAt(text, r.value, name)
    ensures r.Some? ==> forall p :: 0 <= p < r.value ==> !HeadingAt(text, p, name)
    ensures r.None? <==> forall p :: !HeadingAt(text, p, name)
    ensures r.Some? ==> r.value < |text| && UpperChar(text[r.value]) == 'I'
  {
    var f := (p: nat) => HeadingAt(text, p, name);
    assert forall p: nat :: f(p) == HeadingAt(text, p, name);
    var r := FindFirst(f, 0, |text|);
    if r.Some? then HeadingBeginsWithI(text, r.value, name); r else r
  }

  lemma HeadingBeginsWithI(t: string, p: nat, name: string)
    requires HeadingAt(t, p, name)
    ensures p < |t| && UpperChar(t[p]) == 'I'
  {
    assert UpperChar(t[p + 0]) == UpperChar("ITEM"[0]);
  }

  function Min(a: int, b: int): int { if a <= b then a else b }

  /** `extractSection(text, sectionName)`: from the first heading match up to the
      next upper-case `ITEM` found at or after start + 100, or a 5000-character
      window when there is none, trimmed. The excerpt is empty exactly when no
      heading matches; otherwise it is a piece of the text starting at the first
      match, and it holds no upper-case `ITEM` at offset 100 or beyond. */
  function ExtractSection(text: string, sectionName: string): (r: string)
    ensures r == "" <==> FirstHeading(text, sectionName).None?
    ensures FirstHeading(text, sectionName).Some? ==>
              var s := FirstHeading(text, sectionName).value;
              s + |r| <= |text| && forall i :: 0 <= i < |r| ==> r[i] == text[s + i]
    ensures forall k :: 100 <= k ==> !OccursAt(r, "ITEM", k)
  {
    ExcerptFrom(text, FirstHeading(text, sectionName))
  }

  /** The excerpt for a heading found at `heading`, or none. */
  function ExcerptFrom(text: string, heading: Option<nat>): (r: string)
    requires heading.Some? ==> heading.value < |text| && UpperChar(text[heading.value]) == 'I'
    ensures r == "" <==> heading.None?
    ensures heading.Some? ==> heading.value + |r| <= |text| && forall i :: 0 <= i < |r| ==> r[i] == text[heading.value + i]
    ensures forall k :: 100 <= k ==> !OccursAt(r, "ITEM", k)
  {
    match heading
    case None => ""
    case Some(start) => ExcerptAt(text, start)
  }

  /** The trimmed window from a heading at `start` to where `extractSection` cuts. */
  function ExcerptAt(text: string, start: nat): (r: string)
    requires start < |text| && UpperChar(text[start]) == 'I'
    ensures r != "" && start + |r| <= |text|
    ensures forall i :: 0 <= i < |r| ==> r[i] == text[start + i]
    ensures forall k :: 100 <= k ==> !OccursAt(r, "ITEM", k)
  {
    var end := SectionEnd(text, start);
    var r := Strip(text[start..end], IsJsSpace);
    ExcerptFacts(text, start, end, r);
    r
  }

  /** Where `extractSection` cuts: `text.indexOf('ITEM', start + 100)` when that is
      found, `start + 5000` otherwise, as `substring` clamps it to the text. */
  function SectionEnd(text: string, start: nat): (end: nat)
    requires start < |text|
    ensures start < end <= |text|
    ensures forall k :: start + 100 <= k && k + 4 <= end ==> !OccursAt(text, "ITEM", k)
  {
    var nextItem: int := match IndexOf(text, "ITEM", start + 100)
                         case None => -1
                         case Some(k) => k;
    var end := if nextItem > start then nextItem else start + 5000;
    Min(end, |text|)
  }

  /** What `ExtractSection` needs about the window it trims. */
  lemma ExcerptFacts(text: string, start: nat, end: nat, r: string)
    requires start < end <= |text|
    requires UpperChar(text[start]) == 'I'
    requires r == Strip(text[start..end], IsJsSpace)
    requires forall k :: start + 100 <= k && k + 4 <= end ==> !OccursAt(text, "ITEM", k)
    ensures r != "" && start + |r| <= |text|
    ensures forall i :: 0 <= i < |r| ==> r[i] == text[start + i]
    ensures forall k :: 100 <= k ==> !OccursAt(r, "ITEM", k)
  {
    var u := text[start..end];
    assert !IsJsSpace(u[0]);
    var a := SkipWhile(u, 0, IsJsSpace);
    assert a == 0;
    assert r == u[..|r|];
    forall i | 0 <= i < |r| ensures r[i] == text[start + i] {
      assert r[i] == u[i];
    }
    forall k | 100 <= k ensures !OccursAt(r, "ITEM", k) {
      if k + 4 <= |r| {
        assert r[k..k + 4] == text[start + k..start + k + 4];
        assert !OccursAt(text, "ITEM", start + k);
      }
    }
  }

  /** No heading, no excerpt; and a heading always gives a non-empty excerpt. */
  lemma NoHeadingNoExcerpt(text: string, name: string)
    ensures ExtractSection(text, name) == "" <==> forall p :: !HeadingAt(text, p, name)
  {
  }

  /** Between a heading and the next upper-case `ITEM`, the excerpt is exactly that
      span, trimmed. */
  lemma ExtractSectionUpToNextItem(text: string, name: string, s: nat, e: nat)
    requires FirstHeading(text, name) == Some(s)
    requires s + 100 <= e && OccursAt(text, "ITEM", e)
    requires forall k :: s + 100 <= k < e ==> !OccursAt(text, "ITEM", k)
    ensures ExtractSection(text, name) == Strip(text[s..e], IsJsSpace)
  {
    HeadingBeginsWithI(text, s, name);
    SectionEndAtNextItem(text, s, e);
  }

  lemma SectionEndAtNextItem(text: string, s: nat, e: nat)
    requires s < |text|
    requires s + 100 <= e && OccursAt(text, "ITEM", e)
    requires forall k :: s + 100 <= k < e ==> !OccursAt(text, "ITEM", k)
    ensures SectionEnd(text, s) == e
  {
    var next := IndexOf(text, "ITEM", s + 100);
    assert next == Some(e);
  }

  /** Without a later upper-case `ITEM`, the excerpt is the 5000-character window
      from the heading (shorter at the end of the text), trimmed. */
  lemma ExtractSectionFallbackWindow(text: string, name: string, s: nat)
    requires FirstHeading(text, name) == Some(s)
    requires forall k :: s + 100 <= k ==> !OccursAt(text, "ITEM", k)
    ensures ExtractSection(text, name) == Strip(text[s..Min(s + 5000, |text|)], IsJsSpace)
    ensures |ExtractSection(text, name)| <= 5000
  {
  }

  /** The four excerpts `getFilingContent` takes from a filing's text. */
  datatype Excerpts = Excerpts(
    businessDescription: string,
    riskFactors: string,
    mdAndA: string,
    legalProceedings: string)

  /** `{fullText, excerpts}`; a failed fetch yields empty text and `excerpts: {}` (None). */
  datatype FilingContent = FilingContent(fullText: string, excerpts: Option<Excerpts>)

  /** `getFilingContent` once the document's text is known (`fetched`), or after the
      fetch failed (None). */
  function FilingContentOf(fetched: Option<string>): (c: FilingContent)
    ensures fetched.None? ==> c == FilingContent("", None)
    ensures fetched.Some? ==> c.fullText == fetched.value && c.excerpts.Some?
    ensures fetched.Some? ==>
              (c.excerpts.value.riskFactors == "" <==> forall p :: !HeadingAt(fetched.value, p, "RISK FACTORS"))
  {
    match fetched
    case None => FilingContent("", None)
    case Some(fullText) =>
      FilingContent(fullText, Some(Excerpts(
        ExtractSection(fullText, "BUSINESS"),
        ExtractSection(fullText, "RISK FACTORS"),
        ExtractSection(fullText, "MANAGEMENT'S DISCUSSION"),
        ExtractSection(fullText, "LEGAL PROCEEDINGS"))))
  }

  // ---------------------------------------------------------------------------
  // Filing metadata.
  // ---------------------------------------------------------------------------

  datatype FiscalPeriod = FY | Q1 | Q2 | Q3 | Q4

  /** What the scraper gets out of a report date: none (missing or empty string),
      one `new Date` cannot parse (every getter gives NaN), or a parsed date with
      its `getFullYear()` and `getMonth()` (0 to 11). */
  datatype ReportDate = NoReportDate | InvalidDate | Dated(year: int, month: int)

  /** `extractFiscalYear`: null, NaN or the year. */
  datatype FiscalYear = NullYear | NaNYear | Year(year: int)

  function ExtractFiscalYear(d: ReportDate): (y: FiscalYear)
    ensures y.NullYear? <==> d.NoReportDate?
    ensures d.Dated? ==> y == Year(d.year)
  {
    match d
    case NoReportDate => NullYear
    case InvalidDate => NaNYear
    case Dated(year, _) => Year(year)
  }

  /** `extractFiscalPeriod`: FY for an annual report, the calendar quarter of the
      report month for a quarterly one, null otherwise. An unparsable date gives a
      NaN month, which fails every `<=` test and so lands in Q4. */
  function ExtractFiscalPeriod(filingType: string, d: ReportDate): (r: Option<FiscalPeriod>)
    ensures filingType == "10-K" ==> r == Some(FY)
    ensures filingType != "10-K" && filingType != "10-Q" ==> r == None
    ensures filingType == "10-Q" ==> r.Some? && r.value != FY
  {
    if filingType == "10-K" then Some(FY)
    else if filingType == "10-Q" then
      match d
      case NoReportDate => Some(Q1)
      case InvalidDate => Some(Q4)
      case Dated(_, month) =>
        if month <= 2 then Some(Q1)
        else if month <= 5 then Some(Q2)
        else if month <= 8 then Some(Q3)
        else Some(Q4)
    else None
  }

  function QuarterNumber(q: FiscalPeriod): nat {
    match q
    case FY => 0
    case Q1 => 1
    case Q2 => 2
    case Q3 => 3
    case Q4 => 4
  }

  /** For a month 0..11 of a quarterly report the period is quarter month / 3 + 1,
      so the quarter never decreases as the month grows. */
  lemma QuarterOfMonth(m: int, m': int)
    requires 0 <= m <= m' <= 11
    ensures QuarterNumber(ExtractFiscalPeriod("10-Q", Dated(0, m)).value) == m / 3 + 1
    ensures QuarterNumber(ExtractFiscalPeriod("10-Q", Dated(0, m)).value)
            <= QuarterNumber(ExtractFiscalPeriod("10-Q", Dated(0, m')).value)
  {
  }

  /** A 10-Q without a report date is filed as Q1. */
  lemma QuarterlyWithoutDate()
    ensures ExtractFiscalPeriod("10-Q", NoReportDate) == Some(Q1)
  {
  }

  /** The parallel arrays of `filings.recent` in a submissions feed; dates are
      timestamps (the result of `new Date(filingDate[i])`). */
  datatype RecentFilings = RecentFilings(
    accessionNumber: seq<string>,
    form: seq<string>,
    filingDate: seq<int>,
    reportDate: seq<ReportDate>)

  /** The loop runs over `accessionNumber`; the other arrays cover its indices. */
  predicate Covers(r: RecentFilings) {
    |r.form| >= |r.accessionNumber| && |r.filingDate| >= |r.accessionNumber|
    && |r.reportDate| >= |r.accessionNumber|
  }

  datatype Filing = Filing(
    accessionNumber: string,
    formType: string,
    filingDate: int,
    reportDate: ReportDate,
    isAmendment: bool,
    fiscalYear: FiscalYear,
    fiscalPeriod: Option<FiscalPeriod>)

  /** The type filter of `getRecentFilings`: no filter, 'ALL', or the type is listed. */
  predicate PassesTypeFilter(filingTypes: seq<string>, formType: string) {
    |filingTypes| == 0 || "ALL" in filingTypes || formType in filingTypes
  }

  /** Index `i` of the feed survives both filters (a date equal to the cutoff stays). */
  predicate Kept(r: RecentFilings, filingTypes: seq<string>, cutoff: int, i: nat)
    requires Covers(r) && i < |r.accessionNumber|
  {
    PassesTypeFilter(filingTypes, r.form[i]) && r.filingDate[i] >= cutoff
  }

  /** The record pushed for index `i`. */
  function FilingAt(r: RecentFilings, i: nat): (f: Filing)
    requires Covers(r) && i < |r.accessionNumber|
    ensures f.accessionNumber == r.accessionNumber[i] && f.formType == r.form[i]
    ensures f.isAmendment <==> EndsWith(r.form[i], "/A")
  {
    var t := r.form[i];
    Filing(r.accessionNumber[i], t, r.filingDate[i], r.reportDate[i], EndsWith(t, "/A"),
           ExtractFiscalYear(r.reportDate[i]), ExtractFiscalPeriod(t, r.reportDate[i]))
  }

  /** The filings kept among the first `n` indices, in feed order. */
  function Selected(r: RecentFilings, filingTypes: seq<string>, cutoff: int, n: nat): (s: seq<Filing>)
    requires Covers(r) && n <= |r.accessionNumber|
    ensures |s| <= n
  {
    if n == 0 then []
    else Selected(r, filingTypes, cutoff, n - 1)
         + (if Kept(r, filingTypes, cutoff, n - 1) then [FilingAt(r, n - 1)] else [])
  }

  /** The feed indices kept among the first `n`, in increasing order. */
  function KeptIndices(r: RecentFilings, filingTypes: seq<string>, cutoff: int, n: nat): seq<nat>
    requires Covers(r) && n <= |r.accessionNumber|
  {
    if n == 0 then []
    else KeptIndices(r, filingTypes, cutoff, n - 1)
         + (if Kept(r, filingTypes, cutoff, n - 1) then [n - 1] else [])
  }

  /** `getRecentFilings` after the feed has been fetched (`recent` is None when the
      feed has no `filings.recent`) and the cutoff date computed. */
  method GetRecentFilings(recent: Option<RecentFilings>, filingTypes: seq<string>, cutoff: int)
    returns (filings: seq<Filing>)
    requires recent.Some? ==> Covers(recent.value)
    ensures recent.None? ==> filings == []
    ensures recent.Some? ==>
              filings == Selected(recent.value, filingTypes, cutoff, |recent.value.accessionNumber|)
  {
    filings := [];
    if recent.None? {
      return;
    }
    var r := recent.value;
    var length := |r.accessionNumber|;
    for i := 0 to length
      invariant filings == Selected(r, filingTypes, cutoff, i)
    {
      var filingType := r.form[i];
      if |filingTypes| > 0 && "ALL" !in filingTypes && filingType !in filingTypes {
        continue;
      }
      if r.filingDate[i] < cutoff {
        continue;
      }
      filings := filings + [FilingAt(r, i)];
    }
  }

  /** The result of `getRecentFilings` is the feed restricted to the kept indices,
      in feed order: entry j is the record of the j-th kept index, and an index is
      kept exactly when it passes the type filter and is not before the cutoff. */
  lemma SelectedIsKeptIndices(r: RecentFilings, filingTypes: seq<string>, cutoff: int, n: nat)
    requires Covers(r) && n <= |r.accessionNumber|
    ensures var fs, ix := Selected(r, filingTypes, cutoff, n), KeptIndices(r, filingTypes, cutoff, n);
            |fs| == |ix|
            && (forall j :: 0 <= j < |ix| ==> ix[j] < n && fs[j] == FilingAt(r, ix[j]))
            && (forall j, k :: 0 <= j < k < |ix| ==> ix[j] < ix[k])
            && (forall i :: 0 <= i < n ==> (i in ix <==> Kept(r, filingTypes, cutoff, i)))
  {
    SelectedMatchesIndices(r, filingTypes, cutoff, n);
    KeptIndicesIncrease(r, filingTypes, cutoff, n);
    KeptIndicesMembers(r, filingTypes, cutoff, n);
  }

  lemma {:induction false} SelectedMatchesIndices(r: RecentFilings, filingTypes: seq<string>, cutoff: int, n: nat)
    requires Covers(r) && n <= |r.accessionNumber|
    ensures var fs, ix := Selected(r, filingTypes, cutoff, n), KeptIndices(r, filingTypes, cutoff, n);
            |fs| == |ix| && forall j :: 0 <= j < |ix| ==> ix[j] < n && fs[j] == FilingAt(r, ix[j])
  {
    if n > 0 {
      SelectedMatchesIndices(r, filingTypes, cutoff, n - 1);
    }
  }

  lemma {:induction false} KeptIndicesIncrease(r: RecentFilings, filingTypes: seq<string>, cutoff: int, n: nat)
    requires Covers(r) && n <= |r.accessionNumber|
    ensures forall j :: 0 <= j < |KeptIndices(r, filingTypes, cutoff, n)| ==> KeptIndices(r, filingTypes, cutoff, n)[j] < n
    ensures forall j, k :: 0 <= j < k < |KeptIndices(r, filingTypes, cutoff, n)| ==>
              KeptIndices(r, filingTypes, cutoff, n)[j] < KeptIndices(r, filingTypes, cutoff, n)[k]
  {
    if n > 0 {
      KeptIndicesIncrease(r, filingTypes, cutoff, n - 1);
      var p := KeptIndices(r, filingTypes, cutoff, n - 1);
      if Kept(r, filingTypes, cutoff, n - 1) {
        assert KeptIndices(r, filingTypes, cutoff, n) == p + [n - 1];
      } else {
        assert KeptIndices(r, filingTypes, cutoff, n) == p;
      }
    }
  }

  lemma {:induction false} KeptIndicesMembers(r: RecentFilings, filingTypes: seq<string>, cutoff: int, n: nat)
    requires Covers(r) && n <= |r.accessionNumber|
    ensures var ix := KeptIndices(r, filingTypes, cutoff, n);
            forall i :: 0 <= i < n ==> (i in ix <==> Kept(r, filingTypes, cutoff, i))
  {
    if n > 0 {
      KeptIndicesMembers(r, filingTypes, cutoff, n - 1);
      KeptIndicesIncrease(r, filingTypes, cutoff, n - 1);
    }
  }

  /** Every filing returned passes the type filter, is not before the cutoff and
      is flagged as an amendment exactly when its type ends in '/A'. */
  lemma {:induction false} SelectedFilingsPassFilters(r: RecentFilings, filingTypes: seq<string>, cutoff: int, n: nat)
    requires Covers(r) && n <= |r.accessionNumber|
    ensures forall f :: f in Selected(r, filingTypes, cutoff, n) ==>
              PassesTypeFilter(filingTypes, f.formType) && f.filingDate >= cutoff
              && (f.isAmendment <==> EndsWith(f.formType, "/A"))
  {
    if n > 0 {
      SelectedFilingsPassFilters(r, filingTypes, cutoff, n - 1);
    }
  }

  // ---------------------------------------------------------------------------
  // Filing URLs.
  // ---------------------------------------------------------------------------

  const BaseUrl := "https://www.sec.gov"

  datatype FilingUrls = FilingUrls(
    edgarFiling: string,
    primaryDocument: string,
    htmlViewer: string,
    xbrlData: string)

  /** The accession number as a path segment: every '-' removed. */
  function AccessionPathSegment(accessionNumber: string): (r: string)
    ensures '-' !in r
  {
    RemoveChar(accessionNumber, '-')
  }

  /** `getFilingUrls`: the numeric CIK (`parseInt(cik)` printed back, so without
      leading zeros) and the dash-free accession number make the document's path;
      the dashed accession number names the file and goes into the viewer queries. */
  function GetFilingUrls(cik: string, accessionNumber: string): (u: FilingUrls)
    requires cik != "" && AllDigits(cik)
    ensures EndsWith(u.primaryDocument, "/" + AccessionPathSegment(accessionNumber) + "/" + accessionNumber + ".htm")
    ensures EndsWith(u.htmlViewer, "&accession_number=" + accessionNumber)
    ensures EndsWith(u.xbrlData, "&accession_number=" + accessionNumber + "&xbrl_type=v")
  {
    var accessionClean := AccessionPathSegment(accessionNumber);
    var cikNumber := DecimalValue(cik);
    FilingUrls(
      BaseUrl + "/cgi-bin/browse-edgar?action=getcompany&CIK=" + cik + "&type=&dateb=&owner=exclude&count=100",
      BaseUrl + "/Archives/edgar/data/" + DecimalString(cikNumber) + "/" + accessionClean + "/" + accessionNumber + ".htm",
      BaseUrl + "/cgi-bin/viewer?action=view&cik=" + cik + "&accession_number=" + accessionNumber,
      BaseUrl + "/cgi-bin/viewer?action=view&cik=" + cik + "&accession_number=" + accessionNumber + "&xbrl_type=v")
  }

  /** EDGAR's accession number layout: 10 digits, '-', 2 digits, '-', 6 digits. */
  predicate IsAccessionNumber(a: string) {
    |a| == 20 && a[10] == '-' && a[13] == '-'
    && AllDigits(a[..10]) && AllDigits(a[11..13]) && AllDigits(a[14..])
  }

  function WithAccessionDashes(d: string): string
    requires |d| == 18
  {
    d[..10] + "-" + d[10..12] + "-" + d[12..]
  }

  /** Dropping the dashes from a well-formed accession number loses nothing: the
      18-digit path segment gives the dashed number back. */
  lemma AccessionPathSegmentRoundTrip(a: string)
    requires IsAccessionNumber(a)
    ensures |AccessionPathSegment(a)| == 18
    ensures WithAccessionDashes(AccessionPathSegment(a)) == a
  {
    var p, q, w := a[..10], a[11..13], a[14..];
    assert a == p + "-" + q + "-" + w;
    DigitsHaveNoDash(p);
    DigitsHaveNoDash(q);
    DigitsHaveNoDash(w);
    RemoveCharAbsent(p, '-');
    RemoveCharAbsent(q, '-');
    RemoveCharAbsent(w, '-');
    RemoveCharAppend(p + "-" + q + "-", w, '-');
    RemoveCharAppend(p + "-" + q, "-", '-');
    RemoveCharAppend(p + "-", q, '-');
    RemoveCharAppend(p, "-", '-');
    assert AccessionPathSegment(a) == p + q + w;
  }

  lemma DigitsHaveNoDash(s: string)
    requires AllDigits(s)
    ensures '-' !in s
  {
  }

  /** The path's CIK segment is the CIK without its zero padding. */
  lemma PathCikDropsPadding(n: nat)
    ensures AllDigits(PaddedCik(n))
    ensures DecimalString(DecimalValue(PaddedCik(n))) == DecimalString(n)
  {
    PaddedCikValue(n);
  }

  // ---------------------------------------------------------------------------
  // Company resolution.
  // ---------------------------------------------------------------------------

  /** One entry of the company directory: `cik_str` and the optional `ticker` and `title`. */
  datatype CompanyEntry = CompanyEntry(cikStr: nat, ticker: Option<string>, title: Option<string>)

  predicate TickerMatches(c: CompanyEntry, identifier: string) {
    c.ticker.Some? && Upper(c.ticker.value) == Upper(identifier)
  }

  predicate TitleMatches(c: CompanyEntry, identifier: string) {
    c.title.Some? && Contains(Upper(c.title.value), Upper(identifier))
  }

  /** `String(cik_str).padStart(10, '0')`. */
  function PaddedCik(n: nat): (r: string)
    ensures |r| >= 10 && AllDigits(r)
  {
    PadStart(DecimalString(n), 10, '0')
  }

  /** The zero padding keeps the number: the padded CIK reads back as `cik_str`. */
  lemma PaddedCikValue(n: nat)
    ensures AllDigits(PaddedCik(n)) && DecimalValue(PaddedCik(n)) == n
    ensures n < 10_000_000_000 ==> |PaddedCik(n)| == 10
  {
    var d := DecimalString(n);
    var r := PaddedCik(n);
    var z := r[..|r| - |d|];
    assert r == z + d;
    LeadingZerosIgnored(z, d);
    DecimalRoundTrip(n);
    if n < 10_000_000_000 {
      DecimalStringShort(n, 10);
    }
  }

  function Pow10(k: nat): nat { if k == 0 then 1 else 10 * Pow10(k - 1) }

  lemma {:induction false} DecimalStringShort(n: nat, k: nat)
    requires n < Pow10(k) && k >= 1
    ensures |DecimalString(n)| <= k
    decreases k
  {
    if n >= 10 {
      assert k >= 2;
      DecimalStringShort(n / 10, k - 1);
    }
  }

  function FirstTickerMatch(identifier: string, companies: seq<CompanyEntry>): (r: Option<nat>)
    ensures r.Some? ==> r.value < |companies| && TickerMatches(companies[r.value], identifier)
    ensures r.Some? ==> forall j :: 0 <= j < r.value ==> !TickerMatches(companies[j], identifier)
    ensures r.None? ==> forall j :: 0 <= j < |companies| ==> !TickerMatches(companies[j], identifier)
  {
    var f := (j: nat) => j < |companies| && TickerMatches(companies[j], identifier);
    assert forall j: nat :: j < |companies| ==> (f(j) == TickerMatches(companies[j], identifier));
    FindFirst(f, 0, |companies|)
  }

  function FirstTitleMatch(identifier: string, companies: seq<CompanyEntry>): (r: Option<nat>)
    ensures r.Some? ==> r.value < |companies| && TitleMatches(companies[r.value], identifier)
    ensures r.Some? ==> forall j :: 0 <= j < r.value ==> !TitleMatches(companies[j], identifier)
    ensures r.None? ==> forall j :: 0 <= j < |companies| ==> !TitleMatches(companies[j], identifier)
  {
    var f := (j: nat) => j < |companies| && TitleMatches(companies[j], identifier);
    assert forall j: nat :: j < |companies| ==> (f(j) == TitleMatches(companies[j], identifier));
    FindFirst(f, 0, |companies|)
  }

  /** `lookupCIK` over the fetched directory (`Object.values` order): the first
      case-insensitive ticker match, else the first title containing the identifier,
      zero-padded to ten characters; null when neither exists. */
  function LookupCik(identifier: string, companies: seq<CompanyEntry>): (r: Option<string>)
    ensures r.None? <==> forall j :: 0 <= j < |companies| ==>
                           !TickerMatches(companies[j], identifier) && !TitleMatches(companies[j], identifier)
    ensures r.Some? ==> |r.value| >= 10 && AllDigits(r.value)
  {
    match FirstTickerMatch(identifier, companies)
    case Some(i) => Some(PaddedCik(companies[i].cikStr))
    case None =>
      match FirstTitleMatch(identifier, companies)
      case Some(i) => Some(PaddedCik(companies[i].cikStr))
      case None => None
  }

  /** A ticker match wins over every title match: the first one decides. */
  lemma LookupPrefersFirstTicker(identifier: string, companies: seq<CompanyEntry>, i: nat)
    requires i < |companies| && TickerMatches(companies[i], identifier)
    requires forall j :: 0 <= j < i ==> !TickerMatches(companies[j], identifier)
    ensures LookupCik(identifier, companies) == Some(PaddedCik(companies[i].cikStr))
  {
    var t := FirstTickerMatch(identifier, companies);
    assert t.Some? && t.value == i;
  }

  /** With no ticker match, the first title that contains the identifier decides. */
  lemma LookupFallsBackToFirstTitle(identifier: string, companies: seq<CompanyEntry>, i: nat)
    requires forall j :: 0 <= j < |companies| ==> !TickerMatches(companies[j], identifier)
    requires i < |companies| && TitleMatches(companies[i], identifier)
    requires forall j :: 0 <= j < i ==> !TitleMatches(companies[j], identifier)
    ensures LookupCik(identifier, companies) == Some(PaddedCik(companies[i].cikStr))
  {
    var t := FirstTitleMatch(identifier, companies);
    assert t.Some? && t.value == i;
  }

  /** `/^\d{10}$/.test(identifier)`. */
  predicate IsTenDigitCik(identifier: string) {
    |identifier| == 10 && AllDigits(identifier)
  }

  /** The CIK `resolveCompany` asks the company-info endpoint for: a ten-digit
      identifier as it is, anything else through `lookupCIK`. */
  function ResolveCik(identifier: string, companies: seq<CompanyEntry>): (r: Option<string>)
    ensures IsTenDigitCik(identifier) ==> r == Some(identifier)
    ensures r.Some? ==> |r.value| >= 10 && AllDigits(r.value)
    ensures !IsTenDigitCik(identifier) ==> (r.None? <==> forall j :: 0 <= j < |companies| ==>
              !TickerMatches(companies[j], identifier) && !TitleMatches(companies[j], identifier))
  {
    if IsTenDigitCik(identifier) then Some(identifier) else LookupCik(identifier, companies)
  }

  // ---------------------------------------------------------------------------
  // Rate limiting.
  // ---------------------------------------------------------------------------

  /** How long `rateLimit` sleeps when it is entered at `now`: the least
      non-negative wait that puts the next request `minRequestInterval` after the
      last one. */
  function RequiredWait(lastRequestTime: int, minRequestInterval: int, now: int): (w: int)
    ensures w >= 0
    ensures lastRequestTime + minRequestInterval <= now + w
    ensures w > 0 ==> now + w == lastRequestTime + minRequestInterval
  {
    var elapsed := now - lastRequestTime;
    if elapsed < minRequestInterval then minRequestInterval - elapsed else 0
  }

  /** Successive request times are at least `gap` apart. */
  ghost predicate SpacedBy(times: seq<int>, gap: int) {
    forall k :: 0 < k < |times| ==> times[k - 1] + gap <= times[k]
  }

  /** The spacing adds up: requests j - i apart in the log are at least
      (j - i) * gap apart in time. */
  lemma {:induction false} SpacingAccumulates(times: seq<int>, gap: int, i: nat, j: nat)
    requires SpacedBy(times, gap)
    requires i <= j < |times|
    ensures times[i] + (j - i) * gap <= times[j]
    decreases j - i
  {
    if i < j {
      SpacingAccumulates(times, gap, i, j - 1);
      assert times[j - 1] + gap <= times[j];
      assert (j - i) * gap == (j - 1 - i) * gap + gap;
    }
  }

  /** One call of `rateLimit` keeps the log spaced when the clock read after the
      wait is at least `now + wait`. */
  lemma RateLimitStepKeepsSpacing(times: seq<int>, gap: int, last: int, now: int, resumedAt: int)
    requires SpacedBy(times, gap)
    requires |times| > 0 ==> times[|times| - 1] == last
    requires resumedAt >= now + RequiredWait(last, gap, now)
    ensures SpacedBy(times + [resumedAt], gap)
  {
  }

  /** The scraper's pacing state: `lastRequestTime` and `minRequestInterval`, with
      the log of request times as a ghost history. */
  class RateLimiter {
    var lastRequestTime: int
    const minRequestInterval: int
    ghost var requestTimes: seq<int>

    ghost predicate Valid()
      reads this
    {
      SpacedBy(requestTimes, minRequestInterval)
      && (|requestTimes| > 0 ==> requestTimes[|requestTimes| - 1] == lastRequestTime)
    }

    constructor ()
      ensures Valid()
      ensures lastRequestTime == 0 && minRequestInterval == 100 && requestTimes == []
    {
      lastRequestTime := 0;
      minRequestInterval := 100;
      requestTimes := [];
    }

    /** `rateLimit()`: entered when the clock reads `now`, sleeps `wait`, and records
        the clock reading after the sleep, `resumedAt`. The clock read after the sleep
        is at least `now + wait`; a timer that fires early is not modelled. */
    method RateLimit(now: int, resumedAt: int) returns (wait: int)
      requires Valid()
      requires resumedAt >= now + RequiredWait(lastRequestTime, minRequestInterval, now)
      modifies this
      ensures Valid()
      ensures wait == RequiredWait(old(lastRequestTime), minRequestInterval, now)
      ensures lastRequestTime == resumedAt && requestTimes == old(requestTimes) + [resumedAt]
      ensures old(lastRequestTime) + minRequestInterval <= lastRequestTime
    {
      var elapsed := now - lastRequestTime;
      wait := 0;
      if elapsed < minRequestInterval {
        wait := minRequestInterval - elapsed;
      }
      RateLimitStepKeepsSpacing(requestTimes, minRequestInterval, lastRequestTime, now, resumedAt);
      lastRequestTime := resumedAt;
      requestTimes := requestTimes + [resumedAt];
    }
  }
}
