/**
 * The Python actor (`SECFilingScraper` in apify_actor_main.py): identifier
 * normalisation, the four-pattern section split, the section-by-section change
 * report and the compare-then-replace filing cache of `process_company`.
 *
 * Dictionaries the actor builds are modelled as association lists, because the
 * order in which Python iterates them decides the order of the change entries.
 */
module ActorMain {
  import opened Text
  import SecScraper

  // ---------------------------------------------------------------------------
  // Identifier normalisation.
  // ---------------------------------------------------------------------------

  /** A watchlist entry: `{'type': ..., 'value': ...}`. */
  datatype Identifier = Identifier(idType: string, value: string)

  /** The exceptions a lookup can end in. `AwaitedString` is the TypeError raised
      by `await` applied to a plain string. */
  datatype LookupError = TickerNotFound | CompanyNotFound | NoCusipLookup | UnknownIdentifierType | AwaitedString

  /** `identifier['value'].strip().upper()`. */
  function NormalizedValue(value: string): (v: string)
    ensures |v| <= |value|
    ensures v != "" ==> !IsPySpace(v[0]) && !IsPySpace(v[|v| - 1])
  {
    var s := Strip(value, IsPySpace);
    assert forall i :: 0 <= i < |s| ==> !IsPySpace(s[i]) ==> !IsPySpace(UpperChar(s[i]));
    Upper(s)
  }

  /** `str(cik_str).zfill(10)`. */
  function ZfilledCik(cikStr: nat): (r: string)
    ensures |r| >= 10 && AllDigits(r) && DecimalValue(r) == cikStr
  {
    var d := DecimalString(cikStr);
    var r := Zfill(d, 10);
    if |d| >= 10 then
      DecimalRoundTrip(cikStr);
      r
    else
      assert r == Repeat('0', 10 - |d|) + d;
      LeadingZerosIgnored(Repeat('0', 10 - |d|), d);
      DecimalRoundTrip(cikStr);
      r
  }

  /** `company.get('ticker', '').upper()`. */
  function DirectoryTicker(c: SecScraper.CompanyEntry): string {
    if c.ticker.Some? then Upper(c.ticker.value) else ""
  }

  /** `ticker_to_cik` over the fetched directory: the first entry whose upper-cased
      ticker equals the (already normalised) ticker. */
  function TickerToCik(ticker: string, companies: seq<SecScraper.CompanyEntry>): (r: Result<string, LookupError>)
    ensures r.Failure? <==> forall j :: 0 <= j < |companies| ==> DirectoryTicker(companies[j]) != ticker
    ensures r.Failure? ==> r.error == TickerNotFound
    ensures r.Success? ==> exists j :: 0 <= j < |companies| && DirectoryTicker(companies[j]) == ticker
                                       && r.value == ZfilledCik(companies[j].cikStr)
                                       && forall i :: 0 <= i < j ==> DirectoryTicker(companies[i]) != ticker
  {
    var f := (j: nat) => j < |companies| && DirectoryTicker(companies[j]) == ticker;
    assert forall j: nat :: j < |companies| ==> (f(j) <==> DirectoryTicker(companies[j]) == ticker);
    match FindFirst(f, 0, |companies|)
    case Some(j) => Success(ZfilledCik(companies[j].cikStr))
    case None => Failure(TickerNotFound)
  }

  /** `normalize_identifier` with its result awaited where it is a coroutine.
      `nameMatch` is the `cik_str` of the directory title `name_to_cik` accepts
      (a similarity above 0.8), if any. */
  function NormalizeIdentifier(identifier: Identifier, companies: seq<SecScraper.CompanyEntry>,
                               nameMatch: Option<nat>): (r: Result<string, LookupError>)
    ensures identifier.idType == "cik" ==>
              var v := NormalizedValue(identifier.value);
              r.Success? && |r.value| == (if |v| >= 10 then |v| else 10)
              && (|v| >= 10 ==> r.value == v)
              && r.value == Zfill(v, 10)
    ensures identifier.idType == "ticker" ==> r == TickerToCik(NormalizedValue(identifier.value), companies)
    ensures identifier.idType == "name" ==>
              (r.Success? <==> nameMatch.Some?) && (r.Success? ==> AllDigits(r.value) && DecimalValue(r.value) == nameMatch.value)
    ensures identifier.idType == "cusip" ==> r == Failure(NoCusipLookup)
    ensures identifier.idType !in ["cik", "ticker", "name", "cusip"] ==> r == Failure(UnknownIdentifierType)
  {
    var value := NormalizedValue(identifier.value);
    if identifier.idType == "cik" then Success(Zfill(value, 10))
    else if identifier.idType == "ticker" then TickerToCik(value, companies)
    else if identifier.idType == "name" then
      (match nameMatch
       case Some(n) => Success(ZfilledCik(n))
       case None => Failure(CompanyNotFound))
    else if identifier.idType == "cusip" then Failure(NoCusipLookup)
    else Failure(UnknownIdentifierType)
  }

  /** A CIK given as digits keeps its number: the zero padding only lengthens it
      to ten characters. */
  lemma CikPaddingKeepsNumber(identifier: Identifier, companies: seq<SecScraper.CompanyEntry>, nameMatch: Option<nat>)
    requires identifier.idType == "cik"
    requires NormalizedValue(identifier.value) != "" && AllDigits(NormalizedValue(identifier.value))
    ensures var r := NormalizeIdentifier(identifier, companies, nameMatch);
            r.Success? && |r.value| >= 10 && AllDigits(r.value)
            && DecimalValue(r.value) == DecimalValue(NormalizedValue(identifier.value))
  {
    var v := NormalizedValue(identifier.value);
    var r := NormalizeIdentifier(identifier, companies, nameMatch);
    assert r == Success(Zfill(v, 10));
    if |v| < 10 {
      assert v[0] !in "+-";
      var z := Repeat('0', 10 - |v|);
      assert r.value == z + v;
      LeadingZerosIgnored(z, v);
    }
  }

  /** `await self.normalize_identifier(identifier)` as `process_company` writes it:
      `normalize_identifier` is a plain function, so for a CIK the awaited value is
      a string and `await` raises; the other branches hand back a coroutine or
      raise before the `await`. */
  function AwaitNormalize(identifier: Identifier, companies: seq<SecScraper.CompanyEntry>,
                          nameMatch: Option<nat>): (r: Result<string, LookupError>)
    ensures identifier.idType == "cik" ==> r == Failure(AwaitedString)
    ensures identifier.idType != "cik" ==> r == NormalizeIdentifier(identifier, companies, nameMatch)
  {
    if identifier.idType == "cik" then Failure(AwaitedString)
    else NormalizeIdentifier(identifier, companies, nameMatch)
  }

  /** Every CIK identifier, which normalises successfully, is lost at the `await`. */
  lemma AwaitRejectsEveryCik(identifier: Identifier, companies: seq<SecScraper.CompanyEntry>, nameMatch: Option<nat>)
    requires identifier.idType == "cik"
    ensures NormalizeIdentifier(identifier, companies, nameMatch).Success?
    ensures AwaitNormalize(identifier, companies, nameMatch).Failure?
  {
  }

  /** A concrete watchlist entry that shows it: Apple's CIK. */
  lemma AppleCikIsLost()
    ensures NormalizeIdentifier(Identifier("cik", "320193"), [], None) == Success("0000320193")
    ensures AwaitNormalize(Identifier("cik", "320193"), [], None) == Failure(AwaitedString)
  {
    var v := "320193";
    assert SkipWhile(v, 0, IsPySpace) == 0;
    assert TrimmedEnd(v, IsPySpace) == 6;
    assert Strip(v, IsPySpace) == v;
    assert Upper(v) == v;
    assert NormalizedValue(v) == v;
    assert Repeat('0', 4) == "0000";
    assert Zfill(v, 10) == "0000320193";
  }

  // ---------------------------------------------------------------------------
  // Section split (`_extract_sections`).
  // ---------------------------------------------------------------------------

  /** How the two words of a heading tail are joined: `\s+`, or `.*` (anything
      but a newline). */
  datatype Joint = Spaces | SameLine

  datatype HeadingLabel = Word(word: string) | Pair(first: string, joint: Joint, second: string)

  /** One entry of `patterns`: the dictionary key and `ITEM\s+<number>\.?\s+<tail>`. */
  datatype SectionPattern = SectionPattern(key: string, number: string, tail: HeadingLabel)

  /** The patterns in dictionary order. */
  const Patterns: seq<SectionPattern> := [
    SectionPattern("business", "1", Word("BUSINESS")),
    SectionPattern("risk_factors", "1A", Pair("RISK", Spaces, "FACTORS")),
    SectionPattern("md_and_a", "7", Pair("MANAGEMENT", SameLine, "DISCUSSION")),
    SectionPattern("financial_statements", "8", Pair("FINANCIAL", Spaces, "STATEMENTS"))
  ]

  predicate IsNotNewline(c: char) { c != '\n' }

  /** The tail matches at `e`, case-insensitively. */
  predicate LabelAt(t: string, e: nat, tail: HeadingLabel) {
    match tail
    case Word(w) => OccursAtIgnoringCase(t, w, e)
    case Pair(w1, joint, w2) =>
      OccursAtIgnoringCase(t, w1, e)
      && var f := e + |w1|;
         match joint
         case Spaces => exists g | f < g <= SkipWhile(t, f, IsPySpace) :: OccursAtIgnoringCase(t, w2, g)
         case SameLine => exists g | f <= g <= SkipWhile(t, f, IsNotNewline) :: OccursAtIgnoringCase(t, w2, g)
  }

  /** `\s+<tail>` matches at `d`. */
  predicate SpacedLabelAt(t: string, d: nat, tail: HeadingLabel)
    requires d <= |t|
  {
    exists e | d < e <= SkipWhile(t, d, IsPySpace) :: LabelAt(t, e, tail)
  }

  /** `<number>\.?\s+<tail>` matches at `a`. */
  predicate NumberLabelAt(t: string, a: nat, pat: SectionPattern) {
    OccursAtIgnoringCase(t, pat.number, a)
    && var b := a + |pat.number|;
       SpacedLabelAt(t, b, pat.tail) || (b < |t| && t[b] == '.' && SpacedLabelAt(t, b + 1, pat.tail))
  }

  /** The whole pattern matches at `p` under `re.IGNORECASE`. */
  predicate PyHeadingAt(t: string, p: nat, pat: SectionPattern) {
    OccursAtIgnoringCase(t, "ITEM", p)
    && exists a | p + 4 < a <= SkipWhile(t, p + 4, IsPySpace) :: NumberLabelAt(t, a, pat)
  }

  /** `re.search(pattern, text, re.IGNORECASE).start()`: the leftmost match. */
  function PyFirstHeading(text: string, pat: SectionPattern): (r: Option<nat>)
    ensures r.Some? ==> r.value < |text| && PyHeadingAt(text, r.value, pat)
    ensures r.Some? ==> forall p :: 0 <= p < r.value ==> !PyHeadingAt(text, p, pat)
    ensures r.None? <==> forall p :: !PyHeadingAt(text, p, pat)
  {
    var f := (p: nat) => PyHeadingAt(text, p, pat);
    assert forall p: nat :: f(p) == PyHeadingAt(text, p, pat);
    FindFirst(f, 0, |text|)
  }

  /** `ITEM\s+\d+` matches at `q`, case-insensitively (one digit is enough). */
  predicate ItemNumberAt(t: string, q: nat) {
    OccursAtIgnoringCase(t, "ITEM", q)
    && exists a | q + 4 < a <= SkipWhile(t, q + 4, IsPySpace) :: a < |t| && IsDigit(t[a])
  }

  /** `end`: where the first `ITEM\s+\d+` of `text[start+100:]` begins, or
      `len(text)` when there is none. */
  function PySectionEnd(text: string, start: nat): (end: nat)
    requires start <= |text|
    ensures start <= end <= |text|
    ensures end < |text| ==> start + 100 <= end && ItemNumberAt(text, end)
    ensures forall q :: start + 100 <= q < end ==> !ItemNumberAt(text, q)
    ensures end == |text| ==> forall q :: start + 100 <= q ==> !ItemNumberAt(text, q)
  {
    var f := (q: nat) => ItemNumberAt(text, q);
    assert forall q: nat :: f(q) == ItemNumberAt(text, q);
    match FindFirst(f, start + 100, |text|)
    case Some(q) => q
    case None => |text|
  }

  /** A dictionary with string keys and values, in insertion order. */
  type Sections = seq<(string, string)>

  function Keys(m: Sections): (ks: seq<string>)
    ensures |ks| == |m| && forall i :: 0 <= i < |m| ==> ks[i] == m[i].0
  {
    seq(|m|, i requires 0 <= i < |m| => m[i].0)
  }

  predicate DistinctKeys(m: Sections) {
    forall i, j :: 0 <= i < j < |m| ==> m[i].0 != m[j].0
  }

  /** `m[k]`: the value of the latest entry with key `k`. */
  function Get(m: Sections, k: string): (v: string)
    requires k in Keys(m)
    ensures exists i :: 0 <= i < |m| && m[i] == (k, v)
    decreases |m|
  {
    var last := m[|m| - 1];
    if last.0 == k then last.1
    else
      assert k in Keys(m[..|m| - 1]) by {
        var i :| 0 <= i < |m| && Keys(m)[i] == k;
        assert i < |m| - 1 && Keys(m[..|m| - 1])[i] == k;
      }
      Get(m[..|m| - 1], k)
  }

  /** With distinct keys, the value of an entry's key is that entry's value. */
  lemma {:induction false} GetAt(m: Sections, i: nat)
    requires DistinctKeys(m) && i < |m|
    ensures m[i].0 in Keys(m) && Get(m, m[i].0) == m[i].1
    decreases |m|
  {
    assert Keys(m)[i] == m[i].0;
    if i < |m| - 1 {
      var p := m[..|m| - 1];
      assert Keys(p)[i] == m[i].0;
      GetAt(p, i);
    }
  }

  /** The part `_extract_sections` stores for a heading at `start`: untrimmed text
      up to the next item or the end. */
  function SectionText(text: string, start: nat): (s: string)
    requires start <= |text|
    ensures |s| <= |text| - start && s == text[start..start + |s|]
  {
    text[start..PySectionEnd(text, start)]
  }

  /** What `_extract_sections` finds for one pattern. */
  function SectionFound(text: string, pat: SectionPattern): Option<string> {
    match PyFirstHeading(text, pat)
    case None => None
    case Some(start) => Some(SectionText(text, start))
  }

  /** The finding for every pattern, in dictionary order. */
  function Found(text: string): (found: seq<Option<string>>)
    ensures |found| == |Patterns|
  {
    seq(|Patterns|, i requires 0 <= i < |Patterns| => SectionFound(text, Patterns[i]))
  }

  /** The dictionary after the first `n` patterns, given what each one found. */
  function Assemble(found: seq<Option<string>>, n: nat): Sections
    requires n <= |found| == |Patterns|
  {
    if n == 0 then []
    else
      Assemble(found, n - 1)
      + match found[n - 1]
        case None => []
        case Some(section) => [(Patterns[n - 1].key, section)]
  }

  /** `_extract_sections(text)`. */
  method ExtractSections(text: string) returns (sections: Sections)
    ensures sections == Assemble(Found(text), |Patterns|)
  {
    sections := [];
    for i := 0 to |Patterns|
      invariant sections == Assemble(Found(text), i)
    {
      var pattern := Patterns[i];
      var found := PyFirstHeading(text, pattern);
      if found.Some? {
        var start := found.value;
        var end := PySectionEnd(text, start);
        sections := sections + [(pattern.key, text[start..end])];
      }
    }
  }

  /** Appending an entry adds its key at the end and makes it the key's value. */
  lemma SectionsAppend(m: Sections, k: string, v: string)
    ensures Keys(m + [(k, v)]) == Keys(m) + [k]
    ensures Get(m + [(k, v)], k) == v
    ensures forall k' :: k' in Keys(m) && k' != k ==> Get(m + [(k, v)], k') == Get(m, k')
  {
    assert (m + [(k, v)])[..|m|] == m;
  }

  /** The keys present after `n` patterns are the keys of those that found something. */
  lemma AssembleKeys(found: seq<Option<string>>, n: nat)
    requires n <= |found| == |Patterns|
    ensures forall i :: 0 <= i < |Patterns| ==>
              (Patterns[i].key in Keys(Assemble(found, n)) <==> i < n && found[i].Some?)
  {
    forall i | 0 <= i < |Patterns|
      ensures Patterns[i].key in Keys(Assemble(found, n)) <==> i < n && found[i].Some?
    {
      AssembleKeyAt(found, n, i);
    }
  }

  lemma {:induction false} AssembleKeyAt(found: seq<Option<string>>, n: nat, i: nat)
    requires n <= |found| == |Patterns| && i < |Patterns|
    ensures Patterns[i].key in Keys(Assemble(found, n)) <==> i < n && found[i].Some?
  {
    if n > 0 {
      AssembleKeyAt(found, n - 1, i);
      var p := Assemble(found, n - 1);
      match found[n - 1]
      case None =>
        assert Assemble(found, n) == p;
      case Some(v) =>
        assert Assemble(found, n) == p + [(Patterns[n - 1].key, v)];
        SectionsAppend(p, Patterns[n - 1].key, v);
        if i < n - 1 {
          PatternKeysDistinct(i, n - 1);
        } else if n - 1 < i {
          PatternKeysDistinct(n - 1, i);
        }
    }
  }

  /** No key appears twice. */
  lemma {:induction false} AssembleDistinct(found: seq<Option<string>>, n: nat)
    requires n <= |found| == |Patterns|
    ensures DistinctKeys(Assemble(found, n))
  {
    if n > 0 {
      AssembleDistinct(found, n - 1);
      var p := Assemble(found, n - 1);
      if found[n - 1].Some? {
        var k := Patterns[n - 1].key;
        assert Assemble(found, n) == p + [(k, found[n - 1].value)];
        assert k !in Keys(p) by {
          AssembleKeys(found, n - 1);
        }
        DistinctAppend(p, k, found[n - 1].value);
      } else {
        assert Assemble(found, n) == p;
      }
    }
  }

  /** The four pattern keys are different from one another. */
  lemma PatternKeysDistinct(i: nat, j: nat)
    requires i < j < |Patterns|
    ensures Patterns[i].key != Patterns[j].key
  {
  }

  /** A pattern that found something has its section under its key. */
  lemma {:induction false} AssembleGet(found: seq<Option<string>>, n: nat, i: nat)
    requires i < n <= |found| == |Patterns| && found[i].Some?
    ensures Patterns[i].key in Keys(Assemble(found, n))
    ensures Get(Assemble(found, n), Patterns[i].key) == found[i].value
  {
    var p := Assemble(found, n - 1);
    match found[n - 1]
    case None =>
      assert Assemble(found, n) == p;
      AssembleGet(found, n - 1, i);
    case Some(v) =>
      var k, ki := Patterns[n - 1].key, Patterns[i].key;
      assert Assemble(found, n) == p + [(k, v)];
      SectionsAppend(p, k, v);
      if i < n - 1 {
        AssembleGet(found, n - 1, i);
        PatternKeysDistinct(i, n - 1);
        assert Get(p + [(k, v)], ki) == Get(p, ki);
      }
  }

  /** Every found pattern's key holds what it found. */
  lemma AssembleValues(found: seq<Option<string>>, n: nat)
    requires n <= |found| == |Patterns|
    ensures forall i :: 0 <= i < n && found[i].Some? ==>
              Patterns[i].key in Keys(Assemble(found, n)) && Get(Assemble(found, n), Patterns[i].key) == found[i].value
  {
    forall i | 0 <= i < n && found[i].Some?
      ensures Patterns[i].key in Keys(Assemble(found, n)) && Get(Assemble(found, n), Patterns[i].key) == found[i].value
    {
      AssembleGet(found, n, i);
    }
  }

  /** Appending a new key keeps the keys distinct. */
  lemma DistinctAppend(m: Sections, k: string, v: string)
    requires DistinctKeys(m) && k !in Keys(m)
    ensures DistinctKeys(m + [(k, v)])
  {
    forall i | 0 <= i < |m| ensures m[i].0 != k {
      assert Keys(m)[i] == m[i].0;
    }
  }

  /** The key of a pattern is present exactly when the pattern occurs in the text. */
  lemma SectionPresentIffHeading(text: string, i: nat)
    requires i < |Patterns|
    ensures var s := Assemble(Found(text), |Patterns|);
            DistinctKeys(s) && (Patterns[i].key in Keys(s) <==> exists p :: PyHeadingAt(text, p, Patterns[i]))
  {
    AssembleKeys(Found(text), |Patterns|);
    AssembleDistinct(Found(text), |Patterns|);
    AssembleValues(Found(text), |Patterns|);
    assert Found(text)[i] == SectionFound(text, Patterns[i]);
  }

  /** The value stored for a pattern whose leftmost match is at `start`: the text
      from `start` up to the first `ITEM <digit>` at least 100 characters on, or to
      the end of the text, untrimmed. */
  lemma SectionFromFirstHeading(text: string, i: nat, start: nat)
    requires i < |Patterns|
    requires PyHeadingAt(text, start, Patterns[i])
    requires forall p :: 0 <= p < start ==> !PyHeadingAt(text, p, Patterns[i])
    ensures var s := Assemble(Found(text), |Patterns|);
            start < |text| && Patterns[i].key in Keys(s)
            && Get(s, Patterns[i].key) == text[start..PySectionEnd(text, start)]
  {
    var pat := Patterns[i];
    var r := PyFirstHeading(text, pat);
    assert r == Some(start);
    AssembleKeys(Found(text), |Patterns|);
    AssembleDistinct(Found(text), |Patterns|);
    AssembleValues(Found(text), |Patterns|);
    assert Found(text)[i] == SectionFound(text, pat);
  }

  // ---------------------------------------------------------------------------
  // Change report (`detect_changes`).
  // ---------------------------------------------------------------------------

  datatype Severity = Minor | Moderate | Significant | Critical

  datatype ChangeType = Added | Removed | Modified(wordCountDelta: int)

  /** One entry of `changes['sections']`. */
  datatype SectionChange = SectionChange(sectionName: string, changeType: ChangeType, changePercentage: real)

  /** The `changes` dictionary; `changeSeverity` is absent (None) when there was no
      previous filing. */
  datatype ChangeReport = ChangeReport(
    hasChanges: bool,
    changeScore: real,
    sections: seq<SectionChange>,
    changeSeverity: Option<Severity>)

  /** `len(s.split())`: the number of maximal runs of non-whitespace characters. */
  function WordCount(s: string): (n: nat)
    ensures n <= |s|
    ensures n == 0 <==> forall i :: 0 <= i < |s| ==> IsPySpace(s[i])
    decreases |s|
  {
    if s == [] then 0
    else
      var p := s[..|s| - 1];
      var startsWord := !IsPySpace(s[|s| - 1]) && (|p| == 0 || IsPySpace(p[|p| - 1]));
      WordCount(p) + if startsWord then 1 else 0
  }

  /** `(1 - SequenceMatcher(None, previous, current).ratio()) * 100`, with the
      similarity ratio given as a function. */
  function ChangePct(previousText: string, currentText: string, ratio: (string, string) -> real): real {
    (1.0 - ratio(previousText, currentText)) * 100.0
  }

  /** The entry the first loop appends for a current section, if any: 'added' when
      the previous filing lacks it, 'modified' when it changed by more than 5 %. */
  function Classify(previous: Sections, name: string, currentText: string,
                    ratio: (string, string) -> real): (ch: Option<SectionChange>)
    ensures ch.Some? ==> ch.value.sectionName == name
    ensures name !in Keys(previous) ==> ch == Some(SectionChange(name, Added, 100.0))
    ensures name in Keys(previous) ==>
              var pct := ChangePct(Get(previous, name), currentText, ratio);
              (ch.Some? <==> pct > 5.0)
              && (ch.Some? ==> ch.value.changeType.Modified? && ch.value.changePercentage == pct)
  {
    if name !in Keys(previous) then Some(SectionChange(name, Added, 100.0))
    else
      var previousText := Get(previous, name);
      var pct := ChangePct(previousText, currentText, ratio);
      if pct > 5.0 then Some(SectionChange(name, Modified(WordCount(currentText) - WordCount(previousText)), pct))
      else None
  }

  /** Entries, `total_change` and `section_count` accumulated so far. */
  datatype Tally = Tally(entries: seq<SectionChange>, total: real, count: nat)

  /** The first loop after `n` current sections. */
  function CurrentTally(current: Sections, previous: Sections, ratio: (string, string) -> real, n: nat): Tally
    requires n <= |current|
  {
    if n == 0 then Tally([], 0.0, 0)
    else
      var t := CurrentTally(current, previous, ratio, n - 1);
      var (name, currentText) := current[n - 1];
      var entry := match Classify(previous, name, currentText, ratio)
                   case None => []
                   case Some(ch) => [ch];
      var change := if name !in Keys(previous) then 100.0 else ChangePct(Get(previous, name), currentText, ratio);
      Tally(t.entries + entry, t.total + change, t.count + 1)
  }

  /** The second loop after `n` previous sections: one 'removed' entry for each
      previous section the current filing lacks. */
  function RemovedTally(current: Sections, previous: Sections, n: nat): Tally
    requires n <= |previous|
  {
    if n == 0 then Tally([], 0.0, 0)
    else
      var t := RemovedTally(current, previous, n - 1);
      var name := previous[n - 1].0;
      if name !in Keys(current) then Tally(t.entries + [SectionChange(name, Removed, 100.0)], t.total + 100.0, t.count + 1)
      else t
  }

  /** `total_change / section_count / 100`, or 0.0 when nothing was counted. */
  function Score(total: real, count: nat): real {
    if count > 0 then total / (count as real) / 100.0 else 0.0
  }

  function SeverityOf(score: real): (r: Severity)
    ensures r == Critical <==> score > 0.5
    ensures r == Significant <==> 0.3 < score <= 0.5
    ensures r == Moderate <==> 0.1 < score <= 0.3
    ensures r == Minor <==> score <= 0.1
  {
    if score > 0.5 then Critical
    else if score > 0.3 then Significant
    else if score > 0.1 then Moderate
    else Minor
  }

  function Rank(s: Severity): nat {
    match s
    case Minor => 0
    case Moderate => 1
    case Significant => 2
    case Critical => 3
  }

  /** What `detect_changes` returns for two section dictionaries. */
  function Report(current: Sections, previous: Option<Sections>, ratio: (string, string) -> real): (r: ChangeReport)
    ensures previous.None? ==> r == ChangeReport(false, 0.0, [], None)
    ensures r.hasChanges <==> r.changeScore > 0.05
    ensures previous.Some? ==> r.changeSeverity == Some(SeverityOf(r.changeScore))
  {
    match previous
    case None => ChangeReport(false, 0.0, [], None)
    case Some(prev) =>
      var a := CurrentTally(current, prev, ratio, |current|);
      var b := RemovedTally(current, prev, |prev|);
      var count := a.count + b.count;
      var score := Score(a.total + b.total, count);
      ChangeReport(count > 0 && score > 0.05, score, a.entries + b.entries, Some(SeverityOf(score)))
  }

  /** One more current section, branch by branch as the first loop takes them. */
  lemma CurrentTallyNext(current: Sections, previous: Sections, ratio: (string, string) -> real, n: nat)
    requires n < |current|
    ensures var t := CurrentTally(current, previous, ratio, n);
            var name, text := current[n].0, current[n].1;
            CurrentTally(current, previous, ratio, n + 1)
            == if name !in Keys(previous) then Tally(t.entries + [SectionChange(name, Added, 100.0)], t.total + 100.0, t.count + 1)
               else
                 var pct := ChangePct(Get(previous, name), text, ratio);
                 var entry := if pct > 5.0 then [SectionChange(name, Modified(WordCount(text) - WordCount(Get(previous, name))), pct)] else [];
                 Tally(t.entries + entry, t.total + pct, t.count + 1)
  {
  }

  /** The first loop of `detect_changes`: every current section counts, 'added'
      when the previous filing lacks it, 'modified' when it changed by more than 5 %. */
  method CurrentLoop(current: Sections, prev: Sections, ratio: (string, string) -> real)
    returns (sections: seq<SectionChange>, totalChange: real, sectionCount: nat)
    ensures Tally(sections, totalChange, sectionCount) == CurrentTally(current, prev, ratio, |current|)
  {
    sections, totalChange, sectionCount := [], 0.0, 0;
    for i := 0 to |current|
      invariant Tally(sections, totalChange, sectionCount) == CurrentTally(current, prev, ratio, i)
    {
      var (name, currentText) := current[i];
      CurrentTallyNext(current, prev, ratio, i);
      if name !in Keys(prev) {
        sections := sections + [SectionChange(name, Added, 100.0)];
        totalChange := totalChange + 100.0;
        sectionCount := sectionCount + 1;
        continue;
      }
      var previousText := Get(prev, name);
      var similarity := ratio(previousText, currentText);
      var changePct := (1.0 - similarity) * 100.0;
      if changePct > 5.0 {
        sections := sections + [SectionChange(name, Modified(WordCount(currentText) - WordCount(previousText)), changePct)];
      }
      totalChange := totalChange + changePct;
      sectionCount := sectionCount + 1;
    }
  }

  /** The second loop of `detect_changes`, continuing the first one's totals: one
      'removed' entry for each previous section the current filing lacks. */
  method RemovedLoop(current: Sections, prev: Sections, sections0: seq<SectionChange>, total0: real, count0: nat)
    returns (sections: seq<SectionChange>, totalChange: real, sectionCount: nat)
    ensures var b := RemovedTally(current, prev, |prev|);
            sections == sections0 + b.entries && totalChange == total0 + b.total && sectionCount == count0 + b.count
  {
    sections, totalChange, sectionCount := sections0, total0, count0;
    for i := 0 to |prev|
      invariant var b := RemovedTally(current, prev, i);
                sections == sections0 + b.entries && totalChange == total0 + b.total
                && sectionCount == count0 + b.count
    {
      var name := prev[i].0;
      if name !in Keys(current) {
        sections := sections + [SectionChange(name, Removed, 100.0)];
        totalChange := totalChange + 100.0;
        sectionCount := sectionCount + 1;
      }
    }
  }

  /** `detect_changes(current_filing, previous_filing)` on the two filings'
      sections; `previous` is None when the cache had nothing. */
  method DetectChanges(current: Sections, previous: Option<Sections>, ratio: (string, string) -> real)
    returns (changes: ChangeReport)
    ensures changes == Report(current, previous, ratio)
    ensures previous.None? ==> changes == ChangeReport(false, 0.0, [], None)
  {
    changes := ChangeReport(false, 0.0, [], None);
    if previous.None? {
      return;
    }
    var prev := previous.value;
    var sections, totalChange, sectionCount := CurrentLoop(current, prev, ratio);
    sections, totalChange, sectionCount := RemovedLoop(current, prev, sections, totalChange, sectionCount);
    var changeScore := 0.0;
    var hasChanges := false;
    if sectionCount > 0 {
      changeScore := totalChange / (sectionCount as real) / 100.0;
      hasChanges := changeScore > 0.05;
    }
    var severity;
    if changeScore > 0.5 {
      severity := Critical;
    } else if changeScore > 0.3 {
      severity := Significant;
    } else if changeScore > 0.1 {
      severity := Moderate;
    } else {
      severity := Minor;
    }
    changes := ChangeReport(hasChanges, changeScore, sections, Some(severity));
  }

  /** The first loop counts every current section and adds at most 100 for each. */
  lemma {:induction false} CurrentTallyBounds(current: Sections, previous: Sections, ratio: (string, string) -> real, n: nat)
    requires n <= |current|
    requires forall x, y :: 0.0 <= ratio(x, y) <= 1.0
    ensures var t := CurrentTally(current, previous, ratio, n);
            t.count == n && 0.0 <= t.total <= 100.0 * (t.count as real)
  {
    if n > 0 {
      CurrentTallyBounds(current, previous, ratio, n - 1);
      var (name, currentText) := current[n - 1];
      if name in Keys(previous) {
        var similarity := ratio(Get(previous, name), currentText);
        assert 0.0 <= similarity <= 1.0;
      }
    }
  }

  /** The second loop adds exactly 100 for each section it counts. */
  lemma {:induction false} RemovedTallyBounds(current: Sections, previous: Sections, n: nat)
    requires n <= |previous|
    ensures var t := RemovedTally(current, previous, n);
            t.count <= n && t.total == 100.0 * (t.count as real)
  {
    if n > 0 {
      RemovedTallyBounds(current, previous, n - 1);
    }
  }

  /** With similarities in [0, 1] the change score lies in [0, 1]. */
  lemma ScoreInUnitInterval(current: Sections, previous: Option<Sections>, ratio: (string, string) -> real)
    requires forall x, y :: 0.0 <= ratio(x, y) <= 1.0
    ensures 0.0 <= Report(current, previous, ratio).changeScore <= 1.0
  {
    if previous.Some? {
      var prev := previous.value;
      CurrentTallyBounds(current, prev, ratio, |current|);
      RemovedTallyBounds(current, prev, |prev|);
      var a := CurrentTally(current, prev, ratio, |current|);
      var b := RemovedTally(current, prev, |prev|);
      var count := a.count + b.count;
      if count > 0 {
        AverageInUnitInterval(a.total + b.total, count);
      }
    }
  }

  lemma AverageInUnitInterval(total: real, count: nat)
    requires count > 0 && 0.0 <= total <= 100.0 * (count as real)
    ensures 0.0 <= total / (count as real) / 100.0 <= 1.0
  {
    var c := count as real;
    var q := total / c;
    assert q * c == total;
    if q < 0.0 {
      assert q * c < 0.0;
    }
  }

  /** Comparing a filing with itself: every section is counted with no change, so
      the score is 0, nothing is listed and the severity is minor. */
  lemma IdenticalSectionsNoChange(current: Sections, ratio: (string, string) -> real)
    requires DistinctKeys(current)
    requires forall x :: ratio(x, x) == 1.0
    ensures Report(current, Some(current), ratio) == ChangeReport(false, 0.0, [], Some(Minor))
  {
    UnchangedTally(current, ratio, |current|);
    NothingRemoved(current, |current|);
  }

  lemma {:induction false} UnchangedTally(current: Sections, ratio: (string, string) -> real, n: nat)
    requires DistinctKeys(current) && n <= |current|
    requires forall x :: ratio(x, x) == 1.0
    ensures CurrentTally(current, current, ratio, n) == Tally([], 0.0, n)
  {
    if n > 0 {
      UnchangedTally(current, ratio, n - 1);
      var name, text := current[n - 1].0, current[n - 1].1;
      GetAt(current, n - 1);
      assert ChangePct(Get(current, name), text, ratio) == 0.0 by {
        assert ratio(text, text) == 1.0;
      }
      assert Classify(current, name, text, ratio).None?;
    }
  }

  lemma {:induction false} NothingRemoved(current: Sections, n: nat)
    requires n <= |current|
    ensures RemovedTally(current, current, n) == Tally([], 0.0, 0)
  {
    if n > 0 {
      NothingRemoved(current, n - 1);
      assert Keys(current)[n - 1] == current[n - 1].0;
    }
  }

  /** The entries of the first loop are exactly the classifications of the
      current sections, in their order. */
  lemma CurrentTallyEntries(current: Sections, previous: Sections, ratio: (string, string) -> real, n: nat)
    requires n <= |current|
    ensures var t := CurrentTally(current, previous, ratio, n);
            (forall i :: 0 <= i < n && Classify(previous, current[i].0, current[i].1, ratio).Some? ==>
               Classify(previous, current[i].0, current[i].1, ratio).value in t.entries)
            && (forall ch :: ch in t.entries ==>
                  exists i :: 0 <= i < n && Classify(previous, current[i].0, current[i].1, ratio) == Some(ch))
  {
    CurrentTallyComplete(current, previous, ratio, n);
    CurrentTallySound(current, previous, ratio, n);
  }

  /** The first loop's entries after `n` sections, one step further. */
  lemma CurrentTallyStep(current: Sections, previous: Sections, ratio: (string, string) -> real, n: nat)
    requires 0 < n <= |current|
    ensures var c := Classify(previous, current[n - 1].0, current[n - 1].1, ratio);
            CurrentTally(current, previous, ratio, n).entries
            == CurrentTally(current, previous, ratio, n - 1).entries + (if c.Some? then [c.value] else [])
  {
  }

  lemma {:induction false} CurrentTallyHas(current: Sections, previous: Sections, ratio: (string, string) -> real,
                                           n: nat, i: nat)
    requires i < n <= |current| && Classify(previous, current[i].0, current[i].1, ratio).Some?
    ensures Classify(previous, current[i].0, current[i].1, ratio).value in CurrentTally(current, previous, ratio, n).entries
  {
    CurrentTallyStep(current, previous, ratio, n);
    if i < n - 1 {
      CurrentTallyHas(current, previous, ratio, n - 1, i);
    }
  }

  lemma CurrentTallyComplete(current: Sections, previous: Sections, ratio: (string, string) -> real, n: nat)
    requires n <= |current|
    ensures forall i :: 0 <= i < n && Classify(previous, current[i].0, current[i].1, ratio).Some? ==>
              Classify(previous, current[i].0, current[i].1, ratio).value in CurrentTally(current, previous, ratio, n).entries
  {
    forall i | 0 <= i < n && Classify(previous, current[i].0, current[i].1, ratio).Some?
      ensures Classify(previous, current[i].0, current[i].1, ratio).value in CurrentTally(current, previous, ratio, n).entries
    {
      CurrentTallyHas(current, previous, ratio, n, i);
    }
  }

  lemma {:induction false} CurrentTallySound(current: Sections, previous: Sections, ratio: (string, string) -> real, n: nat)
    requires n <= |current|
    ensures forall ch :: ch in CurrentTally(current, previous, ratio, n).entries ==>
              exists i :: 0 <= i < n && Classify(previous, current[i].0, current[i].1, ratio) == Some(ch)
  {
    if n > 0 {
      CurrentTallySound(current, previous, ratio, n - 1);
      CurrentTallyStep(current, previous, ratio, n);
      var last := Classify(previous, current[n - 1].0, current[n - 1].1, ratio);
      forall ch | ch in CurrentTally(current, previous, ratio, n).entries
        ensures exists i :: 0 <= i < n && Classify(previous, current[i].0, current[i].1, ratio) == Some(ch)
      {
        if ch !in CurrentTally(current, previous, ratio, n - 1).entries {
          assert last == Some(ch);
        }
      }
    }
  }

  /** The entries of the second loop are exactly the previous sections the
      current filing lacks, marked 'removed'. */
  lemma {:induction false} RemovedTallyEntries(current: Sections, previous: Sections, n: nat)
    requires n <= |previous|
    ensures var t := RemovedTally(current, previous, n);
            (forall i :: 0 <= i < n && previous[i].0 !in Keys(current) ==>
               SectionChange(previous[i].0, Removed, 100.0) in t.entries)
            && (forall ch :: ch in t.entries ==>
                  exists i :: 0 <= i < n && previous[i].0 !in Keys(current) && ch == SectionChange(previous[i].0, Removed, 100.0))
  {
    if n > 0 {
      RemovedTallyEntries(current, previous, n - 1);
    }
  }

  /** Where a key of a dictionary with distinct keys sits. */
  lemma KeyPosition(m: Sections, k: string) returns (i: nat)
    requires DistinctKeys(m) && k in Keys(m)
    ensures i < |m| && m[i].0 == k && Get(m, k) == m[i].1
  {
    i :| 0 <= i < |m| && Keys(m)[i] == k;
    GetAt(m, i);
  }

  /** A section only in the current filing is listed as 'added'. */
  lemma AddedSectionsListed(current: Sections, previous: Sections, ratio: (string, string) -> real, k: string)
    requires DistinctKeys(current) && k in Keys(current) && k !in Keys(previous)
    ensures SectionChange(k, Added, 100.0) in Report(current, Some(previous), ratio).sections
  {
    var i := KeyPosition(current, k);
    ClassifiedEntryListed(current, previous, ratio, i);
  }

  /** A section in both filings that changed by more than 5 % is listed as
      'modified' with its change and its word-count difference. */
  lemma ModifiedSectionsListed(current: Sections, previous: Sections, ratio: (string, string) -> real, k: string)
    requires DistinctKeys(current) && k in Keys(current) && k in Keys(previous)
    requires ChangePct(Get(previous, k), Get(current, k), ratio) > 5.0
    ensures SectionChange(k, Modified(WordCount(Get(current, k)) - WordCount(Get(previous, k))),
                          ChangePct(Get(previous, k), Get(current, k), ratio))
            in Report(current, Some(previous), ratio).sections
  {
    var i := KeyPosition(current, k);
    var pct := ChangePct(Get(previous, k), current[i].1, ratio);
    assert Classify(previous, k, current[i].1, ratio)
           == Some(SectionChange(k, Modified(WordCount(current[i].1) - WordCount(Get(previous, k))), pct));
    ClassifiedEntryListed(current, previous, ratio, i);
  }

  lemma ClassifiedEntryListed(current: Sections, previous: Sections, ratio: (string, string) -> real, i: nat)
    requires i < |current|
    requires Classify(previous, current[i].0, current[i].1, ratio).Some?
    ensures Classify(previous, current[i].0, current[i].1, ratio).value in Report(current, Some(previous), ratio).sections
  {
    CurrentTallyEntries(current, previous, ratio, |current|);
    var a := CurrentTally(current, previous, ratio, |current|);
    var b := RemovedTally(current, previous, |previous|);
    assert Report(current, Some(previous), ratio).sections == a.entries + b.entries;
  }

  /** A section only in the previous filing is listed as 'removed'. */
  lemma PreviousSectionsListed(current: Sections, previous: Sections, ratio: (string, string) -> real, k: string)
    requires k in Keys(previous) && k !in Keys(current)
    ensures SectionChange(k, Removed, 100.0) in Report(current, Some(previous), ratio).sections
  {
    RemovedTallyEntries(current, previous, |previous|);
    var i :| 0 <= i < |previous| && Keys(previous)[i] == k;
    var a := CurrentTally(current, previous, ratio, |current|);
    var b := RemovedTally(current, previous, |previous|);
    assert Report(current, Some(previous), ratio).sections == a.entries + b.entries;
  }

  /** Nothing else is listed: each entry is of the kind its section's presence in
      the two filings calls for, with the percentage `detect_changes` gives it. */
  lemma ListedSectionsSound(current: Sections, previous: Sections, ratio: (string, string) -> real, ch: SectionChange)
    requires DistinctKeys(current)
    requires ch in Report(current, Some(previous), ratio).sections
    ensures match ch.changeType
            case Added => ch.sectionName in Keys(current) && ch.sectionName !in Keys(previous)
                          && ch.changePercentage == 100.0
            case Removed => ch.sectionName in Keys(previous) && ch.sectionName !in Keys(current)
                            && ch.changePercentage == 100.0
            case Modified(_) => ch.sectionName in Keys(current) && ch.sectionName in Keys(previous)
                                && ch.changePercentage > 5.0
                                && ch.changePercentage == ChangePct(Get(previous, ch.sectionName), Get(current, ch.sectionName), ratio)
  {
    var a := CurrentTally(current, previous, ratio, |current|);
    var b := RemovedTally(current, previous, |previous|);
    assert Report(current, Some(previous), ratio).sections == a.entries + b.entries;
    if ch in a.entries {
      CurrentTallyEntries(current, previous, ratio, |current|);
      var i :| 0 <= i < |current| && Classify(previous, current[i].0, current[i].1, ratio) == Some(ch);
      assert Keys(current)[i] == current[i].0;
      GetAt(current, i);
    } else {
      RemovedTallyEntries(current, previous, |previous|);
      var i :| 0 <= i < |previous| && previous[i].0 !in Keys(current) && ch == SectionChange(previous[i].0, Removed, 100.0);
      assert Keys(previous)[i] == previous[i].0;
    }
  }

  /** The severity never drops as the score grows. */
  lemma SeverityMonotone(a: real, b: real)
    requires a <= b
    ensures Rank(SeverityOf(a)) <= Rank(SeverityOf(b))
  {
  }

  // ---------------------------------------------------------------------------
  // The filing cache (`process_company`).
  // ---------------------------------------------------------------------------

  /** A filing of the submissions feed, as far as `process_company` uses it. */
  datatype PyFiling = PyFiling(accessionNumber: string, filingType: string)

  /** What `get_filing_content` returns, as far as the cache and the comparison use
      it: the filing's text and its sections. */
  datatype PyFilingContent = PyFilingContent(text: string, sections: Sections)

  function ContentOf(text: string): PyFilingContent {
    PyFilingContent(text, Assemble(Found(text), |Patterns|))
  }

  /** One output record, as far as this model follows it. */
  datatype FilingOutput = FilingOutput(filing: PyFiling, changeDetection: ChangeReport)

  /** `f"{cik}_{filing['filingType']}"`. */
  function CacheKey(cik: string, filingType: string): (k: string)
    ensures |k| == |cik| + 1 + |filingType|
    ensures k[..|cik|] == cik && k[|cik|] == '_' && k[|cik| + 1..] == filingType
  {
    cik + "_" + filingType
  }

  /** Within one company, two filings share a cache entry exactly when they
      have the same type. */
  lemma CacheKeyPerType(cik: string, a: string, b: string)
    ensures CacheKey(cik, a) == CacheKey(cik, b) <==> a == b
  {
    if CacheKey(cik, a) == CacheKey(cik, b) {
      assert a == CacheKey(cik, a)[|cik| + 1..];
    }
  }

  /** The results list and the cache. */
  datatype RunState = RunState(results: seq<FilingOutput>, cache: map<string, PyFilingContent>)

  /** The comparison a filing goes through: `detect_changes` with a given ratio. */
  type Detector = (Sections, Option<Sections>) -> ChangeReport

  /** The state after the first `n` filings, given the content of each and the
      comparison they go through. */
  function FilingsRun(cik: string, filings: seq<PyFiling>, contents: seq<PyFilingContent>,
                      cache0: map<string, PyFilingContent>, detect: Detector, n: nat): RunState
    requires n <= |filings| && n <= |contents|
  {
    if n == 0 then RunState([], cache0)
    else
      var s := FilingsRun(cik, filings, contents, cache0, detect, n - 1);
      var content := contents[n - 1];
      var cacheKey := CacheKey(cik, filings[n - 1].filingType);
      var previous := if cacheKey in s.cache then Some(s.cache[cacheKey].sections) else None;
      var changes := detect(content.sections, previous);
      RunState(s.results + [FilingOutput(filings[n - 1], changes)], s.cache[cacheKey := content])
  }

  /** One more filing: compared with what the cache holds under its key, then stored. */
  lemma FilingsRunNext(cik: string, filings: seq<PyFiling>, contents: seq<PyFilingContent>,
                       cache0: map<string, PyFilingContent>, detect: Detector, i: nat)
    requires i < |filings| && i < |contents|
    ensures var s := FilingsRun(cik, filings, contents, cache0, detect, i);
            var key := CacheKey(cik, filings[i].filingType);
            var previous := if key in s.cache then Some(s.cache[key].sections) else None;
            FilingsRun(cik, filings, contents, cache0, detect, i + 1)
            == RunState(s.results + [FilingOutput(filings[i], detect(contents[i].sections, previous))],
                        s.cache[key := contents[i]])
  {
  }

  /** How many filings are processed: those before the first fetch that raised. */
  function FetchedPrefix(fetched: seq<Option<string>>): (n: nat)
    ensures n <= |fetched| && forall i :: 0 <= i < n ==> fetched[i].Some?
    ensures n < |fetched| ==> fetched[n].None?
  {
    var f := (i: nat) => i < |fetched| && fetched[i].None?;
    assert forall i: nat :: i < |fetched| ==> (f(i) <==> fetched[i].None?);
    match FindFirst(f, 0, |fetched|)
    case Some(i) => i
    case None => |fetched|
  }

  /** The loop stops exactly at the end of the prefix. */
  lemma PrefixEndsAtFailure(fetched: seq<Option<string>>, i: nat)
    requires i <= FetchedPrefix(fetched)
    requires i == |fetched| || (i < |fetched| && fetched[i].None?)
    ensures i == FetchedPrefix(fetched)
  {
  }

  /** `get_filing_content` for each filing before the first that raised. */
  function FetchedContents(fetched: seq<Option<string>>): (contents: seq<PyFilingContent>)
    ensures |contents| == FetchedPrefix(fetched)
    ensures forall i :: 0 <= i < |contents| ==> contents[i] == ContentOf(fetched[i].value)
  {
    var n := FetchedPrefix(fetched);
    seq(n, i requires 0 <= i < n => ContentOf(fetched[i].value))
  }

  function Detect(ratio: (string, string) -> real): Detector {
    (current: Sections, previous: Option<Sections>) => Report(current, previous, ratio)
  }

  /** `process_company` once the identifier has been normalised (`normalized`), the
      company-info request has succeeded or raised (`companyInfoFound`) and the
      filings list is known; `fetched[i]` is the text of filing i, or None when its
      download raised. `aiRaises` says that `ai_analysis` raises before its `try`:
      the openai package imported and the input's `aiProcessing` is present but not
      a dictionary, so `.get('generateSummary')` fails on every call; the first
      downloaded filing then ends the company after its comparison and before it
      is cached. Any exception ends the company, keeping what was done. */
  function CompanyRun(normalized: Result<string, LookupError>, companyInfoFound: bool, filings: seq<PyFiling>,
                      fetched: seq<Option<string>>, aiRaises: bool, cache0: map<string, PyFilingContent>,
                      ratio: (string, string) -> real): RunState
    requires |fetched| == |filings|
  {
    if normalized.Failure? || !companyInfoFound then RunState([], cache0)
    else
      var contents := FetchedContents(fetched);
      FilingsRun(normalized.value, filings, contents, cache0, Detect(ratio), if aiRaises then 0 else |contents|)
  }

  /** The scraper's state across companies: `filing_cache`. */
  class Scraper {
    var filingCache: map<string, PyFilingContent>

    constructor ()
      ensures filingCache == map[]
    {
      filingCache := map[];
    }

    /** `process_company(identifier)`, with the identifier awaited as intended (see
        `AwaitNormalize` for the code as it stands). */
    method ProcessCompany(identifier: Identifier, companies: seq<SecScraper.CompanyEntry>, nameMatch: Option<nat>,
                          companyInfoFound: bool, filings: seq<PyFiling>, fetched: seq<Option<string>>,
                          aiRaises: bool, ratio: (string, string) -> real)
      returns (results: seq<FilingOutput>)
      requires |fetched| == |filings|
      modifies this
      ensures var run := CompanyRun(NormalizeIdentifier(identifier, companies, nameMatch), companyInfoFound,
                                    filings, fetched, aiRaises, old(filingCache), ratio);
              results == run.results && filingCache == run.cache
    {
      results := [];
      var normalized := NormalizeIdentifier(identifier, companies, nameMatch);
      if normalized.Failure? || !companyInfoFound {
        return;
      }
      results := ProcessFilings(normalized.value, filings, fetched, aiRaises, ratio);
    }

    /** The filing loop of `process_company` for a resolved CIK: it stops at the
        first download that raises, or at the first `ai_analysis` that raises. */
    method ProcessFilings(cik: string, filings: seq<PyFiling>, fetched: seq<Option<string>>,
                          aiRaises: bool, ratio: (string, string) -> real)
      returns (results: seq<FilingOutput>)
      requires |fetched| == |filings|
      modifies this
      ensures aiRaises ==> results == [] && filingCache == old(filingCache)
      ensures !aiRaises ==>
              var contents := FetchedContents(fetched);
              var run := FilingsRun(cik, filings, contents, old(filingCache), Detect(ratio), |contents|);
              results == run.results && filingCache == run.cache
    {
      results := [];
      ghost var cache0 := filingCache;
      ghost var contents := FetchedContents(fetched);
      var i := 0;
      // When `ai_analysis` raises, the first filing ends the loop either at its
      // download or right after its comparison, before anything is cached or
      // appended: no turn completes, and the comparison thrown away is not made.
      while i < |filings| && !aiRaises
        invariant i <= |filings| && i <= |contents|
        invariant aiRaises ==> i == 0
        invariant RunState(results, filingCache) == FilingsRun(cik, filings, contents, cache0, Detect(ratio), i)
        decreases |filings| - i
      {
        if fetched[i].None? {
          break;
        }
        assert i < |contents| && contents[i] == ContentOf(fetched[i].value);
        var cacheKey, content, output := CompareFiling(cik, filings[i], fetched[i].value, ratio);
        FilingsRunNext(cik, filings, contents, cache0, Detect(ratio), i);
        filingCache := filingCache[cacheKey := content];
        results := results + [output];
        i := i + 1;
      }
      if !aiRaises {
        PrefixEndsAtFailure(fetched, i);
      }
    }

    /** The first part of a turn of the filing loop: extract the sections of the
        downloaded text and compare them with the cached filing of the same type.
        The cache itself is written by the loop, after `ai_analysis`. */
    method CompareFiling(cik: string, filing: PyFiling, text: string, ratio: (string, string) -> real)
      returns (cacheKey: string, content: PyFilingContent, output: FilingOutput)
      ensures cacheKey == CacheKey(cik, filing.filingType) && content == ContentOf(text)
      ensures var previous := if cacheKey in filingCache then Some(filingCache[cacheKey].sections) else None;
              output == FilingOutput(filing, Detect(ratio)(content.sections, previous))
    {
      var sections := ExtractSections(text);
      content := PyFilingContent(text, sections);
      cacheKey := CacheKey(cik, filing.filingType);
      var previousFiling := if cacheKey in filingCache then Some(filingCache[cacheKey].sections) else None;
      var changes := DetectChanges(content.sections, previousFiling, ratio);
      output := FilingOutput(filing, changes);
    }
  }

  /** The content stored under `key` after the first `n` filings: the latest of
      them with that key, or what the cache held before. */
  function LatestUnder(cik: string, filings: seq<PyFiling>, contents: seq<PyFilingContent>,
                       cache0: map<string, PyFilingContent>, key: string, n: nat): Option<PyFilingContent>
    requires n <= |filings| && n <= |contents|
  {
    if n == 0 then (if key in cache0 then Some(cache0[key]) else None)
    else if CacheKey(cik, filings[n - 1].filingType) == key then Some(contents[n - 1])
    else LatestUnder(cik, filings, contents, cache0, key, n - 1)
  }

  /** The sections filing `j` is compared with. */
  function PriorSections(cik: string, filings: seq<PyFiling>, contents: seq<PyFilingContent>,
                         cache0: map<string, PyFilingContent>, j: nat): Option<Sections>
    requires j < |filings| && j <= |contents|
  {
    match LatestUnder(cik, filings, contents, cache0, CacheKey(cik, filings[j].filingType), j)
    case None => None
    case Some(c) => Some(c.sections)
  }

  /** After the first `n` filings the cache holds, for every key, the latest
      content stored under it, or what it held before. */
  lemma {:induction false} CacheHoldsLatest(cik: string, filings: seq<PyFiling>, contents: seq<PyFilingContent>,
                                            cache0: map<string, PyFilingContent>, detect: Detector, n: nat)
    requires n <= |filings| && n <= |contents|
    ensures var cache := FilingsRun(cik, filings, contents, cache0, detect, n).cache;
            (forall key :: key in cache <==> LatestUnder(cik, filings, contents, cache0, key, n).Some?)
            && (forall key :: key in cache ==> cache[key] == LatestUnder(cik, filings, contents, cache0, key, n).value)
  {
    if n > 0 {
      CacheHoldsLatest(cik, filings, contents, cache0, detect, n - 1);
    }
  }

  /** Compare, then replace: filing j is compared with the latest earlier filing of
      its type, or with what the cache held for that type before the company. */
  lemma CompareThenReplace(cik: string, filings: seq<PyFiling>, contents: seq<PyFilingContent>,
                            cache0: map<string, PyFilingContent>, detect: Detector, n: nat)
    requires n <= |filings| && n <= |contents|
    ensures var run := FilingsRun(cik, filings, contents, cache0, detect, n);
            |run.results| == n
            && (forall j :: 0 <= j < n ==>
                  run.results[j] == FilingOutput(filings[j],
                    detect(contents[j].sections, PriorSections(cik, filings, contents, cache0, j))))
  {
    ResultsLength(cik, filings, contents, cache0, detect, n);
    forall j | 0 <= j < n
      ensures FilingsRun(cik, filings, contents, cache0, detect, n).results[j]
              == FilingOutput(filings[j], detect(contents[j].sections, PriorSections(cik, filings, contents, cache0, j)))
    {
      ComparedAt(cik, filings, contents, cache0, detect, n, j);
    }
  }

  /** One output per filing processed. */
  lemma {:induction false} ResultsLength(cik: string, filings: seq<PyFiling>, contents: seq<PyFilingContent>,
                                         cache0: map<string, PyFilingContent>, detect: Detector, n: nat)
    requires n <= |filings| && n <= |contents|
    ensures |FilingsRun(cik, filings, contents, cache0, detect, n).results| == n
  {
    if n > 0 {
      ResultsLength(cik, filings, contents, cache0, detect, n - 1);
    }
  }

  /** Output j, once written, is the comparison of filing j with its prior sections. */
  lemma {:induction false} ComparedAt(cik: string, filings: seq<PyFiling>, contents: seq<PyFilingContent>,
                                      cache0: map<string, PyFilingContent>, detect: Detector, n: nat, j: nat)
    requires j < n <= |filings| && n <= |contents|
    ensures var r := FilingsRun(cik, filings, contents, cache0, detect, n).results;
            j < |r| && r[j] == FilingOutput(filings[j], detect(contents[j].sections, PriorSections(cik, filings, contents, cache0, j)))
  {
    ResultsLength(cik, filings, contents, cache0, detect, n - 1);
    var s := FilingsRun(cik, filings, contents, cache0, detect, n - 1);
    if j == n - 1 {
      ComparedWithLatest(cik, filings, contents, cache0, detect, j);
    } else {
      ComparedAt(cik, filings, contents, cache0, detect, n - 1, j);
      assert FilingsRun(cik, filings, contents, cache0, detect, n).results[j] == s.results[j];
    }
  }

  /** The comparison of filing j reads what the cache holds after the filings before it. */
  lemma ComparedWithLatest(cik: string, filings: seq<PyFiling>, contents: seq<PyFilingContent>,
                           cache0: map<string, PyFilingContent>, detect: Detector, j: nat)
    requires j < |filings| && j < |contents|
    ensures var s := FilingsRun(cik, filings, contents, cache0, detect, j);
            var key := CacheKey(cik, filings[j].filingType);
            (if key in s.cache then Some(s.cache[key].sections) else None)
            == PriorSections(cik, filings, contents, cache0, j)
  {
    CacheHoldsLatest(cik, filings, contents, cache0, detect, j);
  }

  /** A key no processed filing maps to keeps its entry, or its absence. */
  lemma {:induction false} OtherKeysUnchanged(cik: string, filings: seq<PyFiling>, contents: seq<PyFilingContent>,
                                              cache0: map<string, PyFilingContent>, detect: Detector,
                                              n: nat, key: string)
    requires n <= |filings| && n <= |contents|
    requires forall i :: 0 <= i < n ==> CacheKey(cik, filings[i].filingType) != key
    ensures var cache := FilingsRun(cik, filings, contents, cache0, detect, n).cache;
            (key in cache <==> key in cache0) && (key in cache0 ==> cache[key] == cache0[key])
  {
    if n > 0 {
      OtherKeysUnchanged(cik, filings, contents, cache0, detect, n - 1, key);
    }
  }

  /** As the code stands, a CIK identifier ends the company before any filing:
      no results and the cache untouched, while the intended normalisation goes on
      to process every filing before the first failed download. */
  lemma AwaitedCikLosesCompany(identifier: Identifier, companies: seq<SecScraper.CompanyEntry>, nameMatch: Option<nat>,
                               filings: seq<PyFiling>, fetched: seq<Option<string>>,
                               cache0: map<string, PyFilingContent>, ratio: (string, string) -> real)
    requires identifier.idType == "cik" && |fetched| == |filings|
    ensures CompanyRun(AwaitNormalize(identifier, companies, nameMatch), true, filings, fetched, false, cache0, ratio)
            == RunState([], cache0)
    ensures |CompanyRun(NormalizeIdentifier(identifier, companies, nameMatch), true, filings, fetched, false, cache0, ratio).results|
            == FetchedPrefix(fetched)
  {
    var cik := NormalizeIdentifier(identifier, companies, nameMatch).value;
    var contents := FetchedContents(fetched);
    CompareThenReplace(cik, filings, contents, cache0, Detect(ratio), |contents|);
  }

  /** When `ai_analysis` raises before its `try`, no company yields a result and the
      cache is left as it was, whatever was downloaded; with valid AI settings the
      company keeps one result per filing before the first failed download. */
  lemma AiSettingsLoseCompany(normalized: Result<string, LookupError>, filings: seq<PyFiling>,
                              fetched: seq<Option<string>>, cache0: map<string, PyFilingContent>,
                              ratio: (string, string) -> real)
    requires |fetched| == |filings|
    ensures CompanyRun(normalized, true, filings, fetched, true, cache0, ratio) == RunState([], cache0)
    ensures normalized.Success? ==>
              |CompanyRun(normalized, true, filings, fetched, false, cache0, ratio).results| == FetchedPrefix(fetched)
  {
    if normalized.Success? {
      var contents := FetchedContents(fetched);
      CompareThenReplace(normalized.value, filings, contents, cache0, Detect(ratio), |contents|);
    }
  }
}
