/**
 * The JavaScript driver (main.js): the watchlist loop, the per-filing
 * compare-then-cache order against the change store, the run statistics and
 * the webhook decision.
 *
 * The change detector's own scoring is not part of this model: its comparison
 * is a function parameter and its store is a map from (CIK, filing type) to the
 * cached content. Every call that can throw is given, per filing, as the stage
 * at which it throws (`Fault`).
 */
module MainRun {
  import opened Text
  import SecScraper

  /** The input switches the loop reads: `enableChangeDetection`, AI analysis
      (`enableAiAnalysis` with an API key), `webhookUrl`, `includeFullText`. */
  datatype Config = Config(changeDetection: bool, aiAnalysis: bool, webhook: bool, includeFullText: bool)

  /** What `changeDetector.detectChanges` returns, as far as the driver reads it. */
  datatype DetectorResult = DetectorResult(hasChanges: bool, changeSeverity: Option<string>)

  type Detector = (SecScraper.FilingContent, SecScraper.FilingContent) -> DetectorResult

  /** The call that throws while a filing is processed, if any: `getPreviousFiling`,
      `detectChanges`, `cacheFiling` or `Actor.pushData`. */
  datatype Fault = NoFault | LookupFault | DetectFault | CacheFault | PushFault

  /** Everything the outside world supplies for one filing: the fetched content,
      the call that throws, the AI risk score (`aiAnalysis.riskScore.overall`, when
      the analysis succeeded and has one) and whether the webhook delivery works. */
  datatype FilingRun = FilingRun(
    filing: SecScraper.Filing,
    content: SecScraper.FilingContent,
    fault: Fault,
    riskScore: Option<int>,
    webhookDelivered: bool)

  /** One watchlist entry: the identifier, whether `getCompanyInfo` succeeds for its
      CIK, and the filings `getRecentFilings` returns. */
  datatype CompanyInput = CompanyInput(identifier: string, companyInfoFound: bool, filings: seq<FilingRun>)

  /** The dataset record. */
  datatype Output = Output(
    filing: SecScraper.Filing,
    urls: SecScraper.FilingUrls,
    excerpts: Option<SecScraper.Excerpts>,
    fullText: Option<string>,
    changeDetection: Option<DetectorResult>,
    riskScore: Option<int>)

  datatype Stats = Stats(
    companiesProcessed: nat,
    filingsFound: nat,
    changesDetected: nat,
    webhooksSent: nat,
    errors: nat)

  /** `shouldNotify(output, input)`. */
  function ShouldNotify(output: Output): (notify: bool)
    ensures output.changeDetection.None? ==> notify
    ensures notify <==> output.changeDetection.None?
                        || output.changeDetection.value.changeSeverity in [Some("significant"), Some("critical")]
                        || (output.riskScore.Some? && output.riskScore.value > 70)
  {
    if output.changeDetection.None? then true
    else if output.changeDetection.value.changeSeverity == Some("significant")
         || output.changeDetection.value.changeSeverity == Some("critical") then true
    else if output.riskScore.Some? && output.riskScore.value > 70 then true
    else false
  }

  /** The change detector's snapshot store. */
  class ChangeStore {
    var snapshots: map<(string, string), SecScraper.FilingContent>

    constructor (initial: map<(string, string), SecScraper.FilingContent>)
      ensures snapshots == initial
    {
      snapshots := initial;
    }

    /** `getPreviousFiling(cik, type)`. */
    method GetPreviousFiling(cik: string, filingType: string) returns (previous: Option<SecScraper.FilingContent>)
      ensures (cik, filingType) in snapshots ==> previous == Some(snapshots[(cik, filingType)])
      ensures (cik, filingType) !in snapshots ==> previous == None
    {
      if (cik, filingType) in snapshots {
        previous := Some(snapshots[(cik, filingType)]);
      } else {
        previous := None;
      }
    }

    /** `cacheFiling(cik, type, content)`. */
    method CacheFiling(cik: string, filingType: string, content: SecScraper.FilingContent)
      modifies this
      ensures snapshots == old(snapshots)[(cik, filingType) := content]
    {
      snapshots := snapshots[(cik, filingType) := content];
    }
  }

  // ---------------------------------------------------------------------------
  // The run as a function of its inputs.
  // ---------------------------------------------------------------------------

  type Store = map<(string, string), SecScraper.FilingContent>

  datatype RunState = RunState(stats: Stats, store: Store, dataset: seq<Output>)

  /** A caught exception: one more error, nothing else. */
  function Failed(st: RunState): RunState {
    st.(stats := st.stats.(errors := st.stats.errors + 1))
  }

  /** The record pushed for a filing: the URLs, the excerpts, the full text only
      when asked for, the comparison only when there was a previous filing, and
      the risk score only when AI analysis is on. */
  function OutputOf(config: Config, cik: string, fr: FilingRun, changeDetection: Option<DetectorResult>): (output: Output)
    requires cik != "" && AllDigits(cik)
    ensures output.filing == fr.filing && output.changeDetection == changeDetection
    ensures output.urls == SecScraper.GetFilingUrls(cik, fr.filing.accessionNumber)
    ensures output.fullText.Some? <==> config.includeFullText
    ensures output.riskScore.Some? ==> config.aiAnalysis
  {
    Output(
      fr.filing,
      SecScraper.GetFilingUrls(cik, fr.filing.accessionNumber),
      fr.content.excerpts,
      if config.includeFullText then Some(fr.content.fullText) else None,
      changeDetection,
      if config.aiAnalysis then fr.riskScore else None)
  }

  /** The end of the filing loop's body: push the record, then post the webhook
      when it is configured and the record calls for it. */
  function PushStep(config: Config, cik: string, fr: FilingRun, st: RunState,
                    changeDetection: Option<DetectorResult>): RunState
    requires cik != "" && AllDigits(cik)
  {
    if fr.fault == PushFault then Failed(st)
    else
      var output := OutputOf(config, cik, fr, changeDetection);
      var sent := if config.webhook && ShouldNotify(output) && fr.webhookDelivered then 1 else 0;
      RunState(st.stats.(webhooksSent := st.stats.webhooksSent + sent), st.store, st.dataset + [output])
  }

  /** What the change-detection block leaves: the state, the comparison it
      attached, and whether it threw (into the filing loop's `catch`). */
  datatype Detection = Detection(state: RunState, changeDetection: Option<DetectorResult>, thrown: bool)

  /** The change-detection block of the filing loop's body: look up the previous
      filing of the CIK and type, compare with it when there is one, then cache the
      current content. */
  function DetectStep(config: Config, cik: string, fr: FilingRun, st: RunState, detect: Detector): (d: Detection)
    ensures d.state.dataset == st.dataset
    ensures d.thrown <==> config.changeDetection
                          && (fr.fault == LookupFault || fr.fault == CacheFault
                              || ((cik, fr.filing.formType) in st.store && fr.fault == DetectFault))
    ensures d.state.stats.errors == st.stats.errors + (if d.thrown then 1 else 0)
    ensures d.changeDetection.Some? ==> config.changeDetection && (cik, fr.filing.formType) in st.store
    ensures st.stats.changesDetected <= d.state.stats.changesDetected <= st.stats.changesDetected + 1
  {
    if !config.changeDetection then Detection(st, None, false)
    else if fr.fault == LookupFault then Detection(Failed(st), None, true)
    else
      var key := (cik, fr.filing.formType);
      if key in st.store && fr.fault == DetectFault then Detection(Failed(st), None, true)
      else
        var changeDetection := if key in st.store then Some(detect(fr.content, st.store[key])) else None;
        var detected := if changeDetection.Some? && changeDetection.value.hasChanges then 1 else 0;
        var counted := st.(stats := st.stats.(changesDetected := st.stats.changesDetected + detected));
        if fr.fault == CacheFault then Detection(Failed(counted), changeDetection, true)
        else Detection(counted.(store := st.store[key := fr.content]), changeDetection, false)
  }

  /** The body of the filing loop, with its `catch`. */
  function FilingStep(config: Config, cik: string, fr: FilingRun, st: RunState, detect: Detector): (r: RunState)
    requires cik != "" && AllDigits(cik)
    ensures |st.dataset| <= |r.dataset| <= |st.dataset| + 1
    ensures r.stats.companiesProcessed == st.stats.companiesProcessed && r.stats.filingsFound == st.stats.filingsFound
  {
    var d := DetectStep(config, cik, fr, st, detect);
    if d.thrown then d.state else PushStep(config, cik, fr, d.state, d.changeDetection)
  }

  /** The filing loop after its first `n` filings. */
  function FilingsFold(config: Config, cik: string, filings: seq<FilingRun>, st: RunState, detect: Detector, n: nat): (r: RunState)
    requires cik != "" && AllDigits(cik) && n <= |filings|
    ensures r.stats.companiesProcessed == st.stats.companiesProcessed && r.stats.filingsFound == st.stats.filingsFound
  {
    if n == 0 then st
    else FilingStep(config, cik, filings[n - 1], FilingsFold(config, cik, filings, st, detect, n - 1), detect)
  }

  /** The CIK a watchlist entry resolves to, if `resolveCompany` returns company info. */
  function Resolved(directory: seq<SecScraper.CompanyEntry>, c: CompanyInput): (cik: Option<string>)
    ensures cik.Some? ==> cik.value != "" && AllDigits(cik.value)
  {
    var cik := SecScraper.ResolveCik(c.identifier, directory);
    if cik.Some? && c.companyInfoFound then cik else None
  }

  /** The body of the company loop. */
  function CompanyStep(config: Config, directory: seq<SecScraper.CompanyEntry>, c: CompanyInput,
                       st: RunState, detect: Detector): (r: RunState)
    ensures Resolved(directory, c).None? ==>
              r.stats.errors == st.stats.errors + 1 && r.dataset == st.dataset && r.store == st.store
    ensures r.stats.filingsFound == st.stats.filingsFound + (if Resolved(directory, c).Some? then |c.filings| else 0)
  {
    match Resolved(directory, c)
    case None => Failed(st)
    case Some(cik) =>
      var found := st.(stats := st.stats.(filingsFound := st.stats.filingsFound + |c.filings|));
      var done := FilingsFold(config, cik, c.filings, found, detect, |c.filings|);
      done.(stats := done.stats.(companiesProcessed := done.stats.companiesProcessed + 1))
  }

  /** The company loop after its first `n` entries. */
  function CompaniesFold(config: Config, directory: seq<SecScraper.CompanyEntry>, watchlist: seq<CompanyInput>,
                         st: RunState, detect: Detector, n: nat): RunState
    requires n <= |watchlist|
  {
    if n == 0 then st
    else CompanyStep(config, directory, watchlist[n - 1], CompaniesFold(config, directory, watchlist, st, detect, n - 1), detect)
  }

  const NoStats := Stats(0, 0, 0, 0, 0)

  /** The whole run: a missing or empty watchlist fails before anything happens. */
  function RunSpec(config: Config, directory: seq<SecScraper.CompanyEntry>, watchlist: Option<seq<CompanyInput>>,
                   store: Store, detect: Detector): Result<RunState, string>
  {
    if watchlist.None? || |watchlist.value| == 0 then Failure("Watchlist is required and must contain at least one company")
    else Success(CompaniesFold(config, directory, watchlist.value, RunState(NoStats, store, []), detect, |watchlist.value|))
  }

  // ---------------------------------------------------------------------------
  // The run as main.js performs it.
  // ---------------------------------------------------------------------------

  /** The change-detection block, on the detector's store. */
  method CompareAndCache(config: Config, cik: string, fr: FilingRun, stats0: Stats, ghost dataset: seq<Output>,
                         detect: Detector, store: ChangeStore)
    returns (stats: Stats, changeDetection: Option<DetectorResult>, thrown: bool)
    modifies store
    ensures Detection(RunState(stats, store.snapshots, dataset), changeDetection, thrown)
            == DetectStep(config, cik, fr, RunState(stats0, old(store.snapshots), dataset), detect)
  {
    stats, changeDetection, thrown := stats0, None, false;
    if !config.changeDetection {
      return;
    }
    if fr.fault == LookupFault {
      stats, thrown := stats.(errors := stats.errors + 1), true;
      return;
    }
    var previousFiling := store.GetPreviousFiling(cik, fr.filing.formType);
    if previousFiling.Some? {
      if fr.fault == DetectFault {
        stats, thrown := stats.(errors := stats.errors + 1), true;
        return;
      }
      changeDetection := Some(detect(fr.content, previousFiling.value));
      if changeDetection.value.hasChanges {
        stats := stats.(changesDetected := stats.changesDetected + 1);
      }
    }
    if fr.fault == CacheFault {
      stats, thrown := stats.(errors := stats.errors + 1), true;
      return;
    }
    store.CacheFiling(cik, fr.filing.formType, fr.content);
  }

  /** Push the record, then post the webhook. */
  method PushRecord(config: Config, cik: string, fr: FilingRun, stats0: Stats, dataset0: seq<Output>,
                    changeDetection: Option<DetectorResult>, ghost store: Store)
    returns (stats: Stats, dataset: seq<Output>)
    requires cik != "" && AllDigits(cik)
    ensures RunState(stats, store, dataset) == PushStep(config, cik, fr, RunState(stats0, store, dataset0), changeDetection)
  {
    stats, dataset := stats0, dataset0;
    if fr.fault == PushFault {
      stats := stats.(errors := stats.errors + 1);
      return;
    }
    var output := OutputOf(config, cik, fr, changeDetection);
    dataset := dataset + [output];
    if config.webhook && ShouldNotify(output) && fr.webhookDelivered {
      stats := stats.(webhooksSent := stats.webhooksSent + 1);
    }
  }

  /** One filing, as the body of the inner `for` loop performs it. */
  method ProcessFiling(config: Config, cik: string, fr: FilingRun, stats0: Stats, dataset0: seq<Output>,
                       detect: Detector, store: ChangeStore)
    returns (stats: Stats, dataset: seq<Output>)
    requires cik != "" && AllDigits(cik)
    modifies store
    ensures RunState(stats, store.snapshots, dataset)
            == FilingStep(config, cik, fr, RunState(stats0, old(store.snapshots), dataset0), detect)
  {
    var changeDetection, thrown;
    stats, changeDetection, thrown := CompareAndCache(config, cik, fr, stats0, dataset0, detect, store);
    dataset := dataset0;
    if !thrown {
      stats, dataset := PushRecord(config, cik, fr, stats, dataset, changeDetection, store.snapshots);
    }
  }

  /** One watchlist entry, as the body of the outer `for` loop performs it: resolve
      it, then run the filing loop over its filings. */
  method ProcessCompany(config: Config, directory: seq<SecScraper.CompanyEntry>, company: CompanyInput,
                        stats0: Stats, dataset0: seq<Output>, detect: Detector, store: ChangeStore)
    returns (stats: Stats, dataset: seq<Output>)
    modifies store
    ensures RunState(stats, store.snapshots, dataset)
            == CompanyStep(config, directory, company, RunState(stats0, old(store.snapshots), dataset0), detect)
  {
    stats, dataset := stats0, dataset0;
    var cik := Resolved(directory, company);
    if cik.None? {
      stats := stats.(errors := stats.errors + 1);
      return;
    }
    stats := stats.(filingsFound := stats.filingsFound + |company.filings|);
    stats, dataset := ProcessFilings(config, cik.value, company.filings, stats, dataset, detect, store);
    stats := stats.(companiesProcessed := stats.companiesProcessed + 1);
  }

  /** The inner `for` loop over a resolved company's filings. */
  method ProcessFilings(config: Config, cik: string, filings: seq<FilingRun>, stats0: Stats, dataset0: seq<Output>,
                        detect: Detector, store: ChangeStore)
    returns (stats: Stats, dataset: seq<Output>)
    requires cik != "" && AllDigits(cik)
    modifies store
    ensures RunState(stats, store.snapshots, dataset)
            == FilingsFold(config, cik, filings, RunState(stats0, old(store.snapshots), dataset0), detect, |filings|)
  {
    stats, dataset := stats0, dataset0;
    ghost var before := RunState(stats, store.snapshots, dataset);
    for j := 0 to |filings|
      invariant RunState(stats, store.snapshots, dataset) == FilingsFold(config, cik, filings, before, detect, j)
    {
      stats, dataset := ProcessFiling(config, cik, filings[j], stats, dataset, detect, store);
    }
  }

  /** The top-level script: validate the watchlist, then the company loop. */
  method Run(config: Config, directory: seq<SecScraper.CompanyEntry>, watchlist: Option<seq<CompanyInput>>,
             detect: Detector, store: ChangeStore)
    returns (result: Result<(Stats, seq<Output>), string>)
    modifies store
    ensures match RunSpec(config, directory, watchlist, old(store.snapshots), detect)
            case Failure(e) => result == Failure(e) && store.snapshots == old(store.snapshots)
            case Success(st) => result == Success((st.stats, st.dataset)) && store.snapshots == st.store
  {
    if watchlist.None? || |watchlist.value| == 0 {
      return Failure("Watchlist is required and must contain at least one company");
    }
    var companies := watchlist.value;
    ghost var store0 := store.snapshots;
    var stats := NoStats;
    var dataset: seq<Output> := [];
    for i := 0 to |companies|
      invariant RunState(stats, store.snapshots, dataset)
                == CompaniesFold(config, directory, companies, RunState(NoStats, store0, []), detect, i)
    {
      ghost var prev := RunState(stats, store.snapshots, dataset);
      stats, dataset := ProcessCompany(config, directory, companies[i], stats, dataset, detect, store);
      assert CompaniesFold(config, directory, companies, RunState(NoStats, store0, []), detect, i + 1)
             == CompanyStep(config, directory, companies[i], prev, detect);
    }
    return Success((stats, dataset));
  }

  // ---------------------------------------------------------------------------
  // Properties.
  // ---------------------------------------------------------------------------

  /** Compare, then cache: with change detection on and no throw before
      `cacheFiling`, the filing is compared with the stored filing of its CIK and
      type (when there is one) and then becomes the stored filing; no other entry
      changes, and `changesDetected` grows exactly when the comparison reports
      changes. */
  lemma FilingStepComparesThenCaches(config: Config, cik: string, fr: FilingRun, st: RunState, detect: Detector)
    requires cik != "" && AllDigits(cik)
    requires config.changeDetection && (fr.fault == NoFault || fr.fault == PushFault)
    ensures var key := (cik, fr.filing.formType);
            var next := FilingStep(config, cik, fr, st, detect);
            next.store == st.store[key := fr.content]
            && next.stats.changesDetected
               == st.stats.changesDetected + (if key in st.store && detect(fr.content, st.store[key]).hasChanges then 1 else 0)
            && (fr.fault == NoFault ==>
                  |next.dataset| == |st.dataset| + 1
                  && next.dataset[|st.dataset|].changeDetection
                     == (if key in st.store then Some(detect(fr.content, st.store[key])) else None))
  {
    var key := (cik, fr.filing.formType);
    var d := DetectStep(config, cik, fr, st, detect);
    assert !d.thrown && d.state.store == st.store[key := fr.content];
    assert d.changeDetection == if key in st.store then Some(detect(fr.content, st.store[key])) else None;
    if fr.fault == NoFault {
      var output := OutputOf(config, cik, fr, d.changeDetection);
      assert FilingStep(config, cik, fr, st, detect).dataset == st.dataset + [output];
    }
  }

  /** With change detection off a filing leaves the store and `changesDetected`
      alone, and what it pushes carries no comparison. */
  lemma NoDetectionStep(config: Config, cik: string, fr: FilingRun, st: RunState, detect: Detector)
    requires cik != "" && AllDigits(cik)
    requires !config.changeDetection
    ensures var next := FilingStep(config, cik, fr, st, detect);
            next.store == st.store && next.stats.changesDetected == st.stats.changesDetected
            && (next.dataset == st.dataset
                || (next.dataset == st.dataset + [next.dataset[|st.dataset|]]
                    && next.dataset[|st.dataset|].changeDetection.None?))
  {
  }

  /** With change detection off the store is never touched and no output carries a
      comparison. */
  lemma {:induction false} NoDetectionNoStore(config: Config, cik: string, filings: seq<FilingRun>, st: RunState,
                                              detect: Detector, n: nat)
    requires cik != "" && AllDigits(cik) && n <= |filings|
    requires !config.changeDetection
    ensures var next := FilingsFold(config, cik, filings, st, detect, n);
            next.store == st.store && next.stats.changesDetected == st.stats.changesDetected
            && |st.dataset| <= |next.dataset| && next.dataset[..|st.dataset|] == st.dataset
            && forall k :: |st.dataset| <= k < |next.dataset| ==> next.dataset[k].changeDetection.None?
  {
    if n > 0 {
      NoDetectionNoStore(config, cik, filings, st, detect, n - 1);
      var prev := FilingsFold(config, cik, filings, st, detect, n - 1);
      NoDetectionStep(config, cik, filings[n - 1], prev, detect);
      var next := FilingsFold(config, cik, filings, st, detect, n);
      assert next == FilingStep(config, cik, filings[n - 1], prev, detect);
      if next.dataset != prev.dataset {
        assert next.dataset[..|prev.dataset|] == prev.dataset;
        assert next.dataset[..|st.dataset|] == prev.dataset[..|st.dataset|];
      }
    }
  }

  /** Pushing ends either as one more output or as one error, and counts a
      webhook only for a pushed output. */
  lemma PushStepAccounting(config: Config, cik: string, fr: FilingRun, st: RunState,
                           changeDetection: Option<DetectorResult>)
    requires cik != "" && AllDigits(cik)
    ensures var next := PushStep(config, cik, fr, st, changeDetection);
            var pushed := |next.dataset| - |st.dataset|;
            (pushed == 0 || pushed == 1) && |st.dataset| <= |next.dataset|
            && next.stats.errors + pushed == st.stats.errors + 1
            && next.stats.changesDetected == st.stats.changesDetected
            && next.stats.webhooksSent <= st.stats.webhooksSent + pushed
            && next.stats.companiesProcessed == st.stats.companiesProcessed
            && next.stats.filingsFound == st.stats.filingsFound
  {
    if fr.fault != PushFault {
      var output := OutputOf(config, cik, fr, changeDetection);
      assert PushStep(config, cik, fr, st, changeDetection).dataset == st.dataset + [output];
    }
  }

  /** One filing ends either as one pushed output or as one error, counts at most
      one change, and counts a webhook only when it was pushed. */
  lemma FilingStepAccounting(config: Config, cik: string, fr: FilingRun, st: RunState, detect: Detector)
    requires cik != "" && AllDigits(cik)
    ensures var next := FilingStep(config, cik, fr, st, detect);
            var pushed := |next.dataset| - |st.dataset|;
            (pushed == 0 || pushed == 1) && |st.dataset| <= |next.dataset|
            && next.stats.errors + pushed == st.stats.errors + 1
            && next.stats.changesDetected <= st.stats.changesDetected + 1
            && next.stats.webhooksSent <= st.stats.webhooksSent + pushed
            && next.stats.companiesProcessed == st.stats.companiesProcessed
            && next.stats.filingsFound == st.stats.filingsFound
  {
    var d := DetectStep(config, cik, fr, st, detect);
    assert d.state.dataset == st.dataset && d.state.stats.changesDetected <= st.stats.changesDetected + 1;
    if !d.thrown {
      PushStepAccounting(config, cik, fr, d.state, d.changeDetection);
    }
  }

  /** Every filing ends either in the dataset or as one error, whatever throws:
      a failure in one filing does not stop the others. At most one change and
      one webhook are counted per filing, and a webhook only for a pushed one. */
  lemma {:induction false} FilingsAccounting(config: Config, cik: string, filings: seq<FilingRun>, st: RunState,
                                             detect: Detector, n: nat)
    requires cik != "" && AllDigits(cik) && n <= |filings|
    ensures var next := FilingsFold(config, cik, filings, st, detect, n);
            next.stats.errors + |next.dataset| == st.stats.errors + |st.dataset| + n
            && |st.dataset| <= |next.dataset| <= |st.dataset| + n
            && next.stats.changesDetected <= st.stats.changesDetected + n
            && next.stats.webhooksSent + |st.dataset| <= st.stats.webhooksSent + |next.dataset|
            && next.stats.companiesProcessed == st.stats.companiesProcessed
            && next.stats.filingsFound == st.stats.filingsFound
  {
    if n > 0 {
      FilingsAccounting(config, cik, filings, st, detect, n - 1);
      FilingStepAccounting(config, cik, filings[n - 1], FilingsFold(config, cik, filings, st, detect, n - 1), detect);
    }
  }

  /** How many of the first `n` watchlist entries resolve, and how many filings
      those have between them. */
  function ResolvedCount(directory: seq<SecScraper.CompanyEntry>, watchlist: seq<CompanyInput>, n: nat): nat
    requires n <= |watchlist|
  {
    if n == 0 then 0
    else ResolvedCount(directory, watchlist, n - 1) + if Resolved(directory, watchlist[n - 1]).Some? then 1 else 0
  }

  function ResolvedFilings(directory: seq<SecScraper.CompanyEntry>, watchlist: seq<CompanyInput>, n: nat): nat
    requires n <= |watchlist|
  {
    if n == 0 then 0
    else ResolvedFilings(directory, watchlist, n - 1)
         + if Resolved(directory, watchlist[n - 1]).Some? then |watchlist[n - 1].filings| else 0
  }

  /** One watchlist entry: an unresolved one counts one error; a resolved one adds
      its filings to `filingsFound`, each of them pushed or counted as an error,
      and counts one company processed. */
  lemma CompanyStepAccounting(config: Config, directory: seq<SecScraper.CompanyEntry>, c: CompanyInput,
                              st: RunState, detect: Detector)
    ensures var next := CompanyStep(config, directory, c, st, detect);
            var resolved := if Resolved(directory, c).Some? then 1 else 0;
            var found := if Resolved(directory, c).Some? then |c.filings| else 0;
            next.stats.companiesProcessed == st.stats.companiesProcessed + resolved
            && next.stats.filingsFound == st.stats.filingsFound + found
            && next.stats.errors + |next.dataset| == st.stats.errors + |st.dataset| + (1 - resolved) + found
            && |st.dataset| <= |next.dataset| <= |st.dataset| + found
            && next.stats.changesDetected <= st.stats.changesDetected + found
            && next.stats.webhooksSent + |st.dataset| <= st.stats.webhooksSent + |next.dataset|
  {
    match Resolved(directory, c)
    case None =>
    case Some(cik) =>
      var found := st.(stats := st.stats.(filingsFound := st.stats.filingsFound + |c.filings|));
      FilingsAccounting(config, cik, c.filings, found, detect, |c.filings|);
      var done := FilingsFold(config, cik, c.filings, found, detect, |c.filings|);
      assert CompanyStep(config, directory, c, st, detect)
             == done.(stats := done.stats.(companiesProcessed := done.stats.companiesProcessed + 1));
  }

  /** The counters of the company loop: `companiesProcessed` counts the resolved
      entries and `filingsFound` their filings. */
  lemma {:induction false} CompaniesCounts(config: Config, directory: seq<SecScraper.CompanyEntry>,
                                           watchlist: seq<CompanyInput>, st: RunState, detect: Detector, n: nat)
    requires n <= |watchlist|
    ensures var next := CompaniesFold(config, directory, watchlist, st, detect, n);
            next.stats.companiesProcessed == st.stats.companiesProcessed + ResolvedCount(directory, watchlist, n)
            && next.stats.filingsFound == st.stats.filingsFound + ResolvedFilings(directory, watchlist, n)
  {
    if n > 0 {
      CompaniesCounts(config, directory, watchlist, st, detect, n - 1);
      CompanyStepAccounting(config, directory, watchlist[n - 1],
                            CompaniesFold(config, directory, watchlist, st, detect, n - 1), detect);
    }
  }

  /** The outcomes of the company loop: every unresolved entry and every filing
      that was not pushed counts one error, and there are no more changes than
      filings and no more webhooks than pushed outputs. */
  lemma {:induction false} CompaniesAccounting(config: Config, directory: seq<SecScraper.CompanyEntry>,
                                               watchlist: seq<CompanyInput>, st: RunState, detect: Detector, n: nat)
    requires n <= |watchlist|
    ensures var next := CompaniesFold(config, directory, watchlist, st, detect, n);
            var resolved := ResolvedCount(directory, watchlist, n);
            var found := ResolvedFilings(directory, watchlist, n);
            next.stats.errors + |next.dataset| == st.stats.errors + |st.dataset| + (n - resolved) + found
            && |st.dataset| <= |next.dataset| <= |st.dataset| + found
            && next.stats.changesDetected <= st.stats.changesDetected + found
            && next.stats.webhooksSent + |st.dataset| <= st.stats.webhooksSent + |next.dataset|
  {
    if n > 0 {
      CompaniesAccounting(config, directory, watchlist, st, detect, n - 1);
      CompanyStepAccounting(config, directory, watchlist[n - 1],
                            CompaniesFold(config, directory, watchlist, st, detect, n - 1), detect);
    }
  }

  lemma {:induction false} ResolvedCountBound(directory: seq<SecScraper.CompanyEntry>, watchlist: seq<CompanyInput>, n: nat)
    requires n <= |watchlist|
    ensures ResolvedCount(directory, watchlist, n) <= n
  {
    if n > 0 {
      ResolvedCountBound(directory, watchlist, n - 1);
    }
  }

  /** The statistics of a whole run that starts from zero. */
  lemma RunStatistics(config: Config, directory: seq<SecScraper.CompanyEntry>, watchlist: seq<CompanyInput>,
                      store: Store, detect: Detector)
    requires |watchlist| > 0
    ensures var r := RunSpec(config, directory, Some(watchlist), store, detect);
            var resolved := ResolvedCount(directory, watchlist, |watchlist|);
            var found := ResolvedFilings(directory, watchlist, |watchlist|);
            r.Success?
            && r.value.stats.companiesProcessed == resolved
            && r.value.stats.filingsFound == found
            && r.value.stats.errors + |r.value.dataset| == (|watchlist| - resolved) + found
            && r.value.stats.errors >= |watchlist| - resolved
            && r.value.stats.changesDetected <= found
            && r.value.stats.webhooksSent <= |r.value.dataset|
  {
    CompaniesCounts(config, directory, watchlist, RunState(NoStats, store, []), detect, |watchlist|);
    CompaniesAccounting(config, directory, watchlist, RunState(NoStats, store, []), detect, |watchlist|);
    ResolvedCountBound(directory, watchlist, |watchlist|);
  }

  /** A missing or empty watchlist fails the run. */
  lemma EmptyWatchlistFails(config: Config, directory: seq<SecScraper.CompanyEntry>, watchlist: Option<seq<CompanyInput>>,
                            store: Store, detect: Detector)
    requires watchlist.None? || watchlist.value == []
    ensures RunSpec(config, directory, watchlist, store, detect).Failure?
  {
  }
}
