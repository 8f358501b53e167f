/**
 * `get_scanner_data` (app.py:167-216) and `api_refresh` (app.py:253-260):
 * scan every symbol of the universe, rank the records by score, and keep
 * the ranked list in a two-field cache with a five-minute lifetime.
 *
 * The market-data download is an input: it either fails or yields, for
 * some of the symbols, the number of bars left after dropping incomplete
 * ones together with the indicator readings of the last bar.
 */
module Scanner {
  import opened Wrappers
  import opened Analyzer
  import opened Ranking
  import opened Tickers

  /** One symbol's cleaned price history, reduced to what the analysis reads. */
  datatype Frame = Frame(rows: nat, readings: Readings)

  /** The outcome of the market-data download. */
  datatype Download = DownloadFailed | Downloaded(frames: map<string, Frame>)

  /** A symbol the loop counts as an error: absent from the download, or with fewer than 20 bars. */
  predicate Rejected(t: string, frames: map<string, Frame>) {
    t !in frames || frames[t].rows < MinRows
  }

  /**
   * The scan is stated for any per-symbol analysis `analyze`; the scanner
   * itself passes `Analyze`.  This one returns nothing exactly for short series.
   */
  ghost predicate SkipsOnlyShortSeries(analyze: (nat, string, Readings) -> Option<Record>) {
    forall rows: nat, t: string, m: Readings :: analyze(rows, t, m).None? <==> rows < MinRows
  }

  /** `analyze_stock` drops a symbol only when its history is too short. */
  lemma AnalyzeSkipsOnlyShortSeries()
    ensures SkipsOnlyShortSeries(Analyze)
  {
    forall rows: nat, t: string, m: Readings ensures Analyze(rows, t, m).None? <==> rows < MinRows {
    }
  }

  /** The analysis of an accepted symbol. */
  function Analysis(t: string, frames: map<string, Frame>, analyze: (nat, string, Readings) -> Option<Record>): Option<Record>
    requires t in frames
  {
    analyze(frames[t].rows, t, frames[t].readings)
  }

  /** What the loop appends for symbol `t`: its record, if it is accepted and analysed. */
  function Contribution(t: string, frames: map<string, Frame>, analyze: (nat, string, Readings) -> Option<Record>): (r: seq<Record>)
    ensures |r| <= 1
    ensures r != [] ==> !Rejected(t, frames) && Analysis(t, frames, analyze) == Some(r[0])
  {
    if Rejected(t, frames) then []
    else match Analysis(t, frames, analyze) { case Some(x) => [x] case None => [] }
  }

  /** The records the loop collects over `ts`, in the order of `ts`. */
  function Successes(ts: seq<string>, frames: map<string, Frame>, analyze: (nat, string, Readings) -> Option<Record>): (r: seq<Record>)
    ensures |r| <= |ts|
  {
    if ts == [] then []
    else Successes(ts[..|ts| - 1], frames, analyze) + Contribution(ts[|ts| - 1], frames, analyze)
  }

  /** The error count the loop reaches over `ts`. */
  function Errors(ts: seq<string>, frames: map<string, Frame>): (n: nat)
    ensures n <= |ts|
  {
    if ts == [] then 0
    else Errors(ts[..|ts| - 1], frames) + (if Rejected(ts[|ts| - 1], frames) then 1 else 0)
  }

  /** One more symbol extends the records and the error count by that symbol's share. */
  lemma ScanStep(ts: seq<string>, i: nat, frames: map<string, Frame>, analyze: (nat, string, Readings) -> Option<Record>)
    requires i < |ts|
    ensures Successes(ts[..i + 1], frames, analyze) == Successes(ts[..i], frames, analyze) + Contribution(ts[i], frames, analyze)
    ensures Errors(ts[..i + 1], frames) == Errors(ts[..i], frames) + (if Rejected(ts[i], frames) then 1 else 0)
  {
    assert ts[..i + 1][..i] == ts[..i];
  }

  /** The scan loop (app.py:188-202) over the symbols `tickers`. */
  method ScanSymbols(tickers: seq<string>, frames: map<string, Frame>, analyze: (nat, string, Readings) -> Option<Record>)
    returns (results: seq<Record>, errors: nat)
    ensures results == Successes(tickers, frames, analyze)
    ensures errors == Errors(tickers, frames)
  {
    results, errors := [], 0;
    var i := 0;
    while i < |tickers|
      invariant 0 <= i <= |tickers|
      invariant results == Successes(tickers[..i], frames, analyze)
      invariant errors == Errors(tickers[..i], frames)
    {
      var ticker := tickers[i];
      ScanStep(tickers, i, frames, analyze);
      if ticker in frames {
        var frame := frames[ticker];
        if frame.rows >= MinRows {
          var result := analyze(frame.rows, ticker, frame.readings);
          if result.Some? {
            results := results + [result.value];
          }
        } else {
          errors := errors + 1;
        }
      } else {
        errors := errors + 1;
      }
      i := i + 1;
    }
    assert tickers[..i] == tickers;
  }

  /** The ranked list a successful download produces. */
  function Scan(frames: map<string, Frame>): (r: seq<Record>)
    ensures NonIncreasing(r)
    ensures multiset(r) == multiset(Successes(Universe, frames, Analyze))
    ensures |r| <= |Universe|
  {
    var records := Successes(Universe, frames, Analyze);
    assert |multiset(RankByScore(records))| == |multiset(records)|;
    RankByScore(records)
  }

  /**
   * No symbol yields both a record and an error, so records and errors
   * together never outnumber the symbols; a symbol whose analysis fails on a
   * long enough series counts as neither.
   */
  lemma {:induction false} RecordsAndErrorsBounded(ts: seq<string>, frames: map<string, Frame>, analyze: (nat, string, Readings) -> Option<Record>)
    ensures |Successes(ts, frames, analyze)| + Errors(ts, frames) <= |ts|
  {
    if ts != [] {
      RecordsAndErrorsBounded(ts[..|ts| - 1], frames, analyze);
    }
  }

  /** When the analysis fails only on short series, every symbol yields a record or an error. */
  lemma {:induction false} EverySymbolAccountedFor(ts: seq<string>, frames: map<string, Frame>, analyze: (nat, string, Readings) -> Option<Record>)
    requires SkipsOnlyShortSeries(analyze)
    ensures |Successes(ts, frames, analyze)| + Errors(ts, frames) == |ts|
  {
    if ts != [] {
      EverySymbolAccountedFor(ts[..|ts| - 1], frames, analyze);
      var t := ts[|ts| - 1];
      if t in frames {
        assert analyze(frames[t].rows, t, frames[t].readings).None? <==> frames[t].rows < MinRows;
      }
    }
  }

  /** Scanning two lists one after the other gives the records of both, in order. */
  lemma {:induction false} SuccessesAppend(a: seq<string>, b: seq<string>, frames: map<string, Frame>, analyze: (nat, string, Readings) -> Option<Record>)
    ensures Successes(a + b, frames, analyze) == Successes(a, frames, analyze) + Successes(b, frames, analyze)
  {
    if b == [] {
      assert a + b == a;
    } else {
      var b' := b[..|b| - 1];
      var c := a + b;
      assert c[..|c| - 1] == a + b' && c[|c| - 1] == b[|b| - 1];
      SuccessesAppend(a, b', frames, analyze);
      AppendAssoc(Successes(a, frames, analyze), Successes(b', frames, analyze), Contribution(b[|b| - 1], frames, analyze));
    }
  }

  /** Every collected record is the analysis of some accepted symbol of the list. */
  lemma {:induction false} RecordsComeFromAcceptedSymbols(ts: seq<string>, frames: map<string, Frame>, analyze: (nat, string, Readings) -> Option<Record>, r: Record)
    requires r in Successes(ts, frames, analyze)
    ensures exists i :: 0 <= i < |ts| && !Rejected(ts[i], frames) && Analysis(ts[i], frames, analyze) == Some(r)
  {
    var n := |ts| - 1;
    var front := ts[..n];
    if r in Successes(front, frames, analyze) {
      RecordsComeFromAcceptedSymbols(front, frames, analyze, r);
      var i :| 0 <= i < |front| && !Rejected(front[i], frames) && Analysis(front[i], frames, analyze) == Some(r);
      assert ts[i] == front[i];
    } else {
      assert !Rejected(ts[n], frames) && Analysis(ts[n], frames, analyze) == Some(r);
    }
  }

  /** Every accepted symbol of the list whose analysis succeeds contributes its record. */
  lemma {:induction false} AcceptedSymbolsAreReported(ts: seq<string>, frames: map<string, Frame>, analyze: (nat, string, Readings) -> Option<Record>, i: nat)
    requires i < |ts| && !Rejected(ts[i], frames) && Analysis(ts[i], frames, analyze).Some?
    ensures Analysis(ts[i], frames, analyze).value in Successes(ts, frames, analyze)
  {
    var n := |ts| - 1;
    if i < n {
      assert ts[..n][i] == ts[i];
      AcceptedSymbolsAreReported(ts[..n], frames, analyze, i);
    }
  }

  /** When no symbol has 20 bars, the scan reports nothing and counts every symbol as an error. */
  lemma ShortSeriesCountedAsErrors(frames: map<string, Frame>)
    requires forall t :: t in frames ==> frames[t].rows < MinRows
    ensures Scan(frames) == []
    ensures Errors(Universe, frames) == |Universe|
  {
    AnalyzeSkipsOnlyShortSeries();
    EverySymbolAccountedFor(Universe, frames, Analyze);
    if Successes(Universe, frames, Analyze) != [] {
      RecordsComeFromAcceptedSymbols(Universe, frames, Analyze, Successes(Universe, frames, Analyze)[0]);
    }
  }

  /**
   * The reported list is a stable descending sort of the records the loop
   * collected: a permutation of them, non-increasing in score, with records
   * of equal score in universe order; with the error count it accounts for
   * every symbol of the universe.
   */
  lemma ScanIsRankedSuccesses(frames: map<string, Frame>)
    ensures StableRankingOf(Scan(frames), Successes(Universe, frames, Analyze))
    ensures multiset(Scan(frames)) == multiset(Successes(Universe, frames, Analyze))
    ensures |Scan(frames)| + Errors(Universe, frames) == |Universe|
  {
    var s := Successes(Universe, frames, Analyze);
    RankByScoreIsStableRanking(s);
    AnalyzeSkipsOnlyShortSeries();
    EverySymbolAccountedFor(Universe, frames, Analyze);
    assert |multiset(RankByScore(s))| == |multiset(s)|;
  }

  /** `CACHE_DURATION`, in seconds. */
  const CacheDuration: int := 300

  const SecondsPerDay: int := 86400

  /**
   * `(datetime.now() - cache['timestamp']).seconds < CACHE_DURATION`:
   * `timedelta.seconds` is the elapsed time reduced modulo one day, so the
   * check as written looks only at the time of day that has passed.
   */
  function FreshAsWritten(now: int, timestamp: int): (r: bool)
    ensures 0 <= now - timestamp < CacheDuration ==> r
    ensures CacheDuration <= now - timestamp < SecondsPerDay ==> !r
  {
    (now - timestamp) % SecondsPerDay < CacheDuration
  }

  /** The intended check: the whole elapsed time is under five minutes. */
  predicate Fresh(now: int, timestamp: int) {
    now - timestamp < CacheDuration
  }

  /** Within a day of the timestamp the check as written and the intended check agree. */
  lemma FreshAgreesWithinADay(now: int, timestamp: int)
    requires 0 <= now - timestamp < SecondsPerDay
    ensures FreshAsWritten(now, timestamp) <==> Fresh(now, timestamp)
  {
  }

  /** A list stored a day and ten seconds ago passes the check as written, but is stale. */
  lemma DayOldCachePassesCheck()
    ensures FreshAsWritten(SecondsPerDay + 10, 0)
    ensures !Fresh(SecondsPerDay + 10, 0)
  {
  }

  /** On every later day there is a five-minute window in which a stale list passes the check as written. */
  lemma {:induction false} StaleCachePassesEveryDay(timestamp: int, days: nat, d: int)
    requires days >= 1 && 0 <= d < CacheDuration
    ensures FreshAsWritten(timestamp + days * SecondsPerDay + d, timestamp)
    ensures !Fresh(timestamp + days * SecondsPerDay + d, timestamp)
  {
    if days > 1 {
      StaleCachePassesEveryDay(timestamp, days - 1, d);
      assert timestamp + days * SecondsPerDay + d - timestamp
          == (timestamp + (days - 1) * SecondsPerDay + d - timestamp) + SecondsPerDay;
    }
  }

  /** The module-level `cache` dictionary and the functions that use it. */
  class ScannerCache {
    var data: Option<seq<Record>>
    var timestamp: Option<int>

    constructor()
      ensures data == None && timestamp == None
    {
      data := None;
      timestamp := None;
    }

    /**
     * `get_scanner_data` at time `now`.  A stored list that is still fresh is
     * returned untouched.  Otherwise the download is scanned: a failed
     * download yields an empty list and leaves the cache alone, and a
     * successful one stores and returns the ranked records, stamped with the
     * time `finishedAt` at which the analysis completed.
     */
    method GetScannerData(now: int, download: Download, finishedAt: int) returns (r: seq<Record>)
      modifies this
      ensures old(data).Some? && old(timestamp).Some? && Fresh(now, old(timestamp).value) ==>
        r == old(data).value && unchanged(this)
      ensures !(old(data).Some? && old(timestamp).Some? && Fresh(now, old(timestamp).value)) ==>
        if download.DownloadFailed? then r == [] && unchanged(this)
        else r == Scan(download.frames) && data == Some(r) && timestamp == Some(finishedAt)
    {
      if data.Some? && timestamp.Some? {
        if Fresh(now, timestamp.value) {
          return data.value;
        }
      }
      match download
      case DownloadFailed =>
        return [];
      case Downloaded(frames) =>
        var results, errors := ScanSymbols(Universe, frames, Analyze);
        var buffer := new Record[|results|](k requires 0 <= k < |results| => results[k]);
        assert buffer[..] == results;
        SortByScore(buffer);
        r := buffer[..];
        data := Some(r);
        timestamp := Some(finishedAt);
    }

    /**
     * `api_refresh`: drop the stored list, then scan whatever the elapsed
     * time; the answer is the number of records reported.
     */
    method Refresh(now: int, download: Download, finishedAt: int) returns (count: nat)
      modifies this
      ensures download.DownloadFailed? ==> count == 0 && data == None && timestamp == None
      ensures download.Downloaded? ==>
        && count == |Scan(download.frames)|
        && data == Some(Scan(download.frames))
        && timestamp == Some(finishedAt)
      ensures count <= |Universe|
    {
      data := None;
      timestamp := None;
      var r := GetScannerData(now, download, finishedAt);
      count := |r|;
      if download.Downloaded? {
        ScanIsRankedSuccesses(download.frames);
      }
    }
  }

  /**
   * Two requests within five minutes of a successful scan get the same list,
   * whatever the second download would have returned.
   */
  method RepeatedRequestServedFromCache(t0: int, finishedAt: int, t1: int, first: Download, second: Download)
    returns (r0: seq<Record>, r1: seq<Record>)
    requires first.Downloaded?
    requires 0 <= t1 - finishedAt < CacheDuration
    ensures r0 == r1 == Scan(first.frames)
  {
    var cache := new ScannerCache();
    r0 := cache.GetScannerData(t0, first, finishedAt);
    r1 := cache.GetScannerData(t1, second, t1);
  }
}
