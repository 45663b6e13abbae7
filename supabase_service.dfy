/** The record-store queries and the statistics computed over their rows.
    The store itself is a value: the rows of the `analysis_results` table, or
    a store that cannot be reached (every query against it raises). Each
    aggregation selects its rows with the same rule, then folds over them. */
module SupabaseService {
  import opened Records
  import opened Strings
  import opened Tallies
  import opened Timestamps

  datatype Store = Online(table: seq<Record>) | Offline

  // =================================================== selecting the rows

  /** `analysis_date >= start AND analysis_date <= end` as the store
      evaluates it. A row whose date is missing or null compares as SQL NULL
      and is not selected; the date column is typed, so its text always
      reads as a timestamp. */
  predicate InRange(r: Record, start: Timestamp, end: Timestamp)
    ensures InRange(r, start, end) ==>
              r.analysisDate.Present? && ParseStamp(r.analysisDate.value).Some?
              && AtOrBefore(start, end)
  {
    match r.analysisDate
    case Present(text) =>
      (match ParseStamp(text)
       case Some(t) =>
         AtOrBeforeTransitive(start, t, end);
         AtOrBefore(start, t) && AtOrBefore(t, end)
       case None => false)
    case _ => false
  }

  /** Both bounds are part of the range: a row dated exactly at the start
      or exactly at the end is in it. */
  lemma BoundsAreInclusive(r: Record, start: Timestamp, end: Timestamp)
    requires AtOrBefore(start, end) && r.analysisDate.Present?
    requires ParseStamp(r.analysisDate.value) == Some(start) || ParseStamp(r.analysisDate.value) == Some(end)
    ensures InRange(r, start, end)
  {
    AtOrBeforeReflexive(start);
    AtOrBeforeReflexive(end);
  }

  /** The rows of `rows` in range, in their order. */
  function Filter(rows: seq<Record>, start: Timestamp, end: Timestamp): (kept: seq<Record>)
    ensures |kept| <= |rows|
    ensures forall r :: multiset(kept)[r] == if InRange(r, start, end) then multiset(rows)[r] else 0
  {
    if rows == [] then []
    else
      var init := rows[..|rows| - 1];
      var last := rows[|rows| - 1];
      assert rows == init + [last];
      var kept := Filter(init, start, end);
      if InRange(last, start, end) then kept + [last] else kept
  }

  /** `get_analyses_by_date_range`: the rows whose date lies in the inclusive
      range, each as often as it is stored; nothing when the store fails. */
  function GetAnalysesByDateRange(store: Store, start: Timestamp, end: Timestamp): (rows: seq<Record>)
    ensures store.Offline? ==> rows == []
    ensures store.Online? ==> |rows| <= |store.table|
    ensures forall r ::
              multiset(rows)[r] == if store.Online? && InRange(r, start, end) then multiset(store.table)[r] else 0
  {
    match store
    case Online(table) => Filter(table, start, end)
    case Offline => []
  }

  /** `get_all_analyses`: every stored row; nothing when the store fails. */
  function GetAllAnalyses(store: Store): (rows: seq<Record>)
    ensures forall r :: multiset(rows)[r] == if store.Online? then multiset(store.table)[r] else 0
  {
    match store
    case Online(table) => table
    case Offline => []
  }

  /** The selection every aggregation starts with: with both bounds, every
      stored row in range, as often as it is stored; with either bound
      missing, every stored row; with the store down, nothing. */
  function Select(store: Store, start: Option<Timestamp>, end: Option<Timestamp>): (rows: seq<Record>)
    ensures forall r ::
              multiset(rows)[r] ==
                if store.Offline? then 0
                else if start.Some? && end.Some? && !InRange(r, start.value, end.value) then 0
                else multiset(store.table)[r]
  {
    if start.Some? && end.Some? then GetAnalysesByDateRange(store, start.value, end.value)
    else GetAllAnalyses(store)
  }

  /** With the intended end-of-day adjustment, a row dated any time on the
      end's day (and not before the start) is selected. */
  lemma EndDayIsSelected(store: Store, start: Timestamp, end: Timestamp, r: Record)
    requires store.Online? && r in store.table
    requires r.analysisDate.Present? && ParseStamp(r.analysisDate.value).Some?
    requires SameDay(ParseStamp(r.analysisDate.value).value, end)
    requires AtOrBefore(start, ParseStamp(r.analysisDate.value).value)
    ensures r in GetAnalysesByDateRange(store, start, EndOfDay(end))
  {
    var t := ParseStamp(r.analysisDate.value).value;
    EndOfDayCoversTheDay(t, end);
    assert multiset(GetAnalysesByDateRange(store, start, EndOfDay(end)))[r] > 0;
  }

  /** The adjustment as written drops a row stamped in the last second of
      the end's day: a query for 2024-01-05 misses 2024-01-05T23:59:59.500000. */
  lemma EndDayAsWrittenMissesLastSecond()
    ensures var stamp := Timestamp(2024, 1, 5, 23, 59, 59, 500000);
            var r := Record("https://example.com", Present(false), Some(10), Present("low"),
                            Present(StampText(stamp)), Absent);
            var day := Timestamp(2024, 1, 5, 0, 0, 0, 0);
            var store := Online([r]);
            && r !in GetAnalysesByDateRange(store, day, EndOfDayAsWritten(day))
            && r in GetAnalysesByDateRange(store, day, EndOfDay(day))
  {
    var stamp := Timestamp(2024, 1, 5, 23, 59, 59, 500000);
    var r := Record("https://example.com", Present(false), Some(10), Present("low"),
                    Present(StampText(stamp)), Absent);
    var day := Timestamp(2024, 1, 5, 0, 0, 0, 0);
    StampRoundTrip(stamp);
    assert !InRange(r, day, EndOfDayAsWritten(day));
    assert InRange(r, day, EndOfDay(day));
    assert multiset(GetAnalysesByDateRange(Online([r]), day, EndOfDayAsWritten(day)))[r] == 0;
    assert multiset(GetAnalysesByDateRange(Online([r]), day, EndOfDay(day)))[r] == 1;
  }

  // ========================================================== statistics

  /** `item.get('is_phishing', False)`, read for its truth value. */
  function IsPhishing(r: Record): (phishing: bool)
    ensures phishing <==> r.isPhishing == Present(true)
  {
    match r.isPhishing
    case Present(b) => b
    case _ => false
  }

  /** `item.get('risk_score', 0)`. */
  function RiskScore(r: Record): (score: int)
    ensures r.riskScore.None? ==> score == 0
    ensures r.riskScore.Some? ==> score == r.riskScore.value
  {
    match r.riskScore
    case Some(s) => s
    case None => 0
  }

  function PhishingCount(data: seq<Record>): (n: nat)
    ensures n <= |data|
  {
    if data == [] then 0
    else PhishingCount(data[..|data| - 1]) + (if IsPhishing(data[|data| - 1]) then 1 else 0)
  }

  function RiskSum(data: seq<Record>): int {
    if data == [] then 0 else RiskSum(data[..|data| - 1]) + RiskScore(data[|data| - 1])
  }

  predicate LowRisk(score: int) { score < 40 }
  predicate MediumRisk(score: int) { 40 <= score < 70 }
  predicate HighRisk(score: int) { score >= 70 }

  /** Number of records whose risk score satisfies `band`. */
  function BandCount(data: seq<Record>, band: int -> bool): (n: nat)
    ensures n <= |data|
  {
    if data == [] then 0
    else BandCount(data[..|data| - 1], band) + (if band(RiskScore(data[|data| - 1])) then 1 else 0)
  }

  /** The three risk bands split the records between them, each record
      landing in exactly one. */
  lemma {:induction false} BandsPartition(data: seq<Record>)
    ensures BandCount(data, LowRisk) + BandCount(data, MediumRisk) + BandCount(data, HighRisk) == |data|
  {
    if data != [] { BandsPartition(data[..|data| - 1]); }
  }

  /** Python's `round(x, 2)` taken as rounding half up to a whole number of
      hundredths. */
  function Round2(x: real): (r: real)
    ensures (r * 100.0).Floor as real == r * 100.0
    ensures x - 0.005 < r <= x + 0.005
  {
    ((x * 100.0 + 0.5).Floor as real) / 100.0
  }

  lemma Round2Bounds(x: real)
    requires 0.0 <= x <= 100.0
    ensures 0.0 <= Round2(x) <= 100.0
  {
    var f := (x * 100.0 + 0.5).Floor;
    assert 0 <= f <= 10000;
  }

  datatype RiskDistribution = RiskDistribution(low: nat, medium: nat, high: nat)

  datatype Summary = Summary(
    totalAnalyses: nat,
    phishingDetected: nat,
    safeUrls: nat,
    avgRiskScore: real,
    phishingPercentage: real,
    riskDistribution: RiskDistribution)

  /** The summary of no records: every field zero. */
  const EmptySummary := Summary(0, 0, 0, 0.0, 0.0, RiskDistribution(0, 0, 0))

  /** The statistics of a list of records, as `get_statistics` computes them
      once the rows are selected. */
  function Summarize(data: seq<Record>): (s: Summary)
    ensures data == [] ==> s == EmptySummary
    ensures s.totalAnalyses == |data|
    ensures s.phishingDetected == PhishingCount(data) <= s.totalAnalyses
    ensures s.safeUrls + s.phishingDetected == s.totalAnalyses
    ensures s.riskDistribution.low + s.riskDistribution.medium + s.riskDistribution.high
            == s.totalAnalyses
    ensures s.riskDistribution
            == RiskDistribution(BandCount(data, LowRisk), BandCount(data, MediumRisk), BandCount(data, HighRisk))
    ensures data != [] ==> s.avgRiskScore == Round2(RiskSum(data) as real / |data| as real)
    ensures data != [] ==> s.phishingPercentage
                           == Round2(PhishingCount(data) as real / |data| as real * 100.0)
  {
    if data == [] then EmptySummary
    else
      var total := |data|;
      var phishing := PhishingCount(data);
      BandsPartition(data);
      Summary(
        total,
        phishing,
        total - phishing,
        Round2(RiskSum(data) as real / total as real),
        Round2(phishing as real / total as real * 100.0),
        RiskDistribution(BandCount(data, LowRisk), BandCount(data, MediumRisk),
                         BandCount(data, HighRisk)))
  }

  predicate ScoresInRange(data: seq<Record>) {
    forall i :: 0 <= i < |data| ==> 0 <= RiskScore(data[i]) <= 100
  }

  lemma {:induction false} RiskSumBounds(data: seq<Record>)
    requires ScoresInRange(data)
    ensures 0 <= RiskSum(data) <= 100 * |data|
  {
    if data != [] {
      var init := data[..|data| - 1];
      assert ScoresInRange(init) by {
        forall i | 0 <= i < |init| ensures 0 <= RiskScore(init[i]) <= 100 {
          assert init[i] == data[i];
        }
      }
      RiskSumBounds(init);
    }
  }

  /** With every risk score between 0 and 100, the mean risk score and the
      phishing percentage are between 0 and 100 too. */
  lemma SummaryPercentBounds(data: seq<Record>)
    requires ScoresInRange(data)
    ensures 0.0 <= Summarize(data).avgRiskScore <= 100.0
    ensures 0.0 <= Summarize(data).phishingPercentage <= 100.0
  {
    if data != [] {
      var n := |data| as real;
      RiskSumBounds(data);
      var mean := RiskSum(data) as real / n;
      QuotientBounds(RiskSum(data) as real, 100.0, n);
      Round2Bounds(mean);
      var share := PhishingCount(data) as real / n;
      QuotientBounds(PhishingCount(data) as real, 1.0, n);
      Round2Bounds(share * 100.0);
    }
  }

  lemma QuotientBounds(a: real, bound: real, n: real)
    requires n > 0.0 && 0.0 <= a <= bound * n
    ensures 0.0 <= a / n <= bound
  {
    var q := a / n;
    assert a == q * n;
    if q > bound {
      assert q * n > bound * n;
    }
  }

  /** Risk 10 (safe), 85 (phishing) and 50 (safe): one record per band, a
      third of them phishing, mean risk 48.33. */
  lemma SummaryExample()
    ensures var data := [
              Record("a", Present(false), Some(10), Absent, Absent, Absent),
              Record("b", Present(true), Some(85), Absent, Absent, Absent),
              Record("c", Present(false), Some(50), Absent, Absent, Absent)];
            var s := Summarize(data);
            && s.riskDistribution == RiskDistribution(1, 1, 1)
            && s.phishingDetected == 1 && s.safeUrls == 2
            && s.phishingPercentage == 33.33
            && s.avgRiskScore == 48.33
  {
    var a := Record("a", Present(false), Some(10), Absent, Absent, Absent);
    var b := Record("b", Present(true), Some(85), Absent, Absent, Absent);
    var c := Record("c", Present(false), Some(50), Absent, Absent, Absent);
    var data := [a, b, c];
    assert data[..2] == [a, b];
    assert [a, b][..1] == [a];
    assert [a][..0] == [];
    assert RiskSum([a]) == 10 && RiskSum([a, b]) == 95 && RiskSum(data) == 145;
    assert PhishingCount([a]) == 0 && PhishingCount([a, b]) == 1 && PhishingCount(data) == 1;
    assert LowRisk(10) && !LowRisk(85) && !LowRisk(50);
    assert BandCount([a], LowRisk) == 1 && BandCount([a, b], LowRisk) == 1;
    assert BandCount(data, LowRisk) == 1;
    assert !MediumRisk(10) && !MediumRisk(85) && MediumRisk(50);
    assert BandCount([a], MediumRisk) == 0 && BandCount([a, b], MediumRisk) == 0;
    assert BandCount(data, MediumRisk) == 1;
    assert !HighRisk(10) && HighRisk(85) && !HighRisk(50);
    assert BandCount([a], HighRisk) == 0 && BandCount([a, b], HighRisk) == 1;
    assert BandCount(data, HighRisk) == 1;
    assert (145.0 / 3.0 * 100.0 + 0.5).Floor == 4833;
    assert (1.0 / 3.0 * 100.0 * 100.0 + 0.5).Floor == 3333;
  }

  /** `get_statistics`: the summary of the selected rows; all zeros when
      there are none, in particular when the store is down. */
  function GetStatistics(store: Store, start: Option<Timestamp>, end: Option<Timestamp>): (s: Summary)
    ensures s == Summarize(Select(store, start, end))
    ensures store.Offline? ==> s == EmptySummary
    ensures s.totalAnalyses == |Select(store, start, end)|
    ensures s.phishingDetected == PhishingCount(Select(store, start, end))
    ensures s.safeUrls + s.phishingDetected == s.totalAnalyses
    ensures s.riskDistribution.low + s.riskDistribution.medium + s.riskDistribution.high
            == s.totalAnalyses
  {
    Summarize(Select(store, start, end))
  }

  // ============================================== confidence distribution

  const Levels: set<string> := {"low", "medium", "high"}

  /** `item.get('confidence_level', 'low')`; a null level is `None` (which
      is not a key of the distribution). */
  function Level(r: Record): (level: Option<string>)
    ensures r.confidenceLevel.Absent? ==> level == Some("low")
    ensures r.confidenceLevel.Null? ==> level.None?
    ensures r.confidenceLevel.Present? ==> level == Some(r.confidenceLevel.value)
  {
    match r.confidenceLevel
    case Absent => Some("low")
    case Null => None
    case Present(v) => Some(v)
  }

  /** Number of records whose level reads as `level`. */
  function LevelCount(data: seq<Record>, level: string): (n: nat)
    ensures n <= |data|
  {
    if data == [] then 0
    else LevelCount(data[..|data| - 1], level) + (if Level(data[|data| - 1]) == Some(level) then 1 else 0)
  }

  /** `get_confidence_distribution`: exactly the keys low, medium and high,
      each with the number of selected rows at that level. */
  method GetConfidenceDistribution(store: Store, start: Option<Timestamp>, end: Option<Timestamp>)
    returns (distribution: map<string, nat>)
    ensures distribution.Keys == Levels
    ensures forall k :: k in distribution ==> distribution[k] == LevelCount(Select(store, start, end), k)
  {
    var data := Select(store, start, end);
    if data == [] {
      return map["low" := 0, "medium" := 0, "high" := 0];
    }
    distribution := map["low" := 0, "medium" := 0, "high" := 0];
    for i := 0 to |data|
      invariant distribution.Keys == Levels
      invariant forall k :: k in distribution ==> distribution[k] == LevelCount(data[..i], k)
    {
      LevelCountSnoc(data, i);
      var confidence := Level(data[i]);
      if confidence.Some? && confidence.value in distribution {
        distribution := distribution[confidence.value := distribution[confidence.value] + 1];
      }
    }
    assert data[..|data|] == data;
  }

  lemma LevelCountSnoc(data: seq<Record>, i: nat)
    requires i < |data|
    ensures forall k :: LevelCount(data[..i + 1], k)
                        == LevelCount(data[..i], k) + (if Level(data[i]) == Some(k) then 1 else 0)
  {
    assert data[..i + 1][..i] == data[..i];
  }

  /** Number of records whose level is one of the three. */
  function KnownLevelCount(data: seq<Record>): (n: nat)
    ensures n <= |data|
  {
    if data == [] then 0
    else
      var level := Level(data[|data| - 1]);
      KnownLevelCount(data[..|data| - 1]) + (if level.Some? && level.value in Levels then 1 else 0)
  }

  /** The three counts together cover the records with a known level and no
      more; any other level, or a null one, is dropped, so the counts sum to
      at most the number of records. */
  lemma {:induction false} LevelCountsSum(data: seq<Record>)
    ensures LevelCount(data, "low") + LevelCount(data, "medium") + LevelCount(data, "high")
            == KnownLevelCount(data) <= |data|
  {
    if data != [] { LevelCountsSum(data[..|data| - 1]); }
  }

  // ======================================================= sources usage

  /** The source names one record lists: a string is split on every comma
      and each piece stripped, a list is taken as it is, and an empty,
      null or missing value lists nothing. */
  function SourceList(r: Record): (names: seq<string>)
    ensures r.sourcesChecked.Present? && r.sourcesChecked.value.Names? ==>
              names == r.sourcesChecked.value.names
    ensures !r.sourcesChecked.Present? || r.sourcesChecked == Present(Text("")) ==> names == []
    ensures r.sourcesChecked.Present? && r.sourcesChecked.value.Text? &&
            r.sourcesChecked.value.text != "" ==>
              |names| == |Split(r.sourcesChecked.value.text, ',')|
              && forall i :: 0 <= i < |names| ==>
                   names[i] == Strip(Split(r.sourcesChecked.value.text, ',')[i])
  {
    match r.sourcesChecked
    case Present(Text(text)) =>
      if text == "" then []
      else
        var pieces := Split(text, ',');
        seq(|pieces|, i requires 0 <= i < |pieces| => Strip(pieces[i]))
    case Present(Names(names)) => names
    case _ => []
  }

  /** Every source entry of every record, in order. */
  function AllSources(data: seq<Record>): seq<string> {
    if data == [] then [] else AllSources(data[..|data| - 1]) + SourceList(data[|data| - 1])
  }

  /** `get_sources_usage`: each source name listed by a selected row maps to
      the number of times it is listed, duplicates included, so the counts
      add up to the number of entries. */
  method GetSourcesUsage(store: Store, start: Option<Timestamp>, end: Option<Timestamp>)
    returns (usage: map<string, nat>)
    ensures usage == Tally(AllSources(Select(store, start, end)))
    ensures forall k :: k in usage <==> k in AllSources(Select(store, start, end))
    ensures forall k :: k in usage ==> usage[k] == multiset(AllSources(Select(store, start, end)))[k]
    ensures Total(usage) == |AllSources(Select(store, start, end))|
  {
    var data := Select(store, start, end);
    TallyTotal(AllSources(data));
    TallyCounts(AllSources(data));
    if data == [] {
      return map[];
    }
    usage := map[];
    for i := 0 to |data|
      invariant usage == Tally(AllSources(data[..i]))
    {
      usage := CountEach(usage, AllSources(data[..i]), SourceList(data[i]));
      AllSourcesSnoc(data, i);
    }
    assert data[..|data|] == data;
  }

  /** The inner loop of `get_sources_usage`: one more count for every entry
      of `names`, in order. */
  method CountEach(counts: map<string, nat>, ghost seen: seq<string>, names: seq<string>)
    returns (updated: map<string, nat>)
    requires counts == Tally(seen)
    ensures updated == Tally(seen + names)
  {
    updated := counts;
    assert seen + names[..0] == seen;
    for j := 0 to |names|
      invariant updated == Tally(seen + names[..j])
    {
      var name := names[j];
      TallySnoc(seen + names[..j], name);
      assert seen + names[..j + 1] == (seen + names[..j]) + [name];
      updated := updated[name := Get(updated, name) + 1];
    }
    assert names[..|names|] == names;
  }

  lemma AllSourcesSnoc(data: seq<Record>, i: nat)
    requires i < |data|
    ensures AllSources(data[..i + 1]) == AllSources(data[..i]) + SourceList(data[i])
  {
    assert data[..i + 1][..i] == data[..i];
  }

  /** A row listing source `x` and a row listing `x, y` count `x` twice
      and `y` once: entries repeated across rows are all counted. */
  lemma SourcesExample(x: string, y: string)
    requires x != y && ',' !in x && ',' !in y
    requires x != [] && !IsSpace(x[0]) && !IsSpace(x[|x| - 1])
    requires y != [] && !IsSpace(y[0]) && !IsSpace(y[|y| - 1])
    ensures var data := [
              Record("a", Present(false), Some(0), Absent, Absent, Present(Text(x))),
              Record("b", Present(false), Some(0), Absent, Absent, Present(Text(x + ", " + y)))];
            Tally(AllSources(data)) == map[x := 2, y := 1]
  {
    var r1 := Record("a", Present(false), Some(0), Absent, Absent, Present(Text(x)));
    var r2 := Record("b", Present(false), Some(0), Absent, Absent, Present(Text(x + ", " + y)));
    assert AllSources([r1, r2]) == [x, x, y] by {
      OneSource(r1, x);
      assert x + ", " + y == x + [','] + [' '] + y;
      TwoSources(r2, x, y);
      ExampleSources([r1, r2], [x], [x, y]);
      assert [x] + [x, y] == [x, x, y];
    }
    TallyTwiceOnce(x, y);
  }

  lemma ExampleSources(data: seq<Record>, first: seq<string>, second: seq<string>)
    requires |data| == 2 && SourceList(data[0]) == first && SourceList(data[1]) == second
    ensures AllSources(data) == first + second
  {
    var head := data[..1];
    assert head[..0] == [] && head[0] == data[0];
    assert AllSources(head) == first;
    assert data[..|data| - 1] == head;
  }

  /** A text without commas lists itself, stripped. */
  lemma OneSource(r: Record, x: string)
    requires r.sourcesChecked == Present(Text(x))
    requires ',' !in x && x != [] && !IsSpace(x[0]) && !IsSpace(x[|x| - 1])
    ensures SourceList(r) == [x]
  {
    SplitNoSep(x, ',');
    StripBare(x);
  }

  /** "x, y" lists x and y. */
  lemma TwoSources(r: Record, x: string, y: string)
    requires r.sourcesChecked == Present(Text(x + [','] + [' '] + y))
    requires ',' !in x && x != [] && !IsSpace(x[0]) && !IsSpace(x[|x| - 1])
    requires ',' !in y && y != [] && !IsSpace(y[0]) && !IsSpace(y[|y| - 1])
    ensures SourceList(r) == [x, y]
  {
    var t := x + [','] + [' '] + y;
    assert t == x + [','] + ([' '] + y);
    assert ',' !in [' '] + y;
    SplitAtSep(x, ',', [' '] + y);
    SplitNoSep([' '] + y, ',');
    StripBare(x);
    StripOneSpace(y);
  }

  /** A text that neither starts nor ends with white space strips to itself. */
  lemma StripBare(s: string)
    requires s != [] && !IsSpace(s[0]) && !IsSpace(s[|s| - 1])
    ensures Strip(s) == s
  {
    assert s[0..|s|] == s;
  }

  /** One leading space is stripped away. */
  lemma StripOneSpace(s: string)
    requires s != [] && !IsSpace(s[0]) && !IsSpace(s[|s| - 1])
    ensures Strip([' '] + s) == s
  {
    var t := [' '] + s;
    assert t[1..] == s;
    assert LeadingSpaces(t) == 1;
    assert t[1..|t|] == s;
  }

  /** Counting `a`, `a`, `b` gives two for `a` and one for `b`. */
  lemma TallyTwiceOnce(a: string, b: string)
    requires a != b
    ensures Tally([a, a, b]) == map[a := 2, b := 1]
  {
    assert Tally([a]) == map[a := 1] by {
      assert [a][..0] == [];
    }
    assert Tally([a, a]) == map[a := 2] by {
      assert [a, a][..1] == [a];
    }
    assert [a, a, b][..2] == [a, a];
    assert Get(map[a := 2], b) == 0;
  }

  // ======================================================== daily counts

  /** `date_str.split('T')[0]`: the text before the first `T`. */
  function DateKey(text: string): (key: string)
    ensures |key| <= |text| && text[..|key|] == key && 'T' !in key
    ensures |key| < |text| ==> text[|key|] == 'T'
  {
    FirstPiece(text, 'T');
    Split(text, 'T')[0]
  }

  /** For a date the store rendered, the key is its calendar day `YYYY-MM-DD`. */
  lemma DateKeyIsTheDay(text: string)
    requires ParseStamp(text).Some?
    ensures DateKey(text) == text[..10]
  {
    ParsedTextShape(text);
  }

  /** The key of `day` + "T" + `clock` is `day`, whatever follows the `T`. */
  lemma DateKeyBeforeT(day: string, clock: string)
    requires 'T' !in day
    ensures DateKey(day + "T" + clock) == day
  {
    SplitAtSep(day, 'T', clock);
  }

  /** `item.get('analysis_date', '')`, with null read as empty. */
  function DateText(r: Record): (text: string)
    ensures r.analysisDate.Present? ==> text == r.analysisDate.value
    ensures !r.analysisDate.Present? ==> text == ""
  {
    match r.analysisDate
    case Present(text) => text
    case _ => ""
  }

  /** The day key of every record with a non-empty date, in order. */
  function DatedKeys(data: seq<Record>): (keys: seq<string>)
    ensures |keys| <= |data|
  {
    if data == [] then []
    else
      var text := DateText(data[|data| - 1]);
      DatedKeys(data[..|data| - 1]) + (if text != "" then [DateKey(text)] else [])
  }

  lemma DatedKeysSnoc(data: seq<Record>, i: nat)
    requires i < |data|
    ensures DatedKeys(data[..i + 1]) == DatedKeys(data[..i])
              + (if DateText(data[i]) != "" then [DateKey(DateText(data[i]))] else [])
  {
    assert data[..i + 1][..i] == data[..i];
  }

  /** Every row a range query returns has a date, so none is skipped. */
  lemma {:induction false} RangeRowsAreDated(rows: seq<Record>, start: Timestamp, end: Timestamp)
    ensures |DatedKeys(Filter(rows, start, end))| == |Filter(rows, start, end)|
  {
    if rows != [] {
      var init := rows[..|rows| - 1];
      var last := rows[|rows| - 1];
      RangeRowsAreDated(init, start, end);
      if InRange(last, start, end) {
        var kept := Filter(init, start, end);
        assert Filter(rows, start, end) == kept + [last];
        assert (kept + [last])[..|kept|] == kept;
        assert ParseStamp(DateText(last)).Some?;
      }
    }
  }

  datatype DayCount = DayCount(date: string, count: nat)

  function Dates(items: seq<DayCount>): seq<string> {
    if items == [] then [] else [items[0].date] + Dates(items[1..])
  }

  function SumCounts(items: seq<DayCount>): nat {
    if items == [] then 0 else items[0].count + SumCounts(items[1..])
  }

  predicate StrictlyAscending(items: seq<DayCount>) {
    forall i, j :: 0 <= i < j < |items| ==> LexLess(items[i].date, items[j].date)
  }

  /** Puts `x` into date order among `items`. */
  function Insert(items: seq<DayCount>, x: DayCount): seq<DayCount> {
    if items == [] then [x]
    else if LexLess(x.date, items[0].date) then [x] + items
    else [items[0]] + Insert(items[1..], x)
  }

  lemma {:induction false} DatesMembership(items: seq<DayCount>, d: string)
    ensures d in Dates(items) <==> exists i :: 0 <= i < |items| && items[i].date == d
  {
    if items != [] {
      DatesMembership(items[1..], d);
      if d != items[0].date && d in Dates(items[1..]) {
        var i :| 0 <= i < |items[1..]| && items[1..][i].date == d;
        assert items[i + 1].date == d;
      }
      if exists i :: 0 <= i < |items| && items[i].date == d {
        var i :| 0 <= i < |items| && items[i].date == d;
        if i > 0 { assert items[1..][i - 1].date == d; }
      }
    }
  }

  lemma ConsAscending(head: DayCount, tail: seq<DayCount>)
    requires StrictlyAscending(tail)
    requires forall j :: 0 <= j < |tail| ==> LexLess(head.date, tail[j].date)
    ensures StrictlyAscending([head] + tail)
  {
    var r := [head] + tail;
    forall i, j | 0 <= i < j < |r| ensures LexLess(r[i].date, r[j].date) {
      assert r[j] == tail[j - 1];
      if i > 0 { assert r[i] == tail[i - 1]; }
    }
  }

  /** Inserting adds exactly `x`, and adds its count to the sum. */
  lemma {:induction false} InsertContents(items: seq<DayCount>, x: DayCount)
    ensures multiset(Insert(items, x)) == multiset(items) + multiset{x}
    ensures SumCounts(Insert(items, x)) == SumCounts(items) + x.count
  {
    if items != [] && !LexLess(x.date, items[0].date) {
      InsertContents(items[1..], x);
      assert items == [items[0]] + items[1..];
    }
  }

  lemma TailAscending(items: seq<DayCount>)
    requires items != [] && StrictlyAscending(items)
    ensures StrictlyAscending(items[1..])
  {
    var rest := items[1..];
    forall i, j | 0 <= i < j < |rest| ensures LexLess(rest[i].date, rest[j].date) {
      assert rest[i] == items[i + 1] && rest[j] == items[j + 1];
    }
  }

  /** Inserting a date not yet present keeps the list strictly ascending. */
  lemma {:induction false} InsertAscending(items: seq<DayCount>, x: DayCount)
    requires StrictlyAscending(items)
    requires forall i :: 0 <= i < |items| ==> items[i].date != x.date
    ensures StrictlyAscending(Insert(items, x))
  {
    if items == [] {
    } else if LexLess(x.date, items[0].date) {
      forall j | 0 <= j < |items| ensures LexLess(x.date, items[j].date) {
        if j > 0 { LexLessTransitive(x.date, items[0].date, items[j].date); }
      }
      ConsAscending(x, items);
    } else {
      var rest := items[1..];
      TailAscending(items);
      assert forall i :: 0 <= i < |rest| ==> rest[i].date != x.date by {
        forall i | 0 <= i < |rest| ensures rest[i].date != x.date {
          assert rest[i] == items[i + 1];
        }
      }
      InsertAscending(rest, x);
      var tail := Insert(rest, x);
      InsertContents(rest, x);
      LexLessTotal(x.date, items[0].date);
      HeadBeforeTail(items, x, tail);
      ConsAscending(items[0], tail);
    }
  }

  lemma HeadBeforeTail(items: seq<DayCount>, x: DayCount, tail: seq<DayCount>)
    requires items != [] && StrictlyAscending(items)
    requires LexLess(items[0].date, x.date)
    requires multiset(tail) == multiset(items[1..]) + multiset{x}
    ensures forall j :: 0 <= j < |tail| ==> LexLess(items[0].date, tail[j].date)
  {
    var rest := items[1..];
    forall j | 0 <= j < |tail| ensures LexLess(items[0].date, tail[j].date) {
      assert tail[j] in multiset(tail);
      if tail[j] != x {
        assert tail[j] in multiset(rest);
        var k :| 0 <= k < |rest| && rest[k] == tail[j];
        assert items[k + 1] == tail[j];
      }
    }
  }

  /** The keys of `counts` that lie in `keys`, with their counts. */
  function Restrict(counts: map<string, nat>, keys: set<string>): (m: map<string, nat>)
    ensures m.Keys == counts.Keys * keys
    ensures forall k :: k in m ==> m[k] == counts[k]
  {
    map k | k in keys && k in counts :: counts[k]
  }

  /** One step of the sort: inserting the entry of a key not yet placed. */
  lemma InsertStep(counts: map<string, nat>, items: seq<DayCount>, remaining: set<string>, k: string)
    requires remaining <= counts.Keys && k in remaining
    requires StrictlyAscending(items)
    requires forall d :: d in Dates(items) <==> d in counts && d !in remaining
    requires forall i :: 0 <= i < |items| ==> items[i].date in counts && items[i].count == counts[items[i].date]
    ensures StrictlyAscending(Insert(items, DayCount(k, counts[k])))
    ensures forall d :: d in Dates(Insert(items, DayCount(k, counts[k]))) <==> d in counts && d !in remaining - {k}
    ensures forall i :: 0 <= i < |Insert(items, DayCount(k, counts[k]))| ==>
              var e := Insert(items, DayCount(k, counts[k]))[i]; e.date in counts && e.count == counts[e.date]
    ensures SumCounts(Insert(items, DayCount(k, counts[k]))) == SumCounts(items) + counts[k]
  {
    var entry := DayCount(k, counts[k]);
    forall i | 0 <= i < |items| ensures items[i].date != k {
      DatesMembership(items, items[i].date);
    }
    InsertAscending(items, entry);
    InsertContents(items, entry);
    var next := Insert(items, entry);
    forall d ensures d in Dates(next) <==> d in Dates(items) || d == k {
      DatesMembership(next, d);
      DatesMembership(items, d);
      if d in Dates(next) {
        var i :| 0 <= i < |next| && next[i].date == d;
        assert next[i] in multiset(next);
      }
      if d in Dates(items) {
        var i :| 0 <= i < |items| && items[i].date == d;
        assert items[i] in multiset(next);
      }
      if d == k {
        assert entry in multiset(next);
      }
    }
    forall i | 0 <= i < |next| ensures next[i].date in counts && next[i].count == counts[next[i].date] {
      assert next[i] in multiset(next);
      if next[i] != entry {
        assert next[i] in items;
      }
    }
  }

  /** `sorted(counts.items())`, as a list of day counts: one entry per key,
      in strictly ascending order of the key, each with its count. */
  method SortByDate(counts: map<string, nat>) returns (items: seq<DayCount>)
    ensures StrictlyAscending(items)
    ensures forall k :: k in counts <==> k in Dates(items)
    ensures forall i :: 0 <= i < |items| ==> items[i].date in counts && items[i].count == counts[items[i].date]
    ensures SumCounts(items) == Total(counts)
  {
    var remaining := counts.Keys;
    items := [];
    assert Restrict(counts, remaining) == counts;
    while remaining != {}
      invariant remaining <= counts.Keys
      invariant StrictlyAscending(items)
      invariant forall k :: k in Dates(items) <==> k in counts && k !in remaining
      invariant forall i :: 0 <= i < |items| ==> items[i].date in counts && items[i].count == counts[items[i].date]
      invariant SumCounts(items) + Total(Restrict(counts, remaining)) == Total(counts)
      decreases remaining
    {
      var k :| k in remaining;
      var entry := DayCount(k, counts[k]);
      TotalRemove(Restrict(counts, remaining), k);
      assert Restrict(counts, remaining) - {k} == Restrict(counts, remaining - {k});
      InsertStep(counts, items, remaining, k);
      var next := Insert(items, entry);
      items := next;
      remaining := remaining - {k};
    }
    assert Restrict(counts, {}) == map[];
  }

  /** The grouping loop of `get_daily_analysis_count`: the number of rows of
      each day, skipping rows without a date. */
  method CountDays(data: seq<Record>) returns (dailyCounts: map<string, nat>)
    ensures dailyCounts == Tally(DatedKeys(data))
  {
    dailyCounts := map[];
    for i := 0 to |data|
      invariant dailyCounts == Tally(DatedKeys(data[..i]))
    {
      DatedKeysSnoc(data, i);
      var dateStr := DateText(data[i]);
      if dateStr != "" {
        var dateOnly := DateKey(dateStr);
        TallySnoc(DatedKeys(data[..i]), dateOnly);
        dailyCounts := dailyCounts[dateOnly := Get(dailyCounts, dateOnly) + 1];
      } else {
        assert DatedKeys(data[..i + 1]) == DatedKeys(data[..i]);
      }
    }
    assert data[..|data|] == data;
  }

  /** `get_daily_analysis_count`: one entry per calendar day on which a row
      in range was recorded, strictly ascending by day, each with the number
      of rows of that day; together they count every row in range. */
  method GetDailyAnalysisCount(store: Store, start: Timestamp, end: Timestamp)
    returns (result: seq<DayCount>)
    ensures StrictlyAscending(result)
    ensures forall k :: k in Dates(result) <==> k in DatedKeys(GetAnalysesByDateRange(store, start, end))
    ensures forall i :: 0 <= i < |result| ==>
              result[i].count == multiset(DatedKeys(GetAnalysesByDateRange(store, start, end)))[result[i].date]
              && result[i].count >= 1
    ensures SumCounts(result) == |GetAnalysesByDateRange(store, start, end)|
  {
    var data := GetAnalysesByDateRange(store, start, end);
    if store.Online? {
      RangeRowsAreDated(store.table, start, end);
    }
    if data == [] {
      return [];
    }
    var dailyCounts := CountDays(data);
    TallyCounts(DatedKeys(data));
    TallyTotal(DatedKeys(data));
    result := SortByDate(dailyCounts);
  }

  /** Two rows on day `d1` and one on day `d2`, whatever their clock
      times, count two for `d1` and one for `d2`. */
  lemma DailyExample(d1: string, d2: string, c1: string, c2: string, c3: string)
    requires d1 != d2 && 'T' !in d1 && 'T' !in d2
    ensures var data := [
              Record("a", Absent, None, Absent, Present(d1 + "T" + c1), Absent),
              Record("b", Absent, None, Absent, Present(d1 + "T" + c2), Absent),
              Record("c", Absent, None, Absent, Present(d2 + "T" + c3), Absent)];
            Tally(DatedKeys(data)) == map[d1 := 2, d2 := 1]
  {
    var data := [
      Record("a", Absent, None, Absent, Present(d1 + "T" + c1), Absent),
      Record("b", Absent, None, Absent, Present(d1 + "T" + c2), Absent),
      Record("c", Absent, None, Absent, Present(d2 + "T" + c3), Absent)];
    DateKeyBeforeT(d1, c1);
    DateKeyBeforeT(d1, c2);
    DateKeyBeforeT(d2, c3);
    ThreeDatedKeys(data, [d1, d1, d2]);
    TallyTwiceOnce(d1, d2);
  }

  lemma ThreeDatedKeys(data: seq<Record>, keys: seq<string>)
    requires |data| == 3 && |keys| == 3
    requires forall i :: 0 <= i < 3 ==> DateText(data[i]) != "" && DateKey(DateText(data[i])) == keys[i]
    ensures DatedKeys(data) == keys
  {
    assert data[..0] == [] && data[..3] == data;
    DatedKeysSnoc(data, 0);
    DatedKeysSnoc(data, 1);
    DatedKeysSnoc(data, 2);
  }
}
