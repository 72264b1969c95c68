/** The per-ticker driver: sort the bars, scan for candidates, detect a move from
    each candidate not close to one already reported, annotate the moves for
    output, keep the qualifying ones and lay each out as a sheet row. */
module Analyzer {
  import opened Dates
  import opened Bars
  import opened Candidates
  import opened Classification
  import opened Tracking

  /** A detected move with the fields added for output. */
  datatype Report = Report(
    ticker: string,
    move: Move,
    startDateFormatted: string,
    endDateFormatted: string,
    drawdownsFormatted: seq<string>,
    continuationFormatted: string,
    superperformanceFormatted: string)

  /** Every date a move carries is a valid date. */
  predicate MoveDatesValid(m: Move)
  {
    && ValidDate(m.startDate)
    && ValidDate(m.endDate)
    && forall a :: 0 <= a < |m.drawdowns| ==> ValidDate(m.drawdowns[a])
  }

  function YesNo(b: bool): string
  {
    if b then "Yes" else "No"
  }

  /** Each date rendered as "Mon DD, YYYY". */
  function FormatDates(ds: seq<Date>): (r: seq<string>)
    requires forall a :: 0 <= a < |ds| ==> ValidDate(ds[a])
    ensures |r| == |ds|
    ensures forall a :: 0 <= a < |r| ==> r[a] == FormatDate(ds[a])
  {
    if ds == [] then []
    else [FormatDate(ds[0])] + FormatDates(ds[1..])
  }

  /** The output annotation of a move: the dates rendered for display, and the
      continuation and the classification as "Yes"/"No" flags. */
  function Annotate(ticker: string, m: Move): (r: Report)
    requires MoveDatesValid(m)
    ensures r.ticker == ticker && r.move == m
    ensures r.continuationFormatted == "Yes" <==> m.continuation
    ensures r.superperformanceFormatted == "Yes" <==> Qualifies(m.superperformance)
  {
    Report(ticker, m, FormatDate(m.startDate), FormatDate(m.endDate), FormatDates(m.drawdowns),
           YesNo(m.continuation), YesNo(Qualifies(m.superperformance)))
  }

  /** The annotation loses nothing: every rendered date reads back as the move's
      date, and each flag is "No" exactly when it is not "Yes". */
  lemma AnnotateReadsBack(ticker: string, m: Move)
    requires MoveDatesValid(m)
    ensures var r := Annotate(ticker, m);
      && |r.startDateFormatted| == 12 && ParseFormattedDate(r.startDateFormatted) == m.startDate
      && |r.endDateFormatted| == 12 && ParseFormattedDate(r.endDateFormatted) == m.endDate
      && |r.drawdownsFormatted| == |m.drawdowns|
      && (forall a :: 0 <= a < |m.drawdowns| ==>
            |r.drawdownsFormatted[a]| == 12 && ParseFormattedDate(r.drawdownsFormatted[a]) == m.drawdowns[a])
      && (r.continuationFormatted == "No" <==> !m.continuation)
      && (r.superperformanceFormatted == "No" <==> !Qualifies(m.superperformance))
  {
    FormatDateRoundTrip(m.startDate);
    FormatDateRoundTrip(m.endDate);
    forall a | 0 <= a < |m.drawdowns|
      ensures ParseFormattedDate(FormatDate(m.drawdowns[a])) == m.drawdowns[a]
    {
      FormatDateRoundTrip(m.drawdowns[a]);
    }
  }

  function Abs(x: int): int
  {
    if x < 0 then -x else x
  }

  /** Index `s` lies within four bars of a start already reported. */
  predicate NearStart(starts: seq<int>, s: int)
  {
    exists j :: 0 <= j < |starts| && Abs(s - starts[j]) < 5
  }

  /** Index `s` lies within four bars of an index in `processed`. */
  predicate NearProcessed(processed: set<nat>, s: int)
  {
    exists idx :: idx in processed && Abs(s - idx) < 5
  }

  /** Testing the set of processed indices is testing the list of starts. */
  lemma NearProcessedIff(processed: set<nat>, starts: seq<nat>, s: int)
    requires forall x :: x in processed <==> x in starts
    ensures NearProcessed(processed, s) <==> NearStart(starts, s)
  {
    if NearStart(starts, s) {
      var j :| 0 <= j < |starts| && Abs(s - starts[j]) < 5;
      assert starts[j] in processed;
    }
  }

  /** The moves reported so far and the candidate indices they started from, in
      the order they were reported. */
  datatype Scan = Scan(moves: seq<Move>, starts: seq<nat>)

  /** The move detected from each candidate, in candidate order. */
  function Detections(cfg: Config, data: seq<Bar>, cs: seq<Candidate>): (found: seq<Option<Move>>)
    ensures |found| == |cs|
  {
    if cs == [] then []
    else Detections(cfg, data, cs[..|cs| - 1]) + [GrowthMove(cfg, data, cs[|cs| - 1].index)]
  }

  /** Entry `k` of the detections is the move detected from candidate `k`. */
  lemma {:induction false} DetectionAt(cfg: Config, data: seq<Bar>, cs: seq<Candidate>, k: nat)
    requires k < |cs|
    ensures Detections(cfg, data, cs)[k] == GrowthMove(cfg, data, cs[k].index)
  {
    var init := cs[..|cs| - 1];
    if k < |cs| - 1 {
      DetectionAt(cfg, data, init, k);
      assert init[k] == cs[k];
    }
  }

  /** Detects the move from candidate `k`, with the dates it carries valid. */
  method DetectCandidate(cfg: Config, sorted: seq<Bar>, candidates: seq<Candidate>, k: nat) returns (move: Option<Move>)
    requires k < |candidates| && AllValidDates(sorted)
    ensures move == Detections(cfg, sorted, candidates)[k]
    ensures move.Some? ==> MoveDatesValid(move.value)
  {
    move := DetectGrowthMove(cfg, sorted, candidates[k].index);
    DetectionAt(cfg, sorted, candidates, k);
    if move.Some? {
      GrowthMoveDates(cfg, sorted, candidates[k].index);
    }
  }

  /** The driver loop over the first `n` candidates, given the move each one
      yields: a candidate close to a start already reported is skipped; otherwise
      a detected move is reported and its start remembered. */
  function ScanCandidates(cs: seq<Candidate>, found: seq<Option<Move>>, n: nat): (s: Scan)
    requires n <= |cs| == |found|
    ensures |s.moves| == |s.starts|
  {
    if n == 0 then Scan([], [])
    else
      var prev := ScanCandidates(cs, found, n - 1);
      var start := cs[n - 1].index;
      if NearStart(prev.starts, start) || found[n - 1].None? then prev
      else Scan(prev.moves + [found[n - 1].value], prev.starts + [start])
  }

  /** Move `m` is the one candidate `k`, below `n`, yields, and `st` is its index. */
  predicate ReportedFrom(cs: seq<Candidate>, found: seq<Option<Move>>, n: nat, m: Move, st: nat)
    requires n <= |cs| == |found|
  {
    exists k :: 0 <= k < n && cs[k].index == st && found[k] == Some(m)
  }

  /** Every move of `s` is the move its start's candidate, below `n`, yields. */
  predicate AllReportedFrom(cs: seq<Candidate>, found: seq<Option<Move>>, n: nat, s: Scan)
    requires n <= |cs| == |found|
  {
    forall a :: 0 <= a < |s.moves| && a < |s.starts| ==> ReportedFrom(cs, found, n, s.moves[a], s.starts[a])
  }

  /** Each start at least five bars after the one before it. */
  predicate Spaced(starts: seq<nat>)
  {
    forall a, b :: 0 <= a < b < |starts| ==> starts[a] + 5 <= starts[b]
  }

  /** Every one of the first `n` candidates lies within four bars of a start in
      `starts` or yields no move. */
  predicate Covers(cs: seq<Candidate>, found: seq<Option<Move>>, n: nat, starts: seq<nat>)
    requires n <= |cs| == |found|
  {
    forall k :: 0 <= k < n ==> NearStart(starts, cs[k].index) || found[k].None?
  }

  /** Every reported move is the move its start's candidate yields. */
  lemma {:induction false} ScanSound(cs: seq<Candidate>, found: seq<Option<Move>>, n: nat)
    requires n <= |cs| == |found|
    ensures AllReportedFrom(cs, found, n, ScanCandidates(cs, found, n))
  {
    if n > 0 {
      ScanSound(cs, found, n - 1);
      var prev := ScanCandidates(cs, found, n - 1);
      var s := ScanCandidates(cs, found, n);
      forall a | 0 <= a < |s.moves|
        ensures ReportedFrom(cs, found, n, s.moves[a], s.starts[a])
      {
        if a < |prev.moves| {
          assert s.moves[a] == prev.moves[a] && s.starts[a] == prev.starts[a];
          assert ReportedFrom(cs, found, n - 1, prev.moves[a], prev.starts[a]);
          var k :| 0 <= k < n - 1 && cs[k].index == prev.starts[a] && found[k] == Some(prev.moves[a]);
        } else {
          assert s.moves[a] == found[n - 1].value && s.starts[a] == cs[n - 1].index;
        }
      }
    }
  }

  /** When the candidates ascend, every reported start is at least five bars
      after the one before it. */
  lemma {:induction false} ScanSpacing(cs: seq<Candidate>, found: seq<Option<Move>>, n: nat)
    requires n <= |cs| == |found| && Ascending(cs)
    ensures Spaced(ScanCandidates(cs, found, n).starts)
  {
    if n > 0 {
      ScanSpacing(cs, found, n - 1);
      ScanSound(cs, found, n - 1);
      var prev := ScanCandidates(cs, found, n - 1);
      var st := ScanCandidates(cs, found, n).starts;
      var start := cs[n - 1].index;
      if st != prev.starts {
        assert st == prev.starts + [start];
        assert !NearStart(prev.starts, start);
        forall a | 0 <= a < |prev.starts|
          ensures prev.starts[a] + 5 <= start
        {
          assert ReportedFrom(cs, found, n - 1, prev.moves[a], prev.starts[a]);
          var k :| 0 <= k < n - 1 && cs[k].index == prev.starts[a] && found[k] == Some(prev.moves[a]);
          assert !(Abs(start as int - prev.starts[a]) < 5);
        }
      }
    }
  }

  /** Nothing is missed: every candidate examined either lies within four bars of
      a reported start (its own, when it was reported) or yields no move. */
  lemma {:induction false} ScanComplete(cs: seq<Candidate>, found: seq<Option<Move>>, n: nat)
    requires n <= |cs| == |found|
    ensures Covers(cs, found, n, ScanCandidates(cs, found, n).starts)
  {
    if n > 0 {
      ScanComplete(cs, found, n - 1);
      var prev := ScanCandidates(cs, found, n - 1);
      var st := ScanCandidates(cs, found, n).starts;
      var start := cs[n - 1].index;
      if st != prev.starts {
        assert st == prev.starts + [start];
        assert Abs(start as int - st[|st| - 1]) < 5;
        forall k | 0 <= k < n - 1 && NearStart(prev.starts, cs[k].index)
          ensures NearStart(st, cs[k].index)
        {
          var j :| 0 <= j < |prev.starts| && Abs(cs[k].index as int - prev.starts[j]) < 5;
          assert st[j] == prev.starts[j];
        }
      }
    }
  }

  /** The scan only ever appends: the moves after fewer candidates are a prefix
      of the moves after more. */
  lemma {:induction false} ScanPrefixes(cs: seq<Candidate>, found: seq<Option<Move>>, n: nat)
    requires n <= |cs| == |found|
    ensures forall m :: 0 <= m <= n ==> ScanCandidates(cs, found, m).moves <= ScanCandidates(cs, found, n).moves
  {
    if n > 0 {
      ScanPrefixes(cs, found, n - 1);
    }
  }

  /** Too few bars for one lookahead window. */
  predicate ShortData(cfg: Config, data: seq<Bar>)
  {
    |data| < cfg.growthMoveDays + 1
  }

  /** The moves of one ticker: nothing for short data, otherwise the scan over
      every candidate of the date-sorted bars. */
  function Analysis(cfg: Config, data: seq<Bar>): Scan
  {
    if ShortData(cfg, data) then Scan([], [])
    else
      var sorted := SortByDate(data);
      var cs := CandidatesBelow(cfg, sorted, |sorted|);
      ScanCandidates(cs, Detections(cfg, sorted, cs), |cs|)
  }

  /** The moves of one ticker: starts ascend at least five bars apart, each move
      is the one detected from a candidate of the sorted bars, and every candidate
      is either near a reported start or yields no move. */
  lemma AnalysisProperties(cfg: Config, data: seq<Bar>)
    ensures var s := Analysis(cfg, data);
      var sorted := SortByDate(data);
      && (ShortData(cfg, data) ==> s.moves == [])
      && (forall a, b :: 0 <= a < b < |s.starts| ==> s.starts[a] + 5 <= s.starts[b])
      && (forall a :: 0 <= a < |s.moves| ==>
            IsCandidate(cfg, sorted, s.starts[a]) && GrowthMove(cfg, sorted, s.starts[a]) == Some(s.moves[a]))
      && (!ShortData(cfg, data) ==>
            forall i :: IsCandidate(cfg, sorted, i) ==> NearStart(s.starts, i) || GrowthMove(cfg, sorted, i).None?)
  {
    if !ShortData(cfg, data) {
      var sorted := SortByDate(data);
      var cs := CandidatesBelow(cfg, sorted, |sorted|);
      var found := Detections(cfg, sorted, cs);
      CandidatesBelowSound(cfg, sorted, |sorted|);
      CandidatesBelowAscending(cfg, sorted, |sorted|);
      ScanSpacing(cs, found, |cs|);
      ScanSound(cs, found, |cs|);
      ScanComplete(cs, found, |cs|);
      var s := Analysis(cfg, data);
      assert s == ScanCandidates(cs, found, |cs|);
      forall a | 0 <= a < |s.moves|
        ensures IsCandidate(cfg, sorted, s.starts[a]) && GrowthMove(cfg, sorted, s.starts[a]) == Some(s.moves[a])
      {
        assert ReportedFrom(cs, found, |cs|, s.moves[a], s.starts[a]);
        var k :| 0 <= k < |cs| && cs[k].index == s.starts[a] && found[k] == Some(s.moves[a]);
        DetectionAt(cfg, sorted, cs, k);
      }
      forall i | IsCandidate(cfg, sorted, i)
        ensures NearStart(s.starts, i) || GrowthMove(cfg, sorted, i).None?
      {
        CandidatesBelowComplete(cfg, sorted, |sorted|, i);
        var k :| 0 <= k < |cs| && cs[k].index == i;
        DetectionAt(cfg, sorted, cs, k);
      }
    }
  }

  /** On date-sorted bars with valid dates every reported move runs forward in
      time, carries valid dates, and its drawdown dates ascend strictly. */
  lemma AnalysisMovesOrdered(cfg: Config, data: seq<Bar>)
    requires AllValidDates(data)
    ensures var s := Analysis(cfg, data);
      forall a :: 0 <= a < |s.moves| ==>
        && MoveDatesValid(s.moves[a])
        && s.moves[a].durationDays >= 0
        && DatesAscending(s.moves[a].drawdowns)
  {
    AnalysisProperties(cfg, data);
    var s := Analysis(cfg, data);
    var sorted := SortByDate(data);
    SortKeepsValidDates(data);
    SortedIsChronological(sorted);
    forall a | 0 <= a < |s.moves|
      ensures MoveDatesValid(s.moves[a]) && s.moves[a].durationDays >= 0 && DatesAscending(s.moves[a].drawdowns)
    {
      GrowthMoveDates(cfg, sorted, s.starts[a]);
      GrowthMoveDrawdownsAscend(cfg, sorted, s.starts[a]);
    }
  }

  /** The annotation of every move, in order. */
  function AnnotateAll(ticker: string, ms: seq<Move>): (rs: seq<Report>)
    requires forall a :: 0 <= a < |ms| ==> MoveDatesValid(ms[a])
    ensures |rs| == |ms|
    ensures forall a :: 0 <= a < |ms| ==> rs[a].move == ms[a] && rs[a].ticker == ticker
    ensures forall a :: 0 <= a < |ms| ==> rs[a] == Annotate(ticker, ms[a])
  {
    seq(|ms|, a requires 0 <= a < |ms| => Annotate(ticker, ms[a]))
  }

  /** Annotating one more move appends its annotation. */
  lemma AnnotateAllAppend(ticker: string, ms: seq<Move>, m: Move)
    requires forall a :: 0 <= a < |ms| ==> MoveDatesValid(ms[a])
    requires MoveDatesValid(m)
    ensures forall a :: 0 <= a < |ms + [m]| ==> MoveDatesValid((ms + [m])[a])
    ensures AnnotateAll(ticker, ms + [m]) == AnnotateAll(ticker, ms) + [Annotate(ticker, m)]
  {
    var all := ms + [m];
    assert forall a :: 0 <= a < |ms| ==> all[a] == ms[a];
  }

  /** The reports of one ticker: its moves, annotated for output. */
  function Reports(cfg: Config, ticker: string, data: seq<Bar>): seq<Report>
    requires AllValidDates(data)
  {
    AnalysisMovesOrdered(cfg, data);
    AnnotateAll(ticker, Analysis(cfg, data).moves)
  }

  /** What the driver loop knows after the first `k` candidates: the moves it
      reported, annotated, are those of the scan of those candidates, and the
      processed indices are the starts of the reported moves. */
  ghost predicate ReportedSoFar(cfg: Config, ticker: string, sorted: seq<Bar>, candidates: seq<Candidate>, k: nat,
                                processed: set<nat>, moves: seq<Report>, detected: seq<Move>, starts: seq<nat>)
  {
    && k <= |candidates|
    && ScanCandidates(candidates, Detections(cfg, sorted, candidates), k) == Scan(detected, starts)
    && (forall a :: 0 <= a < |detected| ==> MoveDatesValid(detected[a]))
    && moves == AnnotateAll(ticker, detected)
    && (forall x :: x in processed <==> x in starts)
  }

  /** One round of the driver loop: candidate `k` is skipped when it lies within
      four bars of a processed start; otherwise its move, when there is one, is
      annotated and reported and its start marked as processed. */
  method ReportCandidate(cfg: Config, ticker: string, sorted: seq<Bar>, candidates: seq<Candidate>, k: nat,
                         processed: set<nat>, moves: seq<Report>, ghost detected: seq<Move>, ghost starts: seq<nat>)
    returns (processed': set<nat>, moves': seq<Report>, ghost detected': seq<Move>, ghost starts': seq<nat>)
    requires AllValidDates(sorted) && k < |candidates|
    requires ReportedSoFar(cfg, ticker, sorted, candidates, k, processed, moves, detected, starts)
    ensures ReportedSoFar(cfg, ticker, sorted, candidates, k + 1, processed', moves', detected', starts')
  {
    ghost var found := Detections(cfg, sorted, candidates);
    processed', moves', detected', starts' := processed, moves, detected, starts;
    var startIndex := candidates[k].index;
    var near := NearProcessed(processed, startIndex);
    NearProcessedIff(processed, starts, startIndex);
    ghost var scanned := ScanCandidates(candidates, found, k + 1);
    if !near {
      var move := DetectCandidate(cfg, sorted, candidates, k);
      if move.Some? {
        assert scanned == Scan(detected + [move.value], starts + [startIndex]);
        AnnotateAllAppend(ticker, detected, move.value);
        moves' := moves + [Annotate(ticker, move.value)];
        detected' := detected + [move.value];
        starts' := starts + [startIndex];
        processed' := processed + {startIndex};
      } else {
        assert scanned == Scan(detected, starts);
      }
    } else {
      assert scanned == Scan(detected, starts);
    }
  }

  /** The driver loop over the sorted bars' candidates, in ascending order: the
      reports are the annotated moves of the scan of all candidates. */
  method ReportCandidates(cfg: Config, ticker: string, sorted: seq<Bar>, candidates: seq<Candidate>)
    returns (moves: seq<Report>)
    requires AllValidDates(sorted)
    ensures var s := ScanCandidates(candidates, Detections(cfg, sorted, candidates), |candidates|);
      && (forall a :: 0 <= a < |s.moves| ==> MoveDatesValid(s.moves[a]))
      && moves == AnnotateAll(ticker, s.moves)
  {
    moves := [];
    var processed: set<nat> := {};
    ghost var detected: seq<Move> := [];
    ghost var starts: seq<nat> := [];
    var k := 0;
    while k < |candidates|
      invariant k <= |candidates|
      invariant ReportedSoFar(cfg, ticker, sorted, candidates, k, processed, moves, detected, starts)
    {
      processed, moves, detected, starts := ReportCandidate(cfg, ticker, sorted, candidates, k, processed, moves, detected, starts);
      k := k + 1;
    }
  }

  /** Analyzes one ticker: nothing for too few bars; otherwise the bars are sorted
      by date, the candidates found, and each candidate reported as
      `ReportCandidates` says. */
  method AnalyzeStock(cfg: Config, ticker: string, data: seq<Bar>) returns (moves: seq<Report>)
    requires AllValidDates(data) && cfg.growthMoveDays >= 1
    ensures moves == Reports(cfg, ticker, data)
    ensures ShortData(cfg, data) ==> moves == []
  {
    if data == [] || |data| < cfg.growthMoveDays + 1 {
      return [];
    }
    var sorted := SortByDate(data);
    SortKeepsValidDates(data);
    var candidates := FindCandidates(cfg, sorted);
    moves := ReportCandidates(cfg, ticker, sorted, candidates);
  }

  /** The qualifying reports (Growth or Superperformance), in their original order. */
  function KeepQualified(moves: seq<Report>): (r: seq<Report>)
    ensures |r| <= |moves|
    ensures forall x :: x in r <==> x in moves && Qualifies(x.move.superperformance)
  {
    if moves == [] then []
    else
      var init := KeepQualified(moves[..|moves| - 1]);
      var last := moves[|moves| - 1];
      assert moves == moves[..|moves| - 1] + [last];
      init + (if Qualifies(last.move.superperformance) then [last] else [])
  }

  /** Filtering a concatenation filters each part: the filter keeps the order of
      the reports it keeps. */
  lemma {:induction false} KeepQualifiedAppend(a: seq<Report>, b: seq<Report>)
    ensures KeepQualified(a + b) == KeepQualified(a) + KeepQualified(b)
    decreases |b|
  {
    if b != [] {
      var init := b[..|b| - 1];
      KeepQualifiedAppend(a, init);
      assert (a + b)[..|a + b| - 1] == a + init;
      assert (a + b)[|a + b| - 1] == b[|b| - 1];
    } else {
      assert a + b == a;
    }
  }

  /** A list whose reports all qualify passes the filter unchanged. */
  lemma {:induction false} KeepQualifiedAll(moves: seq<Report>)
    requires forall a :: 0 <= a < |moves| ==> Qualifies(moves[a].move.superperformance)
    ensures KeepQualified(moves) == moves
  {
    if moves != [] {
      KeepQualifiedAll(moves[..|moves| - 1]);
      assert moves == moves[..|moves| - 1] + [moves[|moves| - 1]];
    }
  }

  /** Filtering twice is filtering once. */
  lemma KeepQualifiedIdempotent(moves: seq<Report>)
    ensures KeepQualified(KeepQualified(moves)) == KeepQualified(moves)
  {
    var r := KeepQualified(moves);
    assert forall a :: 0 <= a < |r| ==> r[a] in r;
    KeepQualifiedAll(r);
  }

  /** Keeps the reports tagged Growth or Superperformance, in order. */
  method FilterValidMoves(moves: seq<Report>) returns (valid: seq<Report>)
    ensures valid == KeepQualified(moves)
  {
    valid := [];
    var i := 0;
    while i < |moves|
      invariant 0 <= i <= |moves|
      invariant valid == KeepQualified(moves[..i])
    {
      var move := moves[i];
      assert moves[..i + 1][..i] == moves[..i];
      if Qualifies(move.move.superperformance) {
        valid := valid + [move];
      }
      i := i + 1;
    }
    assert moves[..|moves|] == moves;
  }

  /** The parts separated by `sep`. */
  function Join(parts: seq<string>, sep: string): string
  {
    if parts == [] then ""
    else if |parts| == 1 then parts[0]
    else parts[0] + sep + Join(parts[1..], sep)
  }

  /** Twelve-character parts joined by ", " sit at every fourteenth offset of the
      joined text, so each can be read back. */
  lemma {:induction false} JoinedDates(parts: seq<string>)
    requires parts != []
    requires forall a :: 0 <= a < |parts| ==> |parts[a]| == 12
    ensures |Join(parts, ", ")| == 14 * |parts| - 2
    ensures forall a :: 0 <= a < |parts| ==> Join(parts, ", ")[14 * a .. 14 * a + 12] == parts[a]
  {
    if |parts| > 1 {
      var rest := parts[1..];
      JoinedDates(rest);
      var jr := Join(rest, ", ");
      var head := parts[0] + ", ";
      var j := Join(parts, ", ");
      assert j == head + jr;
      forall a | 0 <= a < |parts|
        ensures j[14 * a .. 14 * a + 12] == parts[a]
      {
        if a == 0 {
          assert j[..12] == parts[0];
        } else {
          assert jr[14 * (a - 1) .. 14 * (a - 1) + 12] == rest[a - 1];
          assert j[14 * a .. 14 * a + 12] == jr[14 * (a - 1) .. 14 * (a - 1) + 12];
        }
      }
    }
  }

  /** The sheet row of a report: ticker, start date, end date, the
      superperformance flag, the drawdown dates joined by ", " ("none" when there
      are none) and the continuation flag. */
  function OutputRow(r: Report): (row: seq<string>)
    ensures |row| == 6
    ensures row[0] == r.ticker && row[1] == r.startDateFormatted && row[2] == r.endDateFormatted
    ensures row[3] == r.superperformanceFormatted && row[5] == r.continuationFormatted
    ensures r.drawdownsFormatted == [] ==> row[4] == "none"
    ensures r.drawdownsFormatted != [] ==> row[4] == Join(r.drawdownsFormatted, ", ")
  {
    var drawdowns := if r.drawdownsFormatted != [] then Join(r.drawdownsFormatted, ", ") else "none";
    [r.ticker, r.startDateFormatted, r.endDateFormatted, r.superperformanceFormatted, drawdowns,
     r.continuationFormatted]
  }

  /** The row of an annotated move reads back as the move: the dates parse back,
      the flags say "Yes" exactly when the move qualifies or continued, the
      drawdown cell is "none" exactly when there are no drawdowns, and otherwise
      the k-th drawdown date sits at offset 14 * k of that cell. */
  lemma OutputRowOfMove(ticker: string, m: Move)
    requires MoveDatesValid(m)
    ensures var row := OutputRow(Annotate(ticker, m));
      && row[0] == ticker
      && ParseFormattedDate(row[1]) == m.startDate
      && ParseFormattedDate(row[2]) == m.endDate
      && (row[3] == "Yes" <==> Qualifies(m.superperformance))
      && (row[5] == "Yes" <==> m.continuation)
      && (row[4] == "none" <==> m.drawdowns == [])
      && (m.drawdowns != [] ==>
            && |row[4]| == 14 * |m.drawdowns| - 2
            && forall a :: 0 <= a < |m.drawdowns| ==> ParseFormattedDate(row[4][14 * a .. 14 * a + 12]) == m.drawdowns[a])
  {
    AnnotateReadsBack(ticker, m);
    var r := Annotate(ticker, m);
    var row := OutputRow(r);
    if m.drawdowns != [] {
      JoinedDates(r.drawdownsFormatted);
      assert |row[4]| >= 12;
    }
  }
}
