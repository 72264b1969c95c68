/** The candidate scan: days whose low is followed, within the lookahead window,
    by a high at least the minimum growth above it. */
module Candidates {
  import opened Prices
  import opened Dates
  import opened Bars

  /** A possible start of a growth move ("lowest of day" candidate). */
  datatype Candidate = Candidate(date: Date, low: real, growth: real, index: nat)

  /** The highest high among bars `lo` .. `hi - 1`. */
  function WindowMax(data: seq<Bar>, lo: nat, hi: nat): (m: real)
    requires lo < hi <= |data|
    ensures forall k :: lo <= k < hi ==> data[k].high <= m
    decreases hi - lo
  {
    if hi - lo == 1 then data[lo].high
    else
      var rest := WindowMax(data, lo + 1, hi);
      if data[lo].high >= rest then data[lo].high else rest
  }

  /** The window maximum is the high of some bar of the window. */
  lemma {:induction false} WindowMaxAttained(data: seq<Bar>, lo: nat, hi: nat)
    requires lo < hi <= |data|
    ensures exists k :: lo <= k < hi && data[k].high == WindowMax(data, lo, hi)
    decreases hi - lo
  {
    if hi - lo > 1 {
      WindowMaxAttained(data, lo + 1, hi);
      var k :| lo + 1 <= k < hi && data[k].high == WindowMax(data, lo + 1, hi);
      if data[lo].high < WindowMax(data, lo + 1, hi) {
        assert data[k].high == WindowMax(data, lo, hi);
      } else {
        assert data[lo].high == WindowMax(data, lo, hi);
      }
    } else {
      assert data[lo].high == WindowMax(data, lo, hi);
    }
  }

  /** Bar `i` has a full lookahead window after it. */
  predicate HasWindow(cfg: Config, data: seq<Bar>, i: int)
  {
    cfg.growthMoveDays >= 1 && 0 <= i < |data| - cfg.growthMoveDays
  }

  /** Growth from the low of bar `i` to the highest high of the next
      `growthMoveDays` bars. */
  function LookaheadGrowth(cfg: Config, data: seq<Bar>, i: int): real
    requires HasWindow(cfg, data, i)
  {
    PercentageChange(data[i].low, WindowMax(data, i + 1, i + cfg.growthMoveDays + 1))
  }

  /** Bar `i` starts a candidate. */
  predicate IsCandidate(cfg: Config, data: seq<Bar>, i: int)
  {
    HasWindow(cfg, data, i) && LookaheadGrowth(cfg, data, i) >= cfg.minGrowthPercentage
  }

  /** The candidate record the scan builds for bar `i`. */
  function CandidateAt(cfg: Config, data: seq<Bar>, i: nat): Candidate
    requires HasWindow(cfg, data, i)
  {
    Candidate(data[i].date, data[i].low, LookaheadGrowth(cfg, data, i), i)
  }

  /** The candidates among bars `0` .. `n - 1`, in index order. */
  function CandidatesBelow(cfg: Config, data: seq<Bar>, n: nat): seq<Candidate>
    requires n <= |data|
  {
    if n == 0 then []
    else CandidatesBelow(cfg, data, n - 1) + (if IsCandidate(cfg, data, n - 1) then [CandidateAt(cfg, data, n - 1)] else [])
  }

  /** Every record is the candidate record of a qualifying bar below `n`. */
  predicate RecordsSound(cfg: Config, data: seq<Bar>, cs: seq<Candidate>, n: nat)
  {
    forall k :: 0 <= k < |cs| ==>
      cs[k].index < n && IsCandidate(cfg, data, cs[k].index) && cs[k] == CandidateAt(cfg, data, cs[k].index)
  }

  /** Every record of the scan is the candidate record of a qualifying bar below `n`. */
  lemma {:induction false} CandidatesBelowSound(cfg: Config, data: seq<Bar>, n: nat)
    requires n <= |data|
    ensures RecordsSound(cfg, data, CandidatesBelow(cfg, data, n), n)
  {
    if n > 0 {
      CandidatesBelowSound(cfg, data, n - 1);
      var prev := CandidatesBelow(cfg, data, n - 1);
      var cs := CandidatesBelow(cfg, data, n);
      var tail := if IsCandidate(cfg, data, n - 1) then [CandidateAt(cfg, data, n - 1)] else [];
      assert cs == prev + tail;
      forall k | 0 <= k < |cs|
        ensures cs[k].index < n && IsCandidate(cfg, data, cs[k].index) && cs[k] == CandidateAt(cfg, data, cs[k].index)
      {
        if k < |prev| {
          assert cs[k] == prev[k];
          assert prev[k].index < n - 1;
        } else {
          assert cs[k] == tail[0] == CandidateAt(cfg, data, n - 1);
        }
      }
    }
  }

  /** Records in strictly ascending index order. */
  predicate Ascending(cs: seq<Candidate>)
  {
    forall j, k :: 0 <= j < k < |cs| ==> cs[j].index < cs[k].index
  }

  /** The scan's records ascend strictly by index. */
  lemma {:induction false} CandidatesBelowAscending(cfg: Config, data: seq<Bar>, n: nat)
    requires n <= |data|
    ensures Ascending(CandidatesBelow(cfg, data, n))
  {
    if n > 0 {
      CandidatesBelowAscending(cfg, data, n - 1);
      CandidatesBelowSound(cfg, data, n - 1);
      var prev := CandidatesBelow(cfg, data, n - 1);
      var cs := CandidatesBelow(cfg, data, n);
      var tail := if IsCandidate(cfg, data, n - 1) then [CandidateAt(cfg, data, n - 1)] else [];
      assert cs == prev + tail;
      forall j, k | 0 <= j < k < |cs|
        ensures cs[j].index < cs[k].index
      {
        assert cs[j] == prev[j];
        if k < |prev| {
          assert cs[k] == prev[k];
        } else {
          assert cs[k] == tail[0] && cs[k].index == n - 1;
          assert prev[j].index < n - 1;
        }
      }
    }
  }

  /** No qualifying bar below `n` is missed. */
  lemma {:induction false} CandidatesBelowComplete(cfg: Config, data: seq<Bar>, n: nat, c: int)
    requires n <= |data|
    requires 0 <= c < n && IsCandidate(cfg, data, c)
    ensures exists k :: 0 <= k < |CandidatesBelow(cfg, data, n)| && CandidatesBelow(cfg, data, n)[k].index == c
  {
    var prev := CandidatesBelow(cfg, data, n - 1);
    var cs := CandidatesBelow(cfg, data, n);
    if c < n - 1 {
      CandidatesBelowComplete(cfg, data, n - 1, c);
      var k :| 0 <= k < |prev| && prev[k].index == c;
      assert cs[k] == prev[k];
    } else {
      assert cs[|cs| - 1].index == c;
    }
  }

  /** Scans every bar in order; a bar is examined only when a full window follows
      it, and the scan fails on an empty window, so a window of at least one bar is
      required whenever there are bars. */
  method FindCandidates(cfg: Config, data: seq<Bar>) returns (candidates: seq<Candidate>)
    requires data == [] || cfg.growthMoveDays >= 1
    ensures candidates == CandidatesBelow(cfg, data, |data|)
    ensures forall k :: 0 <= k < |candidates| ==>
      IsCandidate(cfg, data, candidates[k].index) && candidates[k] == CandidateAt(cfg, data, candidates[k].index)
    ensures Ascending(candidates)
    ensures forall i :: IsCandidate(cfg, data, i) ==> exists k :: 0 <= k < |candidates| && candidates[k].index == i
  {
    candidates := [];
    var i := 0;
    while i < |data|
      invariant 0 <= i <= |data|
      invariant candidates == CandidatesBelow(cfg, data, i)
    {
      if i < |data| - cfg.growthMoveDays {
        var currentLow := data[i].low;
        var maxFuturePrice := WindowMax(data, i + 1, i + cfg.growthMoveDays + 1);
        var growth := PercentageChange(currentLow, maxFuturePrice);
        if growth >= cfg.minGrowthPercentage {
          candidates := candidates + [Candidate(data[i].date, currentLow, growth, i)];
        }
      }
      i := i + 1;
    }
    CandidatesBelowSound(cfg, data, |data|);
    CandidatesBelowAscending(cfg, data, |data|);
    forall c | IsCandidate(cfg, data, c)
      ensures exists k :: 0 <= k < |candidates| && candidates[k].index == c
    {
      CandidatesBelowComplete(cfg, data, |data|, c);
    }
  }
}
