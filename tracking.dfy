/** Forward tracking of one growth move from a candidate low: the running peak,
    the drawdown log, the continuation latch and the four exits, checked in this
    order on every day. */
module Tracking {
  import opened Prices
  import opened Dates
  import opened Bars
  import opened Classification

  /** A recorded pullback: the day, the signed change from the peak to that
      day's close, and the close. */
  datatype Drawdown = Drawdown(date: Date, drawdown: real, price: real)

  /** Why tracking stopped before the end of the data. The drawdown carried by the
      last two is the one the source prints in its message. */
  datatype Termination =
    | MaxTotalDaysExceeded
    | DroppedBelowLod
    | StalledAfterDrawdown(drawdown: real)
    | NoNewHigh(drawdown: real)

  /** A detected growth move. */
  datatype Move = Move(
    startDate: Date,
    endDate: Date,
    startPrice: real,
    peakPrice: real,
    growthPercentage: real,
    durationDays: int,
    drawdowns: seq<Date>,
    continuation: bool,
    superperformance: Classification,
    newLodAfterDrawdown: Option<real>,
    terminationReason: Option<Termination>)

  /** The loop state of the tracker. */
  datatype Tracker = Tracker(
    peakPrice: real,
    peakDate: Date,
    peakIndex: nat,
    daysWithoutHigh: nat,
    drawdowns: seq<Drawdown>,
    continuation: bool,
    newLodAfterDrawdown: Option<real>)

  /** One day of tracking either carries on or exits the loop. */
  datatype StepResult = Advance(tracker: Tracker) | Stop(tracker: Tracker, reason: Termination)

  /** The state after the loop, why it stopped, and the day it stopped on
      (the length of the data when it ran off the end). */
  datatype Outcome = Outcome(tracker: Tracker, reason: Option<Termination>, stop: nat)

  function Last(ds: seq<Drawdown>): Drawdown
    requires ds != []
  {
    ds[|ds| - 1]
  }

  /** The lowest recorded close, when anything is recorded. */
  function LowestPrice(ds: seq<Drawdown>): (r: Option<real>)
    ensures ds == [] <==> r == None
    ensures r.Some? ==> forall k :: 0 <= k < |ds| ==> r.value <= ds[k].price
    ensures r.Some? ==> exists k :: 0 <= k < |ds| && r.value == ds[k].price
  {
    if ds == [] then None
    else
      match LowestPrice(ds[1..])
      case None => Some(ds[0].price)
      case Some(m) =>
        assert forall k :: 1 <= k < |ds| ==> ds[k] == ds[1..][k - 1];
        if ds[0].price <= m then Some(ds[0].price) else Some(m)
  }

  predicate HasDrawdownOn(ds: seq<Drawdown>, date: Date)
  {
    exists k :: 0 <= k < |ds| && ds[k].date == date
  }

  function DrawdownDates(ds: seq<Drawdown>): (dates: seq<Date>)
    ensures |dates| == |ds|
    ensures forall k :: 0 <= k < |ds| ==> dates[k] == ds[k].date
  {
    seq(|ds|, k requires 0 <= k < |ds| => ds[k].date)
  }

  /** The peak update: a higher high becomes the peak, otherwise one more day
      passes without a new high. The drawdown log and the latch are untouched. */
  function UpdatePeak(t: Tracker, bar: Bar, i: nat): (r: Tracker)
    ensures r.peakPrice >= t.peakPrice && r.peakPrice >= bar.high
    ensures r.peakPrice == t.peakPrice ==>
      r.peakDate == t.peakDate && r.peakIndex == t.peakIndex && r.daysWithoutHigh == t.daysWithoutHigh + 1
    ensures r.peakPrice != t.peakPrice ==>
      r.peakPrice == bar.high && r.peakDate == bar.date && r.peakIndex == i && r.daysWithoutHigh == 0
    ensures r.drawdowns == t.drawdowns && r.continuation == t.continuation
    ensures r.newLodAfterDrawdown == t.newLodAfterDrawdown
  {
    if bar.high > t.peakPrice
    then t.(peakPrice := bar.high, peakDate := bar.date, peakIndex := i, daysWithoutHigh := 0)
    else t.(daysWithoutHigh := t.daysWithoutHigh + 1)
  }

  /** The peak part of the tracker. */
  function PeakOf(t: Tracker): (real, Date, nat, nat)
  {
    (t.peakPrice, t.peakDate, t.peakIndex, t.daysWithoutHigh)
  }

  /** A drawdown inside the band is recorded unless one was recorded the day
      before or the same day. Only the log changes, by one entry at most. */
  function RecordBandDrawdown(cfg: Config, t: Tracker, bar: Bar, dd: real): (r: Tracker)
    ensures r.(drawdowns := t.drawdowns) == t
    ensures || r.drawdowns == t.drawdowns
            || r.drawdowns == t.drawdowns + [Drawdown(bar.date, dd, bar.close)]
    ensures r.drawdowns != t.drawdowns <==>
      && cfg.minDrawdownPercentage <= dd < cfg.maxDrawdownPercentage
      && (t.drawdowns == [] || DayNumber(bar.date) - DayNumber(Last(t.drawdowns).date) > 1)
  {
    if cfg.minDrawdownPercentage <= dd < cfg.maxDrawdownPercentage
       && (t.drawdowns == [] || DayNumber(bar.date) - DayNumber(Last(t.drawdowns).date) > 1)
    then t.(drawdowns := t.drawdowns + [Drawdown(bar.date, dd, bar.close)])
    else t
  }

  /** The recovery signal: the latch is open, the day is inside the window after
      the peak, the close is back above the minimum drawdown, and within 30 days of
      the last recorded drawdown the close is above that drawdown's close. */
  predicate Recovers(cfg: Config, t: Tracker, bar: Bar, dd: real)
  {
    && t.drawdowns != []
    && !t.continuation
    && DayNumber(bar.date) - DayNumber(t.peakDate) <= cfg.continuationWindowDays
    && dd < cfg.minDrawdownPercentage
    && DayNumber(bar.date) - DayNumber(Last(t.drawdowns).date) <= 30
    && bar.close > Last(t.drawdowns).price
  }

  /** The continuation check. Its new-high branch can never be taken, because the
      peak was already raised to today's high, so the latch closes exactly on the
      recovery signal and the lowest drawdown close is never recorded. */
  function CheckContinuation(cfg: Config, t: Tracker, bar: Bar, dd: real): (r: Tracker)
    requires bar.high <= t.peakPrice
    ensures r == (if Recovers(cfg, t, bar, dd) then t.(continuation := true) else t)
  {
    if t.drawdowns != [] && !t.continuation then
      var daysSincePeak := DayNumber(bar.date) - DayNumber(t.peakDate);
      if daysSincePeak <= cfg.continuationWindowDays && bar.high > t.peakPrice then
        t.(continuation := true, newLodAfterDrawdown := LowestPrice(t.drawdowns))
      else if daysSincePeak <= cfg.continuationWindowDays && dd < cfg.minDrawdownPercentage then
        var last := Last(t.drawdowns);
        if DayNumber(bar.date) - DayNumber(last.date) <= 30 && bar.close > last.price
        then t.(continuation := true)
        else t
      else t
    else t
  }

  /** A drawdown at or beyond the maximum is recorded unless that date is already
      recorded. Only the log changes, by one entry at most. */
  function RecordMajorDrawdown(t: Tracker, bar: Bar, dd: real): (r: Tracker)
    ensures r.(drawdowns := t.drawdowns) == t
    ensures || r.drawdowns == t.drawdowns
            || r.drawdowns == t.drawdowns + [Drawdown(bar.date, dd, bar.close)]
    ensures r.drawdowns != t.drawdowns <==> !HasDrawdownOn(t.drawdowns, bar.date)
  {
    if HasDrawdownOn(t.drawdowns, bar.date) then t
    else t.(drawdowns := t.drawdowns + [Drawdown(bar.date, dd, bar.close)])
  }

  /** The end of a day: a drawdown at or beyond the maximum is recorded and, after
      too many days without a new high, stops the move; otherwise too many days
      without a new high and a close above the minimum drawdown stop it. */
  function CloseDay(cfg: Config, t: Tracker, bar: Bar, dd: real): (s: StepResult)
    ensures s.tracker == if dd >= cfg.maxDrawdownPercentage then RecordMajorDrawdown(t, bar, dd) else t
    ensures s.Stop? <==>
      t.daysWithoutHigh >= cfg.maxDaysWithoutHigh && (dd >= cfg.maxDrawdownPercentage || dd < cfg.minDrawdownPercentage)
    ensures s.Stop? ==>
      s.reason == if dd >= cfg.maxDrawdownPercentage then StalledAfterDrawdown(dd) else NoNewHigh(dd)
  {
    if dd >= cfg.maxDrawdownPercentage then
      var t4 := RecordMajorDrawdown(t, bar, dd);
      if t4.daysWithoutHigh >= cfg.maxDaysWithoutHigh then Stop(t4, StalledAfterDrawdown(dd))
      else Advance(t4)
    else if t.daysWithoutHigh >= cfg.maxDaysWithoutHigh && dd < cfg.minDrawdownPercentage
    then Stop(t, NoNewHigh(dd))
    else Advance(t)
  }

  /** Day `i` is within the limit on the calendar days since the candidate. */
  predicate WithinLimit(cfg: Config, data: seq<Bar>, start: nat, i: nat)
    requires start < |data| && i < |data|
  {
    Day(data[i]) - Day(data[start]) <= cfg.maxTotalDays
  }

  /** Day `i` of tracking from the candidate at `start`. The day limit is checked
      first and leaves the state untouched; otherwise the peak part of the state
      is the peak update's. */
  function StepDay(cfg: Config, data: seq<Bar>, start: nat, t: Tracker, i: nat): (s: StepResult)
    requires start < i < |data|
    ensures s == Stop(t, MaxTotalDaysExceeded) <==> !WithinLimit(cfg, data, start, i)
    ensures s.Stop? && s.reason == MaxTotalDaysExceeded ==> s.tracker == t
    ensures s != Stop(t, MaxTotalDaysExceeded) ==> PeakOf(s.tracker) == PeakOf(UpdatePeak(t, data[i], i))
    ensures s.tracker.newLodAfterDrawdown == t.newLodAfterDrawdown
  {
    var bar := data[i];
    if !WithinLimit(cfg, data, start, i) then Stop(t, MaxTotalDaysExceeded)
    else
      var t1 := UpdatePeak(t, bar, i);
      var dd := PercentageChange(t1.peakPrice, bar.close);
      if bar.low < data[start].low then Stop(t1, DroppedBelowLod)
      else
        var t2 := RecordBandDrawdown(cfg, t1, bar, dd);
        CloseDay(cfg, CheckContinuation(cfg, t2, bar, dd), bar, dd)
  }

  /** Tracking from day `i` with state `t` until an exit fires or the data ends. */
  function Track(cfg: Config, data: seq<Bar>, start: nat, t: Tracker, i: nat): (o: Outcome)
    requires start < i <= |data|
    ensures i <= o.stop <= |data|
    ensures o.reason == None <==> o.stop == |data|
    ensures o.tracker.newLodAfterDrawdown == t.newLodAfterDrawdown
    decreases |data| - i
  {
    if i == |data| then Outcome(t, None, |data|)
    else
      match StepDay(cfg, data, start, t, i)
      case Advance(next) => Track(cfg, data, start, next, i + 1)
      case Stop(last, reason) => Outcome(last, Some(reason), i)
  }

  /** One day never lowers the peak; the drawdown log only grows, by one entry at
      most, dated today and not a repeat of the previous entry's day or of a
      recorded date; the continuation latch is one-way and closes only with a
      drawdown on record, inside the window after the peak. */
  lemma StepDayLog(cfg: Config, data: seq<Bar>, start: nat, t: Tracker, i: nat)
    requires start < i < |data|
    ensures var s := StepDay(cfg, data, start, t, i);
      && s.tracker.peakPrice >= t.peakPrice
      && t.drawdowns <= s.tracker.drawdowns && |s.tracker.drawdowns| <= |t.drawdowns| + 1
      && (|s.tracker.drawdowns| == |t.drawdowns| + 1 ==>
            && Last(s.tracker.drawdowns).date == data[i].date
            && (|| t.drawdowns == []
                || DayNumber(data[i].date) - DayNumber(Last(t.drawdowns).date) > 1
                || !HasDrawdownOn(t.drawdowns, data[i].date)))
      && (t.continuation ==> s.tracker.continuation)
      && (!t.continuation && s.tracker.continuation ==>
            s.tracker.drawdowns != [] && Day(data[i]) - DayNumber(s.tracker.peakDate) <= cfg.continuationWindowDays)
  {
    var bar := data[i];
    if Day(bar) - Day(data[start]) <= cfg.maxTotalDays {
      var t1 := UpdatePeak(t, bar, i);
      var dd := PercentageChange(t1.peakPrice, bar.close);
      if bar.low >= data[start].low {
        var t2 := RecordBandDrawdown(cfg, t1, bar, dd);
        var t3 := CheckContinuation(cfg, t2, bar, dd);
        assert StepDay(cfg, data, start, t, i) == CloseDay(cfg, t3, bar, dd);
        assert |t2.drawdowns| == |t.drawdowns| + 1 ==> dd < cfg.maxDrawdownPercentage;
      }
    }
  }

  /** Day `bar`, with drawdown `dd` from the peak, goes into the log: inside the
      band when the log is empty or its last entry is more than a day old, at or
      beyond the maximum when no entry has the bar's date. */
  predicate LogsDrawdown(cfg: Config, t: Tracker, bar: Bar, dd: real)
  {
    || (&& cfg.minDrawdownPercentage <= dd < cfg.maxDrawdownPercentage
        && (t.drawdowns == [] || DayNumber(bar.date) - DayNumber(Last(t.drawdowns).date) > 1))
    || (dd >= cfg.maxDrawdownPercentage && !HasDrawdownOn(t.drawdowns, bar.date))
  }

  /** The exits of one day, in the order they are tried. `dd` is the signed
      change from the peak, raised to the day's high, to the day's close. Past the
      day limit tracking stops with the state untouched; a low below the
      candidate's stops it after the peak update; otherwise, after too many days
      without a new high, a drawdown at or beyond the maximum stalls it and one
      below the minimum ends it for want of a new high. The log gains the day's
      entry exactly when the day is tracked and logs a drawdown, and the latch
      closes exactly when the day is tracked and, after the band record, shows
      the recovery signal. */
  lemma StepDayExits(cfg: Config, data: seq<Bar>, start: nat, t: Tracker, i: nat)
    requires start < i < |data|
    ensures var s := StepDay(cfg, data, start, t, i);
      var t1 := UpdatePeak(t, data[i], i);
      var dd := PercentageChange(t1.peakPrice, data[i].close);
      var tracked := WithinLimit(cfg, data, start, i) && data[i].low >= data[start].low;
      var stalled := t1.daysWithoutHigh >= cfg.maxDaysWithoutHigh;
      && (s == Stop(t1, DroppedBelowLod) <==> WithinLimit(cfg, data, start, i) && data[i].low < data[start].low)
      && (s.Stop? && s.reason == StalledAfterDrawdown(dd) <==> tracked && stalled && dd >= cfg.maxDrawdownPercentage)
      && (s.Stop? && s.reason == NoNewHigh(dd) <==>
            tracked && stalled && dd < cfg.maxDrawdownPercentage && dd < cfg.minDrawdownPercentage)
      && (s.Advance? <==>
            tracked && !(stalled && (dd >= cfg.maxDrawdownPercentage || dd < cfg.minDrawdownPercentage)))
      && s.tracker.drawdowns ==
           (if tracked && LogsDrawdown(cfg, t, data[i], dd)
            then t.drawdowns + [Drawdown(data[i].date, dd, data[i].close)]
            else t.drawdowns)
      && s.tracker.continuation ==
           (t.continuation || (tracked && Recovers(cfg, RecordBandDrawdown(cfg, t1, data[i], dd), data[i], dd)))
  {
  }

  /** Over the rest of the data the peak never falls, the drawdown log is
      append-only and the continuation latch stays closed once closed. */
  lemma {:induction false} TrackMonotone(cfg: Config, data: seq<Bar>, start: nat, t: Tracker, i: nat)
    requires start < i <= |data|
    ensures var o := Track(cfg, data, start, t, i);
      && o.tracker.peakPrice >= t.peakPrice
      && t.drawdowns <= o.tracker.drawdowns
      && (t.continuation ==> o.tracker.continuation)
    decreases |data| - i
  {
    if i < |data| {
      StepDayLog(cfg, data, start, t, i);
      var step := StepDay(cfg, data, start, t, i);
      if step.Advance? {
        TrackMonotone(cfg, data, start, step.tracker, i + 1);
      }
    }
  }

  /** A day that exits the loop: the exit is the day limit exactly when the day
      is past it. */
  lemma StopExits(cfg: Config, data: seq<Bar>, start: nat, t: Tracker, i: nat)
    requires start < i < |data|
    requires StepDay(cfg, data, start, t, i).Stop?
    ensures var o := Track(cfg, data, start, t, i);
      && (o.reason == Some(MaxTotalDaysExceeded) <==> o.stop < |data| && !WithinLimit(cfg, data, start, o.stop))
      && forall k :: i <= k < o.stop ==> WithinLimit(cfg, data, start, k)
  {
  }

  /** The exit facts of the rest of the loop extend back over a day within the
      limit. */
  lemma ExtendExits(cfg: Config, data: seq<Bar>, start: nat, i: nat, stop: nat)
    requires start < i < stop <= |data| && WithinLimit(cfg, data, start, i)
    requires forall k :: i + 1 <= k < stop ==> WithinLimit(cfg, data, start, k)
    ensures forall k :: i <= k < stop ==> WithinLimit(cfg, data, start, k)
  {
    forall k | i <= k < stop
      ensures WithinLimit(cfg, data, start, k)
    {
      if k > i {
        assert i + 1 <= k;
      }
    }
  }

  /** The day limit is the only exit that fires before the day is used: it fires
      exactly on the first day past the limit, and every day tracking went
      through is within it. */
  lemma {:induction false} TrackExits(cfg: Config, data: seq<Bar>, start: nat, t: Tracker, i: nat)
    requires start < i <= |data|
    ensures var o := Track(cfg, data, start, t, i);
      && (o.reason == Some(MaxTotalDaysExceeded) <==> o.stop < |data| && !WithinLimit(cfg, data, start, o.stop))
      && forall k :: i <= k < o.stop ==> WithinLimit(cfg, data, start, k)
    decreases |data| - i
  {
    if i < |data| {
      var step := StepDay(cfg, data, start, t, i);
      if step.Advance? {
        var n := step.tracker;
        var o := Track(cfg, data, start, n, i + 1);
        assert Track(cfg, data, start, t, i) == o;
        TrackExits(cfg, data, start, n, i + 1);
        ExtendExits(cfg, data, start, i, o.stop);
      } else {
        StopExits(cfg, data, start, t, i);
      }
    }
  }

  /** The state before the first tracked day: the peak is the candidate's low. */
  function InitialTracker(data: seq<Bar>, start: nat): Tracker
    requires start < |data|
  {
    Tracker(data[start].low, data[start].date, start, 0, [], false, None)
  }

  /** Tracking from the candidate at `start`, beginning with the next day. */
  function TrackFrom(cfg: Config, data: seq<Bar>, start: nat): Outcome
    requires start + 1 < |data|
  {
    Track(cfg, data, start, InitialTracker(data, start), start + 1)
  }

  /** The move record built from the state tracking ended in: a move needs a
      peak above the candidate's low; its duration runs from the start to the
      peak, and its classification follows from growth and duration. */
  function MoveFrom(cfg: Config, data: seq<Bar>, start: nat, t: Tracker, reason: Option<Termination>): (m: Option<Move>)
    requires start < |data|
    ensures m.Some? <==> t.peakPrice > data[start].low
    ensures m.Some? ==> m.value.startDate == data[start].date && m.value.startPrice == data[start].low
    ensures m.Some? ==> m.value.endDate == t.peakDate && m.value.peakPrice == t.peakPrice
    ensures m.Some? ==> m.value.durationDays == DayNumber(t.peakDate) - Day(data[start])
    ensures m.Some? ==> m.value.growthPercentage == PercentageChange(data[start].low, t.peakPrice)
    ensures m.Some? ==> m.value.drawdowns == DrawdownDates(t.drawdowns) && m.value.continuation == t.continuation
    ensures m.Some? && data[start].low > 0.0 ==> m.value.growthPercentage > 0.0
    ensures m.Some? ==> m.value.superperformance == Classify(cfg.thresholds, m.value.growthPercentage, m.value.durationDays)
    ensures m.Some? ==> m.value.newLodAfterDrawdown == t.newLodAfterDrawdown && m.value.terminationReason == reason
  {
    var lod := data[start].low;
    if t.peakPrice > lod then
      var growth := PercentageChange(lod, t.peakPrice);
      var duration := DayNumber(t.peakDate) - Day(data[start]);
      Some(Move(data[start].date, t.peakDate, lod, t.peakPrice, growth, duration,
                DrawdownDates(t.drawdowns), t.continuation, Classify(cfg.thresholds, growth, duration),
                t.newLodAfterDrawdown, reason))
    else None
  }

  /** The move detected from the candidate at `start`, if any. */
  function GrowthMove(cfg: Config, data: seq<Bar>, start: nat): (m: Option<Move>)
    ensures start >= |data| - 1 ==> m == None
    ensures m.Some? ==> start < |data| && m.value.startDate == data[start].date && m.value.startPrice == data[start].low
    ensures m.Some? ==> m.value.peakPrice > m.value.startPrice
    ensures m.Some? ==> m.value.growthPercentage == PercentageChange(m.value.startPrice, m.value.peakPrice)
    ensures m.Some? ==> m.value.newLodAfterDrawdown == None
    ensures m.Some? ==> m.value.superperformance == Classify(cfg.thresholds, m.value.growthPercentage, m.value.durationDays)
  {
    if start >= |data| - 1 then None
    else
      var o := TrackFrom(cfg, data, start);
      MoveFrom(cfg, data, start, o.tracker, o.reason)
  }

  /** The larger of the candidate's low and the highs of bars `start + 1` .. `i - 1`. */
  function RunningPeak(data: seq<Bar>, start: nat, i: nat): real
    requires start < i <= |data|
    decreases i
  {
    if i == start + 1 then data[start].low
    else
      var p := RunningPeak(data, start, i - 1);
      if data[i - 1].high > p then data[i - 1].high else p
  }

  /** The running peak is the maximum it claims to be. */
  lemma {:induction false} RunningPeakIsMax(data: seq<Bar>, start: nat, i: nat)
    requires start < i <= |data|
    ensures RunningPeak(data, start, i) >= data[start].low
    ensures forall k :: start < k < i ==> data[k].high <= RunningPeak(data, start, i)
    ensures RunningPeak(data, start, i) == data[start].low
         || exists k :: start < k < i && data[k].high == RunningPeak(data, start, i)
    decreases i
  {
    if i > start + 1 {
      RunningPeakIsMax(data, start, i - 1);
    }
  }

  /** Drawdown entries never go back in time and never repeat a date. */
  predicate DrawdownsOrdered(ds: seq<Drawdown>)
  {
    forall a, b :: 0 <= a < b < |ds| ==> DayNumber(ds[a].date) <= DayNumber(ds[b].date) && ds[a].date != ds[b].date
  }

  /** The peak part of the loop-head facts before day `i`: the peak is the
      running maximum, first reached on day `peakIndex`, and the days without a
      new high are the days since then. */
  ghost predicate PeakConsistent(data: seq<Bar>, start: nat, t: Tracker, i: nat)
  {
    && start < i <= |data|
    && start <= t.peakIndex < i
    && t.peakDate == data[t.peakIndex].date
    && t.peakPrice == RunningPeak(data, start, i)
    && (t.peakIndex == start ==> t.peakPrice == data[start].low)
    && (t.peakIndex > start ==> t.peakPrice == data[t.peakIndex].high && data[start].low < t.peakPrice)
    && (forall k :: start < k < t.peakIndex ==> data[k].high < t.peakPrice)
    && t.daysWithoutHigh == i - 1 - t.peakIndex
  }

  /** The log part of the loop-head facts before day `i`: a closed latch comes
      with a drawdown on record, recorded dates are valid dates of bars, and on
      chronological data they are in order and not after day `i - 1`. */
  ghost predicate LogConsistent(data: seq<Bar>, t: Tracker, i: nat)
  {
    && 0 < i <= |data|
    && t.newLodAfterDrawdown == None
    && (t.continuation ==> t.drawdowns != [])
    && (AllValidDates(data) ==> forall a :: 0 <= a < |t.drawdowns| ==> ValidDate(t.drawdowns[a].date))
    && (Chronological(data) ==>
          && DrawdownsOrdered(t.drawdowns)
          && forall a :: 0 <= a < |t.drawdowns| ==> DayNumber(t.drawdowns[a].date) <= Day(data[i - 1]))
  }

  /** What holds of the tracker at the head of the loop, before day `i`. */
  ghost predicate Consistent(data: seq<Bar>, start: nat, t: Tracker, i: nat)
  {
    PeakConsistent(data, start, t, i) && LogConsistent(data, t, i)
  }

  /** The last day tracking looked at, plus one: the day limit exits before the
      day is used, the other exits after its peak update. */
  function Covered(o: Outcome): nat
  {
    if o.reason == None || o.reason == Some(MaxTotalDaysExceeded) then o.stop else o.stop + 1
  }

  lemma InitialConsistent(data: seq<Bar>, start: nat)
    requires start + 1 < |data|
    ensures Consistent(data, start, InitialTracker(data, start), start + 1)
  {
  }

  lemma StepPeak(cfg: Config, data: seq<Bar>, start: nat, t: Tracker, i: nat)
    requires PeakConsistent(data, start, t, i) && i < |data|
    ensures StepDay(cfg, data, start, t, i) != Stop(t, MaxTotalDaysExceeded) ==>
      PeakConsistent(data, start, StepDay(cfg, data, start, t, i).tracker, i + 1)
  {
    RunningPeakIsMax(data, start, i);
  }

  /** A log that grows by at most one entry, dated day `i` and not repeating a
      recorded date unless days have passed since the last one, keeps the log
      facts from day `i` to day `i + 1`. */
  lemma LogAppend(data: seq<Bar>, t: Tracker, n: Tracker, i: nat)
    requires i < |data| && LogConsistent(data, t, i)
    requires n.newLodAfterDrawdown == None && (n.continuation ==> n.drawdowns != [])
    requires t.drawdowns <= n.drawdowns && |n.drawdowns| <= |t.drawdowns| + 1
    requires |n.drawdowns| == |t.drawdowns| + 1 ==>
      && Last(n.drawdowns).date == data[i].date
      && (|| t.drawdowns == []
          || DayNumber(data[i].date) - DayNumber(Last(t.drawdowns).date) > 1
          || !HasDrawdownOn(t.drawdowns, data[i].date))
    ensures LogConsistent(data, n, i + 1)
  {
    var ds := t.drawdowns;
    if |n.drawdowns| == |ds| + 1 {
      assert n.drawdowns == ds + [Last(n.drawdowns)];
      assert AllValidDates(data) ==> ValidDate(data[i].date) by {
        assert data[i] in data;
      }
      if Chronological(data) {
        assert Day(data[i - 1]) <= Day(data[i]);
        if ds != [] && DayNumber(data[i].date) - DayNumber(Last(ds).date) > 1 {
          forall a | 0 <= a < |ds|
            ensures ds[a].date != data[i].date
          {
            assert a < |ds| - 1 ==> DayNumber(ds[a].date) <= DayNumber(Last(ds).date);
          }
        }
      }
    } else {
      assert n.drawdowns == ds;
    }
  }

  lemma StepDrawdowns(cfg: Config, data: seq<Bar>, start: nat, t: Tracker, i: nat)
    requires start < i < |data| && LogConsistent(data, t, i)
    ensures LogConsistent(data, StepDay(cfg, data, start, t, i).tracker, i + 1)
  {
    StepDayLog(cfg, data, start, t, i);
    LogAppend(data, t, StepDay(cfg, data, start, t, i).tracker, i);
  }

  /** A day that exits the loop leaves the peak facts holding up to the last day
      used. */
  lemma StopPeak(cfg: Config, data: seq<Bar>, start: nat, t: Tracker, i: nat)
    requires PeakConsistent(data, start, t, i) && i < |data|
    requires StepDay(cfg, data, start, t, i).Stop?
    ensures var o := Track(cfg, data, start, t, i);
      Covered(o) <= |data| && PeakConsistent(data, start, o.tracker, Covered(o))
  {
    StepPeak(cfg, data, start, t, i);
  }

  /** The peak facts hold for the final state, up to the last day used. */
  lemma {:induction false} TrackPeak(cfg: Config, data: seq<Bar>, start: nat, t: Tracker, i: nat)
    requires PeakConsistent(data, start, t, i)
    ensures var o := Track(cfg, data, start, t, i);
      Covered(o) <= |data| && PeakConsistent(data, start, o.tracker, Covered(o))
    decreases |data| - i
  {
    if i < |data| {
      var step := StepDay(cfg, data, start, t, i);
      if step.Advance? {
        StepPeak(cfg, data, start, t, i);
        assert Track(cfg, data, start, t, i) == Track(cfg, data, start, step.tracker, i + 1);
        TrackPeak(cfg, data, start, step.tracker, i + 1);
      } else {
        StopPeak(cfg, data, start, t, i);
      }
    }
  }

  /** A day that exits the loop leaves the log facts holding up to the last day
      used: the day before for the day limit, the day itself otherwise. */
  lemma StopLog(cfg: Config, data: seq<Bar>, start: nat, t: Tracker, i: nat)
    requires start < i < |data| && LogConsistent(data, t, i)
    requires StepDay(cfg, data, start, t, i).Stop?
    ensures var o := Track(cfg, data, start, t, i);
      Covered(o) <= |data| && LogConsistent(data, o.tracker, Covered(o))
  {
    StepDrawdowns(cfg, data, start, t, i);
  }

  /** The log facts hold for the final state, up to the last day used. */
  lemma {:induction false} TrackLog(cfg: Config, data: seq<Bar>, start: nat, t: Tracker, i: nat)
    requires start < i && LogConsistent(data, t, i)
    ensures var o := Track(cfg, data, start, t, i);
      Covered(o) <= |data| && LogConsistent(data, o.tracker, Covered(o))
    decreases |data| - i
  {
    if i < |data| {
      var step := StepDay(cfg, data, start, t, i);
      if step.Advance? {
        StepDrawdowns(cfg, data, start, t, i);
        assert Track(cfg, data, start, t, i) == Track(cfg, data, start, step.tracker, i + 1);
        TrackLog(cfg, data, start, step.tracker, i + 1);
      } else {
        StopLog(cfg, data, start, t, i);
      }
    }
  }

  /** The loop-head facts hold for the final state, up to the last day used. */
  lemma TrackConsistent(cfg: Config, data: seq<Bar>, start: nat, t: Tracker, i: nat)
    requires Consistent(data, start, t, i)
    ensures var o := Track(cfg, data, start, t, i);
      Covered(o) <= |data| && Consistent(data, start, o.tracker, Covered(o))
  {
    TrackPeak(cfg, data, start, t, i);
    TrackLog(cfg, data, start, t, i);
  }

  /** Dates in strictly increasing day order. */
  predicate DatesAscending(ds: seq<Date>)
  {
    forall a, b :: 0 <= a < b < |ds| ==> DayNumber(ds[a]) < DayNumber(ds[b])
  }

  /** The final tracker of a detected move satisfies the loop-head facts up to
      the last day tracking used. */
  lemma MoveTracker(cfg: Config, data: seq<Bar>, start: nat)
    requires GrowthMove(cfg, data, start).Some?
    ensures start + 1 < |data|
    ensures var o := TrackFrom(cfg, data, start);
      Covered(o) <= |data| && Consistent(data, start, o.tracker, Covered(o))
  {
    InitialConsistent(data, start);
    TrackConsistent(cfg, data, start, InitialTracker(data, start), start + 1);
  }

  /** The peak of a move is the highest high from the day after the start up to
      the last day tracking used, it is the high of one of those days, and the
      end date is the first of those days to reach it. */
  lemma GrowthMovePeak(cfg: Config, data: seq<Bar>, start: nat)
    requires GrowthMove(cfg, data, start).Some?
    ensures start + 1 < |data|
    ensures var m := GrowthMove(cfg, data, start).value;
      var o := TrackFrom(cfg, data, start);
      && m.peakPrice == RunningPeak(data, start, Covered(o))
      && (forall k :: start < k < Covered(o) ==> data[k].high <= m.peakPrice)
      && (exists k :: start < k < Covered(o) && m.endDate == data[k].date && m.peakPrice == data[k].high
                       && forall j :: start < j < k ==> data[j].high < m.peakPrice)
  {
    MoveTracker(cfg, data, start);
    var o := TrackFrom(cfg, data, start);
    RunningPeakIsMax(data, start, Covered(o));
    assert o.tracker.peakIndex > start;
  }

  /** The termination reason of a move is absent exactly when tracking ran to the
      end of the data; the day limit fires on the first day past it. */
  lemma GrowthMoveTermination(cfg: Config, data: seq<Bar>, start: nat)
    requires GrowthMove(cfg, data, start).Some?
    ensures start + 1 < |data|
    ensures var m := GrowthMove(cfg, data, start).value;
      var o := TrackFrom(cfg, data, start);
      && m.terminationReason == o.reason
      && (m.terminationReason == None <==> o.stop == |data|)
      && (m.terminationReason == Some(MaxTotalDaysExceeded) <==>
            o.stop < |data| && !WithinLimit(cfg, data, start, o.stop))
      && (forall k :: start < k < o.stop ==> WithinLimit(cfg, data, start, k))
  {
    TrackExits(cfg, data, start, InitialTracker(data, start), start + 1);
  }

  /** When tracking stops early, its final state and reason are those of the
      step on day `o.stop`, taken from the state before that day. */
  lemma {:induction false} TrackLastDay(cfg: Config, data: seq<Bar>, start: nat, t: Tracker, i: nat)
    requires start < i <= |data|
    ensures var o := Track(cfg, data, start, t, i);
      o.reason.Some? ==>
        o.stop < |data| && exists last :: StepDay(cfg, data, start, last, o.stop) == Stop(o.tracker, o.reason.value)
    decreases |data| - i
  {
    if i < |data| {
      var step := StepDay(cfg, data, start, t, i);
      if step.Advance? {
        assert Track(cfg, data, start, t, i) == Track(cfg, data, start, step.tracker, i + 1);
        TrackLastDay(cfg, data, start, step.tracker, i + 1);
      } else {
        assert StepDay(cfg, data, start, t, i) == Stop(step.tracker, step.reason);
      }
    }
  }

  /** A low below the candidate's on `i` .. `stop - 1` would have been seen. */
  lemma ExtendAboveLod(data: seq<Bar>, start: nat, i: nat, stop: nat)
    requires start < i < stop <= |data| && data[i].low >= data[start].low
    requires forall k :: i + 1 <= k < stop ==> data[k].low >= data[start].low
    ensures forall k :: i <= k < stop ==> data[k].low >= data[start].low
  {
    forall k | i <= k < stop
      ensures data[k].low >= data[start].low
    {
      if k > i {
        assert i + 1 <= k;
      }
    }
  }

  /** Every day tracking went through has a low at or above the candidate's. */
  lemma {:induction false} TrackAboveLod(cfg: Config, data: seq<Bar>, start: nat, t: Tracker, i: nat)
    requires start < i <= |data|
    ensures var o := Track(cfg, data, start, t, i);
      forall k :: i <= k < o.stop ==> data[k].low >= data[start].low
    decreases |data| - i
  {
    if i < |data| {
      var step := StepDay(cfg, data, start, t, i);
      if step.Advance? {
        StepDayExits(cfg, data, start, t, i);
        var o := Track(cfg, data, start, step.tracker, i + 1);
        assert Track(cfg, data, start, t, i) == o;
        TrackAboveLod(cfg, data, start, step.tracker, i + 1);
        ExtendAboveLod(data, start, i, o.stop);
      }
    }
  }

  /** The exit a move records says what happened on day `o.stop`, the day
      tracking stopped: the low fell below the candidate's exactly when the day
      is within the limit and its low is below; on a day within the limit and
      above the low, the move stalled after a drawdown exactly when the drawdown
      from its peak to the day's close reached the maximum and the bars since
      the peak's bar reached the limit, and it ended for want of a new high
      exactly when that drawdown was below both thresholds after as many bars.
      No earlier day had a low below the candidate's. */
  lemma GrowthMoveExits(cfg: Config, data: seq<Bar>, start: nat)
    requires GrowthMove(cfg, data, start).Some?
    ensures start + 1 < |data|
    ensures var m := GrowthMove(cfg, data, start).value;
      var o := TrackFrom(cfg, data, start);
      && (forall k :: start < k < o.stop ==> data[k].low >= data[start].low)
      && (m.terminationReason == Some(DroppedBelowLod) <==>
            o.stop < |data| && WithinLimit(cfg, data, start, o.stop) && data[o.stop].low < data[start].low)
      && (o.stop < |data| && WithinLimit(cfg, data, start, o.stop) && data[o.stop].low >= data[start].low ==>
            var dd := PercentageChange(m.peakPrice, data[o.stop].close);
            var stalled := o.stop - o.tracker.peakIndex >= cfg.maxDaysWithoutHigh;
            && (m.terminationReason == Some(StalledAfterDrawdown(dd)) <==> stalled && dd >= cfg.maxDrawdownPercentage)
            && (m.terminationReason == Some(NoNewHigh(dd)) <==>
                  stalled && dd < cfg.maxDrawdownPercentage && dd < cfg.minDrawdownPercentage))
  {
    var t0 := InitialTracker(data, start);
    var o := TrackFrom(cfg, data, start);
    MoveTracker(cfg, data, start);
    TrackAboveLod(cfg, data, start, t0, start + 1);
    if o.reason.Some? {
      TrackLastDay(cfg, data, start, t0, start + 1);
      var last :| StepDay(cfg, data, start, last, o.stop) == Stop(o.tracker, o.reason.value);
      StepDayExits(cfg, data, start, last, o.stop);
    }
  }

  /** Dates of a move: the duration is the day difference from start to peak, it
      is not negative on date-sorted data, and valid input dates give valid move
      dates. A continuation comes with at least one drawdown. */
  lemma GrowthMoveDates(cfg: Config, data: seq<Bar>, start: nat)
    requires GrowthMove(cfg, data, start).Some?
    ensures var m := GrowthMove(cfg, data, start).value;
      && m.durationDays == DayNumber(m.endDate) - DayNumber(m.startDate)
      && (m.continuation ==> m.drawdowns != [])
      && (Chronological(data) ==> m.durationDays >= 0)
      && (AllValidDates(data) ==>
            && ValidDate(m.startDate) && ValidDate(m.endDate)
            && forall a :: 0 <= a < |m.drawdowns| ==> ValidDate(m.drawdowns[a]))
  {
    MoveTracker(cfg, data, start);
    var o := TrackFrom(cfg, data, start);
    assert o.tracker.peakIndex > start;
    assert data[o.tracker.peakIndex] in data;
    assert data[start] in data;
  }

  /** On date-sorted data with valid dates, the drawdown dates of a move ascend
      strictly: at most one drawdown per day, and never one dated before another. */
  lemma GrowthMoveDrawdownsAscend(cfg: Config, data: seq<Bar>, start: nat)
    requires GrowthMove(cfg, data, start).Some?
    requires Chronological(data) && AllValidDates(data)
    ensures DatesAscending(GrowthMove(cfg, data, start).value.drawdowns)
  {
    MoveTracker(cfg, data, start);
    var m := GrowthMove(cfg, data, start).value;
    var t := TrackFrom(cfg, data, start).tracker;
    forall a, b | 0 <= a < b < |m.drawdowns|
      ensures DayNumber(m.drawdowns[a]) < DayNumber(m.drawdowns[b])
    {
      var x, y := t.drawdowns[a].date, t.drawdowns[b].date;
      assert DayNumber(x) <= DayNumber(y) && x != y;
      if DateLe(x, y) {
        DayNumberOrder(x, y);
      } else {
        DayNumberOrder(y, x);
      }
    }
  }

  /** Tracking state in which nothing has been recorded and the latch is open. */
  ghost predicate Quiet(data: seq<Bar>, start: nat, t: Tracker, i: nat)
  {
    Consistent(data, start, t, i) && t.drawdowns == [] && !t.continuation
  }

  lemma StepQuiet(cfg: Config, data: seq<Bar>, start: nat, t: Tracker, i: nat)
    requires WellFormedBars(data)
    requires 0.0 < cfg.minDrawdownPercentage <= cfg.maxDrawdownPercentage
    requires Quiet(data, start, t, i) && i < |data|
    ensures match StepDay(cfg, data, start, t, i)
      case Stop(n, r) => !r.StalledAfterDrawdown? && n.drawdowns == [] && !n.continuation
      case Advance(n) => Quiet(data, start, n, i + 1)
  {
    StepPeak(cfg, data, start, t, i);
    StepDrawdowns(cfg, data, start, t, i);
    StepDayLog(cfg, data, start, t, i);
    var bar := data[i];
    assert bar in data && data[start] in data;
    RunningPeakIsMax(data, start, i);
    var peak := if bar.high > t.peakPrice then bar.high else t.peakPrice;
    assert 0.0 <= bar.close <= peak;
    var dd := PercentageChange(peak, bar.close);
    assert dd <= 0.0;
  }

  /** With positive drawdown thresholds, as in a "15 to 30 percent" band, and
      well-formed bars, the close never exceeds the peak, so the signed drawdown
      is never positive: no drawdown is ever recorded, the continuation latch never
      closes and the stall-after-drawdown exit never fires. */
  lemma {:induction false} TrackQuiet(cfg: Config, data: seq<Bar>, start: nat, t: Tracker, i: nat)
    requires WellFormedBars(data)
    requires 0.0 < cfg.minDrawdownPercentage <= cfg.maxDrawdownPercentage
    requires Quiet(data, start, t, i)
    ensures var o := Track(cfg, data, start, t, i);
      o.tracker.drawdowns == [] && !o.tracker.continuation
      && (o.reason.Some? ==> !o.reason.value.StalledAfterDrawdown?)
    decreases |data| - i
  {
    if i < |data| {
      StepQuiet(cfg, data, start, t, i);
      match StepDay(cfg, data, start, t, i)
      case Advance(n) => TrackQuiet(cfg, data, start, n, i + 1);
      case Stop(n, r) =>
    }
  }

  lemma GrowthMoveWithPositiveThresholds(cfg: Config, data: seq<Bar>, start: nat)
    requires WellFormedBars(data)
    requires 0.0 < cfg.minDrawdownPercentage <= cfg.maxDrawdownPercentage
    requires GrowthMove(cfg, data, start).Some?
    ensures var m := GrowthMove(cfg, data, start).value;
      m.drawdowns == [] && !m.continuation
      && (m.terminationReason.Some? ==> !m.terminationReason.value.StalledAfterDrawdown?)
  {
    InitialConsistent(data, start);
    TrackQuiet(cfg, data, start, InitialTracker(data, start), start + 1);
  }
  /** One day of tracking, as the loop body does it: the day limit, the peak
      update, the drop below the candidate's low, the drawdown log, the
      continuation check and the two stall exits. `reason` is the exit that fired. */
  method TrackDay(cfg: Config, data: seq<Bar>, start: nat, t: Tracker, i: nat)
    returns (next: Tracker, reason: Option<Termination>)
    requires start < i < |data|
    ensures StepDay(cfg, data, start, t, i) == if reason == None then Advance(next) else Stop(next, reason.value)
  {
    var lodPrice := data[start].low;
    var startDay := DayNumber(data[start].date);
    var peakPrice, peakDate, peakIndex, daysWithoutHigh := t.peakPrice, t.peakDate, t.peakIndex, t.daysWithoutHigh;
    var drawdowns, continuationOccurred, newLodAfterDrawdown := t.drawdowns, t.continuation, t.newLodAfterDrawdown;

    var current := data[i];
    var currentDay := DayNumber(current.date);
    var daysSinceStart := currentDay - startDay;
    if daysSinceStart > cfg.maxTotalDays {
      return t, Some(MaxTotalDaysExceeded);
    }

    if current.high > peakPrice {
      peakPrice := current.high;
      peakDate := current.date;
      peakIndex := i;
      daysWithoutHigh := 0;
    } else {
      daysWithoutHigh := daysWithoutHigh + 1;
    }

    var currentDrawdown := PercentageChange(peakPrice, current.close);
    ghost var t1 := Tracker(peakPrice, peakDate, peakIndex, daysWithoutHigh, drawdowns,
                            continuationOccurred, newLodAfterDrawdown);
    assert t1 == UpdatePeak(t, current, i);

    if current.low < lodPrice {
      next := Tracker(peakPrice, peakDate, peakIndex, daysWithoutHigh, drawdowns,
                      continuationOccurred, newLodAfterDrawdown);
      return next, Some(DroppedBelowLod);
    }

    if cfg.minDrawdownPercentage <= currentDrawdown < cfg.maxDrawdownPercentage {
      if drawdowns == [] || currentDay - DayNumber(drawdowns[|drawdowns| - 1].date) > 1 {
        drawdowns := drawdowns + [Drawdown(current.date, currentDrawdown, current.close)];
      }
    }

    ghost var t2 := Tracker(peakPrice, peakDate, peakIndex, daysWithoutHigh, drawdowns,
                            continuationOccurred, newLodAfterDrawdown);
    assert t2 == RecordBandDrawdown(cfg, t1, current, currentDrawdown);

    if drawdowns != [] && !continuationOccurred {
      var daysSincePeak := currentDay - DayNumber(peakDate);
      if daysSincePeak <= cfg.continuationWindowDays && current.high > peakPrice {
        continuationOccurred := true;
        newLodAfterDrawdown := LowestPrice(drawdowns);
      } else if daysSincePeak <= cfg.continuationWindowDays && currentDrawdown < cfg.minDrawdownPercentage {
        var lastDrawdown := drawdowns[|drawdowns| - 1];
        if currentDay - DayNumber(lastDrawdown.date) <= 30 && current.close > lastDrawdown.price {
          continuationOccurred := true;
        }
      }
    }

    ghost var t3 := Tracker(peakPrice, peakDate, peakIndex, daysWithoutHigh, drawdowns,
                            continuationOccurred, newLodAfterDrawdown);
    assert t3 == CheckContinuation(cfg, t2, current, currentDrawdown);
    ghost var closed := CloseDay(cfg, t3, current, currentDrawdown);

    if currentDrawdown >= cfg.maxDrawdownPercentage {
      if !HasDrawdownOn(drawdowns, current.date) {
        drawdowns := drawdowns + [Drawdown(current.date, currentDrawdown, current.close)];
      }
      next := Tracker(peakPrice, peakDate, peakIndex, daysWithoutHigh, drawdowns,
                      continuationOccurred, newLodAfterDrawdown);
      if daysWithoutHigh >= cfg.maxDaysWithoutHigh {
        return next, Some(StalledAfterDrawdown(currentDrawdown));
      }
      return next, None;
    }

    next := Tracker(peakPrice, peakDate, peakIndex, daysWithoutHigh, drawdowns,
                    continuationOccurred, newLodAfterDrawdown);
    if daysWithoutHigh >= cfg.maxDaysWithoutHigh {
      if currentDrawdown < cfg.minDrawdownPercentage {
        return next, Some(NoNewHigh(currentDrawdown));
      }
    }
    reason := None;
  }

  /** The tracking loop: starting at the candidate's low, each day either carries
      the tracker on or breaks the loop with the exit that fired. */
  method RunTracker(cfg: Config, data: seq<Bar>, start: nat) returns (state: Tracker, terminationReason: Option<Termination>)
    requires start + 1 < |data|
    ensures state == TrackFrom(cfg, data, start).tracker && terminationReason == TrackFrom(cfg, data, start).reason
  {
    var startBar := data[start];
    state := Tracker(startBar.low, startBar.date, start, 0, [], false, None);
    terminationReason := None;

    var i := start + 1;
    while i < |data|
      invariant start < i <= |data|
      invariant Track(cfg, data, start, state, i) == TrackFrom(cfg, data, start)
    {
      ghost var before := state;
      var reason;
      state, reason := TrackDay(cfg, data, start, state, i);
      if reason != None {
        terminationReason := reason;
        break;
      }
      assert Track(cfg, data, start, before, i) == Track(cfg, data, start, state, i + 1);
      i := i + 1;
    }
  }

  /** Tracks the candidate at `start` and builds its move record: a move needs a
      peak above the candidate's low, runs from the start to the peak, and is
      classified by its growth and duration. */
  method DetectGrowthMove(cfg: Config, data: seq<Bar>, start: nat) returns (move: Option<Move>)
    ensures move == GrowthMove(cfg, data, start)
    ensures move.Some? ==> move.value.peakPrice > move.value.startPrice
    ensures move.Some? ==> move.value.newLodAfterDrawdown == None
  {
    if start >= |data| - 1 {
      return None;
    }
    var startBar := data[start];
    var lodPrice := startBar.low;
    var startDay := DayNumber(startBar.date);
    var state, terminationReason := RunTracker(cfg, data, start);

    if state.peakPrice > lodPrice {
      var growthPercentage := PercentageChange(lodPrice, state.peakPrice);
      var durationDays := DayNumber(state.peakDate) - startDay;
      var status := Classify(cfg.thresholds, growthPercentage, durationDays);
      move := Some(Move(startBar.date, state.peakDate, lodPrice, state.peakPrice, growthPercentage, durationDays,
                        DrawdownDates(state.drawdowns), state.continuation, status, state.newLodAfterDrawdown,
                        terminationReason));
    } else {
      move := None;
    }
  }
}
