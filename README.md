# Growth-move detector

A Dafny model of the growth-move detector behind a stock screener (`StockAnalyzer`
in `stock_analyzer.py`). For one ticker the detector:

- sorts the daily bars by date;
- picks as candidates the lowest-of-day (LOD) bars from which the highest high of
  the next `GROWTH_MOVE_DAYS` bars is at least `MIN_GROWTH_PERCENTAGE` above the
  bar's low;
- tracks a move forward from each candidate. Tracking raises the peak on new
  highs, logs drawdowns, latches a continuation flag, and stops on one of four
  exits;
- classifies each move as Growth, Superperformance or 'None' by its growth and
  duration;
- annotates each move with formatted dates and Yes/No flags, skipping candidates
  within four bars of a start already reported;
- filters the qualifying moves and renders each one as a six-cell output row.

Modules:

- `Prices`: the signed percentage change.
- `Dates`:
  - calendar dates and their day numbers, which count days the way the source's
    date differences do;
  - the `Mon DD, YYYY` rendering and its inverse.
- `Bars`:
  - the bar record and the configuration record;
  - the sort by date.
- `Candidates`: the LOD candidate scan.
- `Classification`: the growth and duration bands.
- `Tracking`: move detection.
  - The specification is the recursive function `Track`, which applies `StepDay`
    once per day.
  - The imperative method `DetectGrowthMove` mirrors the source loop with its
    breaks and is proved equal to `GrowthMove`.
- `Analyzer`: the per-ticker driver, the filter and the output row.
  - The driver loop, `ReportCandidates`, is proved equal to the function
    `Reports`.
  - `Reports` is defined from the scan `ScanCandidates`, whose properties are
    proved as lemmas.

The configuration constants are a parameter record. Nothing is assumed about
their values or signs, except `GROWTH_MOVE_DAYS >= 1` where the candidate window
needs it.

The model follows the code's behaviour exactly:

- Continuation check, new-high branch (`stock_analyzer.py:156-162`):
  - The test compares today's high with a peak that was already raised to
    today's high, so this branch can never be taken.
  - As a result, the continuation latch closes only on the recovery signal, and
    `new_lod_after_drawdown` is always `None` (`CheckContinuation`,
    `GrowthMove`).
- Sign of the drawdown (`GrowthMoveWithPositiveThresholds`):
  - The drawdown is the signed change from the peak to the close, so it is never
    positive for a non-negative peak when the close is at or below it.
  - Under positive drawdown thresholds (a "15 to 30 percent" band) and
    non-negative bars with low <= close <= high, no drawdown is ever logged, the continuation flag never
    latches, and the stall-after-drawdown exit never fires.
- Processed starts:
  - Only the starts of reported moves are marked as processed.
  - A candidate that yields no move does not block its neighbours.

## Model

| member | source | states |
|---|---|---|
| Prices.PercentageChange | stock_analyzer.py:43-47 | 0 for a zero start. Otherwise, applying the change to the start gives back the end price. For a positive start, the change is positive, zero or negative exactly when the end is above, equal to or below the start. |
| Prices.ChangeRoundTrip | stock_analyzer.py:43-47 | For a non-zero start, the change from the start to the start moved by `p` percent is `p`. |
| Prices.ChangeOfSamePrice | stock_analyzer.py:43-47 | Equal prices give a change of 0, including a start of 0. |
| Prices.ChangeMonotone | stock_analyzer.py:43-47 | For a positive start, a higher end price never gives a smaller change. |
| Dates.DaysBeforeYearFormula | stock_analyzer.py:110 | The recursive count of days before a year equals the Gregorian closed form `365(y-1) + (y-1)/4 - (y-1)/100 + (y-1)/400`. |
| Dates.DaysBeforeMonthTable | stock_analyzer.py:110 | Days before each month follow the cumulative month-length table, plus one from March on in leap years. |
| Dates.YearsOrdered | stock_analyzer.py:110 | A later year starts after the whole of an earlier year. |
| Dates.MonthsOrdered | stock_analyzer.py:110 | A later month of the same year starts after the whole of an earlier month. |
| Dates.DayOfYearBounds | stock_analyzer.py:110 | The day-of-year of a valid date lies between 1 and the length of its year. |
| Dates.DayNumberOrder | stock_analyzer.py:263 | For valid dates, date order implies day-number order. Distinct dates have distinct day numbers, so sorting by date orders bars in time. |
| Dates.FormatDate | stock_analyzer.py:39 | The `Mon DD, YYYY` rendering is always 12 characters: a space after the month, digits for the day, a comma and a space, then four digits for the year. |
| Dates.MonthAbbreviationRoundTrip | stock_analyzer.py:39 | The three-letter month name reads back as its month. |
| Dates.TwoDigitsRoundTrip | stock_analyzer.py:39 | The zero-padded day reads back as the day. |
| Dates.FourDigitsRoundTrip | stock_analyzer.py:39 | The zero-padded year reads back as the year. |
| Dates.FormatDateRoundTrip | stock_analyzer.py:39 | Parsing the rendering of a valid date gives the date back. |
| Dates.FormatDateInjective | stock_analyzer.py:39 | Distinct valid dates render differently. |
| Bars.InsertByDate | stock_analyzer.py:263 | Inserting a bar adds exactly that bar to the multiset of bars. |
| Bars.InsertKeepsSorted | stock_analyzer.py:263 | Inserting into a date-sorted sequence keeps it sorted. |
| Bars.SortByDate | stock_analyzer.py:263 | The result is sorted by date and is a permutation of the input. |
| Bars.SortKeepsValidDates | stock_analyzer.py:263 | Sorting keeps every bar's date valid. |
| Bars.SortedIsChronological | stock_analyzer.py:263 | Date-sorted bars with valid dates have non-decreasing day numbers, so date differences along them are never negative. |
| Candidates.WindowMax | stock_analyzer.py:57-60 | The window maximum is at least every high in the lookahead window. |
| Candidates.WindowMaxAttained | stock_analyzer.py:60 | The window maximum is the high of some bar in the window. |
| Candidates.CandidatesBelowSound | stock_analyzer.py:53-69 | Each record is a bar that has a full window and enough lookahead growth. The record carries that bar's date, low, growth and index. |
| Candidates.CandidatesBelowAscending | stock_analyzer.py:53-69 | Candidate indices strictly ascend. |
| Candidates.CandidatesBelowComplete | stock_analyzer.py:53-69 | Every qualifying bar below the bound is recorded. |
| Candidates.FindCandidates | stock_analyzer.py:49-71 | The loop returns the candidate list, which is sound, strictly ascending by index and complete. |
| Classification.Classify | stock_analyzer.py:233-246 | 'None' outside 64..504 days. Inside each band, the move qualifies exactly when growth reaches either of the band's thresholds. A Growth tag means growth is below the Superperformance threshold. Superperformance means 64..252 days with growth at the first Superperformance threshold, or 253..504 days with growth at the second. |
| Classification.ClassifyMonotone | stock_analyzer.py:233-246 | More growth over the same duration never gives a weaker tag. |
| Tracking.LowestPrice | stock_analyzer.py:159-161 | Absent exactly for an empty log. Otherwise it is the minimum drawdown close, and some entry attains it. |
| Tracking.DrawdownDates | stock_analyzer.py:224 | The move's drawdown list is the log's dates, one for one. |
| Tracking.UpdatePeak | stock_analyzer.py:119-127 | The peak never falls and reaches at least today's high. A high only equal to the peak leaves the peak day and date in place and adds a day without a high. A raised peak is today's high, date and index, with the count reset to 0. Nothing outside the peak changes. |
| Tracking.RecordBandDrawdown | stock_analyzer.py:139-148 | Only the log changes, and it either stays as it is or gains today's entry. The entry is added exactly when the drawdown is at least the minimum and below the maximum, and the log is empty or its last entry is more than one day old. |
| Tracking.CheckContinuation | stock_analyzer.py:150-175 | With the peak already at or above today's high, the latch closes exactly on the recovery signal. Nothing else changes. |
| Tracking.RecordMajorDrawdown | stock_analyzer.py:179-187 | Only the log changes, and it either stays as it is or gains today's entry. The entry is added exactly when no entry has today's date. |
| Tracking.CloseDay | stock_analyzer.py:177-203 | A drawdown at or above the maximum is recorded as a major drawdown, and otherwise the state is untouched. The day stops tracking exactly when the days without a new high have reached their limit and the drawdown is at or above the maximum or below the minimum. The reason is a stall after a drawdown in the first case and no new high in the second. |
| Tracking.StepDay | stock_analyzer.py:102-203 | The day limit stops tracking exactly when the day is past the limit, and the state is then untouched. Otherwise the peak part of the state is the peak update's. `StepDayExits` states the other exits, the log entry and the latch for the same step. |
| Tracking.Track | stock_analyzer.py:102-203 | The loop stops inside the data, and there is no exit reason exactly when it ran off the end. |
| Tracking.StepDayLog | stock_analyzer.py:119-187 | In one day the peak never falls and the log grows by at most one entry, dated today and not a repeat. The latch is one-way and closes only with a drawdown on record, within the window after the peak. |
| Tracking.TrackMonotone | stock_analyzer.py:102-203 | Over the whole loop the peak never falls, the log is append-only, and a closed latch stays closed. |
| Tracking.TrackExits | stock_analyzer.py:112-117 | The day-limit exit fires exactly on the first day past the limit, and every day tracked is within it. |
| Tracking.MoveFrom | stock_analyzer.py:205-231 | There is a move exactly when the peak is above the candidate's low. Its start, end, prices, duration, classification and reason come from the final state, and growth is positive for a positive low. The growth is the percentage change from the candidate's low to the peak. The drawdown dates and the continuation flag are those of the final state. |
| Tracking.GrowthMove | stock_analyzer.py:73-231 | None when the start is at or past the last bar. Otherwise a move starts at the candidate, has its peak above the start, is classified by its growth and duration, and has no post-drawdown low. Its growth is the percentage change from its start price to its peak price. |
| Tracking.RunningPeakIsMax | stock_analyzer.py:119-127 | The running peak is the largest of the candidate's low and the highs seen so far. |
| Tracking.InitialConsistent | stock_analyzer.py:88-94 | The initial state satisfies the loop-head invariant. |
| Tracking.StepPeak | stock_analyzer.py:119-127 | A day that does not hit the day limit keeps the peak invariant. The peak is the running maximum, first reached on `peak_index` with that day's date: every earlier tracked day's high is strictly below it. The days without a high are counted since then. |
| Tracking.LogAppend | stock_analyzer.py:139-187 | A log that gains at most one entry, dated today and not a repeat, keeps the log invariant: dates ordered, valid, not in the future. |
| Tracking.StepDrawdowns | stock_analyzer.py:139-187 | One day keeps the log invariant. |
| Tracking.TrackPeak | stock_analyzer.py:102-127 | The peak invariant holds for the final state, up to the last day used. |
| Tracking.TrackLog | stock_analyzer.py:102-203 | The log invariant holds for the final state, up to the last day used. |
| Tracking.TrackConsistent | stock_analyzer.py:102-203 | The full loop-head invariant holds at exit. |
| Tracking.MoveTracker | stock_analyzer.py:73-231 | A detected move's final state satisfies the loop-head invariant. |
| Tracking.GrowthMovePeak | stock_analyzer.py:119-127 | The peak is the highest high over the days tracked, and the end date is the date of the first day with that high. |
| Tracking.GrowthMoveTermination | stock_analyzer.py:102-117 | The reason is absent exactly when the loop ran off the end of the data. The day limit fires on the first day past it. |
| Tracking.GrowthMoveDates | stock_analyzer.py:205-224 | The duration is the days from start to peak, and it is not negative on sorted data. Valid input dates give valid move dates. A continuation comes with a drawdown. |
| Tracking.GrowthMoveDrawdownsAscend | stock_analyzer.py:139-187 | On sorted data the drawdown dates strictly ascend: at most one per day. |
| Tracking.StepQuiet | stock_analyzer.py:129-203 | Under positive drawdown thresholds and well-formed bars, a day with an empty log and an open latch records nothing, latches nothing, and never stalls after a drawdown. |
| Tracking.TrackQuiet | stock_analyzer.py:129-203 | The same over the whole loop. |
| Tracking.GrowthMoveWithPositiveThresholds | stock_analyzer.py:139-203 | Under positive drawdown thresholds and well-formed (non-negative) bars, every move has no drawdowns and no continuation, and no stall-after-drawdown exit. |
| Tracking.TrackDay | stock_analyzer.py:103-203 | The loop body with its breaks computes exactly one day of `StepDay`. |
| Tracking.StepDayExits | stock_analyzer.py:112-203 | For a day within the range, the day exits below the candidate's low exactly when it is within the limit and its low is below the start's low. It stalls after a drawdown, or stops with no new high, exactly under the source's stall conditions on the updated peak. It advances exactly otherwise. Today's drawdown entry is logged exactly when the day is tracked and the band or major recording rule applies. The continuation latch is closed after the day exactly when it was closed before, or the day is tracked and shows the recovery signal after the band record. |
| Tracking.TrackLastDay | stock_analyzer.py:102-203 | A tracking run that ends with a reason stops on a bar inside the data, and that bar's step produces the final state and reason. |
| Tracking.TrackAboveLod | stock_analyzer.py:132-137 | Every day that tracking passes through has a low at or above the candidate's low. |
| Tracking.GrowthMoveExits | stock_analyzer.py:102-231 | For a detected move, every day between the start and the stop day stays at or above the start's low. The move ends below the candidate's low exactly when the stop day is within the limit and its low is below the start's. On a stop day within the limit and above the low, the move ends with a stall after a drawdown, or with no new high, exactly under the source's stall conditions, with the drawdown measured from the move's peak. |
| Tracking.RunTracker | stock_analyzer.py:88-203 | The loop, with its breaks, ends in the final state and exit reason of `TrackFrom`. |
| Tracking.DetectGrowthMove | stock_analyzer.py:73-231 | Returns exactly `GrowthMove`: the peak is above the start and there is no post-drawdown low. |
| Analyzer.FormatDates | stock_analyzer.py:286 | Each drawdown date is rendered in place. |
| Analyzer.Annotate | stock_analyzer.py:282-288 | Keeps the ticker and the move. The continuation flag is "Yes" exactly on a continuation, and the superperformance flag is "Yes" exactly for Growth or Superperformance. |
| Analyzer.AnnotateReadsBack | stock_analyzer.py:282-288 | Every rendered date reads back as the move's date, and each flag is "No" exactly when it is not "Yes". |
| Analyzer.NearProcessedIff | stock_analyzer.py:275 | The test against the processed set agrees with the test against the reported starts. |
| Analyzer.DetectionAt | stock_analyzer.py:279 | Entry `k` of the detections is the move detected from candidate `k`. |
| Analyzer.DetectCandidate | stock_analyzer.py:279 | Detects the move of candidate `k`, with valid dates. |
| Analyzer.ScanCandidates | stock_analyzer.py:271-291 | One start is recorded per reported move. |
| Analyzer.ScanSound | stock_analyzer.py:271-291 | Each reported move is the detection of a scanned candidate, with its start at that candidate's index. |
| Analyzer.ScanSpacing | stock_analyzer.py:274-276 | On ascending candidates, reported starts ascend at least five bars apart. |
| Analyzer.ScanComplete | stock_analyzer.py:271-291 | Every scanned candidate is near a reported start or yields no move. |
| Analyzer.ScanPrefixes | stock_analyzer.py:290 | Reports are append-only: each prefix scan's moves are a prefix of the full scan's. |
| Analyzer.AnalysisProperties | stock_analyzer.py:248-293 | Short data gives no moves. Starts are spaced at least five apart. Every move is the detection of a candidate of the sorted bars, and every candidate is near a start or yields no move. |
| Analyzer.AnalysisMovesOrdered | stock_analyzer.py:263-291 | On valid dates, every reported move has valid dates, a non-negative duration and strictly ascending drawdown dates. |
| Analyzer.AnnotateAll | stock_analyzer.py:282-290 | Each move keeps its place and gets the ticker, and each entry is exactly that move's annotation: rendered drawdown dates and Yes/No flags. |
| Analyzer.AnnotateAllAppend | stock_analyzer.py:290 | Appending a move appends its annotation. |
| Analyzer.ReportCandidate | stock_analyzer.py:272-291 | One round of the driver loop keeps the reported moves equal to the annotated scan of the candidates so far, and the processed set equal to the reported starts. |
| Analyzer.ReportCandidates | stock_analyzer.py:268-293 | The driver loop returns the annotated moves of the scan over all candidates. |
| Analyzer.AnalyzeStock | stock_analyzer.py:248-293 | Returns exactly `Reports`, the annotated analysis, so `AnalysisProperties` applies. Short data gives []. |
| Analyzer.KeepQualified | stock_analyzer.py:295-304 | Keeps exactly the reports tagged Growth or Superperformance. |
| Analyzer.KeepQualifiedAppend | stock_analyzer.py:295-304 | The filter distributes over concatenation, so it keeps the order of the reports it keeps. |
| Analyzer.KeepQualifiedAll | stock_analyzer.py:295-304 | A list of qualifying reports is left unchanged. |
| Analyzer.KeepQualifiedIdempotent | stock_analyzer.py:295-304 | Filtering twice is filtering once. |
| Analyzer.FilterValidMoves | stock_analyzer.py:295-304 | The loop returns `KeepQualified` of its input. |
| Analyzer.JoinedDates | stock_analyzer.py:308 | Joining 12-character dates with ", " gives length `14n - 2`, with date `k` at offset `14k`. |
| Analyzer.OutputRow | stock_analyzer.py:306-317 | Six cells in order. The drawdown cell is "none" for no drawdowns and the comma-joined dates otherwise. |
| Analyzer.OutputRowOfMove | stock_analyzer.py:306-317 | The row of an annotated move reads back as the move. The dates parse back and the flags are "Yes" exactly when the move qualifies or continued. The drawdown cell is "none" exactly when there are none; otherwise date `k` parses back from offset `14k`. |

## Left out

- Logging, `debug_move_analysis`, the `data_cache` field and the constructor: diagnostics and state the detector never reads.
- `comprehensive_screener.py`, the data fetch and the sheet upload: they are not part of this model.
- Configuration values: `config.py` is not part of this model. The constants are a parameter record.
- Date parsing: bars carry parsed dates. Parsing with `strptime`, its error on malformed strings, and `format_date`'s fallback to `str(date)` are left out.
- Analyzer.AnalyzeStock: requires valid calendar dates, where the source would raise on an unparsable date string.
- Analyzer.AnalyzeStock: requires `GROWTH_MOVE_DAYS >= 1`. With 0 the source's lookahead window is empty and `max` raises.
- Candidates.FindCandidates: requires `GROWTH_MOVE_DAYS >= 1` on non-empty data, for the same reason.
- Bars.SortByDate:
  - Sorts by calendar date, which for four-digit ISO date strings is the source's string order.
  - Stability for bars with equal dates is not stated.
- Dates.FormatDate: always writes the year with four digits. The platform's `strftime` may not pad years below 1000.
- Termination messages: the `:.1f` texts are constructors carrying the drawdown value.
- Floating point: prices and percentages are exact reals, so rounding is not modelled.
- Output row: the list of six cells is modelled, not the sheet it is written to.
