/** Price arithmetic used throughout the analyzer. */
module Prices {

  /** Signed percentage change from `start` to `end`; a zero start price yields 0
      instead of a division by zero. */
  function PercentageChange(start: real, end: real): (r: real)
    ensures start == 0.0 ==> r == 0.0
    ensures start != 0.0 ==> ApplyChange(start, r) == end
    ensures start > 0.0 ==> (r > 0.0 <==> end > start)
    ensures start > 0.0 ==> (r == 0.0 <==> end == start)
    ensures start > 0.0 ==> (r < 0.0 <==> end < start)
  {
    if start == 0.0 then 0.0
    else
      var r := (end - start) / start * 100.0;
      assert start * ((end - start) / start) == end - start;
      r
  }

  /** The price reached from `start` after a change of `percent` percent. */
  function ApplyChange(start: real, percent: real): real
  {
    start + start * percent / 100.0
  }

  /** Applying a change and measuring it again gives the change back. */
  lemma ChangeRoundTrip(start: real, percent: real)
    requires start != 0.0
    ensures PercentageChange(start, ApplyChange(start, percent)) == percent
  {
    var e := ApplyChange(start, percent);
    assert e - start == start * (percent / 100.0);
    assert (e - start) / start == percent / 100.0;
  }

  /** No change between equal prices. */
  lemma ChangeOfSamePrice(p: real)
    ensures PercentageChange(p, p) == 0.0
  {
  }

  /** For a positive start price the change grows with the end price. */
  lemma ChangeMonotone(start: real, e1: real, e2: real)
    requires start > 0.0 && e1 <= e2
    ensures PercentageChange(start, e1) <= PercentageChange(start, e2)
  {
    var r1, r2 := PercentageChange(start, e1), PercentageChange(start, e2);
    assert start * r1 / 100.0 == e1 - start;
    assert start * r2 / 100.0 == e2 - start;
    assert start * (r2 - r1) >= 0.0;
  }
}
