/** Classification of a move by its growth and its duration in calendar days. */
module Classification {
  import opened Bars

  /** The classification tags; `Unqualified` is the tag spelled 'None'. */
  datatype Classification = Unqualified | Growth | Superperformance

  /** Growth and Superperformance moves qualify; reports mark them "Yes". */
  predicate Qualifies(c: Classification)
  {
    c == Growth || c == Superperformance
  }

  /** Strength order of the tags. */
  function Rank(c: Classification): nat
  {
    match c
    case Unqualified => 0
    case Growth => 1
    case Superperformance => 2
  }

  /** Durations 64 to 252 days form the first band, 253 to 504 the second;
      within a band the Superperformance threshold is tried first. */
  function Classify(th: Thresholds, growth: real, duration: int): (c: Classification)
    ensures duration < 64 || duration > 504 ==> c == Unqualified
    ensures 64 <= duration <= 252 ==>
      (Qualifies(c) <==> growth >= th.super64To252 || growth >= th.growth64To252)
    ensures 252 < duration <= 504 ==>
      (Qualifies(c) <==> growth >= th.super252To504 || growth >= th.growth252To504)
    ensures c == Growth ==> growth < (if duration <= 252 then th.super64To252 else th.super252To504)
    ensures c == Superperformance <==>
      (64 <= duration <= 252 && growth >= th.super64To252) || (252 < duration <= 504 && growth >= th.super252To504)
  {
    if 64 <= duration <= 252 then
      if growth >= th.super64To252 then Superperformance
      else if growth >= th.growth64To252 then Growth
      else Unqualified
    else if 252 < duration <= 504 then
      if growth >= th.super252To504 then Superperformance
      else if growth >= th.growth252To504 then Growth
      else Unqualified
    else Unqualified
  }

  /** More growth over the same duration never gives a weaker tag. */
  lemma ClassifyMonotone(th: Thresholds, g1: real, g2: real, duration: int)
    requires g1 <= g2
    ensures Rank(Classify(th, g1, duration)) <= Rank(Classify(th, g2, duration))
  {
  }
}
