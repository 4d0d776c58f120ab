/**
 The four balances the projection carries from year to year, and the
 integer snapshot it records for each age.
 */
module Balances {
  import opened Money

  /** Cash, the 401k retirement account, the NISA account and the general
      ("Other") account, in exact yen. */
  datatype State = State(cash: real, k401: real, nisa: real, other: real)
  {
    function Total(): real
    {
      cash + k401 + nisa + other
    }

    /** Only cash may go below zero. */
    predicate AssetsNonNegative()
    {
      k401 >= 0.0 && nisa >= 0.0 && other >= 0.0
    }
  }

  /** One row of the projection: every figure truncated to whole yen. */
  datatype Record = Record(age: int, total: int, cash: int, k401: int, nisa: int, other: int)

  /** The record for `age`, read off a single state. */
  function Snapshot(age: int, s: State): (r: Record)
    ensures r.age == age
  {
    Record(age, Trunc(s.Total()), Trunc(s.cash), Trunc(s.k401), Trunc(s.nisa), Trunc(s.other))
  }

  /** Every figure of a record is the truncation of the same state's exact
      value. The total is the truncation of the exact sum, so it may differ
      from the sum of the truncated parts, by at most 4 yen. */
  lemma SnapshotTruncates(age: int, s: State)
    ensures var r := Snapshot(age, s);
            && IsTruncation(r.total, s.Total())
            && IsTruncation(r.cash, s.cash) && IsTruncation(r.k401, s.k401)
            && IsTruncation(r.nisa, s.nisa) && IsTruncation(r.other, s.other)
            && -4 <= r.total - (r.cash + r.k401 + r.nisa + r.other) <= 4
  {
    TruncOfSumClose(s.cash, s.k401, s.nisa, s.other);
  }

  /** The total and the parts can disagree: four balances of half a yen
      each record as 0 apiece but total 2. */
  lemma TotalMayDifferFromSumOfParts()
    ensures var r := Snapshot(0, State(0.5, 0.5, 0.5, 0.5)); r.total == 2 && r.cash + r.k401 + r.nisa + r.other == 0
  {
  }
}
