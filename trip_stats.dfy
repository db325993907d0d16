/** The two aggregates a driver reports over its trips: the average rating of
    its completed trips and the revenue its billed trips earn it. Both are
    defined on a sequence of trips, folding from the most recent trip back,
    so that adding a trip extends the fold by one step. */
module TripStats {
  import opened Trips

  /** The fixed fee taken off each trip's cost before the driver's share. */
  const FEE: real := 1.65
  /** The part of a trip's cost, after the fee, that goes to the driver. */
  const DRIVER_PERCENT: real := 0.8

  /** The number of completed trips. */
  function CompletedCount(ts: seq<Trip>): (n: nat)
    ensures n <= |ts|
  {
    if ts == [] then 0
    else CompletedCount(ts[..|ts| - 1]) + (if Completed(ts[|ts| - 1]) then 1 else 0)
  }

  /** The sum of the ratings of the completed trips. */
  function RatingSum(ts: seq<Trip>): int
  {
    if ts == [] then 0
    else RatingSum(ts[..|ts| - 1]) + (if Completed(ts[|ts| - 1]) then ts[|ts| - 1].rating.value else 0)
  }

  /** The mean rating over the completed trips, and 0 when there are none. */
  function AverageRating(ts: seq<Trip>): (r: real)
    ensures CompletedCount(ts) == 0 ==> r == 0.0
    ensures r * CompletedCount(ts) as real == RatingSum(ts) as real || CompletedCount(ts) == 0
  {
    var n := CompletedCount(ts);
    if n == 0 then 0.0 else RatingSum(ts) as real / n as real
  }

  /** Every completed trip's rating lies in lo..hi. */
  ghost predicate RatingsWithin(ts: seq<Trip>, lo: int, hi: int)
  {
    forall i :: 0 <= i < |ts| && Completed(ts[i]) ==> lo <= ts[i].rating.value <= hi
  }

  /** What one trip earns its driver: the percentage of its cost above the
      fee, and nothing when the cost does not exceed the fee. */
  function DriverShare(cost: real): (r: real)
    ensures r >= 0.0 && r >= DRIVER_PERCENT * (cost - FEE)
    ensures r == 0.0 || r == DRIVER_PERCENT * (cost - FEE)
    ensures r == 0.0 <==> cost <= FEE
  {
    if cost > FEE then DRIVER_PERCENT * (cost - FEE) else 0.0
  }

  /** What a trip adds to its driver's revenue: its share when billed,
      otherwise nothing. */
  function Earning(t: Trip): (r: real)
    ensures r >= 0.0
    ensures Billed(t) ==> r == DriverShare(t.cost.value)
    ensures !Billed(t) ==> r == 0.0
  {
    if Billed(t) then DriverShare(t.cost.value) else 0.0
  }

  /** The driver's total revenue over the trips. */
  function TotalRevenue(ts: seq<Trip>): (r: real)
    ensures r >= 0.0
  {
    if ts == [] then 0.0
    else TotalRevenue(ts[..|ts| - 1]) + Earning(ts[|ts| - 1])
  }

  /** The count and the sum of ratings over two runs of trips are the sums
      of those over each. */
  lemma {:induction false} RatingStatsAppend(ts: seq<Trip>, us: seq<Trip>)
    ensures CompletedCount(ts + us) == CompletedCount(ts) + CompletedCount(us)
    ensures RatingSum(ts + us) == RatingSum(ts) + RatingSum(us)
  {
    if us == [] {
      assert ts + us == ts;
    } else {
      var init := us[..|us| - 1];
      assert (ts + us)[..|ts + us| - 1] == ts + init;
      assert (ts + us)[|ts + us| - 1] == us[|us| - 1];
      RatingStatsAppend(ts, init);
    }
  }

  /** The revenue over two runs of trips is the sum of the revenue of each. */
  lemma {:induction false} TotalRevenueAppend(ts: seq<Trip>, us: seq<Trip>)
    ensures TotalRevenue(ts + us) == TotalRevenue(ts) + TotalRevenue(us)
  {
    if us == [] {
      assert ts + us == ts;
    } else {
      var init := us[..|us| - 1];
      assert (ts + us)[..|ts + us| - 1] == ts + init;
      assert (ts + us)[|ts + us| - 1] == us[|us| - 1];
      TotalRevenueAppend(ts, init);
    }
  }

  /** A single trip's contribution to each aggregate. */
  lemma SingleTrip(t: Trip)
    ensures CompletedCount([t]) == (if Completed(t) then 1 else 0)
    ensures RatingSum([t]) == (if Completed(t) then t.rating.value else 0)
    ensures TotalRevenue([t]) == Earning(t)
  {
  }

  /** An in-progress trip, wherever it stands among the others, leaves the
      average rating unchanged. */
  lemma AverageIgnoresInProgress(ts: seq<Trip>, t: Trip, us: seq<Trip>)
    requires !Completed(t)
    ensures AverageRating(ts + [t] + us) == AverageRating(ts + us)
  {
    SingleTrip(t);
    RatingStatsAppend(ts, [t]);
    RatingStatsAppend(ts + [t], us);
    RatingStatsAppend(ts, us);
  }

  /** A trip that is not billed, wherever it stands among the others, leaves
      the total revenue unchanged. */
  lemma RevenueIgnoresUnbilled(ts: seq<Trip>, t: Trip, us: seq<Trip>)
    requires !Billed(t)
    ensures TotalRevenue(ts + [t] + us) == TotalRevenue(ts + us)
  {
    SingleTrip(t);
    TotalRevenueAppend(ts, [t]);
    TotalRevenueAppend(ts + [t], us);
    TotalRevenueAppend(ts, us);
  }

  /** When every completed rating lies in lo..hi, their sum lies between lo
      and hi times their number. */
  lemma {:induction false} RatingSumWithin(ts: seq<Trip>, lo: int, hi: int)
    requires RatingsWithin(ts, lo, hi)
    ensures lo * CompletedCount(ts) <= RatingSum(ts) <= hi * CompletedCount(ts)
  {
    if ts != [] {
      var init := ts[..|ts| - 1];
      assert RatingsWithin(init, lo, hi) by {
        forall i | 0 <= i < |init| && Completed(init[i])
          ensures lo <= init[i].rating.value <= hi
        {
          assert init[i] == ts[i];
        }
      }
      RatingSumWithin(init, lo, hi);
      var n := CompletedCount(init);
      if Completed(ts[|ts| - 1]) {
        assert lo * (n + 1) == lo * n + lo;
        assert hi * (n + 1) == hi * n + hi;
      }
    }
  }

  /** Proof helper for AverageRatingWithin: dividing by a positive count
      keeps a sum's bounds, lo * n <= sum <= hi * n giving lo <= sum / n <= hi. */
  lemma QuotientWithin(sum: int, n: int, lo: int, hi: int)
    requires n > 0
    requires lo * n <= sum <= hi * n
    ensures lo as real <= sum as real / n as real <= hi as real
  {
  }

  /** When there is a completed trip and every completed rating lies in
      lo..hi, so does the average; with ratings from 1 to 5 the average lies
      in [1.0, 5.0]. */
  lemma AverageRatingWithin(ts: seq<Trip>, lo: int, hi: int)
    requires RatingsWithin(ts, lo, hi)
    requires CompletedCount(ts) > 0
    ensures lo as real <= AverageRating(ts) <= hi as real
  {
    RatingSumWithin(ts, lo, hi);
    QuotientWithin(RatingSum(ts), CompletedCount(ts), lo, hi);
  }

  /** When every completed trip has the same rating k, the average is k. */
  lemma AverageOfEqualRatings(ts: seq<Trip>, k: int)
    requires RatingsWithin(ts, k, k)
    requires CompletedCount(ts) > 0
    ensures AverageRating(ts) == k as real
  {
    AverageRatingWithin(ts, k, k);
  }

  /** The revenue is zero exactly when no billed trip cost more than the fee. */
  lemma {:induction false} TotalRevenueIsZero(ts: seq<Trip>)
    ensures TotalRevenue(ts) == 0.0 <==>
              forall i :: 0 <= i < |ts| && Billed(ts[i]) ==> ts[i].cost.value <= FEE
  {
    if ts != [] {
      var init := ts[..|ts| - 1];
      TotalRevenueIsZero(init);
      assert forall i :: 0 <= i < |init| ==> init[i] == ts[i];
    }
  }

  /** The driver's share of the fares in the revenue tests: 15.0 earns 10.68,
      10 earns 6.68 and 1 earns nothing. */
  lemma ShareExamples()
    ensures DriverShare(15.0) == 10.68
    ensures DriverShare(10.0) == 6.68
    ensures DriverShare(1.0) == 0.0
  {
  }
}
