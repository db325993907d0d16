# Ride-share driver model

A Dafny model of the `RideShare::Driver` class of a small ride-sharing
system and of the `Trip` records it aggregates. The behaviour modelled is the
one the driver test suite (`test/driver_test.rb`) pins down:

- `Driver.new` raises `ArgumentError` for an id of 0 (any non-positive id), a
  VIN whose length is not 17, or a status symbol other than `:AVAILABLE` and
  `:UNAVAILABLE`; the status defaults to `:AVAILABLE` and the trips to an
  empty list.
- `add_trip` appends a trip to the driver's ordered trip list; the same trip
  may be added twice and is then kept twice.
- `average_rating` is the mean rating of the completed trips (ended and
  rated; the cost plays no part) and exactly 0 when there are none.
- `total_revenue` sums, over the completed trips that have a cost, the
  driver's share `max(0.8 * (cost - 1.65), 0)`, and is 0 without such trips.
- `change_status` switches between the two statuses and returns the new one.

Layout, one module per file:

- `wrappers.dfy` (`Wrappers`): `Option` for Ruby's `nil`, `Result` for a
  constructor that raises.
- `validation.dfy` (`Validation`): the `Status` enumeration, status-symbol
  parsing, the id and VIN rules, the argument check of `Driver.new` and the
  status toggle.
- `trips.dfy` (`Trips`): `Trip`, `Passenger`, the rider given as an object or
  as an id, and the `Completed` / `Billed` predicates every aggregate uses.
- `trip_stats.dfy` (`TripStats`): the average rating and the total revenue as
  functions on a sequence of trips, with their lemmas (append, ignoring
  in-progress trips anywhere, bounds, when revenue is zero).
- `driver.dfy` (`Drivers`): the `Driver` class; `AddTrip` and `ChangeStatus`
  update its fields in place, `AverageRating` and `TotalRevenue` walk the
  trips with a loop and are proved equal to the `TripStats` functions.
- `driver_scenarios.dfy` (`DriverScenarios`): every value the tests assert,
  replayed on the class, with the expected values as postconditions (the
  tests that only check Ruby types are not replayed; `ChangesStatus` also
  makes a second flip, which goes beyond the test).

Money and ratings are exact `real`s, so the tests' `must_be_close_to`
tolerances become equalities: 10.68, 17.36, 3 and 5 are proved exactly.

The fee and the share: a plain subtraction of the 1.65 fee would give 13.35
and 21.70 for the revenue tests, which expect 10.68 and 17.36. The expected
values fit only a driver share of 80% of the cost after the fee, so the model
uses `DRIVER_PERCENT = 0.8` on top of `FEE = 1.65`.

## Model

| member | source | states |
|---|---|---|
| Validation.ParseStatus | test/driver_test.rb:32-34 | a symbol name denotes status `s` exactly when it is the name of `s`; `:BOOP` denotes none |
| Validation.CheckDriverArgs | test/driver_test.rb:18-34 | construction succeeds exactly when the id is positive, the VIN has 17 characters and the status symbol (if any) is recognised; a non-positive id is reported as an invalid id; without a status the driver starts `AVAILABLE`, with one it starts in the status named |
| Validation.DriverArgsExamples | test/driver_test.rb:6-34 | the test's constructor calls: id 0, empty VIN, 26-character VIN and `:BOOP` fail; `54`/`100` with a 17-character VIN succeed, defaulting to `AVAILABLE` |
| Validation.Flip | test/driver_test.rb:277-283 | the new status always differs from the old one |
| Validation.FlipTwice | test/driver_test.rb:281 | changing the status twice restores it |
| Trips.NewTrip | test/driver_test.rb:145-155 | a trip is built exactly when a passenger object or id is given, keeps the object when both are given, stores end time, cost and rating as given, and is completed exactly when end time and rating are present |
| TripStats.AverageRating | test/driver_test.rb:114-135 | with no completed trip the average is 0; otherwise average times count of completed trips equals the sum of their ratings |
| TripStats.DriverShare | test/driver_test.rb:206-263 | a trip's share is `max(0.8 * (cost - 1.65), 0)`, and it is 0 exactly when the cost does not exceed the fee |
| TripStats.Earning | test/driver_test.rb:244-263 | a trip adds a non-negative amount: its driver share when it is completed and has a cost, and nothing otherwise |
| TripStats.TotalRevenue | test/driver_test.rb:206-242 | the total revenue is never negative |
| TripStats.RatingStatsAppend | test/driver_test.rb:123-135 | count and rating sum over two runs of trips add up |
| TripStats.TotalRevenueAppend | test/driver_test.rb:228-236 | revenue over two runs of trips adds up |
| TripStats.SingleTrip | test/driver_test.rb:206-224 | one trip contributes its rating and count when completed and its share when billed |
| TripStats.AverageIgnoresInProgress | test/driver_test.rb:138-161 | inserting a trip that is not completed anywhere in the list leaves the average unchanged |
| TripStats.RevenueIgnoresUnbilled | test/driver_test.rb:244-263 | inserting a trip that is not billed anywhere in the list leaves the revenue unchanged |
| TripStats.RatingSumWithin | test/driver_test.rb:108-112 | when every completed rating lies in `lo..hi`, their sum lies between `lo` and `hi` times their count |
| TripStats.AverageRatingWithin | test/driver_test.rb:108-112 | with a completed trip and all completed ratings in `lo..hi` (for instance 1..5), the average lies in `[lo, hi]` |
| TripStats.AverageOfEqualRatings | test/driver_test.rb:156-159 | when every completed trip is rated `k`, the average is exactly `k` |
| TripStats.TotalRevenueIsZero | test/driver_test.rb:206-242 | the revenue is 0 exactly when no billed trip costs more than the fee |
| TripStats.ShareExamples | test/driver_test.rb:166-263 | fares 15.0, 10 and 1 earn 10.68, 6.68 and 0 |
| Drivers.Driver.constructor | test/driver_test.rb:6-11 | a driver built from checked arguments holds exactly those fields and satisfies `Valid()` |
| Drivers.Driver.New | test/driver_test.rb:18-39 | raises exactly when `CheckDriverArgs` fails, with its error; otherwise a fresh valid driver with the given id, name, VIN and trips and the checked status |
| Drivers.Driver.AddTrip | test/driver_test.rb:75-83 | the trip list becomes the old one with the trip appended; the status is unchanged and the driver stays valid |
| Drivers.Driver.AverageRating | test/driver_test.rb:104-135 | the loop over the trips returns `TripStats.AverageRating` of the trip list |
| Drivers.Driver.TotalRevenue | test/driver_test.rb:199-242 | the loop over the trips returns `TripStats.TotalRevenue` of the trip list |
| Drivers.Driver.ChangeStatus | test/driver_test.rb:277-283 | the stored status becomes the flipped old status and is returned; the trips are unchanged and the driver stays valid |
| DriverScenarios.RatedFive | test/driver_test.rb:93-100 | the rating fixture is completed, rated 5 and not billed |
| DriverScenarios.InProgress | test/driver_test.rb:145-155 | the trip with no end time, cost or rating is neither completed nor billed |
| DriverScenarios.Fare | test/driver_test.rb:172-189 | the revenue fixtures (ids, rider id, times and cost as each test gives them, rated 5) are billed with the given cost |
| DriverScenarios.BadArgumentsRaise | test/driver_test.rb:18-34 | all four invalid constructions raise |
| DriverScenarios.Defaults | test/driver_test.rb:27-39 | default status is `AVAILABLE` and default trip count is 0 |
| DriverScenarios.AddsTheTrip | test/driver_test.rb:75-83 | the trip is absent before, present after, and the count grows by one |
| DriverScenarios.AverageWithinRange | test/driver_test.rb:108-121 | one trip rated 5 gives an average in `[1.0, 5.0]`; no trips give 0 |
| DriverScenarios.AverageOfTwoTrips | test/driver_test.rb:123-135 | ratings 5 and 1 average exactly 3 |
| DriverScenarios.AverageIgnoresInProgressTrip | test/driver_test.rb:138-161 | the trip rated 5 added twice and an in-progress trip average exactly 5 |
| DriverScenarios.RevenueOfCheapAndNoTrips | test/driver_test.rb:206-242 | a trip costing 1 earns 0; no trips earn 0 |
| DriverScenarios.RevenueOfTwoTrips | test/driver_test.rb:228-236 | trips costing 15.0 and 10 earn exactly 17.36 |
| DriverScenarios.RevenueIgnoresInProgressTrip | test/driver_test.rb:244-263 | a trip costing 15.0 and an in-progress trip earn exactly 10.68 |
| DriverScenarios.ChangesStatus | test/driver_test.rb:277-283 | an `AVAILABLE` driver changes to `UNAVAILABLE`, and back on a second call |

## Left out

- The Ruby implementation of `Driver` and `Trip` is not part of this model; the behaviour modelled is the one the test suite asserts.
- Ruby's run-time type checks (`must_be_kind_of`, `must_respond_to`): Dafny's static types give them.
- Floating point: money and averages are exact `real`s, and the tests' tolerances are replaced by equalities.
- `Time` values: a time is a year, month and day, and only whether a trip has an end time is used; `Time.now` is a parameter of the scenario methods.
- `Passenger` internals: its phone number is carried but its own trip list and its id validation are not modelled; the tests only construct passengers.
- The trip's back-reference to its driver: a trip holds the driver's id only, as nothing depends on the object.
- Validation.CheckDriverArgs: does not require the VIN to be alphanumeric or the name to be non-empty, because nothing in the tests asserts either rule; the order of the checks (id, VIN, status) is assumed, the tests expecting only an `ArgumentError`.
- Trips.NewTrip: the tests always give a rider, so refusing a trip with neither a passenger nor a passenger id is an assumption.
- TripStats.TotalRevenue: a trip counts towards revenue only with end time, rating and cost all present; the tests never build a trip with a cost but no rating, so that case is a decision rather than an observed behaviour.
- Test helpers, data loading and the trip dispatcher: plain input/output glue outside the driver.
