/** The driver tests replayed against the model: each method builds the
    drivers and trips its test builds and returns what the test inspects;
    the postconditions are the test's expectations, exact where the test
    allows a tolerance. `now` stands for Time.now. */
module DriverScenarios {
  import opened Wrappers
  import opened Validation
  import opened Trips
  import opened TripStats
  import opened Drivers

  /** The completed trip rated 5 (no cost) that the rating tests add. */
  function RatedFive(driverId: int): (t: Trip)
    ensures Completed(t) && !Billed(t) && t.rating == Some(5)
  {
    Trip(8, driverId, ById(3), Time(2016, 8, 8), Some(Time(2016, 8, 8)), None, Some(5))
  }

  /** The in-progress trip of the "ignores in-progress trips" tests. */
  function InProgress(now: Time): (t: Trip)
    ensures !Completed(t) && !Billed(t)
  {
    var rider := Passenger(9, "Merl Glover III", "1-602-620-2330 x3723");
    NewTrip(25, 4, Some(rider), Some(rider.id), now, None, None, None).value
  }

  /** A completed trip rated 5 with the given rider id, times and cost, as in
      the revenue tests. */
  function Fare(id: int, driverId: int, passengerId: int, start: Time, end: Time, cost: real): (t: Trip)
    ensures Billed(t) && t.cost == Some(cost)
  {
    Trip(id, driverId, ById(passengerId), start, Some(end), Some(cost), Some(5))
  }

  /** Driver.new with id 0, with an empty VIN, with a 26-character VIN and
      with the status :BOOP raises each time. */
  method BadArgumentsRaise() returns (badId: bool, emptyVin: bool, longVin: bool, badStatus: bool)
    ensures badId && emptyVin && longVin && badStatus
  {
    var r := Driver.New(0, "George", "33133313331333133");
    badId := r.Failure?;
    r := Driver.New(100, "George", "");
    emptyVin := r.Failure?;
    r := Driver.New(100, "George", "33133313331333133extranums");
    longVin := r.Failure?;
    r := Driver.New(100, "George", "33133313331333133", Some("BOOP"));
    badStatus := r.Failure?;
  }

  /** A driver built without a status is :AVAILABLE; one built without trips
      has none. */
  method Defaults() returns (built: bool, status: Status, tripCount: nat)
    ensures built && status == AVAILABLE && tripCount == 0
  {
    var r := Driver.New(100, "George", "12345678901234567");
    built := r.Success?;
    status := r.value.status;
    r := Driver.New(54, "Test Driver", "12345678901234567", Some("AVAILABLE"));
    tripCount := |r.value.trips|;
  }

  /** add_trip: the trip was not there before, is there after, and the count
      grew by one. */
  method AddsTheTrip() returns (includedBefore: bool, includedAfter: bool, previous: nat, count: nat)
    ensures !includedBefore && includedAfter && count == previous + 1
  {
    var pass := Passenger(1, "Test Passenger", "412-432-7640");
    var r := Driver.New(3, "Test Driver", "12345678912345678");
    var driver := r.value;
    var trip := NewTrip(8, driver.id, Some(pass), None, Time(2016, 8, 8), Some(Time(2018, 8, 9)), None, Some(5)).value;
    includedBefore := trip in driver.trips;
    previous := |driver.trips|;
    driver.AddTrip(trip);
    includedAfter := trip in driver.trips;
    count := |driver.trips|;
  }

  /** average_rating with one trip rated 5 lies in [1.0, 5.0]; with no trips
      it is 0. */
  method AverageWithinRange() returns (average: real, empty: real)
    ensures 1.0 <= average <= 5.0
    ensures empty == 0.0
  {
    var r := Driver.New(54, "Rogers Bartell IV", "1C9EVBRM0YBC564DZ");
    var driver := r.value;
    driver.AddTrip(RatedFive(driver.id));
    SingleTrip(RatedFive(driver.id));
    average := driver.AverageRating();
    r := Driver.New(54, "Rogers Bartell IV", "1C9EVBRM0YBC564DZ");
    empty := r.value.AverageRating();
  }

  /** average_rating over trips rated 5 and 1 is 3. */
  method AverageOfTwoTrips() returns (average: real)
    ensures average == 3.0
  {
    var r := Driver.New(54, "Rogers Bartell IV", "1C9EVBRM0YBC564DZ");
    var driver := r.value;
    var trip := RatedFive(driver.id);
    var trip2 := Trip(8, driver.id, ById(3), Time(2016, 8, 8), Some(Time(2016, 8, 9)), None, Some(1));
    driver.AddTrip(trip);
    driver.AddTrip(trip2);
    SingleTrip(trip);
    SingleTrip(trip2);
    RatingStatsAppend([trip], [trip2]);
    assert driver.trips == [trip] + [trip2];
    assert CompletedCount(driver.trips) == 2 && RatingSum(driver.trips) == 6;
    average := driver.AverageRating();
  }

  /** average_rating over the rated trip added twice and an in-progress trip
      is exactly 5. */
  method AverageIgnoresInProgressTrip(now: Time) returns (average: real)
    ensures average == 5.0
  {
    var r := Driver.New(54, "Rogers Bartell IV", "1C9EVBRM0YBC564DZ");
    var driver := r.value;
    var trip := RatedFive(driver.id);
    driver.AddTrip(trip);
    driver.AddTrip(trip);
    driver.AddTrip(InProgress(now));
    SingleTrip(trip);
    RatingStatsAppend([trip], [trip]);
    assert [trip] + [trip] == [trip, trip];
    assert CompletedCount([trip, trip]) == 2 && RatingSum([trip, trip]) == 10;
    AverageIgnoresInProgress([trip, trip], InProgress(now), []);
    assert [trip, trip] + [InProgress(now)] + [] == driver.trips;
    assert [trip, trip] + [] == [trip, trip];
    average := driver.AverageRating();
  }

  /** total_revenue: a single trip costing 1 earns nothing, and a driver
      without trips has earned nothing. */
  method RevenueOfCheapAndNoTrips() returns (single: real, none: real)
    ensures single == 0.0 && none == 0.0
  {
    var r := Driver.New(54, "Rogers Bartell IV", "1C9EVBRM0YBC564DZ");
    var driver := r.value;
    driver.AddTrip(Fare(8, 54, 3, Time(2016, 8, 8), Time(2016, 8, 8), 1.0));
    SingleTrip(Fare(8, 54, 3, Time(2016, 8, 8), Time(2016, 8, 8), 1.0));
    single := driver.TotalRevenue();
    r := Driver.New(54, "Rogers Bartell IV", "1C9EVBRM0YBC564DZ");
    none := r.value.TotalRevenue();
  }

  /** total_revenue over trips costing 15.0 and 10 is 17.36. */
  method RevenueOfTwoTrips() returns (total: real)
    ensures total == 17.36
  {
    var r := Driver.New(54, "Rogers Bartell IV", "1C9EVBRM0YBC564DZ");
    var driver := r.value;
    var trip1 := Fare(8, driver.id, 3, Time(2016, 8, 8), Time(2016, 8, 8), 15.0);
    var trip2 := Fare(9, driver.id, 4, Time(2016, 9, 8), Time(2016, 9, 9), 10.0);
    driver.AddTrip(trip1);
    driver.AddTrip(trip2);
    SingleTrip(trip1);
    SingleTrip(trip2);
    TotalRevenueAppend([trip1], [trip2]);
    ShareExamples();
    total := driver.TotalRevenue();
  }

  /** total_revenue over a trip costing 15.0 and an in-progress trip is
      10.68. */
  method RevenueIgnoresInProgressTrip(now: Time) returns (total: real)
    ensures total == 10.68
  {
    var r := Driver.New(54, "Rogers Bartell IV", "1C9EVBRM0YBC564DZ");
    var driver := r.value;
    var trip1 := Fare(8, driver.id, 3, Time(2016, 8, 8), Time(2016, 8, 8), 15.0);
    driver.AddTrip(trip1);
    driver.AddTrip(InProgress(now));
    SingleTrip(trip1);
    RevenueIgnoresUnbilled([trip1], InProgress(now), []);
    assert [trip1] + [InProgress(now)] + [] == driver.trips;
    ShareExamples();
    total := driver.TotalRevenue();
  }

  /** change_status on an :AVAILABLE driver returns :UNAVAILABLE, and a
      second call returns :AVAILABLE again. */
  method ChangesStatus() returns (before: Status, changed: Status, changedBack: Status)
    ensures before == AVAILABLE && changed == UNAVAILABLE && changedBack == AVAILABLE
  {
    var r := Driver.New(60, "Rogers Bartell IV", "1C9EVBRM0YBC564DZ", Some("AVAILABLE"));
    var driver := r.value;
    before := driver.status;
    changed := driver.ChangeStatus();
    changedBack := driver.ChangeStatus();
  }
}
