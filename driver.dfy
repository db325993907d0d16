/** The driver: identity fields checked once at construction, a status that
    change_status toggles, and an ordered list of trips that add_trip grows.
    The aggregates are computed by walking the trips in order. */
module Drivers {
  import opened Wrappers
  import opened Validation
  import opened Trips
  import opened TripStats

  class Driver {
    const id: int
    const name: string
    const vin: string
    var status: Status
    var trips: seq<Trip>

    /** The identity fields a driver can never be without. */
    ghost predicate Valid()
      reads this
    {
      PositiveId(id) && ValidVin(vin)
    }

    /** Builds a driver from arguments that have passed CheckDriverArgs. */
    constructor (id: int, name: string, vin: string, status: Status, trips: seq<Trip>)
      requires PositiveId(id) && ValidVin(vin)
      ensures Valid()
      ensures this.id == id && this.name == name && this.vin == vin
      ensures this.status == status && this.trips == trips
    {
      this.id := id;
      this.name := name;
      this.vin := vin;
      this.status := status;
      this.trips := trips;
    }

    /** Driver.new: raises InvalidArgument for a non-positive id, a VIN that
        is not 17 characters long or an unrecognised status symbol;
        otherwise the driver holds the given fields, status :AVAILABLE when
        none is given and no trips when none are given. */
    static method New(id: int, name: string, vin: string, status: Option<string> := None, trips: seq<Trip> := [])
      returns (r: Result<Driver, InvalidArgument>)
      ensures r.Success? <==> CheckDriverArgs(id, vin, status).Success?
      ensures r.Failure? ==> r.error == CheckDriverArgs(id, vin, status).error
      ensures r.Success? ==> fresh(r.value) && r.value.Valid()
      ensures r.Success? ==> r.value.id == id && r.value.name == name && r.value.vin == vin
      ensures r.Success? ==> r.value.status == CheckDriverArgs(id, vin, status).value
      ensures r.Success? ==> r.value.trips == trips
    {
      match CheckDriverArgs(id, vin, status)
      case Failure(e) =>
        r := Failure(e);
      case Success(s) =>
        var d := new Driver(id, name, vin, s, trips);
        r := Success(d);
    }

    /** add_trip: appends the trip, duplicates included; nothing else changes. */
    method AddTrip(trip: Trip)
      requires Valid()
      modifies this
      ensures Valid()
      ensures trips == old(trips) + [trip]
      ensures status == old(status)
    {
      trips := trips + [trip];
    }

    /** average_rating: the mean rating of the completed trips, 0 if none. */
    method AverageRating() returns (average: real)
      ensures average == TripStats.AverageRating(trips)
    {
      var sum, count := 0, 0;
      for i := 0 to |trips|
        invariant sum == RatingSum(trips[..i])
        invariant count == CompletedCount(trips[..i])
      {
        assert trips[..i + 1][..i] == trips[..i];
        var trip := trips[i];
        if trip.endTime.Some? && trip.rating.Some? {
          sum := sum + trip.rating.value;
          count := count + 1;
        }
      }
      assert trips[..|trips|] == trips;
      average := if count == 0 then 0.0 else sum as real / count as real;
    }

    /** total_revenue: the driver's share summed over the billed trips. */
    method TotalRevenue() returns (total: real)
      ensures total == TripStats.TotalRevenue(trips)
    {
      total := 0.0;
      for i := 0 to |trips|
        invariant total == TripStats.TotalRevenue(trips[..i])
      {
        assert trips[..i + 1][..i] == trips[..i];
        var trip := trips[i];
        if trip.endTime.Some? && trip.rating.Some? && trip.cost.Some? {
          var share := DRIVER_PERCENT * (trip.cost.value - FEE);
          if share > 0.0 {
            total := total + share;
          }
        }
      }
      assert trips[..|trips|] == trips;
    }

    /** change_status: moves to the other status and returns it; the trips
        are untouched. */
    method ChangeStatus() returns (newStatus: Status)
      requires Valid()
      modifies this
      ensures Valid()
      ensures status == Flip(old(status)) && newStatus == status
      ensures trips == old(trips)
    {
      status := if status == AVAILABLE then UNAVAILABLE else AVAILABLE;
      newStatus := status;
    }
  }
}
