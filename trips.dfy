/** Trip records: who drove whom and when, what it cost and how it was rated.
    A trip whose end time, cost and rating are absent is still in progress. */
module Trips {
  import opened Wrappers

  /** A calendar instant, as `Time.new(year, month, day)` builds it. Only
      whether a trip has an end time matters to the model. */
  datatype Time = Time(year: int, month: int, day: int)

  /** The rider, as the trip tests build it. */
  datatype Passenger = Passenger(id: int, name: string, phoneNumber: string)

  /** How a trip names its rider: the passenger object or only its id. */
  datatype PassengerRef = ByObject(passenger: Passenger) | ById(id: int)

  datatype Trip = Trip(
    id: int,
    driverId: int,
    passenger: PassengerRef,
    startTime: Time,
    endTime: Option<Time>,
    cost: Option<real>,
    rating: Option<int>)

  /** A trip counts towards a driver's rating once it has ended and been
      rated; its cost plays no part in that. */
  predicate Completed(t: Trip)
  {
    t.endTime.Some? && t.rating.Some?
  }

  /** A trip counts towards a driver's revenue when it is completed and has
      a cost. */
  predicate Billed(t: Trip)
  {
    Completed(t) && t.cost.Some?
  }

  /** Trip.new: the rider may be given as an object, as an id, or both, in
      which case the object is kept; with neither there is no trip. End time,
      cost and rating are independently optional and stored as given. */
  function NewTrip(id: int, driverId: int, passenger: Option<Passenger>, passengerId: Option<int>,
                   startTime: Time, endTime: Option<Time>, cost: Option<real>, rating: Option<int>): (r: Option<Trip>)
    ensures r.Some? <==> passenger.Some? || passengerId.Some?
    ensures r.Some? ==> r.value.id == id && r.value.driverId == driverId && r.value.startTime == startTime
    ensures r.Some? ==> r.value.endTime == endTime && r.value.cost == cost && r.value.rating == rating
    ensures r.Some? && passenger.Some? ==> r.value.passenger == ByObject(passenger.value)
    ensures r.Some? && passenger.None? ==> r.value.passenger == ById(passengerId.value)
    ensures r.Some? ==> (Completed(r.value) <==> endTime.Some? && rating.Some?)
  {
    var rider :=
      if passenger.Some? then Some(ByObject(passenger.value))
      else if passengerId.Some? then Some(ById(passengerId.value))
      else None;
    match rider
    case None => None
    case Some(p) => Some(Trip(id, driverId, p, startTime, endTime, cost, rating))
  }
}
