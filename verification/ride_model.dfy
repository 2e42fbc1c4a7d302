/**
 * The entities of the client-side ride marketplace: locations, drivers,
 * ride offers and bookings. JavaScript numbers that hold ids, seat counts
 * and millisecond timestamps are modelled as unbounded integers.
 */
module RideModel {

  datatype LocationType = Campus | Residential | Transit

  datatype Location = Location(id: string, name: string, kind: LocationType)

  datatype Vehicle = Vehicle(year: int, make: string, model: string, color: string, licensePlate: string)

  /** A driver; the floating-point `rating` field is not part of this model. */
  datatype Driver = Driver(
    id: string,
    name: string,
    handle: string,
    totalRides: int,
    verified: bool,
    vehicle: Vehicle)

  datatype RideOffer = RideOffer(
    id: int,
    driverId: string,
    fromLocationId: string,
    toLocationId: string,
    departureTime: string,
    date: string,
    totalSeats: int,
    availableSeats: int)

  /** A ride offer without its id: what a caller hands to `addRide`. */
  datatype NewRide = NewRide(
    driverId: string,
    fromLocationId: string,
    toLocationId: string,
    departureTime: string,
    date: string,
    totalSeats: int,
    availableSeats: int)
  {
    /** The offer with every field of this input plus the given id. */
    function WithId(id: int): (r: RideOffer)
      ensures r.id == id
      ensures r.driverId == driverId && r.fromLocationId == fromLocationId
      ensures r.toLocationId == toLocationId && r.departureTime == departureTime
      ensures r.date == date && r.totalSeats == totalSeats
      ensures r.availableSeats == availableSeats
    {
      RideOffer(id, driverId, fromLocationId, toLocationId, departureTime, date, totalSeats, availableSeats)
    }
  }

  datatype BookingStatus = Pending | Confirmed | Cancelled

  datatype Booking = Booking(rideId: int, status: BookingStatus, timestamp: int)

  /** The seat invariant of a ride offer. */
  predicate SeatsInRange(r: RideOffer) {
    0 <= r.availableSeats <= r.totalSeats
  }
}
