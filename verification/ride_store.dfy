/**
 * The client-side ride/booking store as pure transitions over an immutable
 * state. The store holds the ride list, the bookings keyed by ride id, and
 * the queue of booking confirmations that `bookRide` has scheduled with
 * `setTimeout` and that have not fired yet. Timers with the same delay fire
 * in the order they were scheduled, so the queue is first-in first-out.
 */
module RideStore {
  import opened RideModel
  import SeedData

  datatype Store = Store(rides: seq<RideOffer>, bookings: map<int, Booking>, timers: seq<int>)

  /** Every ride keeps 0 <= availableSeats <= totalSeats. */
  predicate AllSeatsInRange(rides: seq<RideOffer>) {
    forall i :: 0 <= i < |rides| ==> SeatsInRange(rides[i])
  }

  /** Each ride id maps to at most one booking, and that booking names the ride it is stored under. */
  predicate WellKeyed(bookings: map<int, Booking>) {
    forall k :: k in bookings ==> bookings[k].rideId == k
  }

  /** No exposed operation ever produces a cancelled booking. */
  predicate NeverCancelled(bookings: map<int, Booking>) {
    forall k :: k in bookings ==> bookings[k].status != Cancelled
  }

  predicate Valid(s: Store) {
    AllSeatsInRange(s.rides) && WellKeyed(s.bookings) && NeverCancelled(s.bookings)
  }

  /**
   * `after` is `before` with the booking for `rideId`, if there is one,
   * confirmed (its ride id and timestamp kept) and every other booking as it was.
   */
  ghost predicate ConfirmedIn(before: map<int, Booking>, after: map<int, Booking>, rideId: int) {
    && after.Keys == before.Keys
    && (rideId in before ==> after[rideId] == Booking(before[rideId].rideId, Confirmed, before[rideId].timestamp))
    && (forall k :: k in before && k != rideId ==> after[k] == before[k])
  }

  /**
   * `after` is `before` with one seat taken from every ride that has id
   * `rideId` and a free seat; nothing else differs, and length and order are kept.
   */
  ghost predicate SeatTaken(before: seq<RideOffer>, after: seq<RideOffer>, rideId: int) {
    && |after| == |before|
    && (forall i :: 0 <= i < |before| ==> after[i].(availableSeats := before[i].availableSeats) == before[i])
    && (forall i :: 0 <= i < |before| ==>
          after[i].availableSeats
          == before[i].availableSeats - (if before[i].id == rideId && before[i].availableSeats > 0 then 1 else 0))
  }

  /** The state the provider starts with: the seed rides, no bookings, no timers. */
  function Initial(): (s: Store)
    ensures Valid(s)
    ensures |s.bookings| == 0 && |s.timers| == 0
  {
    Store(SeedData.InitialRides, map[], [])
  }

  /**
   * The immediate part of `bookRide`: the booking for `rideId` becomes
   * pending, stamped `now` (the value of `Date.now()`), replacing any earlier
   * record, and a confirmation for `rideId` is scheduled.
   */
  function BookRide(s: Store, rideId: int, now: int): (t: Store)
    ensures t.bookings.Keys == s.bookings.Keys + {rideId}
    ensures t.bookings[rideId] == Booking(rideId, Pending, now)
    ensures forall k :: k in s.bookings && k != rideId ==> t.bookings[k] == s.bookings[k]
    ensures t.rides == s.rides
    ensures |t.timers| == |s.timers| + 1 && t.timers[..|s.timers|] == s.timers && t.timers[|s.timers|] == rideId
    ensures Valid(s) ==> Valid(t)
  {
    Store(s.rides, s.bookings[rideId := Booking(rideId, Pending, now)], s.timers + [rideId])
  }

  /**
   * The booking update shared by `confirmBooking` and the deferred step of
   * `bookRide`: an existing booking for `rideId` becomes confirmed, keeping
   * its ride id and timestamp; without one, nothing changes.
   */
  function ConfirmIn(bookings: map<int, Booking>, rideId: int): (b: map<int, Booking>)
    ensures ConfirmedIn(bookings, b, rideId)
    ensures rideId !in bookings ==> b == bookings
    ensures WellKeyed(bookings) ==> WellKeyed(b)
    ensures NeverCancelled(bookings) ==> NeverCancelled(b)
  {
    if rideId in bookings then bookings[rideId := bookings[rideId].(status := Confirmed)]
    else bookings
  }

  /**
   * The seat update of the deferred step of `bookRide`: every ride with id
   * `rideId` and a free seat loses exactly one seat; every other ride, and
   * a matching ride with no free seat, is left as it is. Length and order
   * of the list are kept.
   */
  function DecrementSeat(rides: seq<RideOffer>, rideId: int): (out: seq<RideOffer>)
    ensures SeatTaken(rides, out, rideId)
    ensures AllSeatsInRange(rides) ==> AllSeatsInRange(out)
  {
    if |rides| == 0 then []
    else
      var r := rides[0];
      var r' := if r.id == rideId && r.availableSeats > 0 then r.(availableSeats := r.availableSeats - 1) else r;
      var rest := DecrementSeat(rides[1..], rideId);
      assert forall i :: 1 <= i < |rides| ==> rides[i] == rides[1..][i - 1];
      [r'] + rest
  }

  /** The deferred step of `bookRide` for `rideId`: confirm its booking if there is one, and take a seat if there is one. */
  function FireConfirmation(s: Store, rideId: int): (t: Store)
    ensures ConfirmedIn(s.bookings, t.bookings, rideId)
    ensures SeatTaken(s.rides, t.rides, rideId)
    ensures t.timers == s.timers
    ensures Valid(s) ==> Valid(t)
  {
    Store(DecrementSeat(s.rides, rideId), ConfirmIn(s.bookings, rideId), s.timers)
  }

  /** The oldest scheduled timer fires; with no timer scheduled nothing happens. */
  function FireNext(s: Store): (t: Store)
    ensures |s.timers| == 0 ==> t == s
    ensures |s.timers| > 0 ==>
      && t.timers == s.timers[1..]
      && ConfirmedIn(s.bookings, t.bookings, s.timers[0])
      && SeatTaken(s.rides, t.rides, s.timers[0])
    ensures Valid(s) ==> Valid(t)
  {
    if |s.timers| == 0 then s
    else FireConfirmation(s.(timers := s.timers[1..]), s.timers[0])
  }

  /** `confirmBooking`: confirms an existing booking for `rideId`; rides and timers are untouched. */
  function ConfirmBooking(s: Store, rideId: int): (t: Store)
    ensures ConfirmedIn(s.bookings, t.bookings, rideId)
    ensures rideId !in s.bookings ==> t == s
    ensures t.rides == s.rides && t.timers == s.timers
    ensures Valid(s) ==> Valid(t)
  {
    s.(bookings := ConfirmIn(s.bookings, rideId))
  }

  /** Confirming twice is the same as confirming once. */
  lemma ConfirmBookingIdempotent(s: Store, rideId: int)
    ensures ConfirmBooking(ConfirmBooking(s, rideId), rideId) == ConfirmBooking(s, rideId)
  {
  }

  /**
   * `addRide`: appends one ride with the caller's fields and the id `now`
   * (the value of `Date.now()`); earlier rides, bookings and timers are kept.
   */
  function AddRide(s: Store, ride: NewRide, now: int): (t: Store)
    ensures |t.rides| == |s.rides| + 1
    ensures t.rides[..|s.rides|] == s.rides
    ensures t.rides[|s.rides|] == ride.WithId(now)
    ensures t.bookings == s.bookings && t.timers == s.timers
    ensures Valid(s) && SeatsInRange(ride.WithId(now)) ==> Valid(t)
  {
    s.(rides := s.rides + [ride.WithId(now)])
  }

  /** `liveRideCount`: the number of rides that still have a free seat. */
  function LiveRideCount(rides: seq<RideOffer>): (n: nat)
    ensures n <= |rides|
    ensures n == 0 <==> forall i :: 0 <= i < |rides| ==> rides[i].availableSeats <= 0
    ensures n == |rides| <==> forall i :: 0 <= i < |rides| ==> rides[i].availableSeats > 0
  {
    if |rides| == 0 then 0
    else
      var init := rides[..|rides| - 1];
      assert forall i :: 0 <= i < |init| ==> init[i] == rides[i];
      LiveRideCount(init) + (if rides[|rides| - 1].availableSeats > 0 then 1 else 0)
  }

  /** The positions of the rides that still have a free seat. */
  ghost function LiveIndices(rides: seq<RideOffer>): set<int> {
    set i | 0 <= i < |rides| && rides[i].availableSeats > 0
  }

  /** `liveRideCount` counts exactly the positions with a free seat. */
  lemma {:induction false} LiveRideCountIsLiveIndices(rides: seq<RideOffer>)
    ensures LiveRideCount(rides) == |LiveIndices(rides)|
  {
    if |rides| > 0 {
      var n := |rides| - 1;
      var init := rides[..n];
      LiveRideCountIsLiveIndices(init);
      assert n !in LiveIndices(init);
      if rides[n].availableSeats > 0 {
        assert LiveIndices(rides) == LiveIndices(init) + {n};
      } else {
        assert LiveIndices(rides) == LiveIndices(init);
      }
    }
  }

  /** Appending a ride raises `liveRideCount` by one exactly when the new ride has a free seat. */
  lemma AddRideLiveCount(s: Store, ride: NewRide, now: int)
    ensures LiveRideCount(AddRide(s, ride, now).rides)
            == LiveRideCount(s.rides) + (if ride.availableSeats > 0 then 1 else 0)
  {
    var t := AddRide(s, ride, now);
    assert t.rides[..|t.rides| - 1] == s.rides;
  }

  /** A ride list whose free-seat positions are among another's counts no more live rides. */
  lemma {:induction false} LiveRideCountMonotone(a: seq<RideOffer>, b: seq<RideOffer>)
    requires |a| == |b|
    requires forall i :: 0 <= i < |b| && b[i].availableSeats > 0 ==> a[i].availableSeats > 0
    ensures LiveRideCount(b) <= LiveRideCount(a)
  {
    if |a| > 0 {
      var n := |a| - 1;
      LiveRideCountMonotone(a[..n], b[..n]);
    }
  }

  /** Taking seats never raises `liveRideCount`. */
  lemma DecrementSeatLiveCount(rides: seq<RideOffer>, rideId: int)
    ensures LiveRideCount(DecrementSeat(rides, rideId)) <= LiveRideCount(rides)
  {
    LiveRideCountMonotone(rides, DecrementSeat(rides, rideId));
  }
}
