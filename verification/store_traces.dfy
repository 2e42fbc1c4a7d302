/**
 * Runs of the ride store: a session is a sequence of events (a booking
 * request, the oldest scheduled timer firing, an explicit confirmation, a
 * ride being added), applied one after another. The lemmas here state what
 * holds over every such run: the store invariant is kept, rides present at
 * the start keep their place and every field but their seat count, seats
 * only go down, and each ride loses at most one seat per fired timer
 * scheduled for its id.
 */
module StoreTraces {
  import opened RideModel
  import opened RideStore

  datatype Event =
    | Book(rideId: int, now: int)
    | TimerFires
    | Confirm(rideId: int)
    | Add(ride: NewRide, now: int)

  function Step(s: Store, e: Event): Store {
    match e
    case Book(r, now) => BookRide(s, r, now)
    case TimerFires => FireNext(s)
    case Confirm(r) => ConfirmBooking(s, r)
    case Add(x, now) => AddRide(s, x, now)
  }

  function Run(s: Store, es: seq<Event>): Store
    decreases |es|
  {
    if |es| == 0 then s else Run(Step(s, es[0]), es[1..])
  }

  /** An added ride that itself satisfies the seat invariant. */
  predicate AcceptableInput(e: Event) {
    e.Add? ==> 0 <= e.ride.availableSeats <= e.ride.totalSeats
  }

  /** The number of booking requests for `rideId` in `es`. */
  function Books(es: seq<Event>, rideId: int): nat
    decreases |es|
  {
    if |es| == 0 then 0
    else (if es[0].Book? && es[0].rideId == rideId then 1 else 0) + Books(es[1..], rideId)
  }

  /** The number of confirmations for `rideId` still waiting in the timer queue. */
  function Scheduled(s: Store, rideId: int): nat {
    multiset(s.timers)[rideId]
  }

  /** Every event keeps the store invariant, given an added ride whose own seats are in range. */
  lemma StepPreservesValid(s: Store, e: Event)
    requires Valid(s) && AcceptableInput(e)
    ensures Valid(Step(s, e))
  {
    if e.Add? {
      assert SeatsInRange(e.ride.WithId(e.now));
    }
  }

  lemma {:induction false} RunPreservesValid(s: Store, es: seq<Event>)
    requires Valid(s)
    requires forall k :: 0 <= k < |es| ==> AcceptableInput(es[k])
    ensures Valid(Run(s, es))
    decreases |es|
  {
    if |es| > 0 {
      StepPreservesValid(s, es[0]);
      assert forall k :: 0 <= k < |es[1..]| ==> es[1..][k] == es[k + 1];
      RunPreservesValid(Step(s, es[0]), es[1..]);
    }
  }

  /**
   * One event: the ride at position `i` stays there with every field but its
   * seat count, loses at most one seat, and loses one only when a timer
   * scheduled for its id leaves the queue.
   */
  lemma StepRide(s: Store, e: Event, i: int)
    requires 0 <= i < |s.rides|
    ensures var t := Step(s, e); var id := s.rides[i].id;
      && i < |t.rides|
      && t.rides[i].(availableSeats := s.rides[i].availableSeats) == s.rides[i]
      && s.rides[i].availableSeats - 1 <= t.rides[i].availableSeats <= s.rides[i].availableSeats
      && s.rides[i].availableSeats - t.rides[i].availableSeats + Scheduled(t, id)
         <= Scheduled(s, id) + (if e.Book? && e.rideId == id then 1 else 0)
  {
    var t := Step(s, e);
    match e
    case Book(r, now) =>
      assert multiset(t.timers) == multiset(s.timers) + multiset{r};
    case TimerFires =>
      if |s.timers| > 0 {
        assert s.timers == [s.timers[0]] + s.timers[1..];
        assert multiset(s.timers) == multiset{s.timers[0]} + multiset(s.timers[1..]);
      }
    case Confirm(r) =>
    case Add(x, now) =>
      assert t.rides[i] == t.rides[..|s.rides|][i];
  }

  /**
   * Over a whole run, a ride present at the start keeps its position and
   * every field but its seat count, its seats never go up, and the seats it
   * lost are at most the confirmations for its id that fired during the run
   * (those scheduled at the start plus those booked during the run, minus
   * those still waiting at the end).
   */
  lemma {:induction false} RunSeatDropBounded(s: Store, es: seq<Event>, i: int)
    requires 0 <= i < |s.rides|
    ensures var t := Run(s, es); var id := s.rides[i].id;
      && i < |t.rides|
      && t.rides[i].(availableSeats := s.rides[i].availableSeats) == s.rides[i]
      && t.rides[i].availableSeats <= s.rides[i].availableSeats
      && s.rides[i].availableSeats - t.rides[i].availableSeats
         <= Scheduled(s, id) + Books(es, id) - Scheduled(t, id)
    decreases |es|
  {
    if |es| > 0 {
      StepRide(s, es[0], i);
      RunSeatDropBounded(Step(s, es[0]), es[1..], i);
    }
  }

  /**
   * The booking lifecycle with no other timer outstanding: right after
   * `bookRide(r)` the booking is pending; once its timer fires it is
   * confirmed with the same timestamp, and every ride with id `r` that had
   * a free seat has one fewer.
   */
  lemma BookThenFire(s: Store, r: int, now: int)
    requires |s.timers| == 0
    ensures var b := BookRide(s, r, now); var t := FireNext(b);
      && b.bookings[r].status == Pending
      && t.bookings[r] == Booking(r, Confirmed, now)
      && |t.timers| == 0
      && |t.rides| == |s.rides|
      && forall i :: 0 <= i < |s.rides| && s.rides[i].id == r && s.rides[i].availableSeats > 0 ==>
           t.rides[i].availableSeats == s.rides[i].availableSeats - 1
  {
    var b := BookRide(s, r, now);
    assert b.timers == [r];
  }

  /**
   * Re-booking a ride before the first timer fires: both timers take a seat,
   * while the store holds a single booking record, the second one, which the
   * first timer already confirms.
   */
  lemma RebookingTakesTwoSeats()
    ensures var s := Store([RideOffer(5, "d-5", "loc-9", "loc-4", "11:15 AM", "2026-02-10", 4, 2)], map[], []);
      var afterFirstTimer := Run(s, [Book(5, 0), Book(5, 1500), TimerFires]);
      var t := Run(s, [Book(5, 0), Book(5, 1500), TimerFires, TimerFires]);
      && afterFirstTimer.bookings == map[5 := Booking(5, Confirmed, 1500)]
      && afterFirstTimer.rides[0].availableSeats == 1
      && t.bookings == map[5 := Booking(5, Confirmed, 1500)]
      && t.rides[0].availableSeats == 0
  {
  }
}
