/**
 * The tools of flight_booking_system_mock.py: the same inventory scan as
 * the main engine, but search has no same-city check, availability has no
 * party-size check and no times, and booking has no email and no
 * cancellation. The booking counter, the ids and the seat decrement work
 * as in the main engine.
 */
module MockTools {
  import opened Wrappers
  import opened Flights
  import opened Ledger

  /** A mock ledger record: no route, email or dates; its status is always CONFIRMED. */
  datatype MockBooking = MockBooking(
    bookingId: string,
    flightId: string,
    passengers: int,
    cabin: Cabin,
    passengerName: string,
    totalCents: int)

  datatype MockError =
    | NoFlightsForRoute(origin: string, destination: string)
    | FlightNotFound(flightId: string)
    | InsufficientSeats

  datatype MockSearchReport = MockSearchReport(origin: string, destination: string, date: string, flights: seq<Flight>, count: nat)

  /** Prices here stay in whole units: the mock never scales the quote. */
  datatype MockAvailability = MockAvailability(
    flightId: string,
    route: string,
    requested: int,
    seatsAvailable: int,
    canBook: bool,
    pricePerPerson: int,
    totalPrice: Option<int>)

  datatype MockState = MockState(inventory: Inventory, bookings: map<string, MockBooking>, counter: nat)

  datatype MockStep = MockStep(result: Result<MockBooking, MockError>, next: MockState)

  // =====================================================================
  // The tools as functions of the state
  // =====================================================================

  function MockSearch(inv: Inventory, origin: string, destination: string, date: string): Result<MockSearchReport, MockError>
  {
    var fs := Lookup(inv, RouteKey(origin, destination));
    if |fs| == 0 then Err(NoFlightsForRoute(origin, destination))
    else Ok(MockSearchReport(origin, destination, date, fs, |fs|))
  }

  function MockCheck(inv: Inventory, flightId: string, passengers: int): Result<MockAvailability, MockError>
  {
    match FindFlight(inv, flightId)
    case None => Err(FlightNotFound(flightId))
    case Some(l) =>
      var f := FlightAt(inv, l);
      var canBook := f.seats >= passengers;
      Ok(MockAvailability(flightId, inv[l.r].route, passengers, f.seats, canBook, f.price,
                          if canBook then Some(f.price * passengers) else None))
  }

  function NewMockBooking(s: MockState, l: Location, flightId: string, passengers: int, cabin: Cabin, name: string): MockBooking
    requires ValidLocation(s.inventory, l)
  {
    MockBooking(BookingId(s.counter), flightId, passengers, cabin, name,
                FareCents(FlightAt(s.inventory, l).price, passengers, cabin))
  }

  function AfterMockBooking(s: MockState, l: Location, b: MockBooking): MockState
    requires ValidLocation(s.inventory, l)
  {
    MockState(SetSeats(s.inventory, l, FlightAt(s.inventory, l).seats - b.passengers),
              s.bookings[b.bookingId := b], s.counter + 1)
  }

  function MockBookStep(s: MockState, flightId: string, passengers: int, cabin: Cabin, name: string): MockStep
  {
    match FindFlight(s.inventory, flightId)
    case None => MockStep(Err(FlightNotFound(flightId)), s)
    case Some(l) =>
      if FlightAt(s.inventory, l).seats < passengers then MockStep(Err(InsufficientSeats), s)
      else
        var b := NewMockBooking(s, l, flightId, passengers, cabin, name);
        MockStep(Ok(b), AfterMockBooking(s, l, b))
  }

  // =====================================================================
  // The invariant: ids issued in order and seats conserved
  // =====================================================================

  /** Every mock booking holds its passengers for good: the mock has no cancel. */
  function MockHolds(bookings: map<string, MockBooking>): map<string, Hold>
  {
    map k | k in bookings :: Hold(bookings[k].flightId, bookings[k].passengers)
  }

  /** Seat conservation: seats left plus the passengers booked on a flight equal its seeded capacity. */
  ghost predicate MockConserved(seed: Inventory, s: MockState)
  {
    SameShape(s.inventory, seed) &&
    forall r, j :: 0 <= r < |s.inventory| && 0 <= j < |s.inventory[r].flights| ==>
      s.inventory[r].flights[j].seats + Held(MockHolds(s.bookings), s.inventory[r].flights[j].id, s.counter)
        == seed[r].flights[j].seats
  }

  /** A reachable mock state: ids issued in counter order, each record under its own id, seats conserved. */
  ghost predicate MockInv(seed: Inventory, s: MockState)
  {
    WellFormed(seed) &&
    s.counter >= FirstCounter &&
    s.bookings.Keys == IssuedIds(s.counter) &&
    (forall k :: k in s.bookings ==> s.bookings[k].bookingId == k) &&
    MockConserved(seed, s)
  }

  function MockInitial(seed: Inventory): MockState
  {
    MockState(seed, map[], FirstCounter)
  }

  // =====================================================================
  // Lemmas
  // =====================================================================

  /**
   * Search is a plain lookup: no flights under the key (equal cities
   * included) is an error; otherwise the route's flights and their count.
   */
  lemma MockSearchResult(inv: Inventory, origin: string, destination: string, date: string)
    requires RouteKeysDistinct(inv)
    ensures var res := MockSearch(inv, origin, destination, date);
      (res.Err? <==> forall r :: 0 <= r < |inv| && inv[r].route == RouteKey(origin, destination) ==> |inv[r].flights| == 0) &&
      (res.Err? ==> res == Err(NoFlightsForRoute(origin, destination))) &&
      (forall r :: 0 <= r < |inv| && inv[r].route == RouteKey(origin, destination) && |inv[r].flights| > 0 ==>
        res == Ok(MockSearchReport(origin, destination, date, inv[r].flights, |inv[r].flights|)))
  {
    var key := RouteKey(origin, destination);
    match RouteIndex(inv, key)
    case None =>
    case Some(r) =>
  }

  /**
   * Availability for any party size, zero and negative ones included:
   * `canBook` iff the seats suffice, and a total of price times party only
   * when bookable.
   */
  lemma MockCheckReport(inv: Inventory, r: nat, j: nat, passengers: int)
    requires IdsUnique(inv) && r < |inv| && j < |inv[r].flights|
    ensures var f := inv[r].flights[j];
      MockCheck(inv, f.id, passengers) ==
        Ok(MockAvailability(f.id, inv[r].route, passengers, f.seats, f.seats >= passengers, f.price,
                            if f.seats >= passengers then Some(f.price * passengers) else None))
  {
    FindFlightUnique(inv, inv[r].flights[j].id, r, j);
  }

  lemma MockCheckUnknown(inv: Inventory, flightId: string, passengers: int)
    requires forall r, j :: 0 <= r < |inv| && 0 <= j < |inv[r].flights| ==> inv[r].flights[j].id != flightId
    ensures MockCheck(inv, flightId, passengers) == Err(FlightNotFound(flightId))
  {
  }

  /** Booking's two refusals, in order, and that they change nothing. */
  lemma MockBookErrors(s: MockState, flightId: string, passengers: int, cabin: Cabin, name: string)
    ensures var st := MockBookStep(s, flightId, passengers, cabin, name);
      (st.result.Err? ==> st.next == s) &&
      (FindFlight(s.inventory, flightId).None? <==> st.result == Err(FlightNotFound(flightId))) &&
      (FindFlight(s.inventory, flightId).Some? ==>
        (FlightAt(s.inventory, FindFlight(s.inventory, flightId).value).seats < passengers <==> st.result == Err(InsufficientSeats)))
  {
  }

  /**
   * A successful mock booking: a fresh id BookingId(old counter), the
   * counter up by one, the requested cabin and its fare, exactly
   * `passengers` seats off the booked flight and every other flight's
   * seats kept.
   */
  lemma MockBookSuccess(seed: Inventory, s: MockState, flightId: string, passengers: int, cabin: Cabin, name: string)
    requires MockInv(seed, s)
    ensures var st := MockBookStep(s, flightId, passengers, cabin, name);
      st.result.Ok? ==>
        var b := st.result.value;
        var l := FindFlight(s.inventory, flightId).value;
        b.bookingId == BookingId(s.counter) && b.bookingId !in s.bookings &&
        st.next.bookings == s.bookings[b.bookingId := b] && st.next.counter == s.counter + 1 &&
        b.flightId == flightId && b.passengers == passengers && b.passengerName == name && b.cabin == cabin &&
        b.totalCents == FareCents(FlightAt(s.inventory, l).price, passengers, cabin) &&
        SameShape(st.next.inventory, s.inventory) &&
        FlightAt(st.next.inventory, l).seats == FlightAt(s.inventory, l).seats - passengers &&
        (forall r, j :: 0 <= r < |s.inventory| && 0 <= j < |s.inventory[r].flights| && s.inventory[r].flights[j].id != flightId ==>
          st.next.inventory[r].flights[j].seats == s.inventory[r].flights[j].seats)
  {
    if MockBookStep(s, flightId, passengers, cabin, name).result.Ok? {
      IssueNext(s.counter);
    }
  }

  /** Conservation across one mock booking: the booked flight loses what the new record holds. */
  lemma MockBookConserves(seed: Inventory, s: MockState, l: Location, b: MockBooking)
    requires MockConserved(seed, s) && IdsUnique(s.inventory) && ValidLocation(s.inventory, l)
    requires s.counter >= FirstCounter && b.bookingId == BookingId(s.counter) && b.bookingId !in s.bookings
    requires b.flightId == FlightAt(s.inventory, l).id
    ensures MockConserved(seed, AfterMockBooking(s, l, b))
  {
    var n := AfterMockBooking(s, l, b);
    SameShapeTransitive(n.inventory, s.inventory, seed);
    var h := Hold(b.flightId, b.passengers);
    assert MockHolds(n.bookings) == MockHolds(s.bookings)[b.bookingId := h];
    assert b.bookingId !in MockHolds(s.bookings);
    forall r, j | 0 <= r < |n.inventory| && 0 <= j < |n.inventory[r].flights|
      ensures n.inventory[r].flights[j].seats + Held(MockHolds(n.bookings), n.inventory[r].flights[j].id, n.counter)
        == seed[r].flights[j].seats
    {
      HeldInsert(MockHolds(s.bookings), h, s.inventory[r].flights[j].id, s.counter);
      if r != l.r || j != l.j {
        assert s.inventory[r].flights[j].id != b.flightId;
      }
    }
  }

  /** The ledger part of the invariant across one mock booking. */
  lemma MockBookKeepsLedger(s: MockState, l: Location, b: MockBooking)
    requires ValidLocation(s.inventory, l) && s.counter >= FirstCounter && s.bookings.Keys == IssuedIds(s.counter)
    requires forall k :: k in s.bookings ==> s.bookings[k].bookingId == k
    requires b.bookingId == BookingId(s.counter)
    ensures var n := AfterMockBooking(s, l, b);
      n.bookings.Keys == IssuedIds(n.counter) && forall k :: k in n.bookings ==> n.bookings[k].bookingId == k
  {
    IssueNext(s.counter);
  }

  /** The success branch of the mock `book_flight`, and the invariant after it. */
  lemma MockBookCommit(seed: Inventory, s: MockState, l: Location, flightId: string, passengers: int, cabin: Cabin, name: string)
    requires MockInv(seed, s) && FindFlight(s.inventory, flightId) == Some(l)
    requires FlightAt(s.inventory, l).seats >= passengers
    ensures var b := NewMockBooking(s, l, flightId, passengers, cabin, name);
      MockBookStep(s, flightId, passengers, cabin, name) == MockStep(Ok(b), AfterMockBooking(s, l, b)) &&
      MockInv(seed, AfterMockBooking(s, l, b))
  {
    var b := NewMockBooking(s, l, flightId, passengers, cabin, name);
    SameShapeWellFormed(s.inventory, seed);
    IssueNext(s.counter);
    MockBookConserves(seed, s, l, b);
    MockBookKeepsLedger(s, l, b);
  }

  lemma MockBookPreservesInv(seed: Inventory, s: MockState, flightId: string, passengers: int, cabin: Cabin, name: string)
    requires MockInv(seed, s)
    ensures MockInv(seed, MockBookStep(s, flightId, passengers, cabin, name).next)
  {
    match FindFlight(s.inventory, flightId)
    case None =>
    case Some(l) =>
      if FlightAt(s.inventory, l).seats >= passengers {
        MockBookCommit(seed, s, l, flightId, passengers, cabin, name);
      }
  }

  lemma MockInitialInv(seed: Inventory)
    requires WellFormed(seed)
    ensures MockInv(seed, MockInitial(seed))
  {
    assert IssuedIds(FirstCounter) == {};
  }

  /**
   * The mock ledger only grows: ids once issued keep their records, and
   * the record count is the number of bookings made.
   */
  lemma MockLedgerOnlyGrows(seed: Inventory, s: MockState, flightId: string, passengers: int, cabin: Cabin, name: string)
    requires MockInv(seed, s)
    ensures var n := MockBookStep(s, flightId, passengers, cabin, name).next;
      (forall k :: k in s.bookings ==> k in n.bookings && n.bookings[k] == s.bookings[k]) &&
      |n.bookings| == n.counter - FirstCounter
  {
    var n := MockBookStep(s, flightId, passengers, cabin, name).next;
    MockBookPreservesInv(seed, s, flightId, passengers, cabin, name);
    IssueNext(s.counter);
    IssuedCount(n.counter);
  }

  // =====================================================================
  // The mock tool state as an object
  // =====================================================================

  class MockEngine {
    var inventory: Inventory
    var bookings: map<string, MockBooking>
    var counter: nat
    ghost var seed: Inventory

    function State(): MockState
      reads this
    {
      MockState(inventory, bookings, counter)
    }

    ghost predicate Valid()
      reads this
    {
      MockInv(seed, State())
    }

    constructor (initial: Inventory)
      requires WellFormed(initial)
      ensures Valid() && seed == initial
      ensures State() == MockInitial(initial)
    {
      inventory, bookings, counter := initial, map[], FirstCounter;
      seed := initial;
      MockInitialInv(initial);
    }

    method Search(origin: string, destination: string, date: string) returns (r: Result<MockSearchReport, MockError>)
      ensures r == MockSearch(inventory, origin, destination, date)
    {
      var flights := Lookup(inventory, RouteKey(origin, destination));
      if |flights| == 0 {
        return Err(NoFlightsForRoute(origin, destination));
      }
      r := Ok(MockSearchReport(origin, destination, date, flights, |flights|));
    }

    method CheckAvailability(flightId: string, passengers: int) returns (r: Result<MockAvailability, MockError>)
      ensures r == MockCheck(inventory, flightId, passengers)
    {
      var found := LocateFlight(inventory, flightId);
      if found.None? {
        return Err(FlightNotFound(flightId));
      }
      var l := found.value;
      var f := inventory[l.r].flights[l.j];
      var available := f.seats >= passengers;
      r := Ok(MockAvailability(flightId, inventory[l.r].route, passengers, f.seats, available, f.price,
                               if available then Some(f.price * passengers) else None));
    }

    method Book(flightId: string, passengers: int, cabin: Cabin, name: string) returns (r: Result<MockBooking, MockError>)
      requires Valid()
      modifies this
      ensures Valid() && seed == old(seed)
      ensures MockStep(r, State()) == MockBookStep(old(State()), flightId, passengers, cabin, name)
    {
      var found := LocateFlight(inventory, flightId);
      if found.None? {
        return Err(FlightNotFound(flightId));
      }
      var l := found.value;
      var f := inventory[l.r].flights[l.j];
      if f.seats < passengers {
        return Err(InsufficientSeats);
      }
      MockBookCommit(seed, State(), l, flightId, passengers, cabin, name);
      var b := NewMockBooking(State(), l, flightId, passengers, cabin, name);
      var next := AfterMockBooking(State(), l, b);
      inventory, bookings, counter := next.inventory, next.bookings, next.counter;
      r := Ok(b);
    }
  }
}
