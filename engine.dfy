/**
 * The booking ledger and inventory engine of main.py: flight inventory,
 * booking ledger and global booking counter, with the five operations
 * search, check availability, book, cancel and view, and the
 * active/cancelled summary.
 *
 * Each operation is first given as a pure step function on an
 * `EngineState` (result plus next state); the lemmas below prove what
 * the source promises about it (error paths change nothing, seat
 * conservation, ids never reused, refund plus fee equals the total).
 * The class `Engine` holds the state in fields and runs the source's
 * nested scans as loops; each method is proved to agree with its step
 * function.
 */
module BookingEngine {
  import opened Wrappers
  import opened Flights
  import opened Ledger

  datatype Status = Confirmed | Cancelled

  /** A ledger record as `book_flight` stores it; money in cents, dates opaque. */
  datatype Booking = Booking(
    bookingId: string,
    flightId: string,
    route: string,
    passengers: int,
    cabin: Cabin,
    passengerName: string,
    passengerEmail: string,
    totalCents: int,
    departure: string,
    arrival: string,
    status: Status,
    bookingDate: string,
    cancellationDate: Option<string>)

  /** The error kinds of the engine, with the context fields the source reports. */
  datatype Error =
    | InvalidRoute
    | RouteNotFound(origin: string, destination: string)
    | FlightNotFound(flightId: string)
    | InvalidPassengerCount
    | InsufficientSeats(requested: int, available: int)
    | InvalidEmail
    | BookingNotFound(bookingId: string)
    | EmailMismatch
    | AlreadyCancelled

  datatype SearchReport = SearchReport(origin: string, destination: string, date: string, flights: seq<Flight>, count: nat)

  datatype Availability = Availability(
    flightId: string,
    route: string,
    requested: int,
    seatsAvailable: int,
    canBook: bool,
    pricePerPersonCents: int,
    totalCents: Option<int>,
    departure: string,
    arrival: string)

  datatype Refund = Refund(bookingId: string, refundCents: int, originalCents: int, feeCents: int)

  /** The three pieces of global state: `FLIGHTS_DB`, `BOOKINGS`, `BOOKING_COUNTER`. */
  datatype EngineState = EngineState(inventory: Inventory, bookings: map<string, Booking>, counter: nat)

  /** What a state-changing operation returns, and the state it leaves. */
  datatype Step<T> = Step(result: Result<T, Error>, next: EngineState)

  // =====================================================================
  // The operations as functions of the state
  // =====================================================================

  function SearchFlights(inv: Inventory, origin: string, destination: string, date: string): Result<SearchReport, Error>
  {
    if origin == destination then Err(InvalidRoute)
    else
      var fs := Lookup(inv, RouteKey(origin, destination));
      if |fs| == 0 then Err(RouteNotFound(origin, destination))
      else Ok(SearchReport(origin, destination, date, fs, |fs|))
  }

  const MinPassengers := 1
  const MaxPassengers := 9

  function CheckFlightAvailability(inv: Inventory, flightId: string, passengers: int): Result<Availability, Error>
  {
    if passengers < MinPassengers || passengers > MaxPassengers then Err(InvalidPassengerCount)
    else match FindFlight(inv, flightId)
      case None => Err(FlightNotFound(flightId))
      case Some(l) =>
        var f := FlightAt(inv, l);
        var canBook := f.seats >= passengers;
        Ok(Availability(flightId, inv[l.r].route, passengers, f.seats, canBook, Cents(f.price),
                        if canBook then Some(Cents(f.price * passengers)) else None,
                        f.departure, f.arrival))
  }

  /** The basic email shape check: contains "@" and contains ".". */
  predicate ValidEmail(email: string)
  {
    '@' in email && '.' in email
  }

  /** The CONFIRMED record `book_flight` creates for the flight at `l`. */
  function NewBooking(s: EngineState, l: Location, flightId: string, passengers: int, cabin: Cabin,
                      name: string, email: string, now: string): Booking
    requires ValidLocation(s.inventory, l)
  {
    var f := FlightAt(s.inventory, l);
    Booking(BookingId(s.counter), flightId, s.inventory[l.r].route, passengers, cabin, name, email,
            FareCents(f.price, passengers, cabin), f.departure, f.arrival, Confirmed, now, None)
  }

  /** The state after recording `b`: seats of the flight at `l` decremented, ledger entry added, counter advanced. */
  function AfterBooking(s: EngineState, l: Location, b: Booking): EngineState
    requires ValidLocation(s.inventory, l)
  {
    EngineState(SetSeats(s.inventory, l, FlightAt(s.inventory, l).seats - b.passengers),
                s.bookings[b.bookingId := b], s.counter + 1)
  }

  function BookStep(s: EngineState, flightId: string, passengers: int, cabin: Cabin,
                    name: string, email: string, now: string): Step<Booking>
  {
    if !ValidEmail(email) then Step(Err(InvalidEmail), s)
    else match FindFlight(s.inventory, flightId)
      case None => Step(Err(FlightNotFound(flightId)), s)
      case Some(l) =>
        var f := FlightAt(s.inventory, l);
        if f.seats < passengers then Step(Err(InsufficientSeats(passengers, f.seats)), s)
        else
          var b := NewBooking(s, l, flightId, passengers, cabin, name, email, now);
          Step(Ok(b), AfterBooking(s, l, b))
  }

  /** 90% of the total, in cents. */
  function RefundCents(totalCents: int): int
  {
    totalCents * 90 / 100
  }

  /** The 10% cancellation fee, in cents. */
  function FeeCents(totalCents: int): int
  {
    totalCents * 10 / 100
  }

  function CancelStep(s: EngineState, bookingId: string, email: string, now: string): Step<Refund>
  {
    if bookingId !in s.bookings then Step(Err(BookingNotFound(bookingId)), s)
    else
      var b := s.bookings[bookingId];
      if b.passengerEmail != email then Step(Err(EmailMismatch), s)
      else if b.status == Cancelled then Step(Err(AlreadyCancelled), s)
      else
        var b' := b.(status := Cancelled, cancellationDate := Some(now));
        Step(Ok(Refund(bookingId, RefundCents(b.totalCents), b.totalCents, FeeCents(b.totalCents))),
             EngineState(AddSeatsWhere(s.inventory, b.flightId, b.passengers),
                         s.bookings[bookingId := b'], s.counter))
  }

  function ViewBooking(bookings: map<string, Booking>, bookingId: string): Result<Booking, Error>
  {
    if bookingId in bookings then Ok(bookings[bookingId]) else Err(BookingNotFound(bookingId))
  }

  function ActiveCount(bookings: map<string, Booking>): nat
  {
    |set k | k in bookings && bookings[k].status == Confirmed|
  }

  function CancelledCount(bookings: map<string, Booking>): nat
  {
    |set k | k in bookings && bookings[k].status == Cancelled|
  }

  // =====================================================================
  // The state invariant
  // =====================================================================

  /** The seats a booking holds: its passengers while CONFIRMED, none once CANCELLED. */
  function HoldOf(b: Booking): Hold
  {
    Hold(b.flightId, if b.status == Confirmed then b.passengers else 0)
  }

  function Holds(bookings: map<string, Booking>): map<string, Hold>
  {
    map k | k in bookings :: HoldOf(bookings[k])
  }

  /**
   * Seat conservation: at every flight, the seats left plus the
   * passengers of its CONFIRMED bookings equal the seeded capacity.
   */
  ghost predicate Conserved(seed: Inventory, s: EngineState)
  {
    SameShape(s.inventory, seed) &&
    forall r, j :: 0 <= r < |s.inventory| && 0 <= j < |s.inventory[r].flights| ==>
      s.inventory[r].flights[j].seats + Held(Holds(s.bookings), s.inventory[r].flights[j].id, s.counter)
        == seed[r].flights[j].seats
  }

  /**
   * A reachable state: the inventory is the seed with only seat counts
   * changed, the ledger's keys are exactly the ids issued so far, every
   * record carries its own key, totals are whole multiples of ten cents,
   * and seats are conserved.
   */
  ghost predicate Inv(seed: Inventory, s: EngineState)
  {
    WellFormed(seed) &&
    s.counter >= FirstCounter &&
    s.bookings.Keys == IssuedIds(s.counter) &&
    (forall k :: k in s.bookings ==> s.bookings[k].bookingId == k && s.bookings[k].totalCents % 10 == 0) &&
    Conserved(seed, s)
  }

  /** No flight has fallen below zero seats. */
  ghost predicate NoNegativeSeats(s: EngineState)
  {
    forall r, j :: 0 <= r < |s.inventory| && 0 <= j < |s.inventory[r].flights| ==> s.inventory[r].flights[j].seats >= 0
  }

  /** No overselling: no flight below zero seats, no booking with a negative party. */
  ghost predicate NoOversell(s: EngineState)
  {
    NoNegativeSeats(s) &&
    (forall k :: k in s.bookings ==> s.bookings[k].passengers >= 0)
  }

  function Initial(seed: Inventory): EngineState
  {
    EngineState(seed, map[], FirstCounter)
  }

  // =====================================================================
  // Lemmas: search, availability, view, summary
  // =====================================================================

  /** Equal cities are rejected whatever the inventory holds: the inventory is never consulted. */
  lemma SearchSameCity(inv1: Inventory, inv2: Inventory, city: string, date1: string, date2: string)
    ensures SearchFlights(inv1, city, city, date1) == Err(InvalidRoute)
    ensures SearchFlights(inv1, city, city, date1) == SearchFlights(inv2, city, city, date2)
  {
  }

  /**
   * For distinct cities: no flights under the route key is RouteNotFound;
   * otherwise exactly that route's flights in stored order, their count,
   * and the date echoed back.
   */
  lemma SearchResult(inv: Inventory, origin: string, destination: string, date: string, r: nat)
    requires RouteKeysDistinct(inv) && origin != destination
    requires r < |inv| && inv[r].route == RouteKey(origin, destination)
    ensures var res := SearchFlights(inv, origin, destination, date);
      (|inv[r].flights| == 0 <==> res == Err(RouteNotFound(origin, destination))) &&
      (|inv[r].flights| > 0 ==> res == Ok(SearchReport(origin, destination, date, inv[r].flights, |inv[r].flights|)))
  {
  }

  lemma SearchAbsentRoute(inv: Inventory, origin: string, destination: string, date: string)
    requires origin != destination
    requires forall r :: 0 <= r < |inv| ==> inv[r].route != RouteKey(origin, destination)
    ensures SearchFlights(inv, origin, destination, date) == Err(RouteNotFound(origin, destination))
  {
  }

  /**
   * For a flight of the inventory and an accepted party size: the report
   * shows its current seats, `canBook` holds iff they suffice, and the
   * quote (base fare, no cabin multiplier) is given only when bookable.
   */
  lemma AvailabilityReport(inv: Inventory, r: nat, j: nat, passengers: int)
    requires IdsUnique(inv) && r < |inv| && j < |inv[r].flights|
    requires MinPassengers <= passengers <= MaxPassengers
    ensures var f := inv[r].flights[j];
      var res := CheckFlightAvailability(inv, f.id, passengers);
      res.Ok? && res.value.seatsAvailable == f.seats && res.value.route == inv[r].route &&
      (res.value.canBook <==> f.seats >= passengers) &&
      res.value.totalCents == (if f.seats >= passengers then Some(FareCents(f.price, passengers, Economy)) else None) &&
      res == Ok(Availability(f.id, inv[r].route, passengers, f.seats, f.seats >= passengers, Cents(f.price),
                             if f.seats >= passengers then Some(FareCents(f.price, passengers, Economy)) else None,
                             f.departure, f.arrival))
  {
    FindFlightUnique(inv, inv[r].flights[j].id, r, j);
    FareByCabin(inv[r].flights[j].price, passengers, Economy);
  }

  /** Out-of-range party sizes are rejected before the lookup; unknown ids are FlightNotFound. */
  lemma AvailabilityErrors(inv: Inventory, flightId: string, passengers: int)
    ensures (passengers < 1 || passengers > 9) ==> CheckFlightAvailability(inv, flightId, passengers) == Err(InvalidPassengerCount)
    ensures (1 <= passengers <= 9 && forall r, j :: 0 <= r < |inv| && 0 <= j < |inv[r].flights| ==> inv[r].flights[j].id != flightId)
      ==> CheckFlightAvailability(inv, flightId, passengers) == Err(FlightNotFound(flightId))
  {
  }

  /** View returns the stored record verbatim, CANCELLED ones included; unknown ids are errors. */
  lemma ViewIsVerbatim(bookings: map<string, Booking>, bookingId: string)
    ensures bookingId in bookings <==> ViewBooking(bookings, bookingId).Ok?
    ensures bookingId in bookings ==> ViewBooking(bookings, bookingId).value == bookings[bookingId]
    ensures bookingId !in bookings ==> ViewBooking(bookings, bookingId) == Err(BookingNotFound(bookingId))
  {
  }

  /** Every booking is either active or cancelled: the two counts add up to the total. */
  lemma SummaryAddsUp(bookings: map<string, Booking>)
    ensures ActiveCount(bookings) + CancelledCount(bookings) == |bookings|
  {
    var active := set k | k in bookings && bookings[k].status == Confirmed;
    var cancelled := set k | k in bookings && bookings[k].status == Cancelled;
    assert active + cancelled == bookings.Keys;
    assert active !! cancelled;
    assert |active + cancelled| == |active| + |cancelled|;
  }

  // =====================================================================
  // Lemmas: the initial state
  // =====================================================================

  lemma InitialInv(seed: Inventory)
    requires WellFormed(seed)
    ensures Inv(seed, Initial(seed))
  {
    assert IssuedIds(FirstCounter) == {};
  }

  lemma InitialNoOversell(seed: Inventory)
    requires forall r, j :: 0 <= r < |seed| && 0 <= j < |seed[r].flights| ==> seed[r].flights[j].seats >= 0
    ensures NoOversell(Initial(seed))
  {
  }

  // =====================================================================
  // Lemmas: booking
  // =====================================================================

  /**
   * The error paths of `book`, checked in the source's order: a bad email
   * before any lookup, then an unknown flight, then too few seats (with
   * requested and available). Each leaves counter, ledger and seats as
   * they were.
   */
  lemma BookErrors(s: EngineState, flightId: string, passengers: int, cabin: Cabin, name: string, email: string, now: string)
    ensures var st := BookStep(s, flightId, passengers, cabin, name, email, now);
      (st.result.Err? ==> st.next == s) &&
      (!ValidEmail(email) ==> st.result == Err(InvalidEmail)) &&
      (ValidEmail(email) && FindFlight(s.inventory, flightId).None? ==> st.result == Err(FlightNotFound(flightId))) &&
      (ValidEmail(email) && FindFlight(s.inventory, flightId).Some? ==>
        var f := FlightAt(s.inventory, FindFlight(s.inventory, flightId).value);
        (f.seats < passengers <==> st.result == Err(InsufficientSeats(passengers, f.seats))))
  {
  }

  /**
   * A successful booking: one new key BookingId(old counter), not used
   * before, holding a CONFIRMED record with the request's passenger
   * details, the flight's route and times, the booking date, no
   * cancellation date and the cabin table's price; the counter goes up by one; the booked flight loses exactly `passengers`
   * seats and every other flight keeps its seats.
   */
  lemma BookSuccess(seed: Inventory, s: EngineState, flightId: string, passengers: int, cabin: Cabin,
                    name: string, email: string, now: string)
    requires Inv(seed, s)
    ensures var st := BookStep(s, flightId, passengers, cabin, name, email, now);
      st.result.Ok? ==>
        var b := st.result.value;
        var l := FindFlight(s.inventory, flightId).value;
        b.bookingId == BookingId(s.counter) && b.bookingId !in s.bookings &&
        st.next.bookings == s.bookings[b.bookingId := b] && |st.next.bookings| == |s.bookings| + 1 &&
        st.next.counter == s.counter + 1 &&
        b.status == Confirmed && b.flightId == flightId && b.passengers == passengers &&
        b.passengerName == name && b.passengerEmail == email && b.cabin == cabin &&
        b.route == s.inventory[l.r].route && b.departure == FlightAt(s.inventory, l).departure &&
        b.arrival == FlightAt(s.inventory, l).arrival && b.bookingDate == now && b.cancellationDate == None &&
        b.totalCents == FareCents(FlightAt(s.inventory, l).price, passengers, cabin) &&
        SameShape(st.next.inventory, s.inventory) &&
        FlightAt(st.next.inventory, l).seats == FlightAt(s.inventory, l).seats - passengers &&
        (forall r, j :: 0 <= r < |s.inventory| && 0 <= j < |s.inventory[r].flights| && s.inventory[r].flights[j].id != flightId ==>
          st.next.inventory[r].flights[j].seats == s.inventory[r].flights[j].seats)
  {
    var st := BookStep(s, flightId, passengers, cabin, name, email, now);
    if st.result.Ok? {
      IssueNext(s.counter);
      IssuedCount(s.counter);
      IssuedCount(s.counter + 1);
    }
  }

  lemma HoldsUpdate(bookings: map<string, Booking>, k: string, b: Booking)
    ensures Holds(bookings[k := b]) == Holds(bookings)[k := HoldOf(b)]
  {
  }

  /** Conservation across one booking: the booked flight loses what the new record holds. */
  lemma BookConserves(seed: Inventory, s: EngineState, l: Location, b: Booking)
    requires Conserved(seed, s) && IdsUnique(s.inventory) && ValidLocation(s.inventory, l)
    requires s.counter >= FirstCounter && b.bookingId == BookingId(s.counter) && b.bookingId !in s.bookings
    requires b.flightId == FlightAt(s.inventory, l).id && b.status == Confirmed
    ensures Conserved(seed, AfterBooking(s, l, b))
  {
    var n := AfterBooking(s, l, b);
    SameShapeTransitive(n.inventory, s.inventory, seed);
    HoldsUpdate(s.bookings, b.bookingId, b);
    assert b.bookingId !in Holds(s.bookings);
    forall r, j | 0 <= r < |n.inventory| && 0 <= j < |n.inventory[r].flights|
      ensures n.inventory[r].flights[j].seats + Held(Holds(n.bookings), n.inventory[r].flights[j].id, n.counter)
        == seed[r].flights[j].seats
    {
      HeldInsert(Holds(s.bookings), HoldOf(b), s.inventory[r].flights[j].id, s.counter);
      if r != l.r || j != l.j {
        assert s.inventory[r].flights[j].id != b.flightId;
      }
    }
  }

  /** The ledger part of the invariant across one booking. */
  lemma BookKeepsLedger(s: EngineState, l: Location, b: Booking)
    requires ValidLocation(s.inventory, l) && s.counter >= FirstCounter && s.bookings.Keys == IssuedIds(s.counter)
    requires forall k :: k in s.bookings ==> s.bookings[k].bookingId == k && s.bookings[k].totalCents % 10 == 0
    requires b.bookingId == BookingId(s.counter) && b.totalCents % 10 == 0
    ensures var n := AfterBooking(s, l, b);
      n.bookings.Keys == IssuedIds(n.counter) &&
      forall k :: k in n.bookings ==> n.bookings[k].bookingId == k && n.bookings[k].totalCents % 10 == 0
  {
    IssueNext(s.counter);
  }

  /** Booking keeps the invariant, seat conservation included. */
  lemma BookPreservesInv(seed: Inventory, s: EngineState, flightId: string, passengers: int, cabin: Cabin,
                         name: string, email: string, now: string)
    requires Inv(seed, s)
    ensures Inv(seed, BookStep(s, flightId, passengers, cabin, name, email, now).next)
  {
    var st := BookStep(s, flightId, passengers, cabin, name, email, now);
    if st.result.Ok? {
      var l := FindFlight(s.inventory, flightId).value;
      var b := NewBooking(s, l, flightId, passengers, cabin, name, email, now);
      assert st.next == AfterBooking(s, l, b);
      SameShapeWellFormed(s.inventory, seed);
      IssueNext(s.counter);
      FareByCabin(FlightAt(s.inventory, l).price, passengers, cabin);
      BookConserves(seed, s, l, b);
      BookKeepsLedger(s, l, b);
    }
  }

  /**
   * The success branch of `book`, for the flight the scan found: the step
   * records NewBooking and yields AfterBooking, and that state is reachable.
   */
  lemma BookCommit(seed: Inventory, s: EngineState, l: Location, flightId: string, passengers: int, cabin: Cabin,
                   name: string, email: string, now: string)
    requires Inv(seed, s) && ValidEmail(email) && FindFlight(s.inventory, flightId) == Some(l)
    requires FlightAt(s.inventory, l).seats >= passengers
    ensures var b := NewBooking(s, l, flightId, passengers, cabin, name, email, now);
      BookStep(s, flightId, passengers, cabin, name, email, now) == Step(Ok(b), AfterBooking(s, l, b)) &&
      Inv(seed, AfterBooking(s, l, b))
  {
    BookPreservesInv(seed, s, flightId, passengers, cabin, name, email, now);
  }

  /** With a non-negative party, booking never drives a flight below zero seats. */
  lemma BookKeepsNoOversell(s: EngineState, flightId: string, passengers: int, cabin: Cabin,
                            name: string, email: string, now: string)
    requires NoOversell(s) && passengers >= 0
    ensures NoOversell(BookStep(s, flightId, passengers, cabin, name, email, now).next)
  {
  }

  // =====================================================================
  // Lemmas: cancellation
  // =====================================================================

  /**
   * The guards of `cancel`, in order: unknown id, then an email that
   * differs from the stored one, then an already CANCELLED booking. Each
   * leaves the state unchanged.
   */
  lemma CancelErrors(s: EngineState, bookingId: string, email: string, now: string)
    ensures var st := CancelStep(s, bookingId, email, now);
      (st.result.Err? ==> st.next == s) &&
      (bookingId !in s.bookings ==> st.result == Err(BookingNotFound(bookingId))) &&
      (bookingId in s.bookings && s.bookings[bookingId].passengerEmail != email ==> st.result == Err(EmailMismatch)) &&
      ((bookingId in s.bookings && s.bookings[bookingId].passengerEmail == email && s.bookings[bookingId].status == Cancelled)
         ==> st.result == Err(AlreadyCancelled)) &&
      (st.result.Ok? <==> bookingId in s.bookings && s.bookings[bookingId].passengerEmail == email &&
                          s.bookings[bookingId].status == Confirmed)
  {
  }

  /** Refund and fee on a total of whole ten-cent units: 90% and 10%, adding up to the total. */
  lemma RefundSplit(totalCents: int)
    requires totalCents % 10 == 0
    ensures RefundCents(totalCents) + FeeCents(totalCents) == totalCents
    ensures RefundCents(totalCents) == 9 * FeeCents(totalCents)
    ensures 10 * FeeCents(totalCents) == totalCents
  {
    var q := totalCents / 10;
    assert totalCents == 10 * q;
    assert totalCents * 90 == 100 * (9 * q);
    assert totalCents * 10 == 100 * q;
  }

  /**
   * A successful cancellation: the record becomes CANCELLED with its
   * cancellation date and its total untouched, no other record changes,
   * the counter stays, the seats of the booked flight go back up by the
   * party size and no other flight changes; refund plus fee is the total.
   */
  lemma CancelSuccess(seed: Inventory, s: EngineState, bookingId: string, email: string, now: string)
    requires Inv(seed, s)
    ensures var st := CancelStep(s, bookingId, email, now);
      st.result.Ok? ==>
        var b := s.bookings[bookingId];
        var rf := st.result.value;
        st.next.bookings == s.bookings[bookingId := b.(status := Cancelled, cancellationDate := Some(now))] &&
        st.next.bookings.Keys == s.bookings.Keys && st.next.counter == s.counter &&
        st.next.bookings[bookingId].totalCents == b.totalCents &&
        rf.bookingId == bookingId &&
        rf.originalCents == b.totalCents && rf.refundCents + rf.feeCents == b.totalCents &&
        rf.refundCents == 9 * rf.feeCents &&
        SameShape(st.next.inventory, s.inventory) &&
        (forall r, j :: 0 <= r < |s.inventory| && 0 <= j < |s.inventory[r].flights| ==>
          st.next.inventory[r].flights[j].seats ==
            s.inventory[r].flights[j].seats + (if s.inventory[r].flights[j].id == b.flightId then b.passengers else 0))
  {
    var st := CancelStep(s, bookingId, email, now);
    if st.result.Ok? {
      RefundSplit(s.bookings[bookingId].totalCents);
    }
  }

  /** A second cancel of the same booking is rejected, not refunded twice. */
  lemma CancelTwiceRejected(s: EngineState, bookingId: string, email: string, now: string, later: string)
    requires CancelStep(s, bookingId, email, now).result.Ok?
    ensures var n := CancelStep(s, bookingId, email, now).next;
      CancelStep(n, bookingId, email, later) == Step(Err(AlreadyCancelled), n)
  {
  }

  /** Conservation across one cancellation: the booked flight gets back what the record held. */
  lemma CancelConserves(seed: Inventory, s: EngineState, m: nat, b': Booking)
    requires Conserved(seed, s) && FirstCounter <= m < s.counter
    requires BookingId(m) in s.bookings && s.bookings[BookingId(m)].status == Confirmed
    requires b'.flightId == s.bookings[BookingId(m)].flightId && b'.status == Cancelled
    ensures var b := s.bookings[BookingId(m)];
      Conserved(seed, EngineState(AddSeatsWhere(s.inventory, b.flightId, b.passengers),
                                  s.bookings[BookingId(m) := b'], s.counter))
  {
    var b := s.bookings[BookingId(m)];
    var n := EngineState(AddSeatsWhere(s.inventory, b.flightId, b.passengers), s.bookings[BookingId(m) := b'], s.counter);
    SameShapeTransitive(n.inventory, s.inventory, seed);
    HoldsUpdate(s.bookings, BookingId(m), b');
    forall r, j | 0 <= r < |n.inventory| && 0 <= j < |n.inventory[r].flights|
      ensures n.inventory[r].flights[j].seats + Held(Holds(n.bookings), n.inventory[r].flights[j].id, n.counter)
        == seed[r].flights[j].seats
    {
      HeldUpdate(Holds(s.bookings), m, HoldOf(b'), s.inventory[r].flights[j].id, s.counter);
    }
  }

  /** Cancellation keeps the invariant, seat conservation included. */
  lemma CancelPreservesInv(seed: Inventory, s: EngineState, bookingId: string, email: string, now: string)
    requires Inv(seed, s)
    ensures Inv(seed, CancelStep(s, bookingId, email, now).next)
  {
    var st := CancelStep(s, bookingId, email, now);
    if st.result.Ok? {
      var b := s.bookings[bookingId];
      assert bookingId in IssuedIds(s.counter);
      var m :| FirstCounter <= m < s.counter && BookingId(m) == bookingId;
      CancelConserves(seed, s, m, b.(status := Cancelled, cancellationDate := Some(now)));
    }
  }

  /** Cancellation frees seats only; with non-negative parties nothing drops below zero. */
  lemma CancelKeepsNoOversell(s: EngineState, bookingId: string, email: string, now: string)
    requires NoOversell(s)
    ensures NoOversell(CancelStep(s, bookingId, email, now).next)
  {
  }

  /**
   * Seats stay within capacity: in a reachable state without overselling,
   * every flight has between zero and its seeded number of seats.
   */
  lemma SeatsWithinCapacity(seed: Inventory, s: EngineState, r: nat, j: nat)
    requires Inv(seed, s) && NoOversell(s)
    requires r < |s.inventory| && j < |s.inventory[r].flights|
    ensures 0 <= s.inventory[r].flights[j].seats <= seed[r].flights[j].seats
  {
    HeldNonNeg(Holds(s.bookings), s.inventory[r].flights[j].id, s.counter);
  }

  /** In a reachable state without negative seats, no flight's confirmed passengers exceed its capacity. */
  lemma NoOverselling(seed: Inventory, s: EngineState, r: nat, j: nat)
    requires Inv(seed, s) && NoNegativeSeats(s)
    requires r < |s.inventory| && j < |s.inventory[r].flights|
    ensures Held(Holds(s.bookings), s.inventory[r].flights[j].id, s.counter) <= seed[r].flights[j].seats
  {
  }

  /** Cancelling the booking just made gives back exactly the inventory it started from. */
  lemma BookThenCancel(seed: Inventory, s: EngineState, flightId: string, passengers: int, cabin: Cabin,
                       name: string, email: string, now: string, later: string)
    requires Inv(seed, s)
    requires BookStep(s, flightId, passengers, cabin, name, email, now).result.Ok?
    ensures var st := BookStep(s, flightId, passengers, cabin, name, email, now);
      var ct := CancelStep(st.next, st.result.value.bookingId, email, later);
      ct.result.Ok? && ct.next.inventory == s.inventory && ct.next.counter == s.counter + 1
  {
    var st := BookStep(s, flightId, passengers, cabin, name, email, now);
    var ct := CancelStep(st.next, st.result.value.bookingId, email, later);
    SameShapeWellFormed(s.inventory, seed);
    var l := FindFlight(s.inventory, flightId).value;
    var a, c := ct.next.inventory, s.inventory;
    assert |a| == |c|;
    forall r | 0 <= r < |a|
      ensures a[r] == c[r]
    {
      forall j | 0 <= j < |a[r].flights|
        ensures a[r].flights[j] == c[r].flights[j]
      {
        FindFlightUnique(c, flightId, r, j);
      }
      assert a[r].flights == c[r].flights;
    }
  }

  // =====================================================================
  // The engine object
  // =====================================================================

  /** The engine instance owning inventory, ledger and counter. */
  class Engine {
    var inventory: Inventory
    var bookings: map<string, Booking>
    var counter: nat
    /** The inventory as seeded; capacities are read from it. */
    ghost var seed: Inventory

    function State(): EngineState
      reads this
    {
      EngineState(inventory, bookings, counter)
    }

    ghost predicate Valid()
      reads this
    {
      Inv(seed, State())
    }

    constructor (initial: Inventory)
      requires WellFormed(initial)
      ensures Valid() && seed == initial
      ensures State() == Initial(initial)
    {
      inventory, bookings, counter := initial, map[], FirstCounter;
      seed := initial;
      InitialInv(initial);
    }

    method Search(origin: string, destination: string, date: string) returns (r: Result<SearchReport, Error>)
      ensures r == SearchFlights(inventory, origin, destination, date)
    {
      if origin == destination {
        return Err(InvalidRoute);
      }
      var flights := Lookup(inventory, RouteKey(origin, destination));
      if |flights| == 0 {
        return Err(RouteNotFound(origin, destination));
      }
      r := Ok(SearchReport(origin, destination, date, flights, |flights|));
    }

    method CheckAvailability(flightId: string, passengers: int) returns (r: Result<Availability, Error>)
      ensures r == CheckFlightAvailability(inventory, flightId, passengers)
    {
      if passengers < MinPassengers || passengers > MaxPassengers {
        return Err(InvalidPassengerCount);
      }
      var found := LocateFlight(inventory, flightId);
      if found.None? {
        return Err(FlightNotFound(flightId));
      }
      var l := found.value;
      var f := inventory[l.r].flights[l.j];
      var available := f.seats >= passengers;
      r := Ok(Availability(flightId, inventory[l.r].route, passengers, f.seats, available, Cents(f.price),
                           if available then Some(Cents(f.price * passengers)) else None,
                           f.departure, f.arrival));
    }

    method Book(flightId: string, passengers: int, cabin: Cabin, name: string, email: string, now: string)
      returns (r: Result<Booking, Error>)
      requires Valid()
      modifies this
      ensures Valid() && seed == old(seed)
      ensures Step(r, State()) == BookStep(old(State()), flightId, passengers, cabin, name, email, now)
      ensures NoOversell(old(State())) && passengers >= 0 ==> NoOversell(State())
    {
      if NoOversell(State()) && passengers >= 0 {
        BookKeepsNoOversell(State(), flightId, passengers, cabin, name, email, now);
      }
      if !ValidEmail(email) {
        return Err(InvalidEmail);
      }
      var found := LocateFlight(inventory, flightId);
      if found.None? {
        return Err(FlightNotFound(flightId));
      }
      var l := found.value;
      if inventory[l.r].flights[l.j].seats < passengers {
        return Err(InsufficientSeats(passengers, inventory[l.r].flights[l.j].seats));
      }
      BookCommit(seed, State(), l, flightId, passengers, cabin, name, email, now);
      var b := NewBooking(State(), l, flightId, passengers, cabin, name, email, now);
      var next := AfterBooking(State(), l, b);
      inventory, bookings, counter := next.inventory, next.bookings, next.counter;
      r := Ok(b);
    }

    method Cancel(bookingId: string, email: string, now: string) returns (r: Result<Refund, Error>)
      requires Valid()
      modifies this
      ensures Valid() && seed == old(seed)
      ensures Step(r, State()) == CancelStep(old(State()), bookingId, email, now)
      ensures NoOversell(old(State())) ==> NoOversell(State())
    {
      CancelPreservesInv(seed, State(), bookingId, email, now);
      if NoOversell(State()) {
        CancelKeepsNoOversell(State(), bookingId, email, now);
      }
      if bookingId !in bookings {
        return Err(BookingNotFound(bookingId));
      }
      var b := bookings[bookingId];
      if b.passengerEmail != email {
        return Err(EmailMismatch);
      }
      if b.status == Cancelled {
        return Err(AlreadyCancelled);
      }
      inventory := AddSeats(inventory, b.flightId, b.passengers);
      bookings := bookings[bookingId := b.(status := Cancelled, cancellationDate := Some(now))];
      r := Ok(Refund(bookingId, RefundCents(b.totalCents), b.totalCents, FeeCents(b.totalCents)));
    }

    method View(bookingId: string) returns (r: Result<Booking, Error>)
      ensures r == ViewBooking(bookings, bookingId)
    {
      if bookingId !in bookings {
        return Err(BookingNotFound(bookingId));
      }
      r := Ok(bookings[bookingId]);
    }
  }
}
