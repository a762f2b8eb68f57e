/**
 * The inventory main.py starts from (four routes, two flights each) and
 * the demo's booking round trip on it, worked through the step functions.
 */
module MainSeed {
  import opened Wrappers
  import opened Flights
  import opened Ledger
  import opened BookingEngine

  /** `FLIGHTS_DB` as seeded: prices in whole units, routes in insertion order. */
  function Seed(): Inventory
  {
    [ RouteEntry("NYC-LON", [Flight("BA001", 850, "08:00", "20:00", 45),
                             Flight("AA102", 920, "14:30", "02:30", 12)]),
      RouteEntry("NYC-TYO", [Flight("JL005", 1200, "13:00", "16:00+1", 23),
                             Flight("AA150", 1150, "18:45", "22:15+1", 8)]),
      RouteEntry("LAX-TYO", [Flight("JL062", 980, "11:00", "15:30+1", 56),
                             Flight("NH175", 1050, "17:00", "21:00+1", 34)]),
      RouteEntry("LON-PAR", [Flight("AF318", 180, "09:15", "11:45", 89),
                             Flight("BA304", 195, "16:00", "18:30", 67)]) ]
  }

  /** The position of each seeded flight in scan order. */
  function IdRank(id: string): int
  {
    if id == "BA001" then 0 else if id == "AA102" then 1
    else if id == "JL005" then 2 else if id == "AA150" then 3
    else if id == "JL062" then 4 else if id == "NH175" then 5
    else if id == "AF318" then 6 else if id == "BA304" then 7
    else -1
  }

  /** Every seeded id sits at its rank: flight `j` of route `r` has rank `2 * r + j`. */
  lemma SeedRanks()
    ensures forall r, j :: 0 <= r < |Seed()| && 0 <= j < |Seed()[r].flights| ==> IdRank(Seed()[r].flights[j].id) == 2 * r + j
  {
    var inv := Seed();
    forall r, j | 0 <= r < |inv| && 0 <= j < |inv[r].flights|
      ensures IdRank(inv[r].flights[j].id) == 2 * r + j
    {
      if r == 0 {
      } else if r == 1 {
      } else if r == 2 {
      } else {
      }
    }
  }

  /** Route keys are distinct and every flight id occurs once, so the engine may start from it. */
  lemma SeedWellFormed()
    ensures WellFormed(Seed())
  {
    var inv := Seed();
    SeedRanks();
    assert inv[0].route[..3] == "NYC" && inv[1].route[..3] == "NYC";
    assert inv[0].route[4..] == "LON" && inv[1].route[4..] == "TYO";
    assert inv[2].route[..3] == "LAX" && inv[3].route[..3] == "LON";
  }

  /** The first id the counter hands out. */
  lemma FirstBookingId()
    ensures BookingId(FirstCounter) == "BK1000"
  {
    assert Decimal(1) == "1";
    assert Decimal(10) == "10";
    assert Decimal(100) == "100";
  }

  /** Searching is directional and rejects equal cities before any lookup. */
  lemma SearchOnSeed()
    ensures SearchFlights(Seed(), "NYC", "NYC", "2025-02-15") == Err(InvalidRoute)
    ensures SearchFlights(Seed(), "NYC", "LON", "2025-02-15")
      == Ok(SearchReport("NYC", "LON", "2025-02-15", Seed()[0].flights, 2))
    ensures SearchFlights(Seed(), "PAR", "LON", "2025-02-15") == Err(RouteNotFound("PAR", "LON"))
  {
    SeedWellFormed();
    assert RouteKey("NYC", "LON") == "NYC-LON";
    SearchResult(Seed(), "NYC", "LON", "2025-02-15", 0);
    var inv := Seed();
    assert forall r :: 0 <= r < |inv| ==> inv[r].route[0] != 'P';
    assert RouteKey("PAR", "LON")[0] == 'P';
  }

  /** The scan finds JL005 as the first flight of the second route. */
  lemma FindJL005()
    ensures FindFlight(Seed(), "JL005") == Some(Location(1, 0))
  {
    SeedWellFormed();
    FindFlightUnique(Seed(), "JL005", 1, 0);
  }

  /** JL005 for two: 23 seats, bookable, quoted at 2 x 1200 with no cabin multiplier. */
  lemma CheckOnSeed()
    ensures CheckFlightAvailability(Seed(), "JL005", 2)
      == Ok(Availability("JL005", "NYC-TYO", 2, 23, true, 120000, Some(240000), "13:00", "16:00+1"))
    ensures CheckFlightAvailability(Seed(), "JL005", 10) == Err(InvalidPassengerCount)
  {
    FindJL005();
  }

  /** The record the demo booking creates. */
  function DemoBooking(now: string): Booking
  {
    Booking("BK1000", "JL005", "NYC-TYO", 2, Business, "John Smith", "john@email.com", 600000,
            "13:00", "16:00+1", Confirmed, now, None)
  }

  /** The state after the demo booking: JL005 down to 21 seats, one record, counter 1001. */
  function AfterDemoBooking(now: string): EngineState
  {
    EngineState(SetSeats(Seed(), Location(1, 0), 21), map["BK1000" := DemoBooking(now)], 1001)
  }

  /** Booking JL005 for two in business: id BK1000, 2 x 1200 x 2.5 = 6000.00, seats 23 to 21. */
  lemma BookOnSeed(now: string)
    ensures BookStep(Initial(Seed()), "JL005", 2, Business, "John Smith", "john@email.com", now)
      == Step(Ok(DemoBooking(now)), AfterDemoBooking(now))
  {
    FindJL005();
    FirstBookingId();
    assert ValidEmail("john@email.com") by {
      assert "john@email.com"[4] == '@' && "john@email.com"[10] == '.';
    }
  }

  /** Cancelling it: 90% back (5400.00), a 10% fee (600.00), the record kept as CANCELLED. */
  lemma CancelOnSeed(now: string, later: string)
    ensures CancelStep(AfterDemoBooking(now), "BK1000", "john@email.com", later)
      == Step(Ok(Refund("BK1000", 540000, 600000, 60000)),
              EngineState(AddSeatsWhere(SetSeats(Seed(), Location(1, 0), 21), "JL005", 2),
                          map["BK1000" := DemoBooking(now).(status := Cancelled, cancellationDate := Some(later))], 1001))
  {
  }

  /** The cancellation gives JL005 its two seats back: the inventory is the seeded one again. */
  lemma CancelRestoresSeed()
    ensures AddSeatsWhere(SetSeats(Seed(), Location(1, 0), 21), "JL005", 2) == Seed()
  {
    var a, c := AddSeatsWhere(SetSeats(Seed(), Location(1, 0), 21), "JL005", 2), Seed();
    SeedRanks();
    forall r | 0 <= r < |a|
      ensures a[r] == c[r]
    {
      assert a[r].flights == c[r].flights;
    }
  }

  /** A second cancel is refused, and so is a cancel with another email. */
  lemma CancelRefusedOnSeed(now: string, later: string, again: string)
    ensures var s := AfterDemoBooking(now);
      CancelStep(CancelStep(s, "BK1000", "john@email.com", later).next, "BK1000", "john@email.com", again).result
        == Err(AlreadyCancelled) &&
      CancelStep(s, "BK1000", "jane@email.com", later) == Step(Err(EmailMismatch), s)
  {
    assert "john@email.com"[1] != "jane@email.com"[1];
  }

  /** Fifty seats on JL005 are refused with what was asked and what is left. */
  lemma OversizedBookingOnSeed(now: string)
    ensures var s := Initial(Seed());
      BookStep(s, "JL005", 50, Economy, "John Smith", "john@email.com", now) == Step(Err(InsufficientSeats(50, 23)), s)
  {
    FindJL005();
    assert ValidEmail("john@email.com") by {
      assert "john@email.com"[4] == '@' && "john@email.com"[10] == '.';
    }
  }
}
