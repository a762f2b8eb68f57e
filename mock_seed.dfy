/**
 * The inventory flight_booking_system_mock.py starts from (the first
 * three routes of main.py's, without LON-PAR) and the mock demo's calls
 * on it.
 */
module MockSeed {
  import opened Wrappers
  import opened Flights
  import opened Ledger
  import opened MockTools
  import MainSeed

  /** The mock `FLIGHTS_DB`. */
  function Seed(): Inventory
  {
    [ RouteEntry("NYC-LON", [Flight("BA001", 850, "08:00", "20:00", 45),
                             Flight("AA102", 920, "14:30", "02:30", 12)]),
      RouteEntry("NYC-TYO", [Flight("JL005", 1200, "13:00", "16:00+1", 23),
                             Flight("AA150", 1150, "18:45", "22:15+1", 8)]),
      RouteEntry("LAX-TYO", [Flight("JL062", 980, "11:00", "15:30+1", 56),
                             Flight("NH175", 1050, "17:00", "21:00+1", 34)]) ]
  }

  /** The mock database is main.py's without its last route, and so is well formed too. */
  lemma SeedWellFormed()
    ensures Seed() == MainSeed.Seed()[..3]
    ensures WellFormed(Seed())
  {
    MainSeed.SeedWellFormed();
    WellFormedPrefix(MainSeed.Seed(), 3);
  }

  /**
   * With no same-city check, NYC to NYC is just an absent route, and so is
   * LON to PAR, which only main.py serves.
   */
  lemma SearchOnSeed()
    ensures MockSearch(Seed(), "NYC", "NYC", "2025-02-15") == Err(NoFlightsForRoute("NYC", "NYC"))
    ensures MockSearch(Seed(), "LON", "PAR", "2025-02-15") == Err(NoFlightsForRoute("LON", "PAR"))
    ensures MockSearch(Seed(), "NYC", "TYO", "2025-02-15")
      == Ok(MockSearchReport("NYC", "TYO", "2025-02-15", Seed()[1].flights, 2))
  {
    var inv := Seed();
    assert forall r :: 0 <= r < |inv| ==> inv[r].route[4] != 'N' && inv[r].route[1] != 'O';
    assert RouteKey("NYC", "NYC")[4] == 'N' && RouteKey("LON", "PAR")[1] == 'O';
    SeedWellFormed();
    assert RouteKey("NYC", "TYO") == "NYC-TYO";
  }

  lemma FindJL005()
    ensures FindFlight(Seed(), "JL005") == Some(Location(1, 0))
  {
    SeedWellFormed();
    FindFlightUnique(Seed(), "JL005", 1, 0);
  }

  /** Any party size is checked, zero included; the quote is in whole units. */
  lemma CheckOnSeed()
    ensures MockCheck(Seed(), "JL005", 2) == Ok(MockAvailability("JL005", "NYC-TYO", 2, 23, true, 1200, Some(2400)))
    ensures MockCheck(Seed(), "JL005", 0) == Ok(MockAvailability("JL005", "NYC-TYO", 0, 23, true, 1200, Some(0)))
    ensures MockCheck(Seed(), "JL005", 24) == Ok(MockAvailability("JL005", "NYC-TYO", 24, 23, false, 1200, None))
  {
    FindJL005();
  }

  lemma FindJL062()
    ensures FindFlight(Seed(), "JL062") == Some(Location(2, 0))
  {
    SeedWellFormed();
    FindFlightUnique(Seed(), "JL062", 2, 0);
  }

  /** The mock demo's booking: JL062 for three in economy, BK1000 at 3 x 980 = 2940.00, seats 56 to 53. */
  lemma BookOnSeed()
    ensures var st := MockBookStep(MockInitial(Seed()), "JL062", 3, Economy, "Mike Johnson");
      st.result == Ok(MockBooking("BK1000", "JL062", 3, Economy, "Mike Johnson", 294000)) &&
      st.next == MockState(SetSeats(Seed(), Location(2, 0), 53),
                           map["BK1000" := MockBooking("BK1000", "JL062", 3, Economy, "Mike Johnson", 294000)], 1001)
  {
    FindJL062();
    MainSeed.FirstBookingId();
  }

  /** Too large a party is refused without detail, and nothing changes. */
  lemma OversizedBookingOnSeed()
    ensures var s := MockInitial(Seed());
      MockBookStep(s, "JL005", 24, Economy, "Mike Johnson") == MockStep(Err(InsufficientSeats), s)
  {
    FindJL005();
  }
}
