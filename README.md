# Flight booking ledger and inventory engine

This project models the in-memory core of a small flight booking assistant:

- **The state.** A flight inventory (`FLIGHTS_DB`) maps route keys such as "NYC-LON" to ordered lists of flight records, each with a mutable seat count. A booking ledger (`BOOKINGS`) maps booking ids to records. A global booking counter (`BOOKING_COUNTER`) starts at 1000.
- **The full engine in `main.py`.** It has five operations:
  - search a route;
  - check a flight's availability and base-fare quote;
  - book: check the email and the seats, apply the cabin multiplier, allocate an id, insert the record, decrement the seats;
  - view a record;
  - cancel: check ownership, move CONFIRMED to CANCELLED once, restore the seats, split the total into a 90% refund and a 10% fee.

  It also has the active/cancelled summary counts.
- **The reduced copy in `flight_booking_system_mock.py`.** It has search, availability and booking with fewer validations. It also has the deterministic keyword router `MockClaude.process_message`, which picks a tool call and remembers the last route and the last flight checked.

Money is held in integer cents. The cabin multipliers are 100, 250 and 400 percent. With whole-unit base fares every total is a multiple of ten cents, so the 90%/10% split is exact. The source computes these amounts in floating point. Its booking total equals the exact cents whenever the float product is exact. For economy and first, which multiply by the powers of two 1.0 and 4.0, that holds while price × passengers is itself a double, in particular while its magnitude is at most 2^53. For business (× 2.5) it holds while the total stays below 2^52 in magnitude. The refund and fee are products with the inexact doubles 0.9 and 0.1 and can round differently from the exact cents well below those bounds (see "## Left out").

The model has three layers:

- **Step functions.** Each operation is a pure function from a state datatype to a result and the next state: `BookStep`, `CancelStep`, `MockBookStep`, `Classify`.
- **Lemmas.** They prove the properties the source promises about those functions:
  - error paths leave the state alone;
  - booking ids are never reused;
  - seats are conserved (the seats left plus the passengers of confirmed bookings equal the seeded capacity);
  - while every party is non-negative, a flight stays between zero seats and its seeded capacity;
  - refund plus fee is the total;
  - cancelling a booking restores the inventory.
- **Classes.** `BookingEngine.Engine`, `MockTools.MockEngine` and `Router.MockClaude` hold the state in fields. They run the source's nested scans as loops (`Flights.LocateFlight`, `Flights.AddSeats`). Each of their methods is proved to produce exactly the step function's result and new state. The methods of `Engine` and `MockEngine` also keep the reachability invariant.

The files are `flights.dfy` (inventory, scan, seat updates, fares), `ledger.dfy` (booking ids and held seats), `engine.dfy` (main.py's engine), `mock_engine.dfy` (the mock tools) and `router.dfy` (the intent router), plus three supporting files:

- `main_seed.dfy` works the demo through the seeded inventory of `main.py`.
- `mock_seed.dfy` does the same for the mock's seeded inventory.
- `wrappers.dfy` holds `Option` and `Result`.

## Model

| member | source | states |
|---|---|---|
| Ledger.Decimal | main.py:169 | `str(n)` of a counter value is a non-empty string of decimal digits, one digit long exactly when n < 10 |
| Ledger.DecimalRoundTrip | main.py:169 | reading the digits of `str(n)` back gives n |
| Ledger.DecimalInjective | main.py:169 | distinct counter values print differently |
| Ledger.BookingIdInjective | main.py:169-170 | `"BK" + str(a) == "BK" + str(b)` only when a == b, so ids for distinct counter values never collide |
| Ledger.IssueNext | main.py:169-170 | the id allocated at counter n was not issued before n, and the issued set grows by exactly that id |
| Ledger.IssuedCount | main.py:169-170 | after counting from 1000 to n, exactly n − 1000 distinct ids have been issued |
| Ledger.HeldOutside | main.py:187 | writing a ledger key that was never issued leaves the seats held by issued ids unchanged |
| Ledger.HeldUpdate | main.py:234 | replacing the record of an issued id changes the held seats by exactly the old and new records' difference |
| Ledger.HeldNonNeg | main.py:156-190 | entries holding no negative seats sum to a non-negative total |
| Ledger.HeldInsert | main.py:187 | inserting the record of the freshly allocated id adds exactly its seats to the held total |
| Flights.IndexIn | main.py:107-108 | the first index in one route's list whose id matches, or None when no flight there has it |
| Flights.FindFlight | main.py:106-108 | the nested route/flight scan with early return: the first position in scan order holding the id, or None when no flight has it |
| Flights.FirstMatchUnique | main.py:106-108 | the scan's hit is determined by the inventory: two first matches are equal |
| Flights.LocateFlight | main.py:106-108 | the nested `for` loops with early return find exactly the first match `FindFlight` specifies |
| Flights.FindFlightUnique | main.py:106-108 | on an inventory with unique ids, a flight holds the id exactly when it is the scan's hit |
| Flights.RouteIndex | main.py:70-71 | the entry whose key is the route, or None when no entry has that key |
| Flights.Lookup | main.py:70-71 | `FLIGHTS_DB.get(route, [])`: the empty list for an absent key, otherwise the flights stored under that key |
| Flights.SetSeats | main.py:190 | the flight at the position gets the new seat count; every other flight is unchanged and routes, ids, fares and times stay |
| Flights.AddSeatsWhere | main.py:227-231 | every flight whose id matches gets `seats += delta`, and only the seat counts change |
| Flights.AddSeats | main.py:227-231 | the nested seat-restoring loop, with no early exit, yields `AddSeatsWhere` |
| Flights.FareByCabin | main.py:164-166 | the fare in cents is the base fare for economy, 2.5 times it for business and 4 times it for first, and always a whole number of ten-cent units |
| BookingEngine.SearchSameCity | main.py:67-68 | equal cities give the invalid-route error whatever the inventory and date, so the inventory is never consulted |
| BookingEngine.SearchResult | main.py:70-86 | for distinct cities and a present route, the error comes exactly when the route has no flights; otherwise the result is exactly that route's flights in stored order, their count and the echoed date |
| BookingEngine.SearchAbsentRoute | main.py:70-77 | a route key with no entry gives route-not-found |
| BookingEngine.AvailabilityReport | main.py:106-122 | for a flight of the inventory and a party of 1 to 9, the whole report: id, route, party, current seats, `canBook` iff seats ≥ passengers, the per-person price, a total of price × passengers (no cabin multiplier) only when bookable, departure and arrival |
| BookingEngine.AvailabilityErrors | main.py:102-124 | a party below 1 or above 9 is rejected before the lookup; an id no flight has is flight-not-found |
| BookingEngine.ViewIsVerbatim | main.py:261-264 | view succeeds exactly for stored ids and returns the stored record as it is, CANCELLED ones included; an unknown id is booking-not-found |
| BookingEngine.SummaryAddsUp | main.py:451-453 | the active count plus the cancelled count equals the total number of bookings |
| BookingEngine.InitialInv | main.py:26-46 | the seeded inventory with an empty ledger and counter 1000 satisfies the invariant |
| BookingEngine.InitialNoOversell | main.py:26-46 | a seed with no negative seat count starts without overselling |
| BookingEngine.BookErrors | main.py:149-198 | the error paths in order: an email without "@" or "." is rejected before any lookup, then an unknown flight, then too few seats with the requested and available counts; each leaves counter, ledger and seats as they were |
| BookingEngine.BookSuccess | main.py:164-190 | on success: the new key is "BK" + the old counter and was not used before; the ledger gains exactly that one CONFIRMED record, with the requested flight, party, cabin, name and email, the flight's route, departure and arrival, the booking date, no cancellation date, and the cabin table's price; the counter rises by one; the booked flight loses exactly `passengers` seats; every other flight keeps its seats |
| BookingEngine.BookConserves | main.py:187-190 | one booking keeps seat conservation: the booked flight loses what the new record holds |
| BookingEngine.BookKeepsLedger | main.py:169-187 | after a booking, the ledger keys are still exactly the issued ids and each record carries its own key |
| BookingEngine.BookPreservesInv | main.py:146-198 | every outcome of `book_flight` keeps the invariant, seat conservation included |
| BookingEngine.BookCommit | main.py:164-196 | in the success branch the step records the new booking, and the state after it satisfies the invariant |
| BookingEngine.BookKeepsNoOversell | main.py:156-190 | with a non-negative party, booking never drives a flight below zero seats |
| BookingEngine.CancelErrors | main.py:214-224 | the guards in order: unknown id, then an email different from the stored one, then an already CANCELLED booking; each changes nothing, and cancel succeeds exactly for a matching email on a CONFIRMED booking |
| BookingEngine.RefundSplit | main.py:238-247 | for a total in whole ten-cent units, refund + fee = total, the refund is 9 times the fee, and the fee is a tenth of the total |
| BookingEngine.CancelSuccess | main.py:227-247 | on success: the record becomes CANCELLED with its cancellation date and unchanged total; no other record changes; the counter stays; each flight with the booking's id gets its passengers back and no other flight changes; the refund names the cancelled booking's id; refund + fee = total, refund = 9 × fee |
| BookingEngine.CancelTwiceRejected | main.py:223-224 | a second cancel of a cancelled booking is rejected with no change rather than refunded twice |
| BookingEngine.CancelConserves | main.py:227-235 | one cancellation keeps seat conservation: the booked flight gets back what the record held |
| BookingEngine.CancelPreservesInv | main.py:214-247 | every outcome of `cancel_booking` keeps the invariant |
| BookingEngine.CancelKeepsNoOversell | main.py:227-231 | cancellation only adds seats, so it never causes overselling |
| BookingEngine.NoOverselling | main.py:156-190 | in a reachable state without negative seats, no flight's confirmed passengers exceed its seeded capacity |
| BookingEngine.SeatsWithinCapacity | main.py:156-231 | in a reachable state without negative parties or seats, every flight has between zero and its seeded number of seats |
| BookingEngine.BookThenCancel | main.py:153-235 | cancelling the booking just made restores exactly the inventory before it, while the counter stays advanced |
| BookingEngine.Engine.constructor | main.py:26-46 | starts from the seed, an empty ledger and counter 1000, with the invariant established |
| BookingEngine.Engine.Search | main.py:67-86 | returns `SearchFlights` on the current inventory and changes nothing |
| BookingEngine.Engine.CheckAvailability | main.py:102-124 | runs the scan as a loop, returns `CheckFlightAvailability` and changes nothing |
| BookingEngine.Engine.Book | main.py:146-198 | result and new fields are exactly `BookStep` of the old state; the invariant is kept; from a state without overselling, a non-negative party leaves none |
| BookingEngine.Engine.Cancel | main.py:214-247 | restores seats with the nested loop; result and new fields are exactly `CancelStep` of the old state; the invariant is kept, and so is the absence of overselling |
| BookingEngine.Engine.View | main.py:261-264 | returns `ViewBooking` on the ledger and changes nothing |
| MainSeed.SeedRanks | main.py:26-43 | each seeded flight sits at its own position in scan order |
| MainSeed.SeedWellFormed | main.py:26-43 | the seeded routes have distinct keys and every flight id occurs once |
| MainSeed.FirstBookingId | main.py:46 | the first id allocated is "BK1000" |
| MainSeed.SearchOnSeed | main.py:67-86 | NYC→NYC is an invalid route, NYC→LON returns its two flights, PAR→LON is not found (routes are directional) |
| MainSeed.FindJL005 | main.py:106-108 | the scan finds JL005 as the first flight of the second route |
| MainSeed.CheckOnSeed | main.py:102-122 | JL005 for two: 23 seats, bookable, quoted 2 × 1200; ten passengers are rejected |
| MainSeed.BookOnSeed | main.py:146-196 | booking JL005 for two in business as John Smith, john@email.com (the demo's request at main.py:416) gives BK1000 at 6000.00, leaves JL005 with 21 seats and advances the counter to 1001 |
| MainSeed.CancelOnSeed | main.py:214-247 | cancelling BK1000 refunds 5400.00 with a 600.00 fee and keeps the record as CANCELLED |
| MainSeed.CancelRestoresSeed | main.py:227-231 | that cancellation gives JL005 its two seats back: the inventory is the seeded one again |
| MainSeed.CancelRefusedOnSeed | main.py:214-224 | a second cancel of BK1000 is refused, and so is a cancel with another email |
| MainSeed.OversizedBookingOnSeed | main.py:156-161 | fifty seats on JL005 are refused with requested 50 and available 23, and nothing changes |
| MockTools.MockSearchResult | flight_booking_system_mock.py:38-51 | with no same-city check, the error comes exactly when no flights are stored under the key; otherwise the route's flights and their count |
| MockTools.MockCheckReport | flight_booking_system_mock.py:54-70 | for any party size, zero and negative included: `canBook` iff seats ≥ passengers, and price × passengers only when bookable |
| MockTools.MockCheckUnknown | flight_booking_system_mock.py:72 | an id no flight has is flight-not-found |
| MockTools.MockBookErrors | flight_booking_system_mock.py:80-84 | unknown flight, then too few seats; each changes nothing |
| MockTools.MockBookSuccess | flight_booking_system_mock.py:86-106 | on success: a fresh id "BK" + the old counter; the counter rises by one; exactly one record with the requested flight, party, cabin and name and the cabin fare; exactly `passengers` seats off the booked flight; every other flight keeps its seats |
| MockTools.MockBookConserves | flight_booking_system_mock.py:105-106 | one mock booking keeps seat conservation |
| MockTools.MockBookKeepsLedger | flight_booking_system_mock.py:92-105 | after a mock booking, the ledger keys are exactly the issued ids and each record carries its own key |
| MockTools.MockBookCommit | flight_booking_system_mock.py:86-112 | in the success branch the step records the new booking, and the state after it satisfies the invariant |
| MockTools.MockBookPreservesInv | flight_booking_system_mock.py:75-114 | every outcome of the mock `book_flight` keeps the invariant |
| MockTools.MockInitialInv | flight_booking_system_mock.py:16-32 | the seeded mock state satisfies the invariant |
| MockTools.MockLedgerOnlyGrows | flight_booking_system_mock.py:92-105 | records once stored are kept unchanged, and the number of records is the number of bookings made |
| MockTools.MockEngine.constructor | flight_booking_system_mock.py:16-32 | starts from the seed, an empty ledger and counter 1000, with the invariant established |
| MockTools.MockEngine.Search | flight_booking_system_mock.py:38-51 | returns `MockSearch` and changes nothing |
| MockTools.MockEngine.CheckAvailability | flight_booking_system_mock.py:54-72 | runs the scan as a loop, returns `MockCheck` and changes nothing |
| MockTools.MockEngine.Book | flight_booking_system_mock.py:75-114 | result and new fields are exactly `MockBookStep` of the old state; the invariant is kept |
| MockSeed.SeedWellFormed | flight_booking_system_mock.py:16-29 | the mock inventory is main.py's without its last route, and is well formed |
| MockSeed.SearchOnSeed | flight_booking_system_mock.py:38-51 | NYC→NYC and LON→PAR are absent routes, and NYC→TYO returns its two flights |
| MockSeed.FindJL005 | flight_booking_system_mock.py:56-58 | the scan finds JL005 as the first flight of the second route |
| MockSeed.CheckOnSeed | flight_booking_system_mock.py:54-70 | JL005 for 2 is bookable at 2400; for 0 it is bookable at 0; for 24 it is not bookable and has no total |
| MockSeed.FindJL062 | flight_booking_system_mock.py:56-58 | the scan finds JL062 as the first flight of the third route |
| MockSeed.BookOnSeed | flight_booking_system_mock.py:86-106 | on the fresh mock seed, the demo's request of flight_booking_system_mock.py:358-361 (JL062 for three in economy as Mike Johnson) gives BK1000 at 2940.00 and leaves 53 seats |
| MockSeed.OversizedBookingOnSeed | flight_booking_system_mock.py:83-84 | 24 seats on JL005 are refused and nothing changes |
| Router.Lower | flight_booking_system_mock.py:134 | `lower()`: same length, each ASCII capital lowered, everything else kept |
| Router.Upper | flight_booking_system_mock.py:170 | `upper()`: same length, each ASCII small letter raised, everything else kept |
| Router.ContainsIff | flight_booking_system_mock.py:137 | `sub in s` holds exactly when `sub` occurs at some position of `s` |
| Router.ContainsAt | flight_booking_system_mock.py:137 | an occurrence anywhere makes `sub in s` true |
| Router.AnyInIff | flight_booking_system_mock.py:137 | `any(word in s for word in words)` holds exactly when one of the words occurs |
| Router.LeadingSpaces | flight_booking_system_mock.py:219-220 | the length of the whitespace prefix: all of it is white space and the next character is not |
| Router.TrailingSpaces | flight_booking_system_mock.py:219-220 | the length of the whitespace suffix: all of it is white space and the character before it is not |
| Router.Strip | flight_booking_system_mock.py:219-220 | `strip()`: the infix after the leading and before the trailing white space, with no white space at either end; an all-space string strips to "" |
| Router.CodeFrom | flight_booking_system_mock.py:170 | the leftmost position at or after i where two capital letters and three digits start, or None when there is none |
| Router.FlightCodeShape | flight_booking_system_mock.py:170-171 | a found flight code is two capital letters then three digits, and none is found exactly when the pattern matches nowhere in the upper-cased message |
| Router.FlightCodeLeftmost | flight_booking_system_mock.py:170-171 | the code found is the one at the first position where the pattern matches |
| Router.SearchBranch | flight_booking_system_mock.py:137-165 | a search keyword takes the search branch for good: a search call exactly when a route phrase matches, otherwise no tool with the memory as it was (check and book are not tried); a search call remembers "ORIG-DEST" and nothing else |
| Router.SearchArguments | flight_booking_system_mock.py:142-153 | a search call names one of the three phrase pairs, and the date is 2025-03-01 exactly when "march" occurs, else 2025-02-15 |
| Router.CheckBranch | flight_booking_system_mock.py:168-191 | without a search keyword, an availability request checks the first code in the message (else JL005) for a party of 3 exactly when a 3-pattern occurs, 1 exactly when no 3- or 2-pattern but a 1-pattern occurs, and 2 otherwise, and remembers that flight |
| Router.BookFlightChoice | flight_booking_system_mock.py:194-199 | the book branch's flight is the message's first code, else the remembered flight when it is non-empty, else JL005; nothing is remembered |
| Router.CabinChoice | flight_booking_system_mock.py:209-213 | business when "business" occurs, else first when "first" occurs ("first class" included), else economy |
| Router.BookDetails | flight_booking_system_mock.py:201-232 | the party is 3 exactly when "for 3" or "3 people" occurs, else 2; the cabin comes from the message; name and email are the stripped matches or "John Doe" and "user@email.com" |
| Router.Fallback | flight_booking_system_mock.py:235-239 | with no search keyword, no availability request and no "book", there is no tool call and the memory is as it was |
| Router.MemoryUpdates | flight_booking_system_mock.py:155-182 | a search changes only the remembered route, a check only the remembered flight, anything else neither |
| Router.UpperOfLower | flight_booking_system_mock.py:134-170 | messages equal once lower-cased are equal once upper-cased |
| Router.CaseInsensitive | flight_booking_system_mock.py:134-232 | messages equal once lower-cased choose the same tool, flight, party and cabin and leave the same memory, whatever name and email matches each gets; only a booking's name and email can differ, and with the same matches the whole outcome is the same |
| Ledger.BookingId | main.py:169 | the id `f"BK{BOOKING_COUNTER}"`; its freshness and injectivity are the `BookingIdInjective`, `IssueNext` and `IssuedCount` rows |
| Flights.FareCents | main.py:164-166 | `price × passengers × multiplier` in cents; its values per cabin are the `FareByCabin` row |
| BookingEngine.SearchFlights | main.py:67-86 | `search_flights`: equal cities rejected first, then `get(route, [])`, an empty list is route-not-found, otherwise the report; proved in the `SearchSameCity`, `SearchResult` and `SearchAbsentRoute` rows |
| BookingEngine.CheckFlightAvailability | main.py:102-124 | `check_flight_availability`: the 1..9 check, then the scan, then the report; proved in the `AvailabilityReport` and `AvailabilityErrors` rows |
| BookingEngine.NewBooking | main.py:164-185 | the CONFIRMED record `book_flight` builds for the found flight |
| BookingEngine.AfterBooking | main.py:169-190 | the state after the insert, the counter increment and the seat decrement |
| BookingEngine.Initial | main.py:45-46 | the module-level state: the seeded inventory, an empty `BOOKINGS` and `BOOKING_COUNTER` 1000; proved in the `InitialInv` and `InitialNoOversell` rows |
| MainSeed.Seed | main.py:26-43 | the literal `FLIGHTS_DB`: four routes, two flights each, with their prices, times and seats; proved in the `SeedRanks` and `SeedWellFormed` rows |
| BookingEngine.BookStep | main.py:146-198 | `book_flight`: email check, scan, seat check, then record, counter and seats; proved in the `BookErrors`, `BookSuccess`, `BookPreservesInv` and `BookKeepsNoOversell` rows |
| BookingEngine.CancelStep | main.py:214-247 | `cancel_booking`: the three guards, then seats back, status and date, and the refund; proved in the `CancelErrors`, `CancelSuccess`, `CancelPreservesInv` and `CancelTwiceRejected` rows |
| BookingEngine.ViewBooking | main.py:261-264 | `view_booking`; proved in the `ViewIsVerbatim` row |
| BookingEngine.ActiveCount | main.py:452 | the number of CONFIRMED records; the `SummaryAddsUp` row relates it to the total |
| BookingEngine.CancelledCount | main.py:453 | the number of CANCELLED records; the `SummaryAddsUp` row relates it to the total |
| MockTools.MockSearch | flight_booking_system_mock.py:38-51 | the mock `search_flights`; proved in the `MockSearchResult` row |
| MockTools.MockCheck | flight_booking_system_mock.py:54-72 | the mock `check_flight_availability`; proved in the `MockCheckReport` and `MockCheckUnknown` rows |
| MockTools.MockBookStep | flight_booking_system_mock.py:75-114 | the mock `book_flight`; proved in the `MockBookErrors`, `MockBookSuccess`, `MockBookPreservesInv` and `MockLedgerOnlyGrows` rows |
| MockTools.NewMockBooking | flight_booking_system_mock.py:86-103 | the mock record: the next id, the flight, the party, the cabin, the name and the fare for the found flight; proved in the `MockBookSuccess` row |
| MockTools.AfterMockBooking | flight_booking_system_mock.py:92-106 | the state after the counter increment, the insert and the seat decrement; proved in the `MockBookSuccess` and `MockBookConserves` rows |
| MockTools.MockInitial | flight_booking_system_mock.py:31-32 | the module-level state: the seeded inventory, an empty `BOOKINGS` and `BOOKING_COUNTER` 1000; proved in the `MockInitialInv` row |
| MockSeed.Seed | flight_booking_system_mock.py:16-29 | the literal mock `FLIGHTS_DB`: three routes, two flights each; proved in the `MockSeed.SeedWellFormed` row |
| Flights.RouteKey | main.py:70 | the route key `f"{origin}-{destination}"` |
| Flights.MultiplierPercent | main.py:165 | the cabin table in percent: economy 100, business 250, first 400 |
| BookingEngine.ValidEmail | main.py:149 | the email test: contains "@" and contains "." |
| BookingEngine.RefundCents | main.py:238 | 90% of the total in cents; the `RefundSplit` row |
| BookingEngine.FeeCents | main.py:246 | 10% of the total in cents; the `RefundSplit` row |
| Router.Contains | flight_booking_system_mock.py:137 | Python's `sub in s`; the `ContainsIff` row |
| Router.AnyIn | flight_booking_system_mock.py:137 | `any(word in s for word in words)`; the `AnyInIff` row |
| Router.FlightCode | flight_booking_system_mock.py:170-171 | the first `[A-Z]{2}\d{3}` match in the upper-cased message; the `FlightCodeShape` and `FlightCodeLeftmost` rows |
| Router.AsksAvailability | flight_booking_system_mock.py:168 | "check" and one of "availability", "seats", "available"; the `CheckBranch` row |
| Router.OrElse | flight_booking_system_mock.py:199 | Python's `x or y` for the remembered flight; the `BookFlightChoice` row |
| Router.RoutePhrase | flight_booking_system_mock.py:142-147 | the three route phrases tried in order; the `SearchArguments` row |
| Router.TravelDate | flight_booking_system_mock.py:151-153 | the default date, or 2025-03-01 when "march" occurs; the `SearchArguments` row |
| Router.CheckParty | flight_booking_system_mock.py:174-180 | the check branch's 3/2/1 party patterns, default 2; the `CheckBranch` row |
| Router.BookParty | flight_booking_system_mock.py:202-206 | the book branch's 3/2 party patterns, default 2; the `BookDetails` row |
| Router.CabinOf | flight_booking_system_mock.py:209-213 | the cabin choice; the `CabinChoice` row |
| Router.Decide | flight_booking_system_mock.py:137-239 | the if/elif chain on the lower-cased message; proved in the `SearchBranch`, `CheckBranch`, `BookFlightChoice`, `BookDetails`, `Fallback` and `MemoryUpdates` rows |
| Router.Classify | flight_booking_system_mock.py:129-239 | `process_message` as a function of the message and the two remembered fields; the `ProcessMessage` row ties the object to it |
| Router.DecideIgnoresMatches | flight_booking_system_mock.py:216-229 | the name and email matches reach only the name and email of a booking call: tool, flight, party, cabin and memory do not depend on them |
| Router.MockClaude.constructor | flight_booking_system_mock.py:124-127 | empty conversation memory, and no remembered flight or route |
| Router.MockClaude.ProcessMessage | flight_booking_system_mock.py:129-239 | the returned call and the new remembered fields are exactly `Classify` of the message and the old fields; the conversation memory is untouched |

## Left out

- **The language-model client and orchestration loop.** The client, the tool binding, `run_booking_assistant` and its dispatch are external API calls.
- **JSON serialisation.** Results are tagged `Ok`/`Err` values. The error message texts and the router's "reasoning"/"response" strings are not modelled. Each error kind keeps the fields the source reports with it.
- **Timestamps from `datetime.now()`.** The booking and cancellation dates are a `now` parameter.
- **Float arithmetic and `round(..., 2)`.** Amounts are exact integer cents. In `book_flight` (main.py:166, flight_booking_system_mock.py:89) the total is the int `price * passengers` converted to a double and multiplied by the cabin's float multiplier; the refund and fee (main.py:238, 246) are float products too. For economy and first the multiplier is a power of two, so the total agrees with the cents model exactly when price × passengers converts to a double without rounding (always while its magnitude is at most 2^53; for example JL005 in first for −2·10^12 passengers gives −9.6·10^15 exactly). For business (× 2.5) a total with a half unit is rounded to even once its magnitude reaches 2^52: BA304 in business for −9300000000001 passengers is −4533750000000487.5 exactly, the float is −4533750000000488.0, and `round(..., 2)` keeps it, so the source's `total_price` is 50 cents off while the model keeps the exact value. The refund and fee multiply by 0.9 and 0.1, which are not exact doubles, so `round(..., 2)` of them can differ from the model's exact `RefundCents`/`FeeCents` for large totals. All of these totals are reachable only with huge negative parties, since `passengers` is not range-checked.
- **`OverflowError` and infinite totals on huge parties.** A negative party of any magnitude passes the seat test. When price × passengers is too large in magnitude to convert to a double (beyond about 1.8·10^308), the conversion raises `OverflowError` and `book_flight` fails. When it converts but the product with 2.5 (business) or 4.0 (first) exceeds the double range, the multiply gives −inf silently, `round(..., 2)` returns it unchanged, and the booking succeeds with total −inf; a later cancel then refunds −inf with a −inf fee. In both cases the model returns `Ok` with the exact product instead.
- **The search report's route.** It is "ORIG → DEST" in the source. The model reports origin and destination separately.
- **Cabin names.** The cabin is a datatype, so the `KeyError` an unknown cabin name raises in `book_flight` is not modelled.
- **The mock `book_flight` email parameter.** It is accepted and never stored, so the model's mock booking takes no email.
- **The mock record's status.** It is always CONFIRMED and nothing changes it, so it is not a field.
- **The name and email regular expressions.** In flight_booking_system_mock.py:216-217, their first groups are the parameters `nameMatch` and `emailMatch`, with None for no match. Only the `strip()` applied to them and the defaults are modelled.
- **Unicode case mapping.** `lower()`, `upper()` and `\d` are modelled on ASCII. Characters outside ASCII are left as they are and are not digits.
- **`conversation_memory`.** It is initialised and never read or written by `process_message`. The model only keeps it unchanged.
- **The seeded inventories as state.** They are modelled as constructor arguments. `main_seed.dfy` and `mock_seed.dfy` write out the literal data.
- **Demo runners and the rest of the program.** Printing, `input()` loops, command-line handling and the interactive demos are not modelled.
- **Concurrency.** The code is single-threaded, and each operation is one atomic method.
- Router.CaseInsensitive: the name and email searches run on the message as typed and keep its case, so a booking's name and email are not case-insensitive; the lemma promises equality of those two fields only when both messages get the same matches.
- BookingEngine.Engine.Book: `Valid()` does not include no-overselling, because a negative party is accepted and adds seats; the method promises that a state without overselling stays so only for a non-negative party.
- BookingEngine.BookKeepsNoOversell: `book_flight` does not range-check `passengers`, so a negative party adds seats. `NoOversell` (no negative seats and no negative party) is therefore a separate invariant, preserved only for a non-negative party. `NoOverselling` needs only its no-negative-seats half, and `SeatsWithinCapacity` needs both halves.
