/**
 * The flight inventory shared by the full engine and the mock engine:
 * route keys ("NYC-LON") mapped to ordered flight lists, the nested
 * scan that finds a flight by id, the two in-place seat updates
 * (decrement one flight on booking, add to every matching flight on
 * cancellation) and the cabin fare table. Money is in integer cents.
 */
module Flights {
  import opened Wrappers

  /** A flight record; only `seats` ever changes after seeding. `price` is whole currency units. */
  datatype Flight = Flight(id: string, price: int, departure: string, arrival: string, seats: int)

  /** One dictionary entry: a route key and its flights in stored order. */
  datatype RouteEntry = RouteEntry(route: string, flights: seq<Flight>)

  /** The route dictionary, its entries in insertion (iteration) order. */
  type Inventory = seq<RouteEntry>

  /** Position of a flight: entry index `r`, index `j` within that entry's list. */
  datatype Location = Location(r: nat, j: nat)

  datatype Cabin = Economy | Business | First

  /** The route key built from two city codes. */
  function RouteKey(origin: string, destination: string): string
  {
    origin + "-" + destination
  }

  // ---------------------------------------------------------------------
  // Positions and the scan order
  // ---------------------------------------------------------------------

  predicate ValidLocation(inv: Inventory, l: Location)
  {
    l.r < |inv| && l.j < |inv[l.r].flights|
  }

  function FlightAt(inv: Inventory, l: Location): Flight
    requires ValidLocation(inv, l)
  {
    inv[l.r].flights[l.j]
  }

  /** Position (r, j) is visited before `l` by the nested route/flight scan. */
  predicate Before(r: int, j: int, l: Location)
  {
    r < l.r || (r == l.r && j < l.j)
  }

  /**
   * `found` is what a nested scan with early return yields: the first
   * position in scan order holding `id`, or None when no flight has it.
   */
  predicate IsFirstMatch(inv: Inventory, id: string, found: Option<Location>)
  {
    match found
    case None =>
      forall r, j :: 0 <= r < |inv| && 0 <= j < |inv[r].flights| ==> inv[r].flights[j].id != id
    case Some(l) =>
      ValidLocation(inv, l) && FlightAt(inv, l).id == id &&
      forall r, j :: 0 <= r < |inv| && 0 <= j < |inv[r].flights| && Before(r, j, l) ==> inv[r].flights[j].id != id
  }

  /** First index in one route's list holding `id`. */
  function IndexIn(fs: seq<Flight>, id: string): (k: Option<nat>)
    ensures k.Some? ==> k.value < |fs| && fs[k.value].id == id
    ensures k.Some? ==> forall j :: 0 <= j < k.value ==> fs[j].id != id
    ensures k.None? ==> forall j :: 0 <= j < |fs| ==> fs[j].id != id
  {
    if |fs| == 0 then None
    else if fs[0].id == id then Some(0)
    else match IndexIn(fs[1..], id)
      case None => None
      case Some(k) => Some(k + 1)
  }

  /** The flight lookup of the engine: scan routes in order, flights in order, stop at the first hit. */
  function FindFlight(inv: Inventory, id: string): (found: Option<Location>)
    ensures IsFirstMatch(inv, id, found)
  {
    if |inv| == 0 then None
    else match IndexIn(inv[0].flights, id)
      case Some(j) => Some(Location(0, j))
      case None =>
        var rest := FindFlight(inv[1..], id);
        FindFlightShift(inv, id, rest);
        match rest
        case None => None
        case Some(l) => Some(Location(l.r + 1, l.j))
  }

  /** Moves a first match found in `inv[1..]` to `inv`, given that `inv[0]` does not hold `id`. */
  lemma FindFlightShift(inv: Inventory, id: string, rest: Option<Location>)
    requires |inv| > 0 && IsFirstMatch(inv[1..], id, rest)
    requires forall j :: 0 <= j < |inv[0].flights| ==> inv[0].flights[j].id != id
    ensures rest.None? ==> IsFirstMatch(inv, id, None)
    ensures rest.Some? ==> IsFirstMatch(inv, id, Some(Location(rest.value.r + 1, rest.value.j)))
  {
    forall r, j | 1 <= r < |inv| && 0 <= j < |inv[r].flights|
      ensures inv[r].flights[j] == inv[1..][r - 1].flights[j]
    {
    }
  }

  /** Two first matches are the same: the scan result is determined by the inventory. */
  lemma FirstMatchUnique(inv: Inventory, id: string, a: Option<Location>, b: Option<Location>)
    requires IsFirstMatch(inv, id, a) && IsFirstMatch(inv, id, b)
    ensures a == b
  {
  }

  /** The nested `for route, flights ... for flight in flights` scan with early return. */
  method LocateFlight(inv: Inventory, id: string) returns (found: Option<Location>)
    ensures found == FindFlight(inv, id)
  {
    var r := 0;
    while r < |inv|
      invariant 0 <= r <= |inv|
      invariant forall r', j :: 0 <= r' < r && 0 <= j < |inv[r'].flights| ==> inv[r'].flights[j].id != id
    {
      var fs := inv[r].flights;
      var j := 0;
      while j < |fs|
        invariant 0 <= j <= |fs|
        invariant forall j' :: 0 <= j' < j ==> fs[j'].id != id
      {
        if fs[j].id == id {
          found := Some(Location(r, j));
          FirstMatchUnique(inv, id, found, FindFlight(inv, id));
          return;
        }
        j := j + 1;
      }
      r := r + 1;
    }
    found := None;
    FirstMatchUnique(inv, id, found, FindFlight(inv, id));
  }

  // ---------------------------------------------------------------------
  // Route lookup (`FLIGHTS_DB.get(route, [])`)
  // ---------------------------------------------------------------------

  /** No two entries share a route key, as in a dictionary. */
  predicate RouteKeysDistinct(inv: Inventory)
  {
    forall r1, r2 :: 0 <= r1 < |inv| && 0 <= r2 < |inv| && inv[r1].route == inv[r2].route ==> r1 == r2
  }

  function RouteIndex(inv: Inventory, key: string): (k: Option<nat>)
    ensures k.Some? ==> k.value < |inv| && inv[k.value].route == key
    ensures k.None? ==> forall r :: 0 <= r < |inv| ==> inv[r].route != key
  {
    if |inv| == 0 then None
    else if inv[0].route == key then Some(0)
    else match RouteIndex(inv[1..], key)
      case None => None
      case Some(k) => assert inv[k + 1] == inv[1..][k]; Some(k + 1)
  }

  /** The flights stored under `key`, or the empty list when the key is absent. */
  function Lookup(inv: Inventory, key: string): (fs: seq<Flight>)
    ensures (forall r :: 0 <= r < |inv| ==> inv[r].route != key) ==> fs == []
    ensures RouteKeysDistinct(inv) ==> forall r :: 0 <= r < |inv| && inv[r].route == key ==> fs == inv[r].flights
  {
    match RouteIndex(inv, key)
    case None => []
    case Some(k) => inv[k].flights
  }

  // ---------------------------------------------------------------------
  // Shape of an inventory: everything but the seat counts
  // ---------------------------------------------------------------------

  predicate SameFlight(f: Flight, g: Flight)
  {
    f.id == g.id && f.price == g.price && f.departure == g.departure && f.arrival == g.arrival
  }

  /** `a` and `b` have the same routes, flights, ids, fares and times; seats may differ. */
  predicate SameShape(a: Inventory, b: Inventory)
  {
    |a| == |b| &&
    (forall r :: 0 <= r < |a| ==> a[r].route == b[r].route && |a[r].flights| == |b[r].flights|) &&
    (forall r, j :: 0 <= r < |a| && 0 <= j < |a[r].flights| ==> SameFlight(a[r].flights[j], b[r].flights[j]))
  }

  /** Flight ids are unique across the whole inventory, not just within a route. */
  predicate IdsUnique(inv: Inventory)
  {
    forall r1, j1, r2, j2 ::
      0 <= r1 < |inv| && 0 <= j1 < |inv[r1].flights| && 0 <= r2 < |inv| && 0 <= j2 < |inv[r2].flights| &&
      inv[r1].flights[j1].id == inv[r2].flights[j2].id
      ==> r1 == r2 && j1 == j2
  }

  /** A seed inventory: a dictionary of routes with globally unique flight ids. */
  predicate WellFormed(inv: Inventory)
  {
    RouteKeysDistinct(inv) && IdsUnique(inv)
  }

  lemma SameShapeTransitive(a: Inventory, b: Inventory, c: Inventory)
    requires SameShape(a, b) && SameShape(b, c)
    ensures SameShape(a, c)
  {
  }

  /** Routes and ids are all a well-formed inventory is about, so its shape keeps it well formed. */
  lemma SameShapeWellFormed(a: Inventory, b: Inventory)
    requires SameShape(a, b) && WellFormed(b)
    ensures WellFormed(a)
  {
  }

  /** Dropping trailing routes keeps an inventory well formed. */
  lemma WellFormedPrefix(inv: Inventory, n: nat)
    requires WellFormed(inv) && n <= |inv|
    ensures WellFormed(inv[..n])
  {
    var p := inv[..n];
    assert forall r :: 0 <= r < n ==> p[r] == inv[r];
  }

  /** On a well-formed inventory a flight holds `id` exactly when it is the scan's hit. */
  lemma FindFlightUnique(inv: Inventory, id: string, r: nat, j: nat)
    requires IdsUnique(inv) && r < |inv| && j < |inv[r].flights|
    ensures (inv[r].flights[j].id == id) <==> FindFlight(inv, id) == Some(Location(r, j))
  {
    var found := FindFlight(inv, id);
    if inv[r].flights[j].id == id {
      assert found.Some?;
      var l := found.value;
      assert inv[l.r].flights[l.j].id == inv[r].flights[j].id;
    }
  }

  // ---------------------------------------------------------------------
  // Seat updates
  // ---------------------------------------------------------------------

  /** `flight["seats"] = seats` for the flight at `l`. */
  function SetSeats(inv: Inventory, l: Location, seats: int): (out: Inventory)
    requires ValidLocation(inv, l)
    ensures SameShape(out, inv)
    ensures FlightAt(out, l).seats == seats
    ensures forall r, j :: 0 <= r < |inv| && 0 <= j < |inv[r].flights| && (r != l.r || j != l.j) ==>
      out[r].flights[j] == inv[r].flights[j]
  {
    var e := inv[l.r];
    inv[l.r := e.(flights := e.flights[l.j := e.flights[l.j].(seats := seats)])]
  }

  function Bump(f: Flight, id: string, delta: int): Flight
  {
    if f.id == id then f.(seats := f.seats + delta) else f
  }

  /** Every flight whose id is `id` gets `seats += delta`; nothing else changes. */
  function AddSeatsWhere(inv: Inventory, id: string, delta: int): (out: Inventory)
    ensures SameShape(out, inv)
    ensures forall r, j :: 0 <= r < |inv| && 0 <= j < |inv[r].flights| ==>
      out[r].flights[j].seats == inv[r].flights[j].seats + (if inv[r].flights[j].id == id then delta else 0)
  {
    seq(|inv|, r requires 0 <= r < |inv| =>
      inv[r].(flights := seq(|inv[r].flights|, j requires 0 <= j < |inv[r].flights| => Bump(inv[r].flights[j], id, delta))))
  }

  /** The seat-restoring nested loop of a cancellation: no early exit, every match is bumped. */
  method AddSeats(inv: Inventory, id: string, delta: int) returns (out: Inventory)
    ensures out == AddSeatsWhere(inv, id, delta)
  {
    ghost var target := AddSeatsWhere(inv, id, delta);
    out := inv;
    var r := 0;
    while r < |out|
      invariant 0 <= r <= |inv| && |out| == |inv|
      invariant forall r' :: 0 <= r' < r ==> out[r'] == target[r']
      invariant forall r' :: r <= r' < |inv| ==> out[r'] == inv[r']
    {
      var j := 0;
      while j < |out[r].flights|
        invariant 0 <= j <= |inv[r].flights| && |out| == |inv|
        invariant out[r].route == inv[r].route && |out[r].flights| == |inv[r].flights|
        invariant forall j' :: 0 <= j' < j ==> out[r].flights[j'] == Bump(inv[r].flights[j'], id, delta)
        invariant forall j' :: j <= j' < |inv[r].flights| ==> out[r].flights[j'] == inv[r].flights[j']
        invariant forall r' :: 0 <= r' < |inv| && r' != r ==> out[r'] == ScannedEntry(r', r, inv, target)
      {
        var f := out[r].flights[j];
        if f.id == id {
          out := out[r := out[r].(flights := out[r].flights[j := f.(seats := f.seats + delta)])];
        }
        j := j + 1;
      }
      assert out[r].flights == target[r].flights;
      r := r + 1;
    }
  }

  /** Entry `r'` of the partly updated inventory while entry `r` is being scanned. */
  function ScannedEntry(r': nat, r: nat, inv: Inventory, target: Inventory): RouteEntry
    requires r' < |inv| && |target| == |inv|
  {
    if r' < r then target[r'] else inv[r']
  }

  // ---------------------------------------------------------------------
  // Fares
  // ---------------------------------------------------------------------

  /** Whole currency units to cents. */
  function Cents(units: int): int
  {
    units * 100
  }

  /** The cabin multiplier table, in percent: economy 1.0, business 2.5, first 4.0. */
  function MultiplierPercent(c: Cabin): nat
  {
    match c
    case Economy => 100
    case Business => 250
    case First => 400
  }

  /** `price * passengers * multiplier`, in cents. */
  function FareCents(price: int, passengers: int, c: Cabin): int
  {
    price * passengers * MultiplierPercent(c)
  }

  /**
   * The cabin table applied to the base fare: economy is the base fare,
   * business two and a half times it, first four times it; every fare is
   * a whole number of ten-cent units.
   */
  lemma FareByCabin(price: int, passengers: int, c: Cabin)
    ensures c == Economy ==> FareCents(price, passengers, c) == Cents(price * passengers)
    ensures c == Business ==> 2 * FareCents(price, passengers, c) == 5 * Cents(price * passengers)
    ensures c == First ==> FareCents(price, passengers, c) == 4 * Cents(price * passengers)
    ensures FareCents(price, passengers, c) % 10 == 0
  {
    var base := price * passengers;
    if c == Economy {
      assert FareCents(price, passengers, c) == base * 100 == 10 * (base * 10);
    } else if c == Business {
      assert FareCents(price, passengers, c) == base * 250 == 10 * (base * 25);
    } else {
      assert FareCents(price, passengers, c) == base * 400 == 10 * (base * 40);
    }
  }
}
