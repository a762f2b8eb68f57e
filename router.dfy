/**
 * The deterministic intent router of flight_booking_system_mock.py
 * (`MockClaude.process_message`): keyword tests on the lower-cased
 * message choose at most one tool call and its arguments, and two fields
 * remember the last route searched and the last flight checked.
 *
 * `Classify` is the whole decision as a function; the class `MockClaude`
 * holds the two fields and its `ProcessMessage` is proved to agree with
 * `Classify`. Name and email come from two regular-expression searches
 * that are not modelled: their matches are parameters.
 */
module Router {
  import opened Wrappers
  import opened Flights

  // =====================================================================
  // Characters and strings
  // =====================================================================

  function LowerChar(c: char): char
  {
    if 'A' <= c <= 'Z' then (c as int + 32) as char else c
  }

  function UpperChar(c: char): char
  {
    if 'a' <= c <= 'z' then (c as int - 32) as char else c
  }

  /** `str.lower()` on ASCII letters: same length, each letter lowered, nothing else touched. */
  function Lower(s: string): (t: string)
    ensures |t| == |s|
    ensures forall i :: 0 <= i < |s| ==> t[i] == LowerChar(s[i])
  {
    if |s| == 0 then [] else [LowerChar(s[0])] + Lower(s[1..])
  }

  /** `str.upper()` on ASCII letters. */
  function Upper(s: string): (t: string)
    ensures |t| == |s|
    ensures forall i :: 0 <= i < |s| ==> t[i] == UpperChar(s[i])
  {
    if |s| == 0 then [] else [UpperChar(s[0])] + Upper(s[1..])
  }

  /** `sub` occurs in `s` starting at position `i`. */
  predicate OccursAt(s: string, sub: string, i: nat)
  {
    i + |sub| <= |s| && s[i..i + |sub|] == sub
  }

  /** Python's `sub in s`: `sub` is a prefix of `s` or occurs in its tail. */
  predicate Contains(s: string, sub: string)
    decreases |s|
  {
    |sub| <= |s| && (s[..|sub|] == sub || (|s| > 0 && Contains(s[1..], sub)))
  }

  /** `sub in s` holds exactly when `sub` occurs at some position of `s`. */
  lemma {:induction false} ContainsIff(s: string, sub: string)
    ensures Contains(s, sub) <==> exists i: nat :: OccursAt(s, sub, i)
    decreases |s|
  {
    if |sub| <= |s| && |s| > 0 {
      ContainsIff(s[1..], sub);
      if s[..|sub|] == sub {
        assert OccursAt(s, sub, 0);
      }
      if Contains(s[1..], sub) {
        var i: nat :| OccursAt(s[1..], sub, i);
        assert s[i + 1..i + 1 + |sub|] == s[1..][i..i + |sub|];
        assert OccursAt(s, sub, i + 1);
      }
      if exists i: nat :: OccursAt(s, sub, i) {
        var i: nat :| OccursAt(s, sub, i);
        if i > 0 {
          assert s[1..][i - 1..i - 1 + |sub|] == s[i..i + |sub|];
          assert OccursAt(s[1..], sub, i - 1);
          assert Contains(s[1..], sub);
        } else {
          assert s[..|sub|] == s[i..i + |sub|];
        }
        assert Contains(s, sub);
      }
    } else if |sub| <= |s| {
      assert OccursAt(s, sub, 0);
    }
  }

  /** An occurrence found anywhere makes `sub in s` true. */
  lemma ContainsAt(s: string, sub: string, i: nat)
    requires OccursAt(s, sub, i)
    ensures Contains(s, sub)
  {
    ContainsIff(s, sub);
  }

  /** Python's `any(word in s for word in words)`, tried left to right. */
  predicate AnyIn(words: seq<string>, s: string)
  {
    |words| > 0 && (Contains(s, words[0]) || AnyIn(words[1..], s))
  }

  /** `any` holds exactly when one of the words occurs. */
  lemma {:induction false} AnyInIff(words: seq<string>, s: string)
    ensures AnyIn(words, s) <==> exists i :: 0 <= i < |words| && Contains(s, words[i])
  {
    if |words| > 0 {
      AnyInIff(words[1..], s);
      if AnyIn(words[1..], s) {
        var i :| 0 <= i < |words[1..]| && Contains(s, words[1..][i]);
        assert Contains(s, words[i + 1]);
      }
      if exists i :: 0 <= i < |words| && Contains(s, words[i]) {
        var i :| 0 <= i < |words| && Contains(s, words[i]);
        if i > 0 {
          assert words[1..][i - 1] == words[i];
        }
      }
    }
  }

  /** The characters `str.strip()` removes: those for which `str.isspace()` holds. */
  predicate IsSpace(c: char)
  {
    var n := c as int;
    n == 0x20 || 0x09 <= n <= 0x0D || 0x1C <= n <= 0x1F || n == 0x85 || n == 0xA0 || n == 0x1680 ||
    0x2000 <= n <= 0x200A || n == 0x2028 || n == 0x2029 || n == 0x202F || n == 0x205F || n == 0x3000
  }

  /** How many white-space characters `s` starts with. */
  function LeadingSpaces(s: string): (n: nat)
    ensures n <= |s|
    ensures forall k :: 0 <= k < n ==> IsSpace(s[k])
    ensures n < |s| ==> !IsSpace(s[n])
  {
    if |s| > 0 && IsSpace(s[0]) then 1 + LeadingSpaces(s[1..]) else 0
  }

  /** How many white-space characters `s` ends with. */
  function TrailingSpaces(s: string): (n: nat)
    ensures n <= |s|
    ensures forall k :: |s| - n <= k < |s| ==> IsSpace(s[k])
    ensures n < |s| ==> !IsSpace(s[|s| - n - 1])
  {
    if |s| > 0 && IsSpace(s[|s| - 1]) then 1 + TrailingSpaces(s[..|s| - 1]) else 0
  }

  /**
   * `str.strip()`: what is left between the leading white space and the
   * trailing white space; an all-space string strips to "".
   */
  function Strip(s: string): (t: string)
    ensures LeadingSpaces(s) + |t| <= |s|
    ensures t == s[LeadingSpaces(s)..LeadingSpaces(s) + |t|]
    ensures forall k :: LeadingSpaces(s) + |t| <= k < |s| ==> IsSpace(s[k])
    ensures |t| > 0 ==> !IsSpace(t[0]) && !IsSpace(t[|t| - 1])
    ensures (forall k :: 0 <= k < |s| ==> IsSpace(s[k])) <==> t == ""
  {
    var l := s[LeadingSpaces(s)..];
    l[..|l| - TrailingSpaces(l)]
  }

  // =====================================================================
  // Recognisers
  // =====================================================================

  predicate IsLetter(c: char)
  {
    'A' <= c <= 'Z'
  }

  predicate IsDigit(c: char)
  {
    '0' <= c <= '9'
  }

  /** The pattern `[A-Z]{2}\d{3}` matches `u` at position `i`. */
  predicate CodeAt(u: string, i: nat)
  {
    i + 5 <= |u| && IsLetter(u[i]) && IsLetter(u[i + 1]) && IsDigit(u[i + 2]) && IsDigit(u[i + 3]) && IsDigit(u[i + 4])
  }

  /** The leftmost match of the flight-code pattern at or after `i`. */
  function CodeFrom(u: string, i: nat): (k: Option<nat>)
    ensures k.Some? ==> i <= k.value && CodeAt(u, k.value)
    ensures k.Some? ==> forall j :: i <= j < k.value ==> !CodeAt(u, j)
    ensures k.None? ==> forall j :: i <= j ==> !CodeAt(u, j)
    decreases |u| - i
  {
    if i + 5 > |u| then None
    else if CodeAt(u, i) then Some(i)
    else CodeFrom(u, i + 1)
  }

  /** `re.search(r'([A-Z]{2}\d{3})', message.upper())`, as the matched text. */
  function FlightCode(message: string): Option<string>
  {
    var u := Upper(message);
    match CodeFrom(u, 0)
    case None => None
    case Some(k) => Some(u[k..k + 5])
  }

  const SearchWords: seq<string> := ["search", "find", "fly", "flight from", "show me"]
  const DefaultFlight := "JL005"
  const DefaultDate := "2025-02-15"
  const MarchDate := "2025-03-01"
  const DefaultName := "John Doe"
  const DefaultEmail := "user@email.com"

  /** The three route phrases, tried in order. */
  function RoutePhrase(m: string): Option<(string, string)>
  {
    if Contains(m, "nyc to tokyo") || Contains(m, "new york to tokyo") then Some(("NYC", "TYO"))
    else if Contains(m, "nyc to london") then Some(("NYC", "LON"))
    else if Contains(m, "lax to tokyo") || Contains(m, "los angeles to tokyo") then Some(("LAX", "TYO"))
    else None
  }

  function TravelDate(m: string): string
  {
    if Contains(m, "march") then MarchDate else DefaultDate
  }

  predicate AsksAvailability(m: string)
  {
    Contains(m, "check") && (Contains(m, "availability") || Contains(m, "seats") || Contains(m, "available"))
  }

  /** The party size of a check request: 3, then 2, then 1 patterns, default 2. */
  function CheckParty(m: string): int
  {
    if Contains(m, "for 3") || Contains(m, "3 people") || Contains(m, "3 passengers") then 3
    else if Contains(m, "for 2") || Contains(m, "2 people") || Contains(m, "2 passengers") then 2
    else if Contains(m, "for 1") || Contains(m, "1 person") || Contains(m, "1 passenger") then 1
    else 2
  }

  /** The party size of a booking request: 3, then 2 patterns, default 2. */
  function BookParty(m: string): int
  {
    if Contains(m, "for 3") || Contains(m, "3 people") then 3
    else if Contains(m, "for 2") || Contains(m, "2 people") then 2
    else 2
  }

  function CabinOf(m: string): Cabin
  {
    if Contains(m, "business") then Business
    else if Contains(m, "first class") || Contains(m, "first") then First
    else Economy
  }

  // =====================================================================
  // The decision
  // =====================================================================

  datatype ToolCall =
    | SearchCall(origin: string, destination: string, departureDate: string)
    | CheckCall(flightId: string, passengers: int)
    | BookCall(flightId: string, passengers: int, cabin: Cabin, passengerName: string, passengerEmail: string)
    | NoTool

  /** The router's two remembered fields. */
  datatype Memory = Memory(lastFlightSearched: Option<string>, lastRoute: Option<string>)

  datatype Outcome = Outcome(call: ToolCall, memory: Memory)

  /** Python's `x or y` on an optional string: `x` unless it is None or empty. */
  function OrElse(x: Option<string>, y: string): string
  {
    if x.Some? && x.value != "" then x.value else y
  }

  /**
   * The decision on the lower-cased message `m`, with `code` the flight
   * code found in the upper-cased message.
   */
  function Decide(m: string, code: Option<string>, mem: Memory, nameMatch: Option<string>, emailMatch: Option<string>): Outcome
  {
    if AnyIn(SearchWords, m) then
      match RoutePhrase(m)
      case Some((o, d)) => Outcome(SearchCall(o, d, TravelDate(m)), mem.(lastRoute := Some(RouteKey(o, d))))
      case None => Outcome(NoTool, mem)
    else if AsksAvailability(m) then
      var id := match code case Some(c) => c case None => DefaultFlight;
      Outcome(CheckCall(id, CheckParty(m)), mem.(lastFlightSearched := Some(id)))
    else if Contains(m, "book") then
      var id := match code case Some(c) => c case None => OrElse(mem.lastFlightSearched, DefaultFlight);
      Outcome(BookCall(id, BookParty(m), CabinOf(m),
                       if nameMatch.Some? then Strip(nameMatch.value) else DefaultName,
                       if emailMatch.Some? then Strip(emailMatch.value) else DefaultEmail), mem)
    else Outcome(NoTool, mem)
  }

  /**
   * `process_message` for `message`, given the remembered fields and the
   * first groups of the name and email searches (None when they do not
   * match).
   */
  function Classify(message: string, mem: Memory, nameMatch: Option<string>, emailMatch: Option<string>): Outcome
  {
    Decide(Lower(message), FlightCode(message), mem, nameMatch, emailMatch)
  }

  // =====================================================================
  // Lemmas
  // =====================================================================

  /** A matched flight code is five characters: two capital letters, then three digits. */
  lemma FlightCodeShape(message: string)
    ensures var c := FlightCode(message);
      c.Some? ==> (|c.value| == 5 && IsLetter(c.value[0]) && IsLetter(c.value[1]) &&
                   IsDigit(c.value[2]) && IsDigit(c.value[3]) && IsDigit(c.value[4]))
    ensures FlightCode(message).None? <==> forall j :: !CodeAt(Upper(message), j)
  {
  }

  /** The flight code is the leftmost match: the one at the first position where the pattern matches. */
  lemma FlightCodeLeftmost(message: string, k: nat)
    requires CodeAt(Upper(message), k)
    requires forall j :: 0 <= j < k ==> !CodeAt(Upper(message), j)
    ensures FlightCode(message) == Some(Upper(message)[k..k + 5])
  {
  }

  /**
   * A search keyword takes the search branch for good: the result is a
   * search call exactly when a route phrase matches, and NO tool
   * otherwise, since check and book are then never tried. Only the
   * remembered route changes, and only on a search call.
   */
  lemma SearchBranch(message: string, mem: Memory, nameMatch: Option<string>, emailMatch: Option<string>)
    requires AnyIn(SearchWords, Lower(message))
    ensures var o := Classify(message, mem, nameMatch, emailMatch);
      var route := RoutePhrase(Lower(message));
      (o.call.SearchCall? <==> route.Some?) &&
      (route.None? <==> o == Outcome(NoTool, mem)) &&
      (route.Some? ==>
        o.call == SearchCall(route.value.0, route.value.1, TravelDate(Lower(message))) &&
        o.memory == Memory(mem.lastFlightSearched, Some(route.value.0 + "-" + route.value.1)))
  {
  }

  /** Every route the router can name is one of the three phrase pairs, and the date one of two. */
  lemma SearchArguments(message: string, mem: Memory, nameMatch: Option<string>, emailMatch: Option<string>)
    ensures var c := Classify(message, mem, nameMatch, emailMatch).call;
      c.SearchCall? ==>
        ((c.origin, c.destination) == ("NYC", "TYO") || (c.origin, c.destination) == ("NYC", "LON") ||
         (c.origin, c.destination) == ("LAX", "TYO")) &&
        (c.departureDate == MarchDate <==> Contains(Lower(message), "march")) &&
        (c.departureDate == MarchDate || c.departureDate == DefaultDate)
  {
  }

  /**
   * The check branch: the flight is the message's first code, else
   * JL005; the party is 1, 2 or 3; that flight becomes the remembered one
   * and the remembered route stays.
   */
  lemma CheckBranch(message: string, mem: Memory, nameMatch: Option<string>, emailMatch: Option<string>)
    requires !AnyIn(SearchWords, Lower(message)) && AsksAvailability(Lower(message))
    ensures var o := Classify(message, mem, nameMatch, emailMatch);
      var id := if FlightCode(message).Some? then FlightCode(message).value else DefaultFlight;
      var m := Lower(message);
      var three := Contains(m, "for 3") || Contains(m, "3 people") || Contains(m, "3 passengers");
      var two := Contains(m, "for 2") || Contains(m, "2 people") || Contains(m, "2 passengers");
      var one := Contains(m, "for 1") || Contains(m, "1 person") || Contains(m, "1 passenger");
      o.call == CheckCall(id, CheckParty(m)) &&
      (o.call.passengers == 3 <==> three) &&
      (o.call.passengers == 1 <==> !three && !two && one) &&
      1 <= o.call.passengers <= 3 &&
      o.memory == Memory(Some(id), mem.lastRoute)
  {
    FlightCodeShape(message);
  }

  /**
   * The book branch's flight: the message's first code, else the
   * remembered flight, else JL005; nothing is remembered.
   */
  lemma BookFlightChoice(message: string, mem: Memory, nameMatch: Option<string>, emailMatch: Option<string>)
    requires !AnyIn(SearchWords, Lower(message)) && !AsksAvailability(Lower(message)) && Contains(Lower(message), "book")
    ensures var o := Classify(message, mem, nameMatch, emailMatch);
      var code := FlightCode(message);
      o.call.BookCall? && o.memory == mem &&
      (code.Some? ==> o.call.flightId == code.value) &&
      (code.None? && mem.lastFlightSearched.Some? && mem.lastFlightSearched.value != "" ==>
        o.call.flightId == mem.lastFlightSearched.value) &&
      (code.None? && (mem.lastFlightSearched.None? || mem.lastFlightSearched.value == "") ==>
        o.call.flightId == DefaultFlight)
  {
  }

  /** The cabin: business if mentioned, else first if mentioned ("first class" included), else economy. */
  lemma CabinChoice(m: string)
    ensures CabinOf(m) == Business <==> Contains(m, "business")
    ensures CabinOf(m) == First <==> !Contains(m, "business") && Contains(m, "first")
    ensures CabinOf(m) == Economy <==> !Contains(m, "business") && !Contains(m, "first")
  {
    if Contains(m, "first class") {
      ContainsIff(m, "first class");
      var i: nat :| OccursAt(m, "first class", i);
      assert m[i..i + 5] == m[i..i + 11][..5];
      ContainsAt(m, "first", i);
    }
  }

  /**
   * The book branch's details: a party of 3 when asked for, else 2; the
   * cabin from the message; the stripped name and email matches or the
   * defaults.
   */
  lemma BookDetails(message: string, mem: Memory, nameMatch: Option<string>, emailMatch: Option<string>)
    requires !AnyIn(SearchWords, Lower(message)) && !AsksAvailability(Lower(message)) && Contains(Lower(message), "book")
    ensures var c := Classify(message, mem, nameMatch, emailMatch).call;
      var m := Lower(message);
      c.BookCall? &&
      (c.passengers == 3 <==> Contains(m, "for 3") || Contains(m, "3 people")) &&
      (c.passengers == 2 || c.passengers == 3) &&
      c.cabin == CabinOf(m) &&
      c.passengerName == (if nameMatch.Some? then Strip(nameMatch.value) else DefaultName) &&
      c.passengerEmail == (if emailMatch.Some? then Strip(emailMatch.value) else DefaultEmail)
  {
  }

  /** Without a search keyword, an availability request or "book", there is no tool call and nothing changes. */
  lemma Fallback(message: string, mem: Memory, nameMatch: Option<string>, emailMatch: Option<string>)
    requires !AnyIn(SearchWords, Lower(message)) && !AsksAvailability(Lower(message)) && !Contains(Lower(message), "book")
    ensures Classify(message, mem, nameMatch, emailMatch) == Outcome(NoTool, mem)
  {
  }

  /**
   * What each call leaves remembered: a search sets only the route, a
   * check sets only the flight, anything else changes neither.
   */
  lemma MemoryUpdates(message: string, mem: Memory, nameMatch: Option<string>, emailMatch: Option<string>)
    ensures var o := Classify(message, mem, nameMatch, emailMatch);
      (o.call.SearchCall? ==> o.memory.lastFlightSearched == mem.lastFlightSearched && o.memory.lastRoute.Some?) &&
      (o.call.CheckCall? ==> o.memory == Memory(Some(o.call.flightId), mem.lastRoute)) &&
      (!o.call.SearchCall? && !o.call.CheckCall? ==> o.memory == mem)
  {
  }

  lemma LowerUpperAgree(a: char, b: char)
    requires LowerChar(a) == LowerChar(b)
    ensures UpperChar(a) == UpperChar(b)
  {
  }

  /** Strings that agree once lower-cased also agree once upper-cased. */
  lemma UpperOfLower(m1: string, m2: string)
    requires Lower(m1) == Lower(m2)
    ensures Upper(m1) == Upper(m2)
  {
    assert |m1| == |m2|;
    forall i | 0 <= i < |m1|
      ensures Upper(m1)[i] == Upper(m2)[i]
    {
      assert Lower(m1)[i] == Lower(m2)[i];
      LowerUpperAgree(m1[i], m2[i]);
    }
  }

  /**
   * Letter case does not matter to the decision: messages that agree once
   * lower-cased choose the same tool, flight, party and cabin and leave
   * the same memory, whatever the name and email searches return for
   * each. Only a booking's name and email can differ, since those
   * searches run on the message as typed and keep its case; given the
   * same matches, the whole outcome is the same.
   */
  lemma CaseInsensitive(m1: string, m2: string, mem: Memory, name1: Option<string>, email1: Option<string>,
                        name2: Option<string>, email2: Option<string>)
    requires Lower(m1) == Lower(m2)
    ensures var o1, o2 := Classify(m1, mem, name1, email1), Classify(m2, mem, name2, email2);
      o1.memory == o2.memory &&
      (o1.call.BookCall? <==> o2.call.BookCall?) &&
      (!o1.call.BookCall? ==> o1.call == o2.call) &&
      (o1.call.BookCall? ==> o1.call.flightId == o2.call.flightId && o1.call.passengers == o2.call.passengers &&
                             o1.call.cabin == o2.call.cabin)
    ensures name1 == name2 && email1 == email2 ==> Classify(m1, mem, name1, email1) == Classify(m2, mem, name2, email2)
  {
    UpperOfLower(m1, m2);
    assert FlightCode(m1) == FlightCode(m2);
    DecideIgnoresMatches(Lower(m1), FlightCode(m1), mem, name1, email1, name2, email2);
  }

  /** The name and email matches reach only the name and email of a booking call. */
  lemma DecideIgnoresMatches(m: string, code: Option<string>, mem: Memory, name1: Option<string>, email1: Option<string>,
                             name2: Option<string>, email2: Option<string>)
    ensures var o1, o2 := Decide(m, code, mem, name1, email1), Decide(m, code, mem, name2, email2);
      o1.memory == o2.memory &&
      (o1.call.BookCall? <==> o2.call.BookCall?) &&
      (!o1.call.BookCall? ==> o1.call == o2.call) &&
      (o1.call.BookCall? ==> o1.call.flightId == o2.call.flightId && o1.call.passengers == o2.call.passengers &&
                             o1.call.cabin == o2.call.cabin)
  {
  }

  // =====================================================================
  // The router object
  // =====================================================================

  class MockClaude {
    var conversationMemory: seq<string>
    var lastFlightSearched: Option<string>
    var lastRoute: Option<string>

    function Remembered(): Memory
      reads this
    {
      Memory(lastFlightSearched, lastRoute)
    }

    constructor ()
      ensures conversationMemory == [] && Remembered() == Memory(None, None)
    {
      conversationMemory := [];
      lastFlightSearched := None;
      lastRoute := None;
    }

    method ProcessMessage(message: string, nameMatch: Option<string>, emailMatch: Option<string>) returns (call: ToolCall)
      modifies this
      ensures Outcome(call, Remembered()) == Classify(message, old(Remembered()), nameMatch, emailMatch)
      ensures conversationMemory == old(conversationMemory)
    {
      var m := Lower(message);
      if AnyIn(SearchWords, m) {
        var route := RoutePhrase(m);
        if route.Some? {
          var (origin, destination) := route.value;
          var date := DefaultDate;
          if Contains(m, "march") {
            date := MarchDate;
          }
          lastRoute := Some(RouteKey(origin, destination));
          return SearchCall(origin, destination, date);
        }
      } else if AsksAvailability(m) {
        var code := FlightCode(message);
        var id := if code.Some? then code.value else DefaultFlight;
        lastFlightSearched := Some(id);
        return CheckCall(id, CheckParty(m));
      } else if Contains(m, "book") {
        var code := FlightCode(message);
        var id := if code.Some? then code.value else OrElse(lastFlightSearched, DefaultFlight);
        var name := if nameMatch.Some? then Strip(nameMatch.value) else DefaultName;
        var email := if emailMatch.Some? then Strip(emailMatch.value) else DefaultEmail;
        return BookCall(id, BookParty(m), CabinOf(m), name, email);
      }
      call := NoTool;
    }
  }
}
