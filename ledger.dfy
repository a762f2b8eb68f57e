/**
 * Booking ids and the seats that ledger entries hold.
 *
 * A booking id is "BK" followed by the decimal form of the global
 * booking counter, which starts at 1000 and only ever grows by one, so
 * the ids issued so far are exactly BookingId(1000) .. BookingId(counter - 1).
 * `Held` sums, over those ids, the seats each ledger entry holds on one
 * flight; the engines' seat-conservation invariants are stated with it.
 */
module Ledger {

  /** The initial value of the booking counter. */
  const FirstCounter: nat := 1000

  function DigitChar(d: nat): char
    requires d < 10
  {
    ('0' as int + d) as char
  }

  /** Python's `str(n)` for a non-negative integer: decimal digits without leading zeros. */
  function Decimal(n: nat): (s: string)
    ensures 1 <= |s|
    ensures n < 10 <==> |s| == 1
    ensures forall i :: 0 <= i < |s| ==> '0' <= s[i] <= '9'
  {
    if n < 10 then [DigitChar(n)] else Decimal(n / 10) + [DigitChar(n % 10)]
  }

  /** Reads a string of decimal digits back as a number (the inverse of `Decimal`). */
  function DecimalValue(s: string): nat
  {
    if |s| == 0 then 0
    else
      var d := s[|s| - 1] as int - '0' as int;
      DecimalValue(s[..|s| - 1]) * 10 + (if 0 <= d then d else 0)
  }

  lemma {:induction false} DecimalRoundTrip(n: nat)
    ensures DecimalValue(Decimal(n)) == n
  {
    var s := Decimal(n);
    if n >= 10 {
      assert s[..|s| - 1] == Decimal(n / 10);
      DecimalRoundTrip(n / 10);
    } else {
      assert s[..|s| - 1] == [];
    }
  }

  /** Distinct counters print differently. */
  lemma DecimalInjective(a: nat, b: nat)
    requires Decimal(a) == Decimal(b)
    ensures a == b
  {
    DecimalRoundTrip(a);
    DecimalRoundTrip(b);
  }

  /** The id `f"BK{counter}"` allocated for counter value `n`. */
  function BookingId(n: nat): string
  {
    "BK" + Decimal(n)
  }

  /** Booking ids are never reused: distinct counter values give distinct ids. */
  lemma BookingIdInjective(a: nat, b: nat)
    ensures BookingId(a) == BookingId(b) ==> a == b
  {
    if BookingId(a) == BookingId(b) {
      assert Decimal(a) == BookingId(a)[2..];
      assert Decimal(b) == BookingId(b)[2..];
      DecimalInjective(a, b);
    }
  }

  /** Every id issued while the counter went from FirstCounter to `n`. */
  function IssuedIds(n: nat): set<string>
  {
    set i | FirstCounter <= i < n :: BookingId(i)
  }

  /** Allocating counter value `n` adds one id, and it is new. */
  lemma IssueNext(n: nat)
    requires n >= FirstCounter
    ensures BookingId(n) !in IssuedIds(n)
    ensures IssuedIds(n + 1) == IssuedIds(n) + {BookingId(n)}
  {
    forall i | FirstCounter <= i < n
      ensures BookingId(i) != BookingId(n)
    {
      BookingIdInjective(i, n);
    }
  }

  /** As many ids as counter steps: the number of bookings ever made is `n - FirstCounter`. */
  lemma {:induction false} IssuedCount(n: nat)
    requires n >= FirstCounter
    ensures |IssuedIds(n)| == n - FirstCounter
  {
    if n == FirstCounter {
      assert IssuedIds(n) == {};
    } else {
      IssuedCount(n - 1);
      IssueNext(n - 1);
    }
  }

  /** Seats that one ledger entry holds on a flight. */
  datatype Hold = Hold(flightId: string, seats: int)

  function HoldOn(h: Hold, fid: string): int
  {
    if h.flightId == fid then h.seats else 0
  }

  function HeldBy(holds: map<string, Hold>, key: string, fid: string): int
  {
    if key in holds then HoldOn(holds[key], fid) else 0
  }

  /** Seats held on flight `fid` by the entries with ids BookingId(FirstCounter) .. BookingId(n - 1). */
  function Held(holds: map<string, Hold>, fid: string, n: nat): int
    decreases n
  {
    if n <= FirstCounter then 0 else Held(holds, fid, n - 1) + HeldBy(holds, BookingId(n - 1), fid)
  }

  /** Entries that hold no negative seats sum to no negative total. */
  lemma {:induction false} HeldNonNeg(holds: map<string, Hold>, fid: string, n: nat)
    requires forall k :: k in holds ==> holds[k].seats >= 0
    ensures Held(holds, fid, n) >= 0
    decreases n
  {
    if n > FirstCounter {
      HeldNonNeg(holds, fid, n - 1);
    }
  }

  /** Writing a key outside the id range does not change the sum. */
  lemma {:induction false} HeldOutside(holds: map<string, Hold>, k: string, h: Hold, fid: string, n: nat)
    requires k !in IssuedIds(n)
    ensures Held(holds[k := h], fid, n) == Held(holds, fid, n)
    decreases n
  {
    if n > FirstCounter {
      assert BookingId(n - 1) in IssuedIds(n);
      assert IssuedIds(n - 1) <= IssuedIds(n);
      HeldOutside(holds, k, h, fid, n - 1);
    }
  }

  /** Replacing the entry of an issued id changes the sum by exactly that entry's difference. */
  lemma {:induction false} HeldUpdate(holds: map<string, Hold>, m: nat, h: Hold, fid: string, n: nat)
    requires FirstCounter <= m < n
    ensures Held(holds[BookingId(m) := h], fid, n) == Held(holds, fid, n) - HeldBy(holds, BookingId(m), fid) + HoldOn(h, fid)
    decreases n
  {
    if n - 1 == m {
      IssueNext(m);
      HeldOutside(holds, BookingId(m), h, fid, m);
    } else {
      HeldUpdate(holds, m, h, fid, n - 1);
      BookingIdInjective(n - 1, m);
    }
  }

  /** Inserting the entry of a freshly allocated id adds exactly its seats. */
  lemma HeldInsert(holds: map<string, Hold>, h: Hold, fid: string, n: nat)
    requires n >= FirstCounter && BookingId(n) !in holds
    ensures Held(holds[BookingId(n) := h], fid, n + 1) == Held(holds, fid, n) + HoldOn(h, fid)
  {
    HeldUpdate(holds, n, h, fid, n + 1);
  }
}
