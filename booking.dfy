/**
 * What several screens share about reservations: the record the backend returns,
 * the half-open overlap test, the "currently active" pick and the occupancy
 * percentage over the library's 200 seats.
 */
module Booking {
  import opened Wrappers
  import opened Lists

  const HourMs: int := 3_600_000
  const DayMs: int := 24 * HourMs

  /** The seat total every screen assumes for the library. */
  const TotalSeats: int := 200

  /** The only room the client ever queries or books. */
  const RoomId: string := "ROOM-001"

  /** A reservation as the backend returns it; start and end are already parsed to epoch milliseconds. */
  datatype Reservation = Reservation(
    id: int, userId: int, roomId: string, deskId: string,
    startMs: int, endMs: int, status: string)

  /** `[s1, e1)` and `[s2, e2)` overlap: `s1 < e2 && s2 < e1`. */
  predicate Overlaps(s1: int, e1: int, s2: int, e2: int) {
    s1 < e2 && s2 < e1
  }

  /** Instant `t` lies in the half-open window `[s, e)`. */
  predicate InWindow(t: int, s: int, e: int) {
    s <= t < e
  }

  /**
   * For well-formed windows the overlap test is exactly "the two half-open
   * windows share an instant". (An empty or reversed window, end not after
   * start, can still pass the test.)
   */
  lemma OverlapsIffCommonInstant(s1: int, e1: int, s2: int, e2: int)
    requires s1 < e1 && s2 < e2
    ensures Overlaps(s1, e1, s2, e2) <==> exists t :: InWindow(t, s1, e1) && InWindow(t, s2, e2)
  {
    if Overlaps(s1, e1, s2, e2) {
      var t := if s1 < s2 then s2 else s1;
      assert InWindow(t, s1, e1) && InWindow(t, s2, e2);
    }
  }

  /** Windows that only touch at an endpoint share no instant. */
  lemma TouchingWindowsDoNotOverlap(s1: int, m: int, e2: int)
    ensures !Overlaps(s1, m, m, e2) && !Overlaps(m, e2, s1, m)
  {
  }

  /** The reservations overlapping the window `[s, e)`, in list order. */
  function OverlappingWindow(rs: seq<Reservation>, s: int, e: int): seq<Reservation> {
    Filter(rs, (r: Reservation) => Overlaps(r.startMs, r.endMs, s, e))
  }

  /** `Math.round(a / b)` for `b > 0`: the nearest integer, halves rounded up. */
  function RoundHalfUp(a: int, b: int): (r: int)
    requires b > 0
    ensures 2 * b * r <= 2 * a + b < 2 * b * r + 2 * b
  {
    (2 * a + b) / (2 * b)
  }

  /**
   * Rounding `a / b` for `0 <= a <= n * b` gives a whole number from 0 to `n`
   * that lies less than one step `b` away from `a / b` on either side.
   */
  lemma RoundHalfUpWithin(a: int, b: int, n: int)
    requires b > 0 && 0 <= a <= n * b
    ensures 0 <= RoundHalfUp(a, b) <= n
    ensures (RoundHalfUp(a, b) - 1) * b < a < (RoundHalfUp(a, b) + 1) * b
  {
    var r := RoundHalfUp(a, b);
    var x := b * r;
    assert 2 * b * r == 2 * x;
    assert (r - 1) * b == x - b;
    assert (r + 1) * b == x + b;
    MulSign(r + 1, b);
    MulSign(n - r + 1, b);
    assert (n - r + 1) * b == n * b - x + b;
  }

  /** The sign of a product with a positive factor, kept apart so the nonlinear step stays small. */
  lemma MulSign(x: int, b: int)
    requires b > 0
    ensures x <= 0 ==> x * b <= 0
  {
  }

  /** `Math.min(Math.round((conflicts / 200) * 100), 100)` */
  function OccupancyPercent(conflicts: int): (r: int)
    ensures r <= 100
    ensures conflicts >= 0 ==> 0 <= r
    ensures conflicts >= TotalSeats ==> r == 100
    ensures conflicts >= 0 ==> (r == 0 <==> conflicts == 0)
    ensures 0 <= conflicts <= TotalSeats ==> 2 * r - 1 <= conflicts < 2 * r + 1
  {
    var p := RoundHalfUp(conflicts * 100, TotalSeats);
    if p < 100 then p else 100
  }

  /** More conflicts never show a lower occupancy. */
  lemma OccupancyMonotonic(c1: int, c2: int)
    requires c1 <= c2
    ensures OccupancyPercent(c1) <= OccupancyPercent(c2)
  {
    var p1 := RoundHalfUp(c1 * 100, TotalSeats);
    var p2 := RoundHalfUp(c2 * 100, TotalSeats);
    assert 400 * p1 <= 200 * c1 + 200 < 400 * p2 + 400;
  }

  /** `start <= now && now <= end` */
  predicate IsActiveAt(r: Reservation, now: int) {
    r.startMs <= now <= r.endMs
  }

  /** The first reservation of the list that is running at `now`, if any. */
  function FirstActive(all: seq<Reservation>, now: int): (r: Option<Reservation>)
    ensures r.None? <==> forall j :: 0 <= j < |all| ==> !IsActiveAt(all[j], now)
    ensures r.Some? ==> r.value in all && IsActiveAt(r.value, now)
    ensures r.Some? ==> r.value == all[FindIndex(all, (x: Reservation) => IsActiveAt(x, now))]
  {
    Find(all, (x: Reservation) => IsActiveAt(x, now))
  }
}
