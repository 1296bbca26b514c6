/**
 * The home screen: the `HH:MM:SS` countdown text, the one-second timer with
 * its break counter, the active-reservation pick, the 24 hourly slots of the
 * occupancy picker and the occupancy shown for one, and the quick entry/exit
 * scan with its gate, student-number extraction and error messages.
 */
module Home {
  import opened Wrappers
  import opened Text
  import opened Lists
  import opened Booking
  import opened Api

  /** The break counter's starting value: fifteen minutes. */
  const BreakMs: int := 15 * 60 * 1000

  /** One field of the countdown: `toString().padStart(2, '0')`, a negative value keeping its sign. */
  function Field(n: int): string {
    PadStart(IntToString(n), 2, '0')
  }

  /**
   * `fmt`: hours, minutes and seconds of `ms` with JavaScript's `Math.floor`
   * (Dafny's `/` for a positive divisor) and its sign-keeping `%`. For a
   * non-negative duration the text reads back as its whole seconds.
   */
  function Fmt(ms: int): (t: string)
    ensures ms >= 0 ==> ReadsAs(t, ms / 1000)
  {
    var s := JsRem(ms / 1000, 60);
    var m := JsRem(ms / 60000, 60);
    var h := ms / 3600000;
    var t := Field(h) + ":" + Field(m) + ":" + Field(s);
    if ms >= 0 then
      FieldsReadBack(ms);
      t
    else t
  }

  /** The three fields of a non-negative duration, joined by colons, read back as its whole seconds. */
  lemma FieldsReadBack(ms: int)
    requires ms >= 0
    ensures ReadsAs(Field(ms / 3600000) + ":" + Field(JsRem(ms / 60000, 60)) + ":" + Field(JsRem(ms / 1000, 60)), ms / 1000)
  {
    var s := JsRem(ms / 1000, 60);
    var m := JsRem(ms / 60000, 60);
    var h := ms / 3600000;
    assert s == (ms / 1000) % 60 && m == (ms / 60000) % 60;
    assert Field(h) == Pad2(h) && Field(m) == Pad2(m) && Field(s) == Pad2(s);
    Pad2Length(m);
    Pad2Length(s);
    ClockArithmetic(ms);
    ClockLayout(Pad2(h), Pad2(m), Pad2(s), h, m, s);
  }

  /**
   * `t` is an `H…H:MM:SS` text for `secs` seconds: at least two hour digits,
   * then two minute digits below 60 and two second digits below 60, adding up
   * to `secs`.
   */
  predicate ReadsAs(t: string, secs: int) {
    && |t| >= 8 && t[|t| - 6] == ':' && t[|t| - 3] == ':'
    && AllDigits(t[..|t| - 6]) && AllDigits(t[|t| - 5..|t| - 3]) && AllDigits(t[|t| - 2..])
    && DigitsValue(t[|t| - 5..|t| - 3]) < 60 && DigitsValue(t[|t| - 2..]) < 60
    && 3600 * DigitsValue(t[..|t| - 6]) + 60 * DigitsValue(t[|t| - 5..|t| - 3]) + DigitsValue(t[|t| - 2..]) == secs
  }

  /** Three padded fields joined by colons read as their seconds. */
  lemma ClockLayout(hs: string, mm: string, ss: string, h: nat, m: nat, s: nat)
    requires AllDigits(hs) && |hs| >= 2 && DigitsValue(hs) == h
    requires AllDigits(mm) && |mm| == 2 && DigitsValue(mm) == m && m < 60
    requires AllDigits(ss) && |ss| == 2 && DigitsValue(ss) == s && s < 60
    ensures ReadsAs(hs + ":" + mm + ":" + ss, 3600 * h + 60 * m + s)
  {
    var n := |hs|;
    var withMinutes := hs + ":" + mm;
    assert withMinutes[..n] == hs && withMinutes[n] == ':' && withMinutes[n + 1..] == mm;
    var t := withMinutes + ":" + ss;
    assert |t| == n + 6 && t[..n + 3] == withMinutes && t[n + 3] == ':' && t[n + 4..] == ss;
    assert t[..n] == hs;
    assert t[n + 1..n + 3] == mm;
  }

  /** Whole hours, the minutes within the hour and the seconds within the minute make up the whole seconds. */
  lemma ClockArithmetic(ms: int)
    requires ms >= 0
    ensures 3600 * (ms / 3600000) + 60 * ((ms / 60000) % 60) + (ms / 1000) % 60 == ms / 1000
  {
    var secs := ms / 1000;
    assert ms / 60000 == secs / 60;
    assert ms / 3600000 == (secs / 60) / 60;
    assert secs == 60 * (secs / 60) + secs % 60;
    assert secs / 60 == 60 * ((secs / 60) / 60) + (secs / 60) % 60;
  }

  /**
   * The countdown after one tick: it never rises, stands still on a break,
   * and reads 0 from the next tick on once it is not positive; off a break it
   * can pass below zero by less than a second.
   */
  function NextRemaining(remaining: int, onBreak: bool): (next: int)
    ensures next <= (if remaining > 0 then remaining else 0)
    ensures remaining <= 0 ==> next == 0
    ensures onBreak && remaining > 0 ==> next == remaining
    ensures remaining > -1000 ==> next > -1000
  {
    if remaining > 0 then (if onBreak then remaining else remaining - 1000) else 0
  }

  /** The break counter after one tick, while on a break. */
  function NextBreak(breakRemaining: int): int {
    if breakRemaining > 0 then breakRemaining - 1000 else 0
  }

  /** `k` ticks of the countdown off a break. */
  function Ticks(remaining: int, k: nat): int
    decreases k
  {
    if k == 0 then remaining else Ticks(NextRemaining(remaining, false), k - 1)
  }

  /** Off a break, a countdown of `remaining` milliseconds reads 0 after `remaining / 1000 + 2` ticks. */
  lemma {:induction false} CountdownEnds(remaining: int)
    requires remaining >= 0
    ensures Ticks(remaining, remaining / 1000 + 2) == 0
  {
    if remaining == 0 {
      assert Ticks(0, 1) == Ticks(0, 0);
      assert Ticks(0, 2) == Ticks(0, 1);
    } else if remaining < 1000 {
      assert Ticks(remaining, 2) == Ticks(remaining - 1000, 1);
      assert Ticks(remaining - 1000, 1) == Ticks(0, 0);
    } else {
      assert Ticks(remaining, remaining / 1000 + 2) == Ticks(remaining - 1000, (remaining - 1000) / 1000 + 2);
      CountdownEnds(remaining - 1000);
    }
  }

  /**
   * A countdown below one second goes negative for one tick, and `fmt`
   * renders it with negative fields.
   */
  lemma NegativeTickShown()
    ensures NextRemaining(500, false) == -500
    ensures Fmt(-500) == "-1:-1:-1"
  {
    assert -500 / 1000 == -1 && -500 / 60000 == -1 && -500 / 3600000 == -1;
    assert JsRem(-1, 60) == -1;
    assert DigitChar(1) == '1';
    assert NatToString(1) == "1";
    assert IntToString(-1) == "-1";
    assert Field(-1) == "-1";
  }

  /** The countdown the evident intent calls for: one second less, never below zero. */
  function ClampedNextRemaining(remaining: int, onBreak: bool): (r: int)
    ensures r >= 0
  {
    if remaining > 1000 then (if onBreak then remaining else remaining - 1000) else if remaining > 0 && onBreak then remaining else 0
  }

  /** The clamped countdown agrees with the one as written except where that one goes negative. */
  lemma ClampedAgrees(remaining: int, onBreak: bool)
    ensures NextRemaining(remaining, onBreak) >= 0 ==> ClampedNextRemaining(remaining, onBreak) == NextRemaining(remaining, onBreak)
    ensures NextRemaining(remaining, onBreak) < 0 ==> 0 < remaining < 1000 && !onBreak && ClampedNextRemaining(remaining, onBreak) == 0
  {
  }

  /** After a clamped tick the countdown text reads back as the whole seconds left. */
  lemma ClampedTickReadsBack(remaining: int, onBreak: bool)
    ensures ReadsAs(Fmt(ClampedNextRemaining(remaining, onBreak)), ClampedNextRemaining(remaining, onBreak) / 1000)
  {
  }

  /** The reservation timer: what the interval updates every second and what the break button toggles. */
  class CountdownTimer {
    var remaining: int
    var breakRemaining: int
    var onBreak: bool

    /** The break counter is a whole number of seconds between 0 and fifteen minutes. */
    predicate Valid()
      reads this
    {
      0 <= breakRemaining <= BreakMs && breakRemaining % 1000 == 0
    }

    constructor()
      ensures Valid()
      ensures remaining == 0 && breakRemaining == BreakMs && !onBreak
    {
      remaining := 0;
      breakRemaining := BreakMs;
      onBreak := false;
    }

    /** The active reservation found: the countdown starts at its end minus now. */
    method Start(endMs: int, now: int)
      modifies this
      ensures remaining == endMs - now
      ensures breakRemaining == old(breakRemaining) && onBreak == old(onBreak)
    {
      remaining := endMs - now;
    }

    /** One interval tick. */
    method Tick()
      requires Valid()
      modifies this
      ensures Valid()
      ensures remaining == NextRemaining(old(remaining), old(onBreak))
      ensures breakRemaining == if old(onBreak) then NextBreak(old(breakRemaining)) else old(breakRemaining)
      ensures onBreak == old(onBreak)
    {
      remaining := if remaining > 0 then (if onBreak then remaining else remaining - 1000) else 0;
      if onBreak {
        breakRemaining := if breakRemaining > 0 then breakRemaining - 1000 else 0;
      }
    }

    /**
     * The tick as evidently intended: the countdown is clamped at zero, so
     * what is shown after any tick reads back as whole seconds
     * (`ClampedTickReadsBack`).
     */
    method TickClamped()
      requires Valid()
      modifies this
      ensures Valid()
      ensures remaining == ClampedNextRemaining(old(remaining), old(onBreak))
      ensures breakRemaining == if old(onBreak) then NextBreak(old(breakRemaining)) else old(breakRemaining)
      ensures onBreak == old(onBreak)
      ensures remaining >= 0
    {
      remaining := if remaining > 1000 then (if onBreak then remaining else remaining - 1000)
                   else if remaining > 0 && onBreak then remaining else 0;
      if onBreak {
        breakRemaining := if breakRemaining > 0 then breakRemaining - 1000 else 0;
      }
    }

    /** `toggleBreak` */
    method ToggleBreak()
      modifies this
      ensures onBreak == !old(onBreak)
      ensures remaining == old(remaining) && breakRemaining == old(breakRemaining)
    {
      onBreak := !onBreak;
    }
  }

  /** The active reservation at `now` and the milliseconds left of it. */
  function ActiveCountdown(all: seq<Reservation>, now: int): (r: Option<(Reservation, int)>)
    ensures r.None? <==> FirstActive(all, now).None?
    ensures r.Some? ==> r.value.0 == FirstActive(all, now).value && r.value.1 == r.value.0.endMs - now
    ensures r.Some? ==> 0 <= r.value.1 <= r.value.0.endMs - r.value.0.startMs
  {
    match FirstActive(all, now)
    case None => None
    case Some(act) => Some((act, act.endMs - now))
  }

  /** A picker entry: its caption and the hour offset it stands for. */
  datatype TimeSlot = TimeSlot(caption: string, value: int)

  /** `HH:00–HH:00` for the local hour `h` and the hour after it. */
  function SlotLabel(h: nat): string
    requires h < 24
  {
    Pad2(h) + ":00–" + Pad2((h + 1) % 24) + ":00"
  }

  /** The label is eleven characters and names the start hour and the hour after it. */
  lemma SlotLabelHours(h: nat)
    requires h < 24
    ensures var l := SlotLabel(h);
      && |l| == 11 && l[2..5] == ":00" && l[5] == '–' && l[8..] == ":00"
      && AllDigits(l[..2]) && DigitsValue(l[..2]) == h
      && AllDigits(l[6..8]) && DigitsValue(l[6..8]) == (h + 1) % 24
  {
    Pad2Length(h);
    Pad2Length((h + 1) % 24);
    var l := SlotLabel(h);
    assert l[..2] == Pad2(h);
    assert l[6..8] == Pad2((h + 1) % 24);
  }

  /**
   * The 24 slots from the current hour on; `nowHour` is the local hour of
   * now, and the local hour of now plus `i` hours is taken as
   * `(nowHour + i) % 24` (no clock change in between).
   */
  method TimeSlots(nowHour: nat) returns (slots: seq<TimeSlot>)
    ensures |slots| == 24
    ensures forall i :: 0 <= i < 24 ==> slots[i] == Slot(nowHour, i)
  {
    slots := [];
    ghost var slotAt := (j: nat) => Slot(nowHour, j);
    for i := 0 to 24
      invariant slots == Tabulate(slotAt, i)
    {
      slots := slots + [Slot(nowHour, i)];
    }
    TabulateIndex(slotAt, 24);
  }

  /** `f(0), …, f(n - 1)`. */
  ghost function Tabulate<T>(f: nat -> T, n: nat): seq<T> {
    if n == 0 then [] else Tabulate(f, n - 1) + [f(n - 1)]
  }

  lemma {:induction false} TabulateIndex<T>(f: nat -> T, n: nat)
    ensures |Tabulate(f, n)| == n
    ensures forall j :: 0 <= j < n ==> Tabulate(f, n)[j] == f(j)
  {
    if n > 0 {
      TabulateIndex(f, n - 1);
    }
  }

  /** Slot `i`: labelled with the local hours `i` and `i + 1` hours from now, standing for offset `i`. */
  function Slot(nowHour: nat, i: nat): (slot: TimeSlot)
    ensures slot.value == i
  {
    var h := (nowHour + i) % 24;
    TimeSlot(SlotLabel(h), i)
  }

  /** The window the occupancy of slot `sel` is asked for: one hour starting `sel` hours from now. */
  function SlotWindow(now: int, sel: int): (w: (int, int))
    ensures w.1 - w.0 == HourMs
  {
    (now + sel * HourMs, now + sel * HourMs + HourMs)
  }

  /** Consecutive slots meet without overlapping, and distinct slots never overlap. */
  lemma SlotWindowsDisjoint(now: int, i: int, j: int)
    requires i != j
    ensures SlotWindow(now, i).1 == SlotWindow(now, i + 1).0
    ensures !Overlaps(SlotWindow(now, i).0, SlotWindow(now, i).1, SlotWindow(now, j).0, SlotWindow(now, j).1)
  {
    if i < j {
      assert (j - i) * HourMs >= HourMs;
    } else {
      assert (i - j) * HourMs >= HourMs;
    }
  }

  /**
   * The occupancy shown for a slot: the pending reservations over 200 seats,
   * or the random draw `floor(random * 101)` when the request fails.
   */
  function SlotOccupancy(pending: Option<seq<Reservation>>, draw: int): (r: int)
    requires 0 <= draw <= 100
    ensures 0 <= r <= 100
    ensures pending.Some? ==> r == OccupancyPercent(|pending.value|)
    ensures pending.None? ==> r == draw
  {
    if pending.Some? then OccupancyPercent(|pending.value|) else draw
  }

  /**
   * With the pending list taken from `fetchRoomPendingReservations`, the
   * random draw is shown only when the endpoint answered with a body that
   * does not parse; when every request fails the slot reads 0 %.
   */
  lemma SlotOccupancyFromQuery(endpoint: EndpointOutcome, roomList: Option<seq<Reservation>>,
                               s: int, e: int, draw: int)
    requires 0 <= draw <= 100
    ensures !endpoint.Unparsable? ==>
      SlotOccupancy(RoomPendingSettled(endpoint, roomList, s, e), draw)
      == OccupancyPercent(|FetchRoomPending(PrimaryOf(endpoint), roomList, s, e)|)
    ensures endpoint.Unparsable? ==> SlotOccupancy(RoomPendingSettled(endpoint, roomList, s, e), draw) == draw
    ensures SlotOccupancy(RoomPendingSettled(Unavailable, None, s, e), draw) == 0
  {
    TotalOutageSettlesEmpty(s, e);
  }

  datatype ScanType = Entry | Exit

  /** What pressing a quick-scan button leads to. */
  datatype ScanGate =
    | NoUserError          // no user loaded: an error and nothing else
    | ReservationRequired  // entry without an active reservation: refused, with a link to book
    | ConfirmExit          // exit without an active reservation: scan only after confirmation
    | Scan                 // the scan request goes out

  /** `handleQuickScan` */
  function QuickScanGate(userLoaded: bool, scanType: ScanType, hasActive: bool): (g: ScanGate)
    ensures g == NoUserError <==> !userLoaded
    ensures g == ReservationRequired <==> userLoaded && scanType == Entry && !hasActive
    ensures g == ConfirmExit <==> userLoaded && scanType == Exit && !hasActive
    ensures g == Scan <==> userLoaded && hasActive
  {
    if !userLoaded then NoUserError
    else if scanType.Entry? && !hasActive then ReservationRequired
    else if scanType.Exit? && !hasActive then ConfirmExit
    else Scan
  }

  /** `replace(/\D/g, '')`: the digits of `s`, in order. */
  function DigitsOnly(s: string): (r: string)
    ensures AllDigits(r)
    ensures r == Filter(s, IsDigit)
  {
    Filter(s, IsDigit)
  }

  /** The user's student number as the profile holds it. */
  datatype StudentIdField = TextId(text: string) | NumberId(number: int)

  /** The number sent with a scan; None when `parseInt` yields NaN and the scan is refused. */
  function StudentIdNumber(id: StudentIdField): (r: Option<int>)
    ensures id.TextId? ==> (r.None? <==> forall i :: 0 <= i < |id.text| ==> !IsDigit(id.text[i]))
    ensures id.TextId? && r.Some? ==> r.value == DigitsValue(DigitsOnly(id.text))
    ensures id.NumberId? ==> r == Some(id.number)
  {
    match id
    case NumberId(n) => Some(n)
    case TextId(s) =>
      var d := DigitsOnly(s);
      ParseIntOfDigits(d);
      ParseInt(d)
  }

  /** The scan's failure message, chosen by the first pattern the error message contains. */
  function ScanErrorMessage(message: Option<string>): (r: string)
    ensures (message.None? || message.value == []) ==> r == "Tarama işlemi başarısız oldu."
    ensures message.Some? && Contains(message.value, "404") ==> r == "Öğrenci numarası sistemde bulunamadı."
    ensures message.Some? && !Contains(message.value, "404") && Contains(message.value, "400") ==>
      r == "Geçersiz tarama verisi."
    ensures (message.Some? && !Contains(message.value, "404") && !Contains(message.value, "400")
             && (Contains(message.value, "network") || Contains(message.value, "fetch"))) ==>
      r == "Bağlantı hatası. İnternet bağlantınızı kontrol edin."
    ensures (message.Some? && !Contains(message.value, "404") && !Contains(message.value, "400")
             && !Contains(message.value, "network") && !Contains(message.value, "fetch")) ==>
      r == "Tarama işlemi başarısız oldu."
  {
    if message.None? || message.value == [] then "Tarama işlemi başarısız oldu."
    else if Contains(message.value, "404") then "Öğrenci numarası sistemde bulunamadı."
    else if Contains(message.value, "400") then "Geçersiz tarama verisi."
    else if Contains(message.value, "network") || Contains(message.value, "fetch") then
      "Bağlantı hatası. İnternet bağlantınızı kontrol edin."
    else "Tarama işlemi başarısız oldu."
  }
}
