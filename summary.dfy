/**
 * The reservation summary: the local timestamp strings the backend expects,
 * the next-day rollover of the end time, the payload of `confirm`, the
 * classification of a failed request and the duration text.
 */
module Summary {
  import opened Wrappers
  import opened Text
  import opened Booking
  import opened Api
  import MapFloor

  /**
   * `buildIso`: `y-MM-ddTHH:mm:00`, every field but the year padded to two
   * digits, no milliseconds, no `Z`. For a four-digit year and two-digit
   * fields the string has the fixed 19-character layout and every field
   * reads back.
   */
  function BuildIso(y: nat, m: nat, d: nat, hh: nat, mm: nat): (r: string)
    ensures 1000 <= y <= 9999 && m < 100 && d < 100 && hh < 100 && mm < 100 ==>
      && |r| == 19
      && r[4] == '-' && r[7] == '-' && r[10] == 'T' && r[13] == ':' && r[16] == ':'
      && r[17..] == "00"
      && (forall i :: 0 <= i < |r| ==> r[i] != 'Z')
      && AllDigits(r[..4]) && DigitsValue(r[..4]) == y
      && AllDigits(r[5..7]) && DigitsValue(r[5..7]) == m
      && AllDigits(r[8..10]) && DigitsValue(r[8..10]) == d
      && AllDigits(r[11..13]) && DigitsValue(r[11..13]) == hh
      && AllDigits(r[14..16]) && DigitsValue(r[14..16]) == mm
  {
    var r := NatToString(y) + "-" + Pad2(m) + "-" + Pad2(d) + "T" + Pad2(hh) + ":" + Pad2(mm) + ":00";
    if 1000 <= y <= 9999 && m < 100 && d < 100 && hh < 100 && mm < 100 then
      FourDigitWidth(y);
      Pad2Length(m);
      Pad2Length(d);
      Pad2Length(hh);
      Pad2Length(mm);
      NatToStringRoundTrip(y);
      IsoPieces(NatToString(y), Pad2(m), Pad2(d), Pad2(hh), Pad2(mm));
      r
    else r
  }

  /** How the five digit fields sit in the 19-character string. */
  lemma IsoPieces(a: string, b: string, c: string, d: string, e: string)
    requires |a| == 4 && |b| == 2 && |c| == 2 && |d| == 2 && |e| == 2
    requires AllDigits(a) && AllDigits(b) && AllDigits(c) && AllDigits(d) && AllDigits(e)
    ensures var r := a + "-" + b + "-" + c + "T" + d + ":" + e + ":00";
      && |r| == 19
      && r[..4] == a && r[5..7] == b && r[8..10] == c && r[11..13] == d && r[14..16] == e
      && r[4] == '-' && r[7] == '-' && r[10] == 'T' && r[13] == ':' && r[16] == ':' && r[17..] == "00"
      && (forall i :: 0 <= i < |r| ==> r[i] != 'Z')
  {
    var r := a + "-" + b + "-" + c + "T" + d + ":" + e + ":00";
    forall i | 0 <= i < |r| ensures r[i] != 'Z' {
      if i < 4 { assert r[i] == a[i]; }
      else if 5 <= i < 7 { assert r[i] == b[i - 5]; }
      else if 8 <= i < 10 { assert r[i] == c[i - 8]; }
      else if 11 <= i < 13 { assert r[i] == d[i - 11]; }
      else if 14 <= i < 16 { assert r[i] == e[i - 14]; }
    }
  }

  /** A local calendar date and wall-clock time, to the minute. */
  datatype LocalDateTime = LocalDateTime(year: nat, month: nat, day: nat, hour: nat, minute: nat)

  predicate IsLeapYear(y: int) {
    (y % 4 == 0 && y % 100 != 0) || y % 400 == 0
  }

  function DaysInMonth(y: int, m: int): (n: int)
    ensures 28 <= n <= 31
  {
    if m == 2 then (if IsLeapYear(y) then 29 else 28)
    else if m == 4 || m == 6 || m == 9 || m == 11 then 30
    else 31
  }

  predicate ValidDate(y: int, m: int, d: int) {
    1 <= m <= 12 && 1 <= d <= DaysInMonth(y, m)
  }

  predicate ValidDateTime(t: LocalDateTime) {
    ValidDate(t.year, t.month, t.day) && 0 <= t.hour <= 23 && 0 <= t.minute <= 59
  }

  /** Strictly earlier, field by field: how two valid local date-times compare. */
  predicate Before(a: LocalDateTime, b: LocalDateTime) {
    if a.year != b.year then a.year < b.year
    else if a.month != b.month then a.month < b.month
    else if a.day != b.day then a.day < b.day
    else if a.hour != b.hour then a.hour < b.hour
    else a.minute < b.minute
  }

  /**
   * `setDate(getDate() + 1)`: the same wall-clock time on the next calendar
   * day; no valid date-time at that time of day lies strictly in between.
   */
  function NextDay(t: LocalDateTime): (r: LocalDateTime)
    requires ValidDateTime(t)
    ensures ValidDateTime(r) && Before(t, r)
    ensures r.hour == t.hour && r.minute == t.minute
    ensures forall x :: ValidDateTime(x) && x.hour == t.hour && x.minute == t.minute ==> !(Before(t, x) && Before(x, r))
  {
    if t.day < DaysInMonth(t.year, t.month) then t.(day := t.day + 1)
    else if t.month < 12 then t.(month := t.month + 1, day := 1)
    else t.(year := t.year + 1, month := 1, day := 1)
  }

  /** The end of the booked window: the picked end, moved to the next day when it is not after the start. */
  function RolledEnd(start: LocalDateTime, end: LocalDateTime): (r: LocalDateTime)
    requires ValidDateTime(end)
    ensures ValidDateTime(r)
    ensures Before(start, end) ==> r == end
    ensures !Before(start, end) ==> r == NextDay(end)
  {
    if !Before(start, end) then NextDay(end) else end
  }

  /** Start and end share the summary's date, so after the rollover the end is always after the start. */
  lemma RolledEndAfterStart(start: LocalDateTime, end: LocalDateTime)
    requires ValidDateTime(start) && ValidDateTime(end)
    requires start.year == end.year && start.month == end.month && start.day == end.day
    ensures Before(start, RolledEnd(start, end))
    ensures !Before(start, end) ==> RolledEnd(start, end).hour == end.hour && RolledEnd(start, end).minute == end.minute
  {
  }

  /** The ISO string of a local date-time. */
  function IsoOf(t: LocalDateTime): string {
    BuildIso(t.year, t.month, t.day, t.hour, t.minute)
  }

  /** What `confirm` does before the request goes out. */
  datatype ConfirmStep =
    | AlreadyLoading
    | NoUser(message: string)
    | Send(payload: ReservationRequest)

  const NoUserMessage: string := "Giriş yapmış kullanıcı bulunamadı. Lütfen tekrar giriş yapın."

  /**
   * `confirm` up to the request: ignored while a submission is in progress;
   * an error when no user id is stored (null or empty); otherwise the payload
   * for the chosen desk and the (rolled-over) window.
   */
  function Confirm(loading: bool, storedUserId: Option<string>, start: LocalDateTime, end: LocalDateTime,
                   table: nat, seat: nat): (r: ConfirmStep)
    requires ValidDateTime(start) && ValidDateTime(end)
    ensures loading <==> r.AlreadyLoading?
    ensures r.NoUser? <==> !loading && (storedUserId.None? || storedUserId.value == "")
    ensures r.Send? ==>
      && r.payload.roomId == RoomId
      && r.payload.deskId == MapFloor.DeskId(table, seat)
      && r.payload.userId == ParseInt(storedUserId.value)
      && r.payload.startTime == IsoOf(start)
      && r.payload.endTime == IsoOf(RolledEnd(start, end))
  {
    if loading then AlreadyLoading
    else if storedUserId.None? || storedUserId.value == "" then NoUser(NoUserMessage)
    else
      var endDate := RolledEnd(start, end);
      Send(ReservationRequest(ParseInt(storedUserId.value), RoomId, MapFloor.DeskId(table, seat),
                              IsoOf(start), IsoOf(endDate)))
  }

  /** An id written at login by `toString()` reaches the payload unchanged. */
  lemma ConfirmCarriesStoredUser(userId: int, start: LocalDateTime, end: LocalDateTime, table: nat, seat: nat)
    requires ValidDateTime(start) && ValidDateTime(end)
    ensures Confirm(false, Some(IntToString(userId)), start, end, table, seat).Send?
    ensures Confirm(false, Some(IntToString(userId)), start, end, table, seat).payload.userId == Some(userId)
  {
    ParseIntRoundTrip(userId);
  }

  /** The dialog `parseError` builds. */
  datatype ErrorReport = ErrorReport(title: string, message: string, debug: string)

  /** `error?.message || ''` */
  function RawMessage(message: Option<string>): (r: string)
    ensures message.Some? ==> r == message.value
    ensures message.None? ==> r == ""
  {
    message.GetOr("")
  }

  /**
   * `parseError`: the lower-cased message is searched for the markers of each
   * category in a fixed order and the first that matches decides the title;
   * the debug line is the raw message.
   */
  function ParseError(message: Option<string>): (r: ErrorReport)
    ensures r.debug == RawMessage(message)
    ensures Categorized(ToLower(RawMessage(message)), r.title)
  {
    ReportFor(ToLower(RawMessage(message)), RawMessage(message))
  }

  /**
   * The title for the lower-cased message `raw`: the first category, in the
   * order the screen tests them, whose markers occur in it.
   */
  predicate Categorized(raw: string, title: string) {
    var badRequest := Contains(raw, "400") || Contains(raw, "bad request");
    var conflict := Contains(raw, "409") || Contains(raw, "conflict");
    var denied := Contains(raw, "401") || Contains(raw, "403");
    var offline := Contains(raw, "network") || Contains(raw, "bağlantı");
    var serverSide := Contains(raw, "500") || Contains(raw, "sunucu");
    && (badRequest ==> title == "Geçersiz Bilgi")
    && (!badRequest && conflict ==> title == "Çakışma")
    && (!badRequest && !conflict && denied ==> title == "Yetki Hatası")
    && (!badRequest && !conflict && !denied && offline ==> title == "Bağlantı Hatası")
    && (!badRequest && !conflict && !denied && !offline && serverSide ==> title == "Sunucu Hatası")
    && (!badRequest && !conflict && !denied && !offline && !serverSide ==> title == "Hata")
  }

  /** The dialog for the lower-cased message `raw`, with `debug` as its debug line. */
  function ReportFor(raw: string, debug: string): (r: ErrorReport)
    ensures r.debug == debug && Categorized(raw, r.title)
  {
    if Contains(raw, "400") || Contains(raw, "bad request") then
      ErrorReport("Geçersiz Bilgi", "Gönderilen rezervasyon verileri geçersiz görünüyor.", debug)
    else if Contains(raw, "409") || Contains(raw, "conflict") then
      ErrorReport("Çakışma", "Bu zaman aralığı için başka bir rezervasyon mevcut.", debug)
    else if Contains(raw, "401") || Contains(raw, "403") then
      ErrorReport("Yetki Hatası", "Lütfen oturum açtığınızdan emin olun.", debug)
    else if Contains(raw, "network") || Contains(raw, "bağlantı") then
      ErrorReport("Bağlantı Hatası", "İnternet bağlantınızı kontrol edin.", debug)
    else if Contains(raw, "500") || Contains(raw, "sunucu") then
      ErrorReport("Sunucu Hatası", "Sunucuda bir sorun oluştu. Daha sonra tekrar deneyin.", debug)
    else
      ErrorReport("Hata", "Rezervasyon oluşturulamadı.", debug)
  }

  /** Any HTTP error whose message mentions status 409 (and not 400) is reported as a conflict. */
  lemma ConflictStatusReported(resp: Response)
    requires Contains(ToLower(HttpFailure(resp).message), "409")
    requires !Contains(ToLower(HttpFailure(resp).message), "400")
    requires !Contains(ToLower(HttpFailure(resp).message), "bad request")
    ensures ParseError(Some(HttpFailure(resp).message)).title == "Çakışma"
  {
  }

  /** `calculateDuration`'s minute count: the end is moved a day later when it is not after the start. */
  function DurationMinutes(sh: int, sm: int, eh: int, em: int): int {
    var start := sh * 60 + sm;
    var end := eh * 60 + em;
    (if end <= start then end + 1440 else end) - start
  }

  /** For wall-clock times the duration lies in (0, 1440] and agrees with end minus start modulo a day. */
  lemma DurationMinutesBounds(sh: int, sm: int, eh: int, em: int)
    requires 0 <= sh <= 23 && 0 <= sm <= 59 && 0 <= eh <= 23 && 0 <= em <= 59
    ensures 0 < DurationMinutes(sh, sm, eh, em) <= 1440
    ensures (DurationMinutes(sh, sm, eh, em) - ((eh * 60 + em) - (sh * 60 + sm))) % 1440 == 0
    ensures sh == eh && sm == em ==> DurationMinutes(sh, sm, eh, em) == 1440
  {
  }

  /**
   * `calculateDuration`: `h saat`, or `h saat m dk` when the minutes are not
   * zero. For wall-clock times these are the whole hours and the leftover
   * minutes of the duration.
   */
  function DurationText(sh: int, sm: int, eh: int, em: int): (r: string)
    ensures 0 <= sh <= 23 && 0 <= sm <= 59 && 0 <= eh <= 23 && 0 <= em <= 59 ==>
      var mins := DurationMinutes(sh, sm, eh, em);
      var h := mins / 60;
      var m := mins % 60;
      0 <= h <= 24 && 0 <= m < 60 && h * 60 + m == mins
      && r == (if m == 0 then NatToString(h) + " saat" else NatToString(h) + " saat " + NatToString(m) + " dk")
  {
    var mins := DurationMinutes(sh, sm, eh, em);
    var h := mins / 60;
    var m := JsRem(mins, 60);
    if 0 <= sh <= 23 && 0 <= sm <= 59 && 0 <= eh <= 23 && 0 <= em <= 59 then
      DurationMinutesBounds(sh, sm, eh, em);
      DurationWords(h, m)
    else DurationWords(h, m)
  }

  /** The words for `h` hours and `m` minutes, the minutes left out when zero. */
  function DurationWords(h: int, m: int): string {
    if m == 0 then IntToString(h) + " saat" else IntToString(h) + " saat " + IntToString(m) + " dk"
  }

  /** Equal start and end times read as a full day. */
  lemma EqualTimesReadAsFullDay(h: int, m: int)
    requires 0 <= h <= 23 && 0 <= m <= 59
    ensures DurationText(h, m, h, m) == "24 saat"
  {
    assert NatToString(24) == NatToString(2) + [DigitChar(4)];
  }
}
