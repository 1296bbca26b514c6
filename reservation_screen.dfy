/**
 * The reservation form: the picked start time and its 36-hour horizon, the
 * conflict and occupancy analysis of the chosen window, the recommendations
 * shown beside it, the low-availability confirmation and the alternative
 * hours.
 */
module ReservationScreen {
  import opened Wrappers
  import opened Text
  import opened Lists
  import opened Booking
  import opened Api

  const MaxDuration: int := 3
  const HorizonMs: int := 36 * HourMs

  /**
   * `localIsoDate`: `Y-MM-DD` with month and day zero-padded. A four-digit
   * year with a real month and day gives ten characters that read back field
   * by field.
   */
  function LocalIsoDate(y: nat, m: nat, d: nat): (r: string)
    ensures 1000 <= y <= 9999 && 1 <= m <= 12 && 1 <= d <= 31 ==>
      |r| == 10 && r[4] == '-' && r[7] == '-'
      && AllDigits(r[..4]) && DigitsValue(r[..4]) == y
      && AllDigits(r[5..7]) && DigitsValue(r[5..7]) == m
      && AllDigits(r[8..]) && DigitsValue(r[8..]) == d
  {
    var r := NatToString(y) + "-" + Pad2(m) + "-" + Pad2(d);
    if 1000 <= y <= 9999 && 1 <= m <= 12 && 1 <= d <= 31 then
      FourDigitWidth(y);
      Pad2Length(m);
      Pad2Length(d);
      NatToStringRoundTrip(y);
      DatePieces(NatToString(y), Pad2(m), Pad2(d));
      r
    else r
  }

  /** Where the year, month and day sit in `Y-MM-DD`. */
  lemma DatePieces(ys: string, pm: string, pd: string)
    requires |ys| == 4 && |pm| == 2 && |pd| == 2
    ensures var r := ys + "-" + pm + "-" + pd;
      |r| == 10 && r[4] == '-' && r[7] == '-' && r[..4] == ys && r[5..7] == pm && r[8..] == pd
  {
    var withMonth := ys + "-" + pm;
    assert withMonth[..4] == ys && withMonth[4] == '-' && withMonth[5..7] == pm;
    var r := withMonth + "-" + pd;
    assert r[..7] == withMonth;
  }

  /** What picking a time does to the form. */
  datatype TimeChoice =
    | Dismissed
    | Accepted(startMs: int)
    | Rejected(title: string, message: string)

  /**
   * `onChangeTime`: `candidateMs` is today's date at the picked hour and
   * minute. A time before now means tomorrow; the result must lie strictly
   * in the future and at most 36 hours ahead.
   */
  function OnChangeTime(picked: Option<int>, now: int): (r: TimeChoice)
    ensures picked.None? <==> r.Dismissed?
    ensures r.Accepted? ==> now < r.startMs <= now + HorizonMs
    ensures r.Accepted? && picked.value >= now ==> r.startMs == picked.value
    ensures r.Accepted? && picked.value < now ==> r.startMs == picked.value + DayMs
    ensures picked.Some? ==>
      var sel := if picked.value < now then picked.value + DayMs else picked.value;
      (r.Rejected? <==> sel <= now || sel > now + HorizonMs)
    ensures picked.Some? ==>
      var sel := if picked.value < now then picked.value + DayMs else picked.value;
      sel <= now ==> r == Rejected("Geçersiz saat", "Gelecek bir zaman seçin.")
    ensures picked.Some? ==>
      var sel := if picked.value < now then picked.value + DayMs else picked.value;
      now < sel && sel > now + HorizonMs ==> r == Rejected("Süre sınırı", "36 saati geçemezsiniz.")
  {
    match picked
    case None => Dismissed
    case Some(candidateTs) =>
      var selTs := if candidateTs < now then candidateTs + DayMs else candidateTs;
      var diff := selTs - now;
      if diff <= 0 then Rejected("Geçersiz saat", "Gelecek bir zaman seçin.")
      else if diff > HorizonMs then Rejected("Süre sınırı", "36 saati geçemezsiniz.")
      else Accepted(selTs)
  }

  /**
   * For a time picked on today's date, i.e. within a day of now, the horizon
   * never triggers: the only rejected choice is exactly now.
   */
  lemma OnChangeTimeWithinADay(candidateMs: int, now: int)
    requires now - DayMs < candidateMs < now + DayMs
    ensures OnChangeTime(Some(candidateMs), now).Rejected? <==> candidateMs == now
    ensures OnChangeTime(Some(candidateMs), now) != Rejected("Süre sınırı", "36 saati geçemezsiniz.")
  {
  }

  /** The analysis window `[s, s + duration hours)`. */
  function WindowEnd(s: int, duration: int): int {
    s + duration * HourMs
  }

  /** Which of the three queries answered. */
  datatype ApiDataStatus = ApiDataStatus(roomReservations: bool, pendingTimeSlot: bool, roomPending: bool)

  function WorkingApis(s: ApiDataStatus): (n: nat)
    ensures n <= 3
    ensures n == 0 <==> !s.roomReservations && !s.pendingTimeSlot && !s.roomPending
    ensures n == 3 <==> s.roomReservations && s.pendingTimeSlot && s.roomPending
  {
    (if s.roomReservations then 1 else 0) + (if s.pendingTimeSlot then 1 else 0) + (if s.roomPending then 1 else 0)
  }

  /** The conflicts estimated by hour of day when no query answered. */
  function EstimatedConflicts(hour: int): (c: int)
    ensures 9 <= hour <= 17 ==> c == 140
    ensures 18 <= hour <= 22 ==> c == 100
    ensures !(9 <= hour <= 22) ==> c == 40
  {
    if 9 <= hour <= 17 then 140 else if 18 <= hour <= 22 then 100 else 40
  }

  /**
   * The conflicts of the window: the room's overlapping reservations plus the
   * two pending lists whose queries answered; the estimate when none did.
   */
  function TotalConflicts(s: int, e: int, hour: int, timeSlot: Option<seq<Reservation>>,
                          roomPending: Option<seq<Reservation>>, roomRes: Option<seq<Reservation>>): (c: int)
    ensures c >= 0
    ensures timeSlot.None? && roomPending.None? && roomRes.None? ==> c == EstimatedConflicts(hour)
    ensures !(timeSlot.None? && roomPending.None? && roomRes.None?) ==>
      c == |OverlappingWindow(roomRes.GetOr([]), s, e)| + |timeSlot.GetOr([])| + |roomPending.GetOr([])|
  {
    if timeSlot.None? && roomPending.None? && roomRes.None? then EstimatedConflicts(hour)
    else |OverlappingWindow(roomRes.GetOr([]), s, e)| + |timeSlot.GetOr([])| + |roomPending.GetOr([])|
  }

  /** A confirmed conflict is a reservation of the room overlapping the window, and none is missed. */
  lemma ConfirmedConflictsAreOverlaps(all: seq<Reservation>, s: int, e: int)
    ensures forall i :: 0 <= i < |OverlappingWindow(all, s, e)| ==>
      OverlappingWindow(all, s, e)[i] in all
      && Overlaps(OverlappingWindow(all, s, e)[i].startMs, OverlappingWindow(all, s, e)[i].endMs, s, e)
    ensures forall i :: 0 <= i < |all| && Overlaps(all[i].startMs, all[i].endMs, s, e) ==> all[i] in OverlappingWindow(all, s, e)
  {
  }

  /** The recommendation lines, in the order they can appear. */
  datatype Recommendation =
    | EstimatedData | PartialData
    | VeryBusy | ModeratelyBusy | Ideal
    | StudyHours | Evening | NightMorning
    | MaxDurationSelected

  function RecommendationText(r: Recommendation): string {
    match r
    case EstimatedData => "📊 Tahmini doluluk gösteriliyor - gerçek zamanlı veriler mevcut değil."
    case PartialData => "📊 Kısmi veri ile doluluk hesaplanıyor."
    case VeryBusy => "🔴 Çok yoğun bir zaman dilimi. Alternatif saatleri düşünün."
    case ModeratelyBusy => "🟡 Orta yoğunlukta. Erken rezervasyon yapmanız önerilir."
    case Ideal => "🟢 İdeal zaman dilimi! Bol yer mevcut."
    case StudyHours => "📚 Çalışma saatleri - Sessiz ortam beklenen zaman."
    case Evening => "🌆 Akşam saatleri - Popüler zaman dilimi."
    case NightMorning => "🌙 Gece/Sabah saatleri - Sakin ortam."
    case MaxDurationSelected => "⏰ Maksimum süre seçildi. Molalarınızı planlamayı unutmayın."
  }

  predicate IsDataQuality(r: Recommendation) { r.EstimatedData? || r.PartialData? }
  predicate IsOccupancyLine(r: Recommendation) { r.VeryBusy? || r.ModeratelyBusy? || r.Ideal? }
  predicate IsTimeOfDay(r: Recommendation) { r.StudyHours? || r.Evening? || r.NightMorning? }

  /** The time-of-day line for the start hour. */
  function TimeOfDayLine(hour: int): (r: Recommendation)
    ensures IsTimeOfDay(r)
    ensures r.StudyHours? <==> 9 <= hour <= 17
    ensures r.Evening? <==> 18 <= hour <= 22
  {
    if 9 <= hour <= 17 then StudyHours else if 18 <= hour <= 22 then Evening else NightMorning
  }

  /**
   * Reference definition of the recommendation list, block by block. Its
   * shape: a data-quality line first exactly when fewer than three queries
   * answered; an occupancy line exactly outside 30 to 60 percent; exactly one
   * time-of-day line; the maximum-duration line last exactly for a three-hour
   * window.
   */
  function Recommendations(working: nat, occupancy: int, hour: int, duration: int): (recs: seq<Recommendation>)
    ensures 1 <= |recs| <= 4
    ensures IsDataQuality(recs[0]) <==> working < 3
    ensures (exists i :: 0 <= i < |recs| && IsOccupancyLine(recs[i])) <==> !(30 <= occupancy <= 60)
    ensures exists i :: 0 <= i < |recs| && IsTimeOfDay(recs[i])
                        && forall j :: 0 <= j < |recs| && j != i ==> !IsTimeOfDay(recs[j])
    ensures recs[|recs| - 1] == MaxDurationSelected <==> duration == MaxDuration
    ensures EstimatedData in recs <==> working == 0
    ensures PartialData in recs <==> 0 < working < 3
    ensures VeryBusy in recs <==> occupancy > 80
    ensures ModeratelyBusy in recs <==> 60 < occupancy <= 80
    ensures Ideal in recs <==> occupancy < 30
    ensures StudyHours in recs <==> 9 <= hour <= 17
    ensures Evening in recs <==> 18 <= hour <= 22
    ensures NightMorning in recs <==> !(9 <= hour <= 22)
    ensures MaxDurationSelected in recs <==> duration == MaxDuration
  {
    BlocksShape(working, occupancy, hour, duration);
    BlocksMembers(working, occupancy, hour, duration);
    DataQualityLines(working) + OccupancyLines(occupancy) + [TimeOfDayLine(hour)] + DurationLines(duration)
  }

  function DataQualityLines(working: nat): seq<Recommendation> {
    if working == 0 then [EstimatedData] else if working < 3 then [PartialData] else []
  }

  function OccupancyLines(occupancy: int): seq<Recommendation> {
    if occupancy > 80 then [VeryBusy] else if occupancy > 60 then [ModeratelyBusy]
    else if occupancy < 30 then [Ideal] else []
  }

  function DurationLines(duration: int): seq<Recommendation> {
    if duration == MaxDuration then [MaxDurationSelected] else []
  }

  /** The shape of the four blocks put together. */
  lemma BlocksShape(working: nat, occupancy: int, hour: int, duration: int)
    ensures var recs := DataQualityLines(working) + OccupancyLines(occupancy) + [TimeOfDayLine(hour)] + DurationLines(duration);
      && 1 <= |recs| <= 4
      && (IsDataQuality(recs[0]) <==> working < 3)
      && ((exists i :: 0 <= i < |recs| && IsOccupancyLine(recs[i])) <==> !(30 <= occupancy <= 60))
      && (exists i :: 0 <= i < |recs| && IsTimeOfDay(recs[i])
                      && forall j :: 0 <= j < |recs| && j != i ==> !IsTimeOfDay(recs[j]))
      && (recs[|recs| - 1] == MaxDurationSelected <==> duration == MaxDuration)
  {
    var a := DataQualityLines(working);
    var b := OccupancyLines(occupancy);
    var d := DurationLines(duration);
    var recs := a + b + [TimeOfDayLine(hour)] + d;
    var i := |a| + |b|;
    assert IsTimeOfDay(recs[i]);
    assert forall j :: 0 <= j < |recs| && j != i ==> !IsTimeOfDay(recs[j]) by {
      forall j | 0 <= j < |recs| && j != i ensures !IsTimeOfDay(recs[j]) {
        if j < |a| { assert recs[j] == a[j]; }
        else if j < i { assert recs[j] == b[j - |a|]; }
        else { assert recs[j] == d[j - i - 1]; }
      }
    }
    if 30 <= occupancy <= 60 {
      assert b == [];
      forall k | 0 <= k < |recs| ensures !IsOccupancyLine(recs[k]) {
        if k < |a| { assert recs[k] == a[k]; }
        else if k > i { assert recs[k] == d[k - i - 1]; }
      }
    } else {
      assert IsOccupancyLine(recs[|a|]);
    }
  }

  /** Which line each block contributes, by the range it is chosen for. */
  lemma BlocksMembers(working: nat, occupancy: int, hour: int, duration: int)
    ensures var recs := DataQualityLines(working) + OccupancyLines(occupancy) + [TimeOfDayLine(hour)] + DurationLines(duration);
      && (EstimatedData in recs <==> working == 0)
      && (PartialData in recs <==> 0 < working < 3)
      && (VeryBusy in recs <==> occupancy > 80)
      && (ModeratelyBusy in recs <==> 60 < occupancy <= 80)
      && (Ideal in recs <==> occupancy < 30)
      && (StudyHours in recs <==> 9 <= hour <= 17)
      && (Evening in recs <==> 18 <= hour <= 22)
      && (NightMorning in recs <==> !(9 <= hour <= 22))
      && (MaxDurationSelected in recs <==> duration == MaxDuration)
  {
    DataQualityMembers(working);
    OccupancyMembers(occupancy);
    DurationMembers(duration);
    MembersOfBlocks(DataQualityLines(working), OccupancyLines(occupancy), [TimeOfDayLine(hour)], DurationLines(duration),
                    working, occupancy, hour, duration);
  }

  /** The line memberships of four blocks, each characterized by its own range, put together. */
  lemma MembersOfBlocks(a: seq<Recommendation>, b: seq<Recommendation>, t: seq<Recommendation>, d: seq<Recommendation>,
                        working: nat, occupancy: int, hour: int, duration: int)
    requires forall x :: x in a <==> (x == EstimatedData && working == 0) || (x == PartialData && 0 < working < 3)
    requires forall x :: x in b <==>
      (x == VeryBusy && occupancy > 80) || (x == ModeratelyBusy && 60 < occupancy <= 80) || (x == Ideal && occupancy < 30)
    requires t == [TimeOfDayLine(hour)]
    requires forall x :: x in d <==> x == MaxDurationSelected && duration == MaxDuration
    ensures var recs := a + b + t + d;
      && (EstimatedData in recs <==> working == 0)
      && (PartialData in recs <==> 0 < working < 3)
      && (VeryBusy in recs <==> occupancy > 80)
      && (ModeratelyBusy in recs <==> 60 < occupancy <= 80)
      && (Ideal in recs <==> occupancy < 30)
      && (StudyHours in recs <==> 9 <= hour <= 17)
      && (Evening in recs <==> 18 <= hour <= 22)
      && (NightMorning in recs <==> !(9 <= hour <= 22))
      && (MaxDurationSelected in recs <==> duration == MaxDuration)
  {
    InConcat(a, b, t, d);
  }

  /** The duration block holds the duration line exactly for the longest window. */
  lemma DurationMembers(duration: int)
    ensures forall x :: x in DurationLines(duration) <==> x == MaxDurationSelected && duration == MaxDuration
  {
  }

  /** Membership in four blocks put together. */
  lemma InConcat(a: seq<Recommendation>, b: seq<Recommendation>, t: seq<Recommendation>, d: seq<Recommendation>)
    ensures forall x :: x in a + b + t + d <==> x in a || x in b || x in t || x in d
  {
  }

  /** The data-quality block holds the estimated line with no answer, the partial line with one or two. */
  lemma DataQualityMembers(working: nat)
    ensures forall x :: x in DataQualityLines(working) <==>
      (x == EstimatedData && working == 0) || (x == PartialData && 0 < working < 3)
  {
  }

  /** The occupancy block holds the line for the band the percentage falls in, if any. */
  lemma OccupancyMembers(occupancy: int)
    ensures forall x :: x in OccupancyLines(occupancy) <==>
      (x == VeryBusy && occupancy > 80) || (x == ModeratelyBusy && 60 < occupancy <= 80) || (x == Ideal && occupancy < 30)
  {
  }

  /**
   * The texts the screen lists: the text of each recommendation, in order.
   * Which line appears for which input is stated on `Recommendations`.
   */
  function RecommendationLines(working: nat, occupancy: int, hour: int, duration: int): (lines: seq<string>)
    ensures var recs := Recommendations(working, occupancy, hour, duration);
      |lines| == |recs| && forall i :: 0 <= i < |lines| ==> lines[i] == RecommendationText(recs[i])
  {
    var recs := Recommendations(working, occupancy, hour, duration);
    seq(|recs|, i requires 0 <= i < |recs| => RecommendationText(recs[i]))
  }

  /** What one analysis shows. */
  datatype Analysis = Analysis(
    apiStatus: ApiDataStatus, conflictCount: int, availableSeats: int,
    occupancy: int, hasConflicts: bool, recs: seq<Recommendation>)

  /**
   * `analyzeReservation` for the window starting at `s` (local hour `hour`):
   * None when an analysis is already running.
   */
  method AnalyzeReservation(loading: bool, s: int, duration: int, hour: int,
                            timeSlot: Option<seq<Reservation>>, roomPending: Option<seq<Reservation>>,
                            roomRes: Option<seq<Reservation>>)
    returns (r: Option<Analysis>)
    ensures loading <==> r.None?
    ensures r.Some? ==>
      var a := r.value;
      var c := TotalConflicts(s, WindowEnd(s, duration), hour, timeSlot, roomPending, roomRes);
      && a.apiStatus == ApiDataStatus(roomRes.Some?, timeSlot.Some?, roomPending.Some?)
      && a.conflictCount == c
      && a.availableSeats == (if TotalSeats - c > 0 then TotalSeats - c else 0)
      && a.occupancy == OccupancyPercent(c)
      && (a.hasConflicts <==> c > 0)
      && a.recs == Recommendations(WorkingApis(a.apiStatus), a.occupancy, hour, duration)
  {
    if loading {
      return None;
    }
    var e := WindowEnd(s, duration);
    var newApiStatus, totalConflicts := CountConflicts(s, e, hour, timeSlot, roomPending, roomRes);
    var availableSeats := if TotalSeats - totalConflicts > 0 then TotalSeats - totalConflicts else 0;
    var occupancyPercent := OccupancyPercent(totalConflicts);
    var recs := BuildRecommendations(WorkingApis(newApiStatus), occupancyPercent, hour, duration);
    r := Some(Analysis(newApiStatus, totalConflicts, availableSeats, occupancyPercent, totalConflicts > 0, recs));
  }

  /** The part of `analyzeReservation` that records which queries answered and accumulates the conflicts. */
  method CountConflicts(s: int, e: int, hour: int, timeSlot: Option<seq<Reservation>>,
                        roomPending: Option<seq<Reservation>>, roomRes: Option<seq<Reservation>>)
    returns (newApiStatus: ApiDataStatus, totalConflicts: int)
    ensures newApiStatus == ApiDataStatus(roomRes.Some?, timeSlot.Some?, roomPending.Some?)
    ensures totalConflicts == TotalConflicts(s, e, hour, timeSlot, roomPending, roomRes)
  {
    var pendingReservations: seq<Reservation> := [];
    var roomPendingList: seq<Reservation> := [];
    var allRoomReservations: seq<Reservation> := [];
    newApiStatus := ApiDataStatus(false, false, false);
    if timeSlot.Some? {
      pendingReservations := timeSlot.value;
      newApiStatus := newApiStatus.(pendingTimeSlot := true);
    }
    if roomPending.Some? {
      roomPendingList := roomPending.value;
      newApiStatus := newApiStatus.(roomPending := true);
    }
    if roomRes.Some? {
      allRoomReservations := roomRes.value;
      newApiStatus := newApiStatus.(roomReservations := true);
    }
    var overlapping := OverlappingWindow(allRoomReservations, s, e);
    totalConflicts := |overlapping|;
    if newApiStatus.pendingTimeSlot {
      totalConflicts := totalConflicts + |pendingReservations|;
    }
    if newApiStatus.roomPending {
      totalConflicts := totalConflicts + |roomPendingList|;
    }
    if !newApiStatus.roomReservations && !newApiStatus.pendingTimeSlot && !newApiStatus.roomPending {
      if 9 <= hour <= 17 {
        totalConflicts := 140;
      } else if 18 <= hour <= 22 {
        totalConflicts := 100;
      } else {
        totalConflicts := 40;
      }
    }
  }

  /** The `recs.push` sequence of `analyzeReservation`. */
  method BuildRecommendations(workingApis: nat, occupancyPercent: int, hour: int, duration: int)
    returns (recs: seq<Recommendation>)
    ensures recs == Recommendations(workingApis, occupancyPercent, hour, duration)
  {
    recs := [];
    if workingApis == 0 {
      recs := recs + [EstimatedData];
    } else if workingApis < 3 {
      recs := recs + [PartialData];
    }
    assert recs == DataQualityLines(workingApis);
    ghost var before := recs;
    if occupancyPercent > 80 {
      recs := recs + [VeryBusy];
    } else if occupancyPercent > 60 {
      recs := recs + [ModeratelyBusy];
    } else if occupancyPercent < 30 {
      recs := recs + [Ideal];
    }
    assert recs == before + OccupancyLines(occupancyPercent);
    before := recs;
    if 9 <= hour <= 17 {
      recs := recs + [StudyHours];
    } else if 18 <= hour <= 22 {
      recs := recs + [Evening];
    } else {
      recs := recs + [NightMorning];
    }
    assert recs == before + [TimeOfDayLine(hour)];
    before := recs;
    if duration == MaxDuration {
      recs := recs + [MaxDurationSelected];
    }
    assert recs == before + DurationLines(duration);
  }

  /** Seats and percentage stay in range, and with at most 200 conflicts the seats are what is left of 200. */
  lemma AnalysisBounds(c: int)
    requires c >= 0
    ensures var available := if TotalSeats - c > 0 then TotalSeats - c else 0;
      0 <= available <= TotalSeats
      && 0 <= OccupancyPercent(c) <= 100
      && (c <= TotalSeats ==> available + c == TotalSeats)
      && (available == 0 ==> OccupancyPercent(c) == 100)
  {
  }

  /** `onNext` asks for confirmation exactly when fewer than 10 seats seem free. */
  function NeedsConfirmation(availableSeats: int): (r: bool)
    ensures r <==> availableSeats < 10
  {
    availableSeats < 10
  }

  /** The hours `suggestAlternativeTime` tries, in order: two and one hour earlier, one and two hours later. */
  function CandidateHours(currentHour: int): seq<int> {
    [currentHour - 2, currentHour - 1, currentHour + 1, currentHour + 2]
  }

  predicate InOpeningHours(h: int) { 6 <= h <= 23 }

  /** Reference definition: the candidate hours that fall between 6 and 23, in order. */
  function Alternatives(currentHour: int): seq<int> {
    Filter(CandidateHours(currentHour), InOpeningHours)
  }

  /** `suggestAlternativeTime`'s loop over the offsets. */
  method SuggestAlternatives(currentHour: int) returns (alternatives: seq<int>)
    ensures alternatives == Alternatives(currentHour)
  {
    var hours := CandidateHours(currentHour);
    alternatives := [];
    var k := 0;
    while k < 4
      invariant 0 <= k <= 4
      invariant alternatives == Filter(hours[..k], InOpeningHours)
    {
      var newHour := hours[k];
      assert hours[..k + 1] == hours[..k] + [newHour];
      FilterAppend(hours[..k], [newHour], InOpeningHours);
      if 6 <= newHour <= 23 {
        alternatives := alternatives + [newHour];
      }
      k := k + 1;
    }
    assert hours[..k] == hours;
  }

  /**
   * The alternatives are the nearby hours (never the current one) that fall
   * between 6 and 23, each candidate in range is offered, in increasing order.
   */
  lemma AlternativesSpec(currentHour: int)
    ensures var alt := Alternatives(currentHour);
      && (forall i :: 0 <= i < |alt| ==>
            6 <= alt[i] <= 23 && alt[i] != currentHour && currentHour - 2 <= alt[i] <= currentHour + 2)
      && (forall h :: h in CandidateHours(currentHour) && 6 <= h <= 23 ==> h in alt)
      && (forall i, j :: 0 <= i < j < |alt| ==> alt[i] < alt[j])
  {
    var c := CandidateHours(currentHour);
    assert c[1..][1..][1..][1..] == [];
    FilterSorted(c);
  }

  /** Filtering an increasing list keeps it increasing. */
  lemma {:induction false} FilterSorted(s: seq<int>)
    requires forall i, j :: 0 <= i < j < |s| ==> s[i] < s[j]
    ensures forall i, j :: 0 <= i < j < |Filter(s, InOpeningHours)| ==> Filter(s, InOpeningHours)[i] < Filter(s, InOpeningHours)[j]
  {
    if s != [] {
      FilterSorted(s[1..]);
      var rest := Filter(s[1..], InOpeningHours);
      assert forall i :: 0 <= i < |rest| ==> rest[i] in s[1..] && s[0] < rest[i];
    }
  }

  /** `getStatusIcon`: green for two or more working queries, yellow for one, a chart otherwise. */
  function StatusIcon(s: ApiDataStatus): (r: string)
    ensures r == "🟢" <==> WorkingApis(s) >= 2
    ensures r == "🟡" <==> WorkingApis(s) == 1
    ensures r == "📊" <==> WorkingApis(s) == 0
  {
    var workingApis := WorkingApis(s);
    if workingApis >= 2 then "🟢" else if workingApis == 1 then "🟡" else "📊"
  }

  /**
   * With the two pending lists taken from `fetchPendingReservationsForTimeSlot`
   * and `fetchRoomPendingReservations`, at least two queries count as working
   * and the icon is green, unless one of those endpoints answered with a body
   * that does not parse; the hourly estimate is then never used.
   */
  lemma PendingQueriesCountAsWorking(timeSlotEndpoint: EndpointOutcome, activeList: Option<seq<Reservation>>,
                                     roomEndpoint: EndpointOutcome, roomList: Option<seq<Reservation>>,
                                     roomRes: Option<seq<Reservation>>, s: int, e: int, hour: int)
    requires !timeSlotEndpoint.Unparsable? && !roomEndpoint.Unparsable?
    ensures var st := ApiDataStatus(roomRes.Some?, TimeSlotPendingSettled(timeSlotEndpoint, activeList, s, e).Some?,
                                    RoomPendingSettled(roomEndpoint, roomList, s, e).Some?);
      WorkingApis(st) >= 2 && StatusIcon(st) == "🟢"
    ensures TotalConflicts(s, e, hour, TimeSlotPendingSettled(timeSlotEndpoint, activeList, s, e),
                           RoomPendingSettled(roomEndpoint, roomList, s, e), roomRes)
            == |OverlappingWindow(roomRes.GetOr([]), s, e)|
               + |TimeSlotPendingSettled(timeSlotEndpoint, activeList, s, e).value|
               + |RoomPendingSettled(roomEndpoint, roomList, s, e).value|
  {
  }

  /** When every request fails, the window reads as free of conflicts under the green icon. */
  lemma TotalOutageReadsNoConflicts(s: int, e: int, hour: int)
    ensures TotalConflicts(s, e, hour, TimeSlotPendingSettled(Unavailable, None, s, e),
                           RoomPendingSettled(Unavailable, None, s, e), None) == 0
    ensures StatusIcon(ApiDataStatus(false, true, true)) == "🟢"
  {
    TotalOutageSettlesEmpty(s, e);
    FilterNone([], (r: Reservation) => Overlaps(r.startMs, r.endMs, s, e));
  }
}
